/** The task record (`api.task`): its status machine, the overdue flag and
    the search domain that stands in for it, the days left until the due
    date, the range constraints, the create hook that defaults the due date,
    the write hook that forces progress, and the four status actions. The
    store of tasks is a class over a map from id to record. */
module TaskModel {
  import opened Common
  import opened Text
  import opened Fields

  datatype TaskStatus = Todo | InProgress | Review | Done | Cancelled

  function TaskStatusName(s: TaskStatus): (name: string)
    ensures ParseTaskStatus(name) == Some(s)
  {
    match s
    case Todo => "todo"
    case InProgress => "in_progress"
    case Review => "review"
    case Done => "done"
    case Cancelled => "cancelled"
  }

  /** The selection's keys; any other text is not a status. */
  function ParseTaskStatus(name: string): Option<TaskStatus>
  {
    if name == "todo" then Some(Todo)
    else if name == "in_progress" then Some(InProgress)
    else if name == "review" then Some(Review)
    else if name == "done" then Some(Done)
    else if name == "cancelled" then Some(Cancelled)
    else None
  }

  /** The priority selection, stored under the keys "0" to "3". */
  datatype Priority = Low | Normal | High | Urgent

  function PriorityKey(p: Priority): (key: string)
    ensures ParsePriority(key) == Some(p)
  {
    match p
    case Low => "0"
    case Normal => "1"
    case High => "2"
    case Urgent => "3"
  }

  function ParsePriority(key: string): Option<Priority>
  {
    if key == "0" then Some(Low)
    else if key == "1" then Some(Normal)
    else if key == "2" then Some(High)
    else if key == "3" then Some(Urgent)
    else None
  }

  /** A stored task. Users are ids, the due date is a day number, the
      completion date a second number; hours are whole numbers. */
  datatype Task = Task(
    name: string,
    description: string,
    assignedTo: Option<int>,
    createdBy: Option<int>,
    projectName: string,
    status: TaskStatus,
    priority: Option<Priority>,
    dueDate: Option<int>,
    completedDate: Option<int>,
    estimatedHours: int,
    actualHours: int,
    progress: int)

  // ================================================================ derived fields

  /** Finished tasks are never overdue. */
  predicate Closed(s: TaskStatus) { s == Done || s == Cancelled }

  /** `_compute_is_overdue`. */
  predicate IsOverdue(t: Task, today: int)
  {
    t.dueDate.Some? && t.dueDate.value < today && !Closed(t.status)
  }

  /** `_compute_days_until_due`: days from today to the due date, 0 without
      one. */
  function DaysUntilDue(t: Task, today: int): (days: int)
    ensures t.dueDate.None? ==> days == 0
    ensures t.dueDate.Some? ==> today + days == t.dueDate.value
  {
    match t.dueDate
    case Some(d) => d - today
    case None => 0
  }

  /** A task with a due date that is not finished is overdue exactly when
      the days left are negative. */
  lemma OverdueIffPastDue(t: Task, today: int)
    requires t.dueDate.Some? && !Closed(t.status)
    ensures IsOverdue(t, today) <==> DaysUntilDue(t, today) < 0
  {
  }

  // ================================================================ the overdue search domain

  /** The leaves of the domains `_search_is_overdue` returns, evaluated as
      SQL does: a comparison with an unset date is false, `= False` holds
      exactly for an unset date. */
  datatype Leaf =
    | DueBefore(day: int)
    | DueFrom(day: int)
    | DueUnset
    | StatusIn(statuses: set<TaskStatus>)
    | StatusNotIn(statuses: set<TaskStatus>)

  /** A domain: a leaf, an implicit conjunction, or a `'|'` disjunction. */
  datatype Domain = Match(leaf: Leaf) | AndD(left: Domain, right: Domain) | OrD(left: Domain, right: Domain)

  predicate LeafHolds(l: Leaf, t: Task)
  {
    match l
    case DueBefore(d) => t.dueDate.Some? && t.dueDate.value < d
    case DueFrom(d) => t.dueDate.Some? && t.dueDate.value >= d
    case DueUnset => t.dueDate.None?
    case StatusIn(ss) => t.status in ss
    case StatusNotIn(ss) => t.status !in ss
  }

  predicate Holds(d: Domain, t: Task)
  {
    match d
    case Match(l) => LeafHolds(l, t)
    case AndD(a, b) => Holds(a, t) && Holds(b, t)
    case OrD(a, b) => Holds(a, t) || Holds(b, t)
  }

  const CLOSED: set<TaskStatus> := {Done, Cancelled}

  /** Which tasks a search on `is_overdue <operator> value` asks for: the
      overdue ones for `= True` and `!= False`, the others for anything
      else. */
  predicate WantsOverdue(operator: string, value: bool)
  {
    (operator == "=" && value) || (operator == "!=" && !value)
  }

  /** `_search_is_overdue`: `[due < today, status not in closed]`, or
      `['|', '|', due >= today, due = False, status in closed]`. */
  function OverdueDomain(operator: string, value: bool, today: int): Domain
  {
    if WantsOverdue(operator, value) then
      AndD(Match(DueBefore(today)), Match(StatusNotIn(CLOSED)))
    else
      OrD(OrD(Match(DueFrom(today)), Match(DueUnset)), Match(StatusIn(CLOSED)))
  }

  /** The search domain agrees with the computed flag: it selects exactly
      the overdue tasks when overdue ones are asked for, and exactly the
      others otherwise. */
  lemma OverdueDomainAgrees(operator: string, value: bool, today: int, t: Task)
    ensures Holds(OverdueDomain(operator, value, today), t) <==>
      (IsOverdue(t, today) <==> WantsOverdue(operator, value))
  {
    assert t.status in CLOSED <==> Closed(t.status);
    if !WantsOverdue(operator, value) {
      var inner := OrD(Match(DueFrom(today)), Match(DueUnset));
      assert Holds(inner, t) <==> t.dueDate.None? || t.dueDate.value >= today;
    }
  }

  // ================================================================ constraints

  const PROGRESS_RANGE := "Progress must be between 0 and 100"
  const NEGATIVE_HOURS := "Hours cannot be negative"

  /** `_check_progress`. */
  function ProgressError(t: Task): (e: Option<string>)
    ensures e.None? <==> 0 <= t.progress <= 100
    ensures e.Some? ==> e.value == PROGRESS_RANGE
  {
    if t.progress < 0 || t.progress > 100 then Some(PROGRESS_RANGE) else None
  }

  /** `_check_hours`. */
  function HoursError(t: Task): (e: Option<string>)
    ensures e.None? <==> t.estimatedHours >= 0 && t.actualHours >= 0
    ensures e.Some? ==> e.value == NEGATIVE_HOURS
  {
    if t.estimatedHours < 0 || t.actualHours < 0 then Some(NEGATIVE_HOURS) else None
  }

  /** What every stored task satisfies: no negative hours, progress within
      [0, 100]. */
  predicate Sound(t: Task)
  {
    HoursError(t).None? && ProgressError(t).None?
  }

  /** A task marked done with the completion stamped. */
  predicate Completed(t: Task)
  {
    t.status == Done ==> t.completedDate.Some? && t.progress == 100
  }

  // ================================================================ vals, create and write

  /** A typed `vals` dictionary for the task model. */
  datatype TaskVals = TaskVals(
    name: Update<string>,
    description: Update<string>,
    assignedTo: Update<Option<int>>,
    createdBy: Update<Option<int>>,
    projectName: Update<string>,
    status: Update<TaskStatus>,
    priority: Update<Option<Priority>>,
    dueDate: Update<Option<int>>,
    completedDate: Update<Option<int>>,
    estimatedHours: Update<int>,
    actualHours: Update<int>,
    progress: Update<int>)

  const NO_VALS := TaskVals(Keep, Keep, Keep, Keep, Keep, Keep, Keep, Keep, Keep, Keep, Keep, Keep)

  const TASK_FIELDS: set<string> := {"name", "description", "assigned_to", "created_by", "project_name",
                                    "status", "priority", "due_date", "completed_date",
                                    "estimated_hours", "actual_hours", "progress"}

  /** The status is a required selection: a falsy value leaves it unset,
      which raises. */
  function AsTaskStatus(key: string, v: Value): Result<TaskStatus>
  {
    if v.Str? && ParseTaskStatus(v.s).Some? then Ok(ParseTaskStatus(v.s).value)
    else if !Truthy(v) then Err(MissingValue(key))
    else Err(WrongValue(key))
  }

  function AsPriority(key: string, v: Value): Result<Option<Priority>>
  {
    if v.Str? && ParsePriority(v.s).Some? then Ok(ParsePriority(v.s))
    else if !Truthy(v) then Ok(None)
    else Err(WrongValue(key))
  }

  /** A user reference: an id, or unset. */
  function AsUser(key: string, v: Value): Result<Option<int>>
  {
    if v.Int? && v.i != 0 then Ok(Some(v.i))
    else if !Truthy(v) then Ok(None)
    else Err(WrongValue(key))
  }

  /** The ORM reading a `vals` dictionary: an unknown key raises, each
      value is converted to its field's type (which raises only for a value
      that cannot be converted), and every key present becomes a `Put`. */
  function DecodeVals(vals: map<string, Value>): (r: Result<TaskVals>)
    ensures r.Ok? ==> vals.Keys <= TASK_FIELDS
    ensures r.Ok? ==> var tv := r.value;
      && (tv.name.Put? <==> "name" in vals) && (tv.description.Put? <==> "description" in vals)
      && (tv.assignedTo.Put? <==> "assigned_to" in vals) && (tv.createdBy.Put? <==> "created_by" in vals)
      && (tv.projectName.Put? <==> "project_name" in vals) && (tv.status.Put? <==> "status" in vals)
      && (tv.priority.Put? <==> "priority" in vals) && (tv.dueDate.Put? <==> "due_date" in vals)
      && (tv.completedDate.Put? <==> "completed_date" in vals)
      && (tv.estimatedHours.Put? <==> "estimated_hours" in vals)
      && (tv.actualHours.Put? <==> "actual_hours" in vals) && (tv.progress.Put? <==> "progress" in vals)
  {
    if !(vals.Keys <= TASK_FIELDS) then Err("Invalid field on model api.task")
    else
      var name :- Field(vals, "name", AsRequiredText);
      var description :- Field(vals, "description", AsText);
      var assignedTo :- Field(vals, "assigned_to", AsUser);
      var createdBy :- Field(vals, "created_by", AsUser);
      var projectName :- Field(vals, "project_name", AsText);
      var status :- Field(vals, "status", AsTaskStatus);
      var priority :- Field(vals, "priority", AsPriority);
      var dueDate :- Field(vals, "due_date", AsDate);
      var completedDate :- Field(vals, "completed_date", AsDate);
      var estimatedHours :- Field(vals, "estimated_hours", AsInt);
      var actualHours :- Field(vals, "actual_hours", AsInt);
      var progress :- Field(vals, "progress", AsInt);
      Ok(TaskVals(name, description, assignedTo, createdBy, projectName, status, priority,
                  dueDate, completedDate, estimatedHours, actualHours, progress))
  }

  /** The creator, status and priority a successful decoding reads from
      `vals`. */
  lemma DecodedStamps(vals: map<string, Value>)
    requires DecodeVals(vals).Ok?
    ensures "created_by" in vals ==> DecodeVals(vals).value.createdBy == Put(AsUser("created_by", vals["created_by"]).value)
    ensures "status" in vals ==> DecodeVals(vals).value.status == Put(AsTaskStatus("status", vals["status"]).value)
    ensures "priority" in vals ==> DecodeVals(vals).value.priority == Put(AsPriority("priority", vals["priority"]).value)
  {
    var name := Field(vals, "name", AsRequiredText);
    var description := Field(vals, "description", AsText);
    var assignedTo := Field(vals, "assigned_to", AsUser);
    var createdBy := Field(vals, "created_by", AsUser);
    var projectName := Field(vals, "project_name", AsText);
    var status := Field(vals, "status", AsTaskStatus);
    var priority := Field(vals, "priority", AsPriority);
    assert name.Ok? && description.Ok? && assignedTo.Ok? && createdBy.Ok? && projectName.Ok?;
    assert status.Ok? && priority.Ok?;
    var r := DecodeVals(vals).value;
    assert r.createdBy == createdBy.value && r.status == status.value && r.priority == priority.value;
  }

  const DEFAULT_DUE_DAYS := 7

  /** `create` override: without a (truthy) due date the task is due seven
      days from today. */
  function CreateHook(vals: TaskVals, today: int): (r: TaskVals)
    ensures vals.dueDate in {Keep, Put(None)} ==> r == vals.(dueDate := Put(Some(today + DEFAULT_DUE_DAYS)))
    ensures vals.dueDate !in {Keep, Put(None)} ==> r == vals
  {
    if vals.dueDate == Keep || vals.dueDate == Put(None) then vals.(dueDate := Put(Some(today + DEFAULT_DUE_DAYS)))
    else vals
  }

  /** `write` override: a status of done or todo written without a progress
      forces the progress to 100 (stamping the completion time) or to 0. */
  function WriteHook(vals: TaskVals, now: int): (r: TaskVals)
    ensures vals.progress.Put? ==> r == vals
    ensures vals.progress == Keep && vals.status == Put(Done) ==>
      r == vals.(progress := Put(100), completedDate := Put(Some(now)))
    ensures vals.progress == Keep && vals.status == Put(Todo) ==> r == vals.(progress := Put(0))
    ensures vals.status !in {Put(Done), Put(Todo)} ==> r == vals
  {
    if vals.status == Put(Done) && vals.progress == Keep then
      vals.(progress := Put(100), completedDate := Put(Some(now)))
    else if vals.status == Put(Todo) && vals.progress == Keep then
      vals.(progress := Put(0))
    else vals
  }

  /** The record after the ORM stores `vals`. */
  function Apply(t: Task, vals: TaskVals): Task
  {
    Task(vals.name.Or(t.name), vals.description.Or(t.description), vals.assignedTo.Or(t.assignedTo),
         vals.createdBy.Or(t.createdBy), vals.projectName.Or(t.projectName), vals.status.Or(t.status),
         vals.priority.Or(t.priority), vals.dueDate.Or(t.dueDate), vals.completedDate.Or(t.completedDate),
         vals.estimatedHours.Or(t.estimatedHours), vals.actualHours.Or(t.actualHours),
         vals.progress.Or(t.progress))
  }

  /** The constraints the ORM checks after storing `vals`, in the order of
      their method names: only those whose fields were written (all of them
      on create). `_check_due_date` never raises and is not listed. */
  function Check(t: Task, vals: TaskVals): Result<Task>
  {
    if (vals.estimatedHours.Put? || vals.actualHours.Put?) && HoursError(t).Some? then Err(HoursError(t).value)
    else if vals.progress.Put? && ProgressError(t).Some? then Err(ProgressError(t).value)
    else Ok(t)
  }

  /** The defaults of a new record: created by the acting user, todo, normal
      priority, no progress. */
  function Defaults(actor: int): Task
  {
    Task("", "", None, Some(actor), "", Todo, Some(Normal), None, None, 0, 0, 0)
  }

  /** `create(vals)`: the hook, the defaults for what `vals` leaves out, then
      every constraint. The name is required and has no default. */
  function NewTask(vals: TaskVals, actor: int, today: int): (r: Result<Task>)
    ensures r.Ok? ==> Sound(r.value)
    ensures r.Ok? ==> r.value.status == vals.status.Or(Todo) && r.value.createdBy == vals.createdBy.Or(Some(actor))
    ensures r.Ok? ==> r.value.dueDate == if vals.dueDate in {Keep, Put(None)} then Some(today + DEFAULT_DUE_DAYS) else vals.dueDate.value
    ensures r.Ok? <==> (vals.name.Put? && 0 <= vals.progress.Or(0) <= 100
      && vals.estimatedHours.Or(0) >= 0 && vals.actualHours.Or(0) >= 0)
  {
    if vals.name == Keep then Err(MissingValue("name"))
    else
      var hooked := CreateHook(vals, today);
      Check(Apply(Defaults(actor), hooked), hooked.(progress := Put(hooked.progress.Or(0)), estimatedHours := Put(hooked.estimatedHours.Or(0))))
  }

  /** The row `create(vals)` inserts. The ORM inserts it before the
      constraints run, and a handler that catches their ValidationError
      returns normally, so the request commits this row even when the
      create failed. The model's store keeps to `NewTask` instead. */
  function InsertedTask(vals: TaskVals, actor: int, today: int): (t: Task)
    requires vals.name.Put?
    ensures NewTask(vals, actor, today).Ok? ==> t == NewTask(vals, actor, today).value
    ensures NewTask(vals, actor, today).Err? <==> !Sound(t)
  {
    Apply(Defaults(actor), CreateHook(vals, today))
  }

  /** A task with negative estimated hours is refused, yet the row the ORM
      inserted for it, committed by the handler that caught the error,
      breaks the constraint. */
  lemma RejectedTaskCommitted(actor: int, today: int)
    ensures var vals := NO_VALS.(name := Put("x"), estimatedHours := Put(-1));
      && NewTask(vals, actor, today) == Err(NEGATIVE_HOURS)
      && !Sound(InsertedTask(vals, actor, today))
  {
  }

  /** The same for `write`: the ORM updates the row before validating it,
      so a refused write of progress 101 is committed all the same. */
  lemma RejectedWriteCommitted(t: Task, now: int)
    requires Sound(t)
    ensures var vals := NO_VALS.(progress := Put(101));
      && WriteTask(t, vals, now) == Err(PROGRESS_RANGE)
      && !Sound(Apply(t, WriteHook(vals, now)))
  {
  }

  /** A write that names neither the creator nor the completion date keeps
      the creator, and changes the completion date only to stamp a
      completion. */
  lemma WriteKeepsStamps(t: Task, vals: TaskVals, now: int)
    requires Sound(t) && vals.createdBy == Keep && vals.completedDate == Keep
    requires WriteTask(t, vals, now).Ok?
    ensures var u := WriteTask(t, vals, now).value;
      && u.createdBy == t.createdBy
      && (u.completedDate != t.completedDate ==> u.completedDate == Some(now) && u.status == Done)
  {
    var hooked := WriteHook(vals, now);
    assert hooked.createdBy == Keep;
    assert hooked.completedDate != Keep ==> hooked == vals.(progress := Put(100), completedDate := Put(Some(now)));
  }

  /** `write(vals)` on one stored task: the hook, the update, the constraints. */
  function WriteTask(t: Task, vals: TaskVals, now: int): (r: Result<Task>)
    requires Sound(t)
    ensures r.Ok? ==> Sound(r.value)
    ensures r.Ok? ==> r.value == Apply(t, WriteHook(vals, now))
    ensures r.Ok? && vals.progress.Put? ==> r.value.progress == vals.progress.value
    ensures r.Ok? && vals.progress == Keep && vals.status == Put(Done) ==>
      r.value.progress == 100 && r.value.completedDate == Some(now)
    ensures r.Ok? && vals.progress == Keep && vals.status == Put(Todo) ==> r.value.progress == 0
    ensures r.Err? <==> var u := Apply(t, WriteHook(vals, now));
      HoursError(u).Some? || ProgressError(u).Some?
  {
    var hooked := WriteHook(vals, now);
    Check(Apply(t, hooked), hooked)
  }

  // ================================================================ actions

  const START_VALS := NO_VALS.(status := Put(InProgress))
  const CANCEL_VALS := NO_VALS.(status := Put(Cancelled))
  const REOPEN_VALS := NO_VALS.(status := Put(Todo), completedDate := Put(None))

  function CompleteVals(now: int): TaskVals
  {
    NO_VALS.(status := Put(Done), completedDate := Put(Some(now)), progress := Put(100))
  }

  /** `action_start` and `action_cancel` change the status and nothing
      else. */
  lemma StartAndCancel(t: Task, now: int)
    requires Sound(t)
    ensures WriteTask(t, START_VALS, now) == Ok(t.(status := InProgress))
    ensures WriteTask(t, CANCEL_VALS, now) == Ok(t.(status := Cancelled))
  {
  }

  /** `action_complete` leaves the task done, complete and stamped;
      `action_reopen` leaves it todo, unstamped and, through the write hook,
      with no progress. */
  lemma CompleteAndReopen(t: Task, now: int)
    requires Sound(t)
    ensures WriteTask(t, CompleteVals(now), now) == Ok(t.(status := Done, completedDate := Some(now), progress := 100))
    ensures WriteTask(t, REOPEN_VALS, now) == Ok(t.(status := Todo, completedDate := None, progress := 0))
    ensures Completed(WriteTask(t, CompleteVals(now), now).value)
    ensures !IsOverdue(WriteTask(t, CompleteVals(now), now).value, now)
  {
  }

  // ================================================================ the store

  class TaskStore {
    var tasks: map<int, Task>
    var nextId: int

    ghost predicate Valid()
      reads this
    {
      && nextId >= 1
      && (forall id :: id in tasks ==> 1 <= id < nextId)
      && (forall id :: id in tasks ==> Sound(tasks[id]))
    }

    constructor ()
      ensures Valid() && tasks == map[]
    {
      tasks := map[];
      nextId := 1;
    }

    /** The ids of the stored tasks, ascending. */
    function Ids(): (ids: seq<int>)
      reads this
      ensures forall k :: 0 <= k < |ids| ==> ids[k] in tasks
      ensures forall id :: id in tasks && 1 <= id < nextId ==> id in ids
      ensures Increasing(ids)
    {
      IdsIn(tasks, 1, nextId)
    }

    method Create(vals: TaskVals, actor: int, today: int) returns (r: Result<int>)
      requires Valid()
      modifies this
      ensures Valid()
      ensures r.Ok? <==> NewTask(vals, actor, today).Ok?
      ensures r.Ok? ==> r.value !in old(tasks) && tasks == old(tasks)[r.value := NewTask(vals, actor, today).value]
      ensures r.Err? ==> tasks == old(tasks) && r.error == NewTask(vals, actor, today).error
    {
      var created := NewTask(vals, actor, today);
      if created.Err? {
        return Err(created.error);
      }
      r := Ok(nextId);
      tasks := tasks[nextId := created.value];
      nextId := nextId + 1;
    }

    method Write(id: int, vals: TaskVals, now: int) returns (r: Result<()>)
      requires Valid() && id in tasks
      modifies this
      ensures Valid() && nextId == old(nextId)
      ensures r.Ok? <==> WriteTask(old(tasks)[id], vals, now).Ok?
      ensures r.Ok? ==> tasks == old(tasks)[id := WriteTask(old(tasks)[id], vals, now).value]
      ensures r.Err? ==> tasks == old(tasks) && r.error == WriteTask(old(tasks)[id], vals, now).error
    {
      var written := WriteTask(tasks[id], vals, now);
      if written.Err? {
        return Err(written.error);
      }
      tasks := tasks[id := written.value];
      r := Ok(());
    }

    method Unlink(id: int)
      requires Valid()
      modifies this
      ensures Valid() && nextId == old(nextId)
      ensures tasks == old(tasks) - {id}
    {
      tasks := tasks - {id};
    }

    method ActionStart(id: int, now: int)
      requires Valid() && id in tasks
      modifies this
      ensures Valid() && nextId == old(nextId)
      ensures tasks == old(tasks)[id := old(tasks)[id].(status := InProgress)]
    {
      StartAndCancel(tasks[id], now);
      var _ := Write(id, START_VALS, now);
    }

    method ActionComplete(id: int, now: int)
      requires Valid() && id in tasks
      modifies this
      ensures Valid() && nextId == old(nextId)
      ensures tasks == old(tasks)[id := old(tasks)[id].(status := Done, completedDate := Some(now), progress := 100)]
    {
      CompleteAndReopen(tasks[id], now);
      var _ := Write(id, CompleteVals(now), now);
    }

    method ActionCancel(id: int, now: int)
      requires Valid() && id in tasks
      modifies this
      ensures Valid() && nextId == old(nextId)
      ensures tasks == old(tasks)[id := old(tasks)[id].(status := Cancelled)]
    {
      StartAndCancel(tasks[id], now);
      var _ := Write(id, CANCEL_VALS, now);
    }

    method ActionReopen(id: int, now: int)
      requires Valid() && id in tasks
      modifies this
      ensures Valid() && nextId == old(nextId)
      ensures tasks == old(tasks)[id := old(tasks)[id].(status := Todo, completedDate := None, progress := 0)]
    {
      CompleteAndReopen(tasks[id], now);
      var _ := Write(id, REOPEN_VALS, now);
    }
  }
}
