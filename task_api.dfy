/** The task endpoints: the paginated and filtered listing, reading,
    creating, updating and deleting a task, the start, complete and cancel
    actions, the caller's tasks, the overdue tasks and the statistics.
    HTTP routes answer 500 on any error; JSON routes answer 200 with a
    `success` flag. `today` and `now` are the day and time of the request. */
module TaskApi {
  import opened Common
  import opened Text
  import opened Paging
  import opened TaskModel

  // ================================================================ serialization

  /** A user reference as `{id, name}`, or null when unset. */
  function UserRef(users: map<int, string>, user: Option<int>): Json
  {
    match user
    case Some(id) => JObj(map["id" := JInt(id), "name" := UserName(users, id)])
    case None => JNull
  }

  /** `_serialize_task`: the stored fields and the computed overdue flag and
      days until due. */
  function SerializeTask(id: int, t: Task, users: map<int, string>, today: int): Json
  {
    JObj(map[
      "id" := JInt(id),
      "name" := JStr(t.name),
      "description" := JStr(t.description),
      "assigned_to" := UserRef(users, t.assignedTo),
      "created_by" := UserRef(users, t.createdBy),
      "project_name" := JStr(t.projectName),
      "status" := JStr(TaskStatusName(t.status)),
      "priority" := (match t.priority case Some(p) => JStr(PriorityKey(p)) case None => JBool(false)),
      "due_date" := JDate(t.dueDate),
      "completed_date" := JDate(t.completedDate),
      "is_overdue" := JBool(IsOverdue(t, today)),
      "days_until_due" := JInt(DaysUntilDue(t, today)),
      "estimated_hours" := JInt(t.estimatedHours),
      "actual_hours" := JInt(t.actualHours),
      "progress" := JInt(t.progress)])
  }

  /** The tasks of `ids`, serialized in order. */
  function SerializeTasks(tasks: map<int, Task>, ids: seq<int>, users: map<int, string>, today: int): (js: seq<Json>)
    requires forall k :: 0 <= k < |ids| ==> ids[k] in tasks
    ensures |js| == |ids|
    ensures forall k :: 0 <= k < |ids| ==> js[k] == SerializeTask(ids[k], tasks[ids[k]], users, today)
  {
    seq(|ids|, k requires 0 <= k < |ids| => SerializeTask(ids[k], tasks[ids[k]], users, today))
  }

  /** `{tasks, count}` of a listing. */
  function TaskList(tasks: map<int, Task>, ids: seq<int>, users: map<int, string>, today: int): Json
    requires forall k :: 0 <= k < |ids| ==> ids[k] in tasks
  {
    JObj(map["tasks" := JArr(SerializeTasks(tasks, ids, users, today)), "count" := JInt(|ids|)])
  }

  // ================================================================ the listing's filters

  /** One term of the listing's search domain. The overdue term is searched
      through the model's `_search_is_overdue` domain. */
  datatype Term =
    | StatusIs(status: string)
    | PriorityIs(priority: string)
    | AssignedTo(user: int)
    | ProjectLike(project: string)
    | OverdueIs(overdue: bool)

  predicate TermHolds(term: Term, t: Task, today: int)
  {
    match term
    case StatusIs(s) => TaskStatusName(t.status) == s
    case PriorityIs(key) => t.priority.Some? && PriorityKey(t.priority.value) == key
    case AssignedTo(user) => t.assignedTo == Some(user)
    case ProjectLike(s) => ILike(t.projectName, s)
    case OverdueIs(b) => Holds(OverdueDomain("=", b, today), t)
  }

  /** A domain of terms is their conjunction. */
  predicate MatchesAll(domain: seq<Term>, t: Task, today: int)
  {
    forall k :: 0 <= k < |domain| ==> TermHolds(domain[k], t, today)
  }

  /** The domain `get_tasks` builds: a term per truthy filter parameter, in
      the order status, priority, assignee, project, overdue; a non-integer
      assignee raises. */
  function TaskDomain(params: map<string, string>): Result<seq<Term>>
  {
    var status := if HasParam(params, "status") then [StatusIs(params["status"])] else [];
    var priority := if HasParam(params, "priority") then [PriorityIs(params["priority"])] else [];
    if HasParam(params, "assigned_to") && ParseInt(params["assigned_to"]).None? then Err(IntError(params["assigned_to"]))
    else
      var assignee := if HasParam(params, "assigned_to") then [AssignedTo(ParseInt(params["assigned_to"]).value)] else [];
      var project := if HasParam(params, "project") then [ProjectLike(params["project"])] else [];
      var overdue := if HasParam(params, "overdue") then [OverdueIs(Lower(params["overdue"]) == "true")] else [];
      Ok(status + priority + assignee + project + overdue)
  }

  /** The domain built by appending one term per filter, as the handler
      does. */
  method BuildTaskDomain(params: map<string, string>) returns (r: Result<seq<Term>>)
    ensures r == TaskDomain(params)
  {
    var domain: seq<Term> := [];
    if HasParam(params, "status") {
      domain := domain + [StatusIs(params["status"])];
    }
    if HasParam(params, "priority") {
      domain := domain + [PriorityIs(params["priority"])];
    }
    ghost var first := domain;
    if HasParam(params, "assigned_to") {
      var user := ParseInt(params["assigned_to"]);
      if user.None? {
        return Err(IntError(params["assigned_to"]));
      }
      domain := domain + [AssignedTo(user.value)];
    }
    ghost var second := domain;
    if HasParam(params, "project") {
      domain := domain + [ProjectLike(params["project"])];
    }
    ghost var third := domain;
    if HasParam(params, "overdue") {
      domain := domain + [OverdueIs(Lower(params["overdue"]) == "true")];
    }
    ghost var status := if HasParam(params, "status") then [StatusIs(params["status"])] else [];
    ghost var priority := if HasParam(params, "priority") then [PriorityIs(params["priority"])] else [];
    ghost var assignee := if HasParam(params, "assigned_to") then [AssignedTo(ParseInt(params["assigned_to"]).value)] else [];
    ghost var project := if HasParam(params, "project") then [ProjectLike(params["project"])] else [];
    ghost var overdue := if HasParam(params, "overdue") then [OverdueIs(Lower(params["overdue"]) == "true")] else [];
    assert first == status + priority;
    assert second == status + priority + assignee;
    assert third == status + priority + assignee + project;
    assert domain == status + priority + assignee + project + overdue;
    assert TaskDomain(params).Ok?;
    assert TaskDomain(params).value == status + priority + assignee + project + overdue;
    r := Ok(domain);
  }

  /** A domain put together from two parts holds exactly when both do. */
  lemma MatchesConcat(a: seq<Term>, b: seq<Term>, t: Task, today: int)
    ensures MatchesAll(a + b, t, today) <==> MatchesAll(a, t, today) && MatchesAll(b, t, today)
  {
    if MatchesAll(a + b, t, today) {
      forall k | 0 <= k < |b|
        ensures TermHolds(b[k], t, today)
      {
        assert (a + b)[|a| + k] == b[k];
      }
      forall k | 0 <= k < |a|
        ensures TermHolds(a[k], t, today)
      {
        assert (a + b)[k] == a[k];
      }
    }
  }

  /** A domain of at most one term holds exactly when its term does. */
  lemma MatchesOne(d: seq<Term>, t: Task, today: int)
    requires |d| <= 1
    ensures MatchesAll(d, t, today) <==> (|d| == 1 ==> TermHolds(d[0], t, today))
  {
  }

  /** What the filters mean: a task matches exactly when it passes each
      supplied filter; the overdue filter selects by the computed flag. */
  lemma TaskFilterMeaning(params: map<string, string>, t: Task, today: int)
    requires TaskDomain(params).Ok?
    ensures MatchesAll(TaskDomain(params).value, t, today) <==>
      && (HasParam(params, "status") ==> TaskStatusName(t.status) == params["status"])
      && (HasParam(params, "priority") ==> t.priority.Some? && PriorityKey(t.priority.value) == params["priority"])
      && (HasParam(params, "assigned_to") ==> t.assignedTo == Some(ParseInt(params["assigned_to"]).value))
      && (HasParam(params, "project") ==> ILike(t.projectName, params["project"]))
      && (HasParam(params, "overdue") ==> IsOverdue(t, today) == (Lower(params["overdue"]) == "true"))
  {
    var status := if HasParam(params, "status") then [StatusIs(params["status"])] else [];
    var priority := if HasParam(params, "priority") then [PriorityIs(params["priority"])] else [];
    var assignee := if HasParam(params, "assigned_to") then [AssignedTo(ParseInt(params["assigned_to"]).value)] else [];
    var project := if HasParam(params, "project") then [ProjectLike(params["project"])] else [];
    var overdue := if HasParam(params, "overdue") then [OverdueIs(Lower(params["overdue"]) == "true")] else [];
    assert TaskDomain(params).value == status + priority + assignee + project + overdue;
    MatchesConcat(status + priority + assignee + project, overdue, t, today);
    MatchesConcat(status + priority + assignee, project, t, today);
    MatchesConcat(status + priority, assignee, t, today);
    MatchesConcat(status, priority, t, today);
    MatchesOne(status, t, today);
    MatchesOne(priority, t, today);
    MatchesOne(assignee, t, today);
    MatchesOne(project, t, today);
    MatchesOne(overdue, t, today);
    if HasParam(params, "overdue") {
      OverdueDomainAgrees("=", Lower(params["overdue"]) == "true", today, t);
    }
  }

  // ================================================================ GET /tasks

  const DEFAULT_PAGE_SIZE := 20
  const MAX_PAGE_SIZE := 100

  /** The ids of the stored tasks that match `domain`, in listing order. */
  function Matching(tasks: map<int, Task>, ids: seq<int>, domain: seq<Term>, today: int): (r: seq<int>)
    requires forall k :: 0 <= k < |ids| ==> ids[k] in tasks
    ensures forall k :: 0 <= k < |r| ==> r[k] in tasks && MatchesAll(domain, tasks[r[k]], today)
  {
    Select(tasks, ids, (t: Task) => MatchesAll(domain, t, today))
  }

  /** The data of a served page: the page's tasks and the pagination. */
  function ListingData(tasks: map<int, Task>, matching: seq<int>, pg: Pagination, users: map<int, string>, today: int): Json
    requires forall k :: 0 <= k < |matching| ==> matching[k] in tasks
    requires Servable(pg) && pg.offset >= 0
  {
    var page := Window(matching, pg.offset, pg.limit);
    JObj(map[
      "tasks" := JArr(SerializeTasks(tasks, page, users, today)),
      "pagination" := JObj(map[
        "page" := JInt(pg.page),
        "limit" := JInt(pg.limit),
        "total" := JInt(|matching|),
        "pages" := JInt(PageCount(|matching|, pg.limit))])])
  }

  /** The reply of `get_tasks` over the stored tasks `ids`: every error (a
      non-integer parameter, a limit of 0 dividing by zero, a negative
      limit or offset refused by the database) is a 500. */
  function TasksReply(tasks: map<int, Task>, ids: seq<int>, params: map<string, string>, users: map<int, string>,
                      today: int): (r: Reply)
    requires forall k :: 0 <= k < |ids| ==> ids[k] in tasks
    ensures r.Failure? <==>
      || ParsePagination(params, DEFAULT_PAGE_SIZE, MAX_PAGE_SIZE).Err?
      || TaskDomain(params).Err?
      || !Servable(ParsePagination(params, DEFAULT_PAGE_SIZE, MAX_PAGE_SIZE).value)
    ensures r.Failure? ==> r == Failure(500, INTERNAL_ERROR)
    ensures r.Success? ==> r.status == 200
  {
    var pg := ParsePagination(params, DEFAULT_PAGE_SIZE, MAX_PAGE_SIZE);
    var domain := TaskDomain(params);
    if pg.Err? || domain.Err? || !Servable(pg.value) then Failure(500, INTERNAL_ERROR)
    else
      Success(200, ListingData(tasks, Matching(tasks, ids, domain.value, today), pg.value, users, today))
  }

  /** `get_tasks` over the store's tasks. */
  method GetTasks(store: TaskStore, params: map<string, string>, users: map<int, string>, today: int) returns (r: Reply)
    requires store.Valid()
    ensures r == TasksReply(store.tasks, store.Ids(), params, users, today)
  {
    var pg := ParsePagination(params, DEFAULT_PAGE_SIZE, MAX_PAGE_SIZE);
    if pg.Err? {
      return Failure(500, INTERNAL_ERROR);
    }
    var domain := BuildTaskDomain(params);
    if domain.Err? {
      return Failure(500, INTERNAL_ERROR);
    }
    if !Servable(pg.value) {
      return Failure(500, INTERNAL_ERROR);
    }
    var matching := Matching(store.tasks, store.Ids(), domain.value, today);
    r := Success(200, ListingData(store.tasks, matching, pg.value, users, today));
  }

  // ================================================================ GET /tasks/<id>

  const TASK_NOT_FOUND := "Task not found"

  /** `get_task`: the task, or 404. */
  function GetTask(store: TaskStore, id: int, users: map<int, string>, today: int): (r: Reply)
    reads store
    ensures id !in store.tasks <==> r == Failure(404, TASK_NOT_FOUND)
    ensures id in store.tasks ==> r.Success? && r.status == 200
  {
    if id !in store.tasks then Failure(404, TASK_NOT_FOUND)
    else Success(200, JObj(map["task" := SerializeTask(id, store.tasks[id], users, today)]))
  }

  // ================================================================ POST /tasks

  const NAME_REQUIRED := "Task name is required"

  /** `params.get(key, default)`. */
  function ValueOr(params: map<string, Value>, key: string, default: Value): Value
  {
    if key in params then params[key] else default
  }

  /** `float(v)` of a truthy payload value; hours are whole numbers here, so
      a text must spell an integer. */
  function ToFloat(v: Value): (r: Result<Value>)
    ensures r.Ok? ==> r.value.Int?
    ensures v.Int? ==> r == Ok(v)
  {
    match v
    case Int(_) => Ok(v)
    case Bool(b) => Ok(Int(if b then 1 else 0))
    case Str(s) => if ParseInt(s).Some? then Ok(Int(ParseInt(s).value)) else Err("could not convert string to float: '" + s + "'")
    case Null => Err("float() argument must be a string or a real number, not 'NoneType'")
  }

  /** The `vals` of `create_task`: the name, the acting user as creator, the
      defaults of description, status, priority and project, and the
      assignee, due date and estimate only where they are truthy. */
  function CreateVals(params: map<string, Value>, actor: int): (r: Result<map<string, Value>>)
    requires "name" in params
    ensures r.Ok? ==> var vals := r.value;
      && {"name", "description", "created_by", "status", "priority", "project_name"} <= vals.Keys
      && vals["name"] == params["name"] && vals["created_by"] == Int(actor)
      && ("assigned_to" in vals <==> Given(params, "assigned_to"))
      && ("due_date" in vals <==> Given(params, "due_date"))
      && ("estimated_hours" in vals <==> Given(params, "estimated_hours"))
      && vals.Keys <= TASK_FIELDS
    ensures r.Err? <==> Given(params, "estimated_hours") && ToFloat(params["estimated_hours"]).Err?
  {
    var base := map["name" := params["name"], "description" := ValueOr(params, "description", Str("")),
                    "created_by" := Int(actor), "status" := ValueOr(params, "status", Str("todo")),
                    "priority" := ValueOr(params, "priority", Str("1")),
                    "project_name" := ValueOr(params, "project_name", Str(""))];
    var assignee := if Given(params, "assigned_to") then base["assigned_to" := params["assigned_to"]] else base;
    var dated := if Given(params, "due_date") then assignee["due_date" := params["due_date"]] else assignee;
    if Given(params, "estimated_hours") then
      var hours :- ToFloat(params["estimated_hours"]);
      Ok(dated["estimated_hours" := hours])
    else Ok(dated)
  }

  /** The task `create_task` makes from a payload with a name. */
  function CreatedTask(params: map<string, Value>, actor: int, today: int): Result<Task>
    requires "name" in params
  {
    var raw :- CreateVals(params, actor);
    var vals :- DecodeVals(raw);
    NewTask(vals, actor, today)
  }

  /** A created task is made by the acting user, is todo with normal
      priority unless told otherwise, and without a due date is due a week
      from today. */
  lemma CreatedTaskFacts(params: map<string, Value>, actor: int, today: int)
    requires "name" in params && actor > 0
    requires CreatedTask(params, actor, today).Ok?
    ensures var t := CreatedTask(params, actor, today).value;
      && t.createdBy == Some(actor)
      && ("status" !in params ==> t.status == Todo)
      && ("priority" !in params ==> t.priority == Some(Normal))
      && (!Given(params, "due_date") ==> t.dueDate == Some(today + DEFAULT_DUE_DAYS))
      && Sound(t)
  {
    var raw := CreateVals(params, actor).value;
    DecodedStamps(raw);
    if "status" !in params {
      assert raw["status"] == Str("todo");
    }
    if "priority" !in params {
      assert raw["priority"] == Str("1");
    }
  }

  /** `create_task`: a falsy name is refused before anything is created;
      otherwise the task is created or the error reported, and nothing is
      stored on error. */
  method CreateTask(store: TaskStore, params: map<string, Value>, actor: int, today: int, users: map<int, string>)
    returns (r: Reply)
    requires store.Valid()
    modifies store
    ensures store.Valid()
    ensures r.status == 200
    ensures !Given(params, "name") ==> r == Failure(200, NAME_REQUIRED) && store.tasks == old(store.tasks)
    ensures Given(params, "name") ==>
      var created := CreatedTask(params, actor, today);
      && (r.Success? <==> created.Ok?)
      && (created.Ok? ==> exists id :: id !in old(store.tasks) && store.tasks == old(store.tasks)[id := created.value])
      && (created.Err? ==> r == Failure(200, created.error) && store.tasks == old(store.tasks))
  {
    if !Given(params, "name") {
      return Failure(200, NAME_REQUIRED);
    }
    var raw := CreateVals(params, actor);
    if raw.Err? {
      return Failure(200, raw.error);
    }
    var vals := DecodeVals(raw.value);
    if vals.Err? {
      return Failure(200, vals.error);
    }
    var created := store.Create(vals.value, actor, today);
    if created.Err? {
      return Failure(200, created.error);
    }
    r := Success(200, JObj(map["task" := SerializeTask(created.value, store.tasks[created.value], users, today),
                                "message" := JStr("Task created successfully")]));
  }

  // ================================================================ PUT /tasks/<id>

  const UPDATABLE: seq<string> := ["name", "description", "assigned_to", "project_name", "status", "priority",
                                   "due_date", "estimated_hours", "actual_hours", "progress"]

  /** The task after `update_task` writes the supplied updatable keys. */
  function UpdatedTask(t: Task, params: map<string, Value>, now: int): Result<Task>
    requires Sound(t)
  {
    var vals :- DecodeVals(map key | key in params && key in UPDATABLE :: params[key]);
    WriteTask(t, vals, now)
  }

  /** The creator and the completion date are not updatable. */
  lemma StampsUnlisted()
    ensures forall k :: 0 <= k < |UPDATABLE| ==> UPDATABLE[k] !in {"created_by", "completed_date"}
  {
  }

  /** An update never changes the creator or the completion date, except
      that setting the status to done without a progress stamps it. */
  lemma UpdateKeepsCreator(t: Task, params: map<string, Value>, now: int)
    requires Sound(t) && UpdatedTask(t, params, now).Ok?
    ensures var u := UpdatedTask(t, params, now).value;
      && u.createdBy == t.createdBy
      && (u.completedDate != t.completedDate ==> u.completedDate == Some(now) && u.status == Done)
  {
    var picked := map key | key in params && key in UPDATABLE :: params[key];
    StampsUnlisted();
    assert "created_by" !in picked && "completed_date" !in picked;
    var vals := DecodeVals(picked).value;
    assert vals.createdBy == Keep && vals.completedDate == Keep;
    WriteKeepsStamps(t, vals, now);
  }

  /** `update_task`: the supplied updatable keys are written; nothing
      changes on error. */
  method UpdateTask(store: TaskStore, id: int, params: map<string, Value>, now: int, users: map<int, string>,
                    today: int) returns (r: Reply)
    requires store.Valid()
    modifies store
    ensures store.Valid() && store.nextId == old(store.nextId)
    ensures r.status == 200
    ensures id !in old(store.tasks) ==> r == Failure(200, TASK_NOT_FOUND) && store.tasks == old(store.tasks)
    ensures id in old(store.tasks) ==>
      var updated := UpdatedTask(old(store.tasks)[id], params, now);
      && (r.Success? <==> updated.Ok?)
      && (updated.Ok? ==> store.tasks == old(store.tasks)[id := updated.value])
      && (updated.Err? ==> r == Failure(200, updated.error) && store.tasks == old(store.tasks))
  {
    if id !in store.tasks {
      return Failure(200, TASK_NOT_FOUND);
    }
    var raw := PickFields(params, UPDATABLE);
    var vals := DecodeVals(raw);
    if vals.Err? {
      return Failure(200, vals.error);
    }
    var written := store.Write(id, vals.value, now);
    if written.Err? {
      return Failure(200, written.error);
    }
    r := Success(200, JObj(map["task" := SerializeTask(id, store.tasks[id], users, today),
                                "message" := JStr("Task updated successfully")]));
  }

  // ================================================================ DELETE /tasks/<id>

  /** `delete_task`: any existing task is deleted. */
  method DeleteTask(store: TaskStore, id: int) returns (r: Reply)
    requires store.Valid()
    modifies store
    ensures store.Valid() && store.nextId == old(store.nextId)
    ensures store.tasks == old(store.tasks) - {id}
    ensures r.Success? <==> id in old(store.tasks)
    ensures id !in old(store.tasks) ==> r == Failure(200, TASK_NOT_FOUND)
  {
    if id !in store.tasks {
      return Failure(200, TASK_NOT_FOUND);
    }
    store.Unlink(id);
    r := Success(200, JObj(map["message" := JStr("Task deleted successfully")]));
  }

  // ================================================================ the actions

  /** `start_task`: the task goes in progress. */
  method StartTask(store: TaskStore, id: int, now: int, users: map<int, string>, today: int) returns (r: Reply)
    requires store.Valid()
    modifies store
    ensures store.Valid() && store.nextId == old(store.nextId)
    ensures id !in old(store.tasks) ==> r == Failure(200, TASK_NOT_FOUND) && store.tasks == old(store.tasks)
    ensures id in old(store.tasks) ==> r.Success? && store.tasks == old(store.tasks)[id := old(store.tasks)[id].(status := InProgress)]
  {
    if id !in store.tasks {
      return Failure(200, TASK_NOT_FOUND);
    }
    store.ActionStart(id, now);
    r := Success(200, JObj(map["task" := SerializeTask(id, store.tasks[id], users, today),
                                "message" := JStr("Task started successfully")]));
  }

  /** `complete_task`: the task is done, complete and stamped. */
  method CompleteTask(store: TaskStore, id: int, now: int, users: map<int, string>, today: int) returns (r: Reply)
    requires store.Valid()
    modifies store
    ensures store.Valid() && store.nextId == old(store.nextId)
    ensures id !in old(store.tasks) ==> r == Failure(200, TASK_NOT_FOUND) && store.tasks == old(store.tasks)
    ensures id in old(store.tasks) ==>
      && r.Success?
      && store.tasks == old(store.tasks)[id := old(store.tasks)[id].(status := Done, completedDate := Some(now), progress := 100)]
  {
    if id !in store.tasks {
      return Failure(200, TASK_NOT_FOUND);
    }
    store.ActionComplete(id, now);
    r := Success(200, JObj(map["task" := SerializeTask(id, store.tasks[id], users, today),
                                "message" := JStr("Task completed successfully")]));
  }

  /** `cancel_task`: the task is cancelled. */
  method CancelTask(store: TaskStore, id: int, now: int, users: map<int, string>, today: int) returns (r: Reply)
    requires store.Valid()
    modifies store
    ensures store.Valid() && store.nextId == old(store.nextId)
    ensures id !in old(store.tasks) ==> r == Failure(200, TASK_NOT_FOUND) && store.tasks == old(store.tasks)
    ensures id in old(store.tasks) ==> r.Success? && store.tasks == old(store.tasks)[id := old(store.tasks)[id].(status := Cancelled)]
  {
    if id !in store.tasks {
      return Failure(200, TASK_NOT_FOUND);
    }
    store.ActionCancel(id, now);
    r := Success(200, JObj(map["task" := SerializeTask(id, store.tasks[id], users, today),
                                "message" := JStr("Task cancelled successfully")]));
  }

  /** A completed task is no longer overdue, and a cancelled one neither. */
  lemma ClosedTasksNotOverdue(t: Task, now: int, today: int)
    ensures !IsOverdue(t.(status := Done, completedDate := Some(now), progress := 100), today)
    ensures !IsOverdue(t.(status := Cancelled), today)
  {
  }

  // ================================================================ GET /tasks/my, /tasks/overdue

  /** The caller's tasks, optionally of one status. */
  predicate Mine(t: Task, actor: int, params: map<string, string>)
  {
    t.assignedTo == Some(actor) && (HasParam(params, "status") ==> TaskStatusName(t.status) == params["status"])
  }

  /** The ids `get_my_tasks` lists. */
  function MyTaskIds(tasks: map<int, Task>, ids: seq<int>, actor: int, params: map<string, string>): (r: seq<int>)
    requires forall k :: 0 <= k < |ids| ==> ids[k] in tasks
    ensures forall k :: 0 <= k < |r| ==> r[k] in tasks && Mine(tasks[r[k]], actor, params)
    ensures forall k :: 0 <= k < |ids| && Mine(tasks[ids[k]], actor, params) ==> ids[k] in r
  {
    Select(tasks, ids, (t: Task) => Mine(t, actor, params))
  }

  /** `get_my_tasks`: the tasks assigned to the caller. */
  function GetMyTasks(store: TaskStore, params: map<string, string>, actor: int, users: map<int, string>, today: int): (r: Reply)
    reads store
    requires store.Valid()
    ensures r.Success? && r.status == 200 && r.data.JObj? && "count" in r.data.fields
    ensures r.data.fields["count"] == JInt(Count(store.tasks, (t: Task) => Mine(t, actor, params)))
  {
    SelectCount(store.tasks, store.nextId, (t: Task) => Mine(t, actor, params));
    Success(200, TaskList(store.tasks, MyTaskIds(store.tasks, store.Ids(), actor, params), users, today))
  }

  /** The ids `get_overdue_tasks` lists: those the `is_overdue = True`
      search domain selects. */
  function OverdueIds(tasks: map<int, Task>, ids: seq<int>, today: int): (r: seq<int>)
    requires forall k :: 0 <= k < |ids| ==> ids[k] in tasks
  {
    Select(tasks, ids, (t: Task) => Holds(OverdueDomain("=", true, today), t))
  }

  /** The overdue listing holds exactly the tasks whose computed flag is
      set: each listed task is overdue, and each overdue task is listed. */
  lemma OverdueListing(store: TaskStore, today: int)
    requires store.Valid()
    ensures var ids := OverdueIds(store.tasks, store.Ids(), today);
      && (forall k :: 0 <= k < |ids| ==> IsOverdue(store.tasks[ids[k]], today))
      && (forall id :: id in store.tasks && IsOverdue(store.tasks[id], today) ==> id in ids)
  {
    var ids := OverdueIds(store.tasks, store.Ids(), today);
    forall id | id in store.tasks
      ensures Holds(OverdueDomain("=", true, today), store.tasks[id]) <==> IsOverdue(store.tasks[id], today)
    {
      OverdueDomainAgrees("=", true, today, store.tasks[id]);
    }
  }

  /** `get_overdue_tasks`. */
  function GetOverdueTasks(store: TaskStore, users: map<int, string>, today: int): (r: Reply)
    reads store
    requires store.Valid()
    ensures r.Success? && r.status == 200 && r.data.JObj? && "count" in r.data.fields
    ensures r.data.fields["count"] == JInt(Count(store.tasks, (t: Task) => Holds(OverdueDomain("=", true, today), t)))
  {
    SelectCount(store.tasks, store.nextId, (t: Task) => Holds(OverdueDomain("=", true, today), t));
    Success(200, TaskList(store.tasks, OverdueIds(store.tasks, store.Ids(), today), users, today))
  }

  // ================================================================ GET /tasks/stats

  /** The stored tasks with status `s`. */
  function WithStatus(tasks: map<int, Task>, s: TaskStatus): set<int>
  {
    set id | id in tasks && tasks[id].status == s
  }

  /** The stored tasks with priority `p`. */
  function WithPriority(tasks: map<int, Task>, p: Priority): set<int>
  {
    set id | id in tasks && tasks[id].priority == Some(p)
  }

  /** The test of `get_tasks_by_priority`'s search. */
  function HasPriority(p: Priority): Task -> bool
  {
    (t: Task) => t.priority == Some(p)
  }

  /** `get_tasks_by_priority`: the tasks of one priority, in listing order. */
  function TasksByPriority(tasks: map<int, Task>, ids: seq<int>, p: Priority): (r: seq<int>)
    requires forall k :: 0 <= k < |ids| ==> ids[k] in tasks
    ensures forall k :: 0 <= k < |r| ==> r[k] in tasks && tasks[r[k]].priority == Some(p)
    ensures forall k :: 0 <= k < |ids| && tasks[ids[k]].priority == Some(p) ==> ids[k] in r
  {
    Select(tasks, ids, HasPriority(p))
  }

  /** Counting by priority is counting the tasks the search test accepts. */
  lemma PriorityCount(m: map<int, Task>, p: Priority)
    ensures |WithPriority(m, p)| == Count(m, HasPriority(p))
  {
    CountOf(m, HasPriority(p), WithPriority(m, p));
  }

  /** Searching the whole store by priority lists each task of that
      priority once: as many as the statistics count for it. */
  lemma TasksByPriorityCounted(store: TaskStore, p: Priority)
    requires store.Valid()
    ensures |TasksByPriority(store.tasks, store.Ids(), p)| == |WithPriority(store.tasks, p)|
  {
    SelectCount(store.tasks, store.nextId, HasPriority(p));
    PriorityCount(store.tasks, p);
  }

  /** The stored tasks the `is_overdue = True` search selects. */
  function OverdueSet(tasks: map<int, Task>, today: int): set<int>
  {
    set id | id in tasks && Holds(OverdueDomain("=", true, today), tasks[id])
  }

  /** The integer at `key` of a JSON object, or 0 when there is none. */
  function IntAt(j: Json, key: string): int
  {
    if j.JObj? && key in j.fields && j.fields[key].JInt? then j.fields[key].i else 0
  }

  /** The `by_status` object of the statistics: one count per status,
      adding up to the number of tasks. */
  function StatusCounts(tasks: map<int, Task>): (j: Json)
    ensures IntAt(j, "todo") + IntAt(j, "in_progress") + IntAt(j, "review")
      + IntAt(j, "done") + IntAt(j, "cancelled") == |tasks|
    ensures IntAt(j, "todo") == |WithStatus(tasks, Todo)| && IntAt(j, "in_progress") == |WithStatus(tasks, InProgress)|
    ensures IntAt(j, "review") == |WithStatus(tasks, Review)|
    ensures IntAt(j, "done") == |WithStatus(tasks, Done)| && IntAt(j, "cancelled") == |WithStatus(tasks, Cancelled)|
  {
    StatusCountsSum(tasks);
    JObj(map[
      "todo" := JInt(|WithStatus(tasks, Todo)|),
      "in_progress" := JInt(|WithStatus(tasks, InProgress)|),
      "review" := JInt(|WithStatus(tasks, Review)|),
      "done" := JInt(|WithStatus(tasks, Done)|),
      "cancelled" := JInt(|WithStatus(tasks, Cancelled)|)])
  }

  /** The `by_priority` object of the statistics: one count per priority,
      adding up to the number of tasks that have a priority. */
  function PriorityCounts(tasks: map<int, Task>): (j: Json)
    ensures IntAt(j, "low") + IntAt(j, "normal") + IntAt(j, "high") + IntAt(j, "urgent")
      == |set id | id in tasks && tasks[id].priority.Some?|
    ensures IntAt(j, "low") == |WithPriority(tasks, Low)| && IntAt(j, "normal") == |WithPriority(tasks, Normal)|
    ensures IntAt(j, "high") == |WithPriority(tasks, High)| && IntAt(j, "urgent") == |WithPriority(tasks, Urgent)|
  {
    PriorityCountsSum(tasks);
    JObj(map[
      "low" := JInt(|WithPriority(tasks, Low)|),
      "normal" := JInt(|WithPriority(tasks, Normal)|),
      "high" := JInt(|WithPriority(tasks, High)|),
      "urgent" := JInt(|WithPriority(tasks, Urgent)|)])
  }

  /** The stored tasks assigned to `user`. */
  function Assigned(tasks: map<int, Task>, user: int): set<int>
  {
    set id | id in tasks && tasks[id].assignedTo == Some(user)
  }

  /** The statistics object with its five entries. */
  function StatsObject(total: int, byStatus: Json, byPriority: Json, overdue: int, mine: int): (r: Json)
    ensures r.JObj? && r.fields.Keys == {"total", "by_status", "by_priority", "overdue", "my_tasks"}
    ensures r.fields["by_status"] == byStatus && r.fields["by_priority"] == byPriority
    ensures IntAt(r, "total") == total && IntAt(r, "overdue") == overdue && IntAt(r, "my_tasks") == mine
  {
    JObj(map["total" := JInt(total), "by_status" := byStatus, "by_priority" := byPriority,
             "overdue" := JInt(overdue), "my_tasks" := JInt(mine)])
  }

  /** `get_task_stats`: the total, the counts by status and by priority,
      the overdue tasks and the caller's tasks. The overdue tasks are among
      those neither done nor cancelled, and the caller's among all. */
  function Stats(tasks: map<int, Task>, actor: int, today: int): (r: Json)
    ensures r.JObj? && r.fields.Keys == {"total", "by_status", "by_priority", "overdue", "my_tasks"}
    ensures r.fields["by_status"] == StatusCounts(tasks) && r.fields["by_priority"] == PriorityCounts(tasks)
    ensures IntAt(r, "total") == |tasks|
    ensures IntAt(r, "overdue") == |OverdueSet(tasks, today)|
    ensures IntAt(r, "overdue") + IntAt(StatusCounts(tasks), "done") + IntAt(StatusCounts(tasks), "cancelled")
      <= IntAt(r, "total")
    ensures IntAt(r, "my_tasks") == |Assigned(tasks, actor)| <= IntAt(r, "total")
  {
    OverdueAmongOpen(tasks, today);
    SubsetCard(Assigned(tasks, actor), tasks.Keys);
    StatsObject(|tasks|, StatusCounts(tasks), PriorityCounts(tasks), |OverdueSet(tasks, today)|, |Assigned(tasks, actor)|)
  }

  /** Two disjoint sets together hold as many elements as both. */
  lemma DisjointCard(a: set<int>, b: set<int>)
    requires a * b == {}
    ensures |a + b| == |a| + |b|
  {
  }

  /** Every task has exactly one status: the counts by status add up to the
      total. */
  lemma StatusCountsSum(tasks: map<int, Task>)
    ensures |WithStatus(tasks, Todo)| + |WithStatus(tasks, InProgress)| + |WithStatus(tasks, Review)|
      + |WithStatus(tasks, Done)| + |WithStatus(tasks, Cancelled)| == |tasks|
  {
    var a, b, c := WithStatus(tasks, Todo), WithStatus(tasks, InProgress), WithStatus(tasks, Review);
    var d, e := WithStatus(tasks, Done), WithStatus(tasks, Cancelled);
    DisjointCard(a, b);
    DisjointCard(a + b, c);
    DisjointCard(a + b + c, d);
    DisjointCard(a + b + c + d, e);
    forall id | id in tasks
      ensures id in a + b + c + d + e
    {
      match tasks[id].status
      case Todo => assert id in a;
      case InProgress => assert id in b;
      case Review => assert id in c;
      case Done => assert id in d;
      case Cancelled => assert id in e;
    }
    assert a + b + c + d + e == tasks.Keys;
  }

  /** The counts by priority add up to the tasks that have a priority. */
  lemma PriorityCountsSum(tasks: map<int, Task>)
    ensures |WithPriority(tasks, Low)| + |WithPriority(tasks, Normal)| + |WithPriority(tasks, High)|
      + |WithPriority(tasks, Urgent)| == |set id | id in tasks && tasks[id].priority.Some?|
  {
    var a, b := WithPriority(tasks, Low), WithPriority(tasks, Normal);
    var c, d := WithPriority(tasks, High), WithPriority(tasks, Urgent);
    DisjointCard(a, b);
    DisjointCard(a + b, c);
    DisjointCard(a + b + c, d);
    var prioritized := set id | id in tasks && tasks[id].priority.Some?;
    forall id | id in prioritized
      ensures id in a + b + c + d
    {
      match tasks[id].priority.value
      case Low => assert id in a;
      case Normal => assert id in b;
      case High => assert id in c;
      case Urgent => assert id in d;
    }
    assert a + b + c + d == prioritized;
  }

  /** Overdue tasks are never done or cancelled, so there are no more of
      them than tasks still open. */
  lemma OverdueAmongOpen(tasks: map<int, Task>, today: int)
    ensures |OverdueSet(tasks, today)| + |WithStatus(tasks, Done)| + |WithStatus(tasks, Cancelled)| <= |tasks|
  {
    var o, d, c := OverdueSet(tasks, today), WithStatus(tasks, Done), WithStatus(tasks, Cancelled);
    forall id | id in o
      ensures id !in d && id !in c
    {
      OverdueDomainAgrees("=", true, today, tasks[id]);
    }
    DisjointCard(o, d);
    DisjointCard(o + d, c);
    SubsetCard(o + d + c, tasks.Keys);
  }

  /** `get_task_stats` over the store. Its overdue count is the count that
      `get_overdue_tasks` reports. */
  function GetTaskStats(store: TaskStore, actor: int, today: int): (r: Reply)
    reads store
    requires store.Valid()
    ensures r.Success? && r.status == 200 && r.data == Stats(store.tasks, actor, today)
    ensures IntAt(r.data, "total") == |store.tasks|
    ensures IntAt(r.data, "overdue") == IntAt(GetOverdueTasks(store, map[], today).data, "count")
  {
    var overdue := (t: Task) => Holds(OverdueDomain("=", true, today), t);
    CountOf(store.tasks, overdue, OverdueSet(store.tasks, today));
    Success(200, Stats(store.tasks, actor, today))
  }
}
