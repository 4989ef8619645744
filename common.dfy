/** Shared vocabulary of the three resources: optional and failing results,
    partial-update payloads, untyped request values, the JSON documents the
    serializers build, the replies the handlers return, and the listing of a
    record store in id order with the search window (offset and limit). */
module Common {

  datatype Option<+T> = None | Some(value: T)
  {
    function GetOr(default: T): T
    {
      match this
      case Some(v) => v
      case None => default
    }
  }

  /** The outcome of an operation that can raise: the error carries the
      exception's message, which the JSON handlers return as `error`. */
  datatype Result<+T> = Ok(value: T) | Err(error: string)
  {
    predicate IsFailure() { Err? }

    function PropagateFailure<U>(): Result<U>
      requires Err?
    {
      Err(error)
    }

    function Extract(): T
      requires Ok?
    {
      value
    }
  }

  /** One entry of a partial update: a key absent from the payload (`Keep`)
      is different from a key present with a null value (`Put(None)`). */
  datatype Update<+T> = Keep | Put(value: T)
  {
    function Or(current: T): T
    {
      match this
      case Put(v) => v
      case Keep => current
    }
  }

  /** A value of a request payload or of an ORM `vals` dictionary. */
  datatype Value = Null | Bool(b: bool) | Int(i: int) | Str(s: string)

  /** Python truthiness of a payload value. */
  predicate Truthy(v: Value)
  {
    match v
    case Null => false
    case Bool(b) => b
    case Int(i) => i != 0
    case Str(s) => s != ""
  }

  /** The name of a payload value's Python type. */
  function TypeName(v: Value): string
  {
    match v
    case Null => "NoneType"
    case Bool(_) => "bool"
    case Int(_) => "int"
    case Str(_) => "str"
  }

  /** `params.get(key)` is truthy. */
  predicate Given(params: map<string, Value>, key: string)
  {
    key in params && Truthy(params[key])
  }

  /** The message of the ValueError the ORM raises for a value it cannot
      convert to a field's type. */
  function WrongValue(key: string): string { "Wrong value for " + key }

  /** The error a required field left unset raises: the column is NOT NULL. */
  function MissingValue(key: string): string { "Missing required value for " + key }

  /** A required reference to another record: an unset (falsy) reference
      raises. */
  function AsRef(key: string, v: Value): (r: Result<int>)
    ensures r.Ok? <==> v.Int? && v.i != 0
  {
    if v.Int? && v.i != 0 then Ok(v.i)
    else if !Truthy(v) then Err(MissingValue(key))
    else Err(WrongValue(key))
  }

  /** One typed entry of a partial update read from `vals`: `Keep` exactly
      when the key is absent. */
  function Field<T>(vals: map<string, Value>, key: string, conv: (string, Value) -> Result<T>): (r: Result<Update<T>>)
    ensures r.Ok? ==> (r.value.Put? <==> key in vals)
    ensures key !in vals ==> r == Ok(Keep)
    ensures key in vals ==> (r.Ok? <==> conv(key, vals[key]).Ok?)
    ensures key in vals && r.Ok? ==> r.value.value == conv(key, vals[key]).value
  {
    if key !in vals then Ok(Keep)
    else
      match conv(key, vals[key])
      case Ok(x) => Ok(Put(x))
      case Err(e) => Err(e)
  }

  /** Some member of a non-empty set: the witness a loop that takes the
      elements of a set one at a time needs for its `:|`. */
  lemma Pick<T>(s: set<T>) returns (x: T)
    requires s != {}
    ensures x in s
  {
    if forall y :: y !in s {
      assert false;
    }
    x :| x in s;
  }

  /** The records of `m` after `f` has been applied to those of `ids`: what
      a loop over a recordset that updates each record leaves behind. */
  function UpdateAll<R>(m: map<int, R>, ids: set<int>, f: R -> R): (r: map<int, R>)
  {
    map id | id in m :: if id in ids then f(m[id]) else m[id]
  }

  /** Updating a single record. */
  lemma UpdateOne<R>(m: map<int, R>, id: int, f: R -> R)
    requires id in m
    ensures UpdateAll(m, {id}, f) == m[id := f(m[id])]
  {
  }

  /** One more record of the set updated. */
  lemma UpdateOneMore<R>(m: map<int, R>, done: set<int>, id: int, f: R -> R)
    requires id in m && id !in done
    ensures UpdateAll(m, done, f)[id := f(m[id])] == UpdateAll(m, done + {id}, f)
  {
  }

  /** `search_count` of the records of `m` that satisfy `p`. */
  function Count<R>(m: map<int, R>, p: R -> bool): nat
  {
    |set id | id in m && p(m[id])|
  }

  /** The count is the size of any set that holds exactly the records
      satisfying `p`. */
  lemma CountOf<R>(m: map<int, R>, p: R -> bool, s: set<int>)
    requires forall id :: id in s <==> id in m && p(m[id])
    ensures Count(m, p) == |s|
  {
    var chosen := set id | id in m && p(m[id]);
    forall id | id in s ensures id in chosen {
      assert id in m && p(m[id]);
    }
    forall id | id in chosen ensures id in s { }
    assert s == chosen;
  }

  /** A new record counts once more where it satisfies `p`, and changes no
      count where it does not. */
  lemma CountInsert<R>(m: map<int, R>, id: int, r: R, p: R -> bool)
    requires id !in m
    ensures Count(m[id := r], p) == Count(m, p) + (if p(r) then 1 else 0)
  {
    var m' := m[id := r];
    var before := set k | k in m && p(m[k]);
    var after := set k | k in m' && p(m'[k]);
    if p(r) {
      assert after == before + {id};
    } else {
      assert after == before;
    }
  }

  /** The JSON documents the serializers produce. */
  datatype Json =
    | JNull
    | JBool(b: bool)
    | JInt(i: int)
    | JStr(s: string)
    | JArr(items: seq<Json>)
    | JObj(fields: map<string, Json>)

  function JText(s: string): Json { JStr(s) }

  function JDate(d: Option<int>): Json
  {
    match d
    case Some(x) => JInt(x)
    case None => JNull
  }

  function JTexts(ss: seq<string>): (j: Json)
    ensures j.JArr? && |j.items| == |ss|
    ensures forall k :: 0 <= k < |ss| ==> j.items[k] == JStr(ss[k])
  {
    JArr(seq(|ss|, k requires 0 <= k < |ss| => JStr(ss[k])))
  }

  /** A subset is no larger than the set that holds it. */
  lemma SubsetCard<T>(a: set<T>, b: set<T>)
    requires a <= b
    ensures |a| <= |b|
  {
    assert b == a + (b - a);
    assert a * (b - a) == {};
  }

  /** A user's name read through a many2one, or false when the user is
      unknown. */
  function UserName(users: map<int, string>, id: int): Json
  {
    if id in users then JStr(users[id]) else JBool(false)
  }

  /** `for field in fields: if field in params: vals[field] = params[field]`:
      the entries of `params` whose keys are listed in `fields`. */
  method PickFields(params: map<string, Value>, fields: seq<string>) returns (vals: map<string, Value>)
    ensures vals == map key | key in params && key in fields :: params[key]
  {
    vals := map[];
    var i := 0;
    while i < |fields|
      invariant 0 <= i <= |fields|
      invariant vals == map key | key in params && key in fields[..i] :: params[key]
    {
      assert fields[..i + 1] == fields[..i] + [fields[i]];
      if fields[i] in params {
        vals := vals[fields[i] := params[fields[i]]];
      }
      i := i + 1;
    }
    assert fields[..i] == fields;
  }

  /** What a handler answers: the HTTP status with either the `data` of a
      `{"success": true, ...}` envelope or the `error` of a
      `{"success": false, ...}` envelope. JSON-RPC routes always answer 200. */
  datatype Reply = Success(status: int, data: Json) | Failure(status: int, error: string)

  const INTERNAL_ERROR := "Internal server error"

  /** The ids of `m` that lie in [lo, hi), in ascending order: the listing
      order of a store whose ids are handed out increasingly. */
  function IdsIn<R>(m: map<int, R>, lo: int, hi: int): (ids: seq<int>)
    decreases hi - lo
    ensures forall k :: 0 <= k < |ids| ==> ids[k] in m && lo <= ids[k] < hi
    ensures forall k, l :: 0 <= k < l < |ids| ==> ids[k] < ids[l]
    ensures forall id :: id in m && lo <= id < hi ==> id in ids
  {
    if lo >= hi then []
    else
      var rest := IdsIn(m, lo + 1, hi);
      if lo in m then
        PrependSmaller(lo, rest);
        [lo] + rest
      else rest
  }

  lemma PrependSmaller(x: int, s: seq<int>)
    requires forall k :: 0 <= k < |s| ==> x < s[k]
    requires forall k, l :: 0 <= k < l < |s| ==> s[k] < s[l]
    ensures forall k, l :: 0 <= k < l < |[x] + s| ==> ([x] + s)[k] < ([x] + s)[l]
  {
    var t := [x] + s;
    forall k, l | 0 <= k < l < |t| ensures t[k] < t[l] {
      assert t[l] == s[l - 1];
      if k > 0 { assert t[k] == s[k - 1]; }
    }
  }

  /** The records of `ids` (all stored in `m`) that satisfy `p`, in the same order. */
  function Select<R>(m: map<int, R>, ids: seq<int>, p: R -> bool): (r: seq<int>)
    requires forall k :: 0 <= k < |ids| ==> ids[k] in m
    ensures forall k :: 0 <= k < |r| ==> r[k] in ids && r[k] in m && p(m[r[k]])
    ensures forall k :: 0 <= k < |ids| && p(m[ids[k]]) ==> ids[k] in r
    ensures |r| <= |ids|
  {
    if ids == [] then []
    else (if p(m[ids[0]]) then [ids[0]] else []) + Select(m, ids[1..], p)
  }

  /** Selecting from an ascending listing keeps it ascending: the
      selection is in listing order. */
  lemma {:induction false} SelectIncreasing<R>(m: map<int, R>, ids: seq<int>, p: R -> bool)
    requires forall k :: 0 <= k < |ids| ==> ids[k] in m
    requires Increasing(ids)
    ensures Increasing(Select(m, ids, p))
  {
    if ids != [] {
      var rest := Select(m, ids[1..], p);
      assert Increasing(ids[1..]);
      SelectIncreasing(m, ids[1..], p);
      if p(m[ids[0]]) {
        FirstBelowRest(ids, rest);
      }
    }
  }

  /** Ids listed in strictly ascending order. */
  predicate Increasing(s: seq<int>)
  {
    forall k, l :: 0 <= k < l < |s| ==> s[k] < s[l]
  }

  /** The first id of an increasing listing is below every id that comes
      from the rest of it. */
  lemma FirstBelowRest(ids: seq<int>, rest: seq<int>)
    requires ids != [] && Increasing(ids)
    requires forall k :: 0 <= k < |rest| ==> rest[k] in ids[1..]
    requires Increasing(rest)
    ensures Increasing([ids[0]] + rest)
  {
    forall k | 0 <= k < |rest| ensures ids[0] < rest[k] {
      var tail := ids[1..];
      assert rest[k] in tail;
      var j :| 0 <= j < |tail| && tail[j] == rest[k];
      assert ids[j + 1] == rest[k];
    }
  }

  /** The ids of a listing whose records satisfy `p`. */
  ghost function Satisfying<R>(m: map<int, R>, ids: seq<int>, p: R -> bool): set<int>
  {
    set id | id in ids && id in m && p(m[id])
  }

  /** The first id of a listing adds itself, when it satisfies `p`, to the
      ids of the rest. */
  lemma SatisfyingCons<R>(m: map<int, R>, ids: seq<int>, p: R -> bool)
    requires ids != [] && ids[0] in m
    ensures Satisfying(m, ids, p) == (if p(m[ids[0]]) then {ids[0]} else {}) + Satisfying(m, ids[1..], p)
  {
    var tail := ids[1..];
    assert ids == [ids[0]] + tail;
    assert forall id :: id in ids <==> id == ids[0] || id in tail;
  }

  /** In an increasing listing the first id does not recur. */
  lemma FirstNotLater(ids: seq<int>)
    requires ids != []
    requires forall k, l :: 0 <= k < l < |ids| ==> ids[k] < ids[l]
    ensures ids[0] !in ids[1..]
  {
    forall j | 0 <= j < |ids| - 1
      ensures ids[1..][j] != ids[0]
    {
      assert ids[1..][j] == ids[j + 1];
    }
  }

  /** Selecting from an increasing listing finds each record that
      satisfies `p` once. */
  lemma {:induction false} SelectCard<R>(m: map<int, R>, ids: seq<int>, p: R -> bool)
    requires forall k :: 0 <= k < |ids| ==> ids[k] in m
    requires forall k, l :: 0 <= k < l < |ids| ==> ids[k] < ids[l]
    ensures |Select(m, ids, p)| == |Satisfying(m, ids, p)|
  {
    if ids != [] {
      var tail := ids[1..];
      assert forall k, l :: 0 <= k < l < |tail| ==> tail[k] < tail[l];
      SelectCard(m, tail, p);
      SatisfyingCons(m, ids, p);
      FirstNotLater(ids);
      assert ids[0] !in Satisfying(m, tail, p);
    }
  }

  /** The first `limit` records of an ascending listing that satisfy `p`
      (all of them when `limit` is 0): ascending, as many as there are up
      to the limit, and every satisfying record left out comes after all
      those listed. */
  lemma WindowOfSelect<R>(m: map<int, R>, ids: seq<int>, p: R -> bool, limit: nat)
    requires forall k :: 0 <= k < |ids| ==> ids[k] in m
    requires Increasing(ids)
    ensures var r := Window(Select(m, ids, p), 0, limit);
      && Increasing(r)
      && |r| == (if limit == 0 || |Satisfying(m, ids, p)| <= limit then |Satisfying(m, ids, p)| else limit)
      && forall k, j :: 0 <= k < |ids| && p(m[ids[k]]) && ids[k] !in r && 0 <= j < |r| ==> r[j] < ids[k]
  {
    var s := Select(m, ids, p);
    var r := Window(s, 0, limit);
    SelectIncreasing(m, ids, p);
    assert |r| == (if limit == 0 || |Satisfying(m, ids, p)| <= limit then |Satisfying(m, ids, p)| else limit) by {
      SelectCard(m, ids, p);
    }
    forall k | 0 <= k < |ids| && p(m[ids[k]]) && ids[k] !in r
      ensures forall j :: 0 <= j < |r| ==> r[j] < ids[k]
    {
      PrefixBelow(s, r, ids[k]);
    }
  }

  /** Every element of a prefix of an increasing sequence lies below the
      elements of the sequence that the prefix leaves out. */
  lemma PrefixBelow(s: seq<int>, r: seq<int>, x: int)
    requires Increasing(s) && |r| <= |s|
    requires forall k :: 0 <= k < |r| ==> r[k] == s[k]
    requires x in s && x !in r
    ensures forall j :: 0 <= j < |r| ==> r[j] < x
  {
    var i :| 0 <= i < |s| && s[i] == x;
    forall j | 0 <= j < |r|
      ensures r[j] < x
    {
      assert r[j] == s[j];
    }
  }

  /** Selecting over every id of a store lists each record that satisfies
      `p` exactly once. */
  lemma SelectCount<R>(m: map<int, R>, nextId: int, p: R -> bool)
    requires forall id :: id in m ==> 1 <= id < nextId
    ensures |Select(m, IdsIn(m, 1, nextId), p)| == Count(m, p)
  {
    var ids := IdsIn(m, 1, nextId);
    SelectCard(m, ids, p);
    var chosen := Satisfying(m, ids, p);
    forall id | id in m && p(m[id]) ensures id in chosen { assert id in ids; }
    CountOf(m, p, chosen);
  }

  /** `search(..., offset=offset, limit=limit)`: skip `offset` results, then
      keep at most `limit` of them; a limit of 0 means no limit. */
  function Window<T>(s: seq<T>, offset: nat, limit: nat): (w: seq<T>)
    ensures offset >= |s| ==> w == []
    ensures limit > 0 ==> |w| <= limit
    ensures forall k :: 0 <= k < |w| ==> offset + k < |s| && w[k] == s[offset + k]
    ensures offset <= |s| ==> |w| == if limit == 0 || |s| - offset <= limit then |s| - offset else limit
  {
    if offset >= |s| then []
    else if limit == 0 || |s| - offset <= limit then s[offset..]
    else s[offset..offset + limit]
  }
}
