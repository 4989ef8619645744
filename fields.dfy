/** How the ORM converts one entry of a `vals` dictionary to the type of
    the field it is written to, before storing it: a Char, Text or Html
    field stores `str(value)`, an Integer `int(value or 0)`, a Boolean
    `bool(value)`, and a Date or Datetime no date for a falsy value. None
    and False clear a field. */
module Fields {
  import opened Common
  import opened Text

  /** `str(v)` for a value that is set: Python writes True as "True". */
  function TextOf(v: Value): (t: string)
    requires Truthy(v) || v.Int? || v.Str?
  {
    match v
    case Str(s) => s
    case Int(i) => IntToString(i)
    case Bool(_) => "True"
  }

  /** A Char, Text or Html field: every value converts; None and False
      leave the field empty. */
  function AsText(key: string, v: Value): (r: Result<string>)
    ensures r.Ok?
    ensures v.Str? ==> r.value == v.s
    ensures v.Int? ==> ParseInt(r.value) == Some(v.i)
    ensures v == Bool(true) ==> r.value == "True"
    ensures v == Null || v == Bool(false) ==> r.value == ""
  {
    if v == Null || v == Bool(false) then Ok("")
    else if v.Int? then
      ParseIntToString(v.i);
      Ok(TextOf(v))
    else Ok(TextOf(v))
  }

  /** A required text field: None and False leave it unset, which raises;
      any other value is stored as its text, "" included. */
  function AsRequiredText(key: string, v: Value): (r: Result<string>)
    ensures r.Ok? <==> v != Null && v != Bool(false)
    ensures r.Ok? ==> Ok(r.value) == AsText(key, v)
    ensures r.Err? ==> r.error == MissingValue(key)
  {
    if v == Null || v == Bool(false) then Err(MissingValue(key)) else AsText(key, v)
  }

  /** An Integer field: `int(value or 0)`. A falsy value is 0, a boolean
      its 0 or 1, text is read by `int()`, which raises on anything but an
      integer literal. */
  function AsInt(key: string, v: Value): (r: Result<int>)
    ensures !Truthy(v) ==> r == Ok(0)
    ensures v.Int? ==> r == Ok(v.i)
    ensures v == Bool(true) ==> r == Ok(1)
    ensures v.Str? && v.s != "" ==> (r.Ok? <==> ParseInt(v.s).Some?)
    ensures v.Str? && v.s != "" && r.Ok? ==> r.value == ParseInt(v.s).value
    ensures r.Err? ==> v.Str? && r.error == IntError(v.s)
  {
    match v
    case Null => Ok(0)
    case Bool(b) => Ok(if b then 1 else 0)
    case Int(i) => Ok(i)
    case Str(s) =>
      if s == "" then Ok(0)
      else match ParseInt(s)
        case Some(n) => Ok(n)
        case None => Err(IntError(s))
  }

  /** A Boolean field: `bool(value)`, so every value converts, and any
      non-empty text, "false" included, is true. */
  function AsBool(key: string, v: Value): (r: Result<bool>)
    ensures r.Ok? && (r.value <==> Truthy(v))
  {
    Ok(match v
       case Null => false
       case Bool(b) => b
       case Int(i) => i != 0
       case Str(s) => s != "")
  }

  /** A Date or Datetime field, as a day or second number: a falsy value
      other than a number leaves it empty; date text is not read. */
  function AsDate(key: string, v: Value): (r: Result<Option<int>>)
    ensures r.Ok? <==> v.Int? || !Truthy(v)
    ensures v.Int? ==> r == Ok(Some(v.i))
    ensures !v.Int? && !Truthy(v) ==> r == Ok(None)
  {
    match v
    case Int(d) => Ok(Some(d))
    case Null => Ok(None)
    case Bool(b) => if b then Err(WrongValue(key)) else Ok(None)
    case Str(s) => if s == "" then Ok(None) else Err(WrongValue(key))
  }

  /** An integer written to a text field and read back by an Integer
      field gives the integer again. */
  lemma TextThenInt(key: string, i: int)
    ensures AsInt(key, Str(AsText(key, Int(i)).value)) == Ok(i)
  {
    var t := AsText(key, Int(i)).value;
    assert t == IntToString(i) && t != "";
  }
}
