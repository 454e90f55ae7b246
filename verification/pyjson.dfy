/** The JSON values the web service sends back, as `json.loads` hands them
    to the source, and the few Python operations the source applies to them:
    truthiness, `key in value`, `value[key]`, `str(value)` and iteration. */
module PyJson {

  import opened Results
  import opened Text

  /** A decoded JSON value. Python's `None` is `Null`. */
  datatype Json =
    | Null
    | Bool(b: bool)
    | Int(i: int)
    | Str(s: string)
    | List(items: seq<Json>)
    | Object(fields: map<string, Json>)

  /** Python's `bool(value)`. */
  predicate Truthy(j: Json) {
    match j
    case Null => false
    case Bool(b) => b
    case Int(i) => i != 0
    case Str(s) => s != ""
    case List(items) => |items| > 0
    case Object(fields) => |fields| > 0
  }

  /** Python's `key in container` for a string key: a dict tests its keys, a
      list its elements, a string its substrings; anything else raises TypeError. */
  function Contains(container: Json, key: string): (r: Result<bool>)
    ensures r.Ok? <==> container.Object? || container.List? || container.Str?
    ensures container.Object? ==> r == Ok(key in container.fields)
  {
    match container
    case Object(fields) => Ok(key in fields)
    case List(items) => Ok(Str(key) in items)
    case Str(s) => Ok(Occurs(key, s))
    case _ => Err(WrongType)
  }

  /** Python's `container[key]` for a string key: only a dict can answer;
      a missing key raises KeyError. */
  function Index(container: Json, key: string): (r: Result<Json>)
    ensures r.Ok? <==> container.Object? && key in container.fields
    ensures r.Ok? ==> r.value == container.fields[key]
    ensures container.Object? && r.Err? ==> r.error == KeyMissing(key)
  {
    match container
    case Object(fields) => if key in fields then Ok(fields[key]) else Err(KeyMissing(key))
    case _ => Err(WrongType)
  }

  /** Python's `str(value)` (and what `'%s'` inserts) for scalars; lists and
      dicts are not rendered (see README). */
  function PyStr(j: Json): string {
    match j
    case Null => "None"
    case Bool(b) => if b then "True" else "False"
    case Int(i) => Decimal(i)
    case Str(s) => s
    case List(_) => "<list>"
    case Object(_) => "<dict>"
  }

  /** The elements a `for` loop visits when the source builds one record per
      element of `j`. A list gives its items and the empty string or dict gives
      nothing. Iterating a non-empty string or dict yields strings, and every
      record constructor raises TypeError on a non-empty string, so such a loop
      fails unless each key is the empty string (a dict has at most one), in
      which case it visits one `""`. Numbers, booleans and None cannot be
      iterated. */
  function Elements(j: Json): (r: Result<seq<Json>>)
    ensures j.List? ==> r == Ok(j.items)
    ensures !Truthy(j) && (j.Str? || j.Object?) ==> r == Ok([])
    ensures r.Ok? ==> j.List? || j.Str? || j.Object?
  {
    match j
    case List(items) => Ok(items)
    case Str(s) => if s == "" then Ok([]) else Err(WrongType)
    case Object(fields) =>
      if fields.Keys == {} then Ok([])
      else if fields.Keys == {""} then Ok([Str("")])
      else Err(WrongType)
    case _ => Err(WrongType)
  }
}
