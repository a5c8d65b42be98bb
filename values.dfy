/** Runtime values of the query language, and the success-or-failure result
    that every evaluation returns. */
module Values {

  datatype Option<+T> = None | Some(value: T)

  /** Failures are values: an evaluation returns `Ok` or `Err`, never unwinds. */
  datatype Result<+T, +E> = Ok(value: T) | Err(error: E)

  /** A small closed set of runtime kinds: strings, integers and objects
      (string-keyed maps of values). Integers only flow through the core,
      no arithmetic is done on them. */
  datatype Value =
    | VString(s: string)
    | VInt(i: int)
    | VObject(fields: map<string, Value>)

  /** The name of a value's kind, as used in type-mismatch failures. */
  function KindName(v: Value): string
  {
    match v
    case VString(_) => "string"
    case VInt(_) => "number"
    case VObject(_) => "object"
  }

  /** Descends through object fields along `path`; `None` when a segment is
      missing or when a non-object is met before the path is used up. */
  function Lookup(v: Value, path: seq<string>): (r: Option<Value>)
    ensures path == [] ==> r == Some(v)
    ensures path != [] && r.Some? ==> v.VObject? && path[0] in v.fields
    ensures |path| == 1 ==> (r.Some? <==> v.VObject? && path[0] in v.fields)
    ensures |path| == 1 && r.Some? ==> r.value == v.fields[path[0]]
    decreases path
  {
    if path == [] then Some(v)
    else match v
      case VObject(fields) =>
        if path[0] in fields then Lookup(fields[path[0]], path[1..]) else None
      case _ => None
  }

  /** Following `p` and then `q` is following `p + q`. */
  lemma {:induction false} LookupAppend(v: Value, p: seq<string>, q: seq<string>)
    ensures Lookup(v, p + q) ==
            (match Lookup(v, p) case None => None case Some(w) => Lookup(w, q))
    decreases p
  {
    if p == [] {
      assert p + q == q;
    } else {
      assert (p + q)[0] == p[0];
      assert (p + q)[1..] == p[1..] + q;
      match v
      case VObject(fields) =>
        if p[0] in fields {
          LookupAppend(fields[p[0]], p[1..], q);
        }
      case _ =>
    }
  }
}
