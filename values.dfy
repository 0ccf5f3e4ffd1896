/** Python values as they occur in channel records and in the dictionaries
    `to_dict` builds from them.  Numbers are kept abstract (`int`): nothing
    here computes with them, so the int/float distinction does not matter. */
module Values {

  datatype Option<+T> = None | Some(value: T)

  /** A Python object as `asdict` hands it over: `None`, a bool, a number,
      a string, a tuple or a list of further values. */
  datatype Value =
    | Null
    | Bool(b: bool)
    | Num(n: int)
    | Str(s: string)
    | Tuple(elems: seq<Value>)
    | List(elems: seq<Value>)

  /** `list(val)` when `type(val) == tuple`, and `val` itself otherwise
      (only the outermost tuple is rewritten; nested ones stay tuples). */
  function AsList(v: Value): (r: Value)
    ensures !r.Tuple?
    ensures v.Tuple? ==> r.List? && r.elems == v.elems
    ensures !v.Tuple? ==> r == v
  {
    if v.Tuple? then List(v.elems) else v
  }
}
