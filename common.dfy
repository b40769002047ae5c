/** Small value helpers shared by every module of the model. */
module Common {

  /** A value that may be absent: an optional JSON field, `undefined`, or `null`. */
  datatype Option<+T> = None | Some(value: T)

  /** JavaScript's `s || fallback` on a string: an empty string is falsy. */
  function OrElse(s: string, fallback: string): (r: string)
    ensures s != "" ==> r == s
    ensures s == "" ==> r == fallback
  {
    if s == "" then fallback else s
  }

  /** JavaScript's `o?.x || fallback` where `x` is a string that may be missing. */
  function NameOr(o: Option<string>, fallback: string): (r: string)
    ensures o.Some? && o.value != "" ==> r == o.value
    ensures o.None? || o.value == "" ==> r == fallback
  {
    match o
    case Some(s) => OrElse(s, fallback)
    case None => fallback
  }
}
