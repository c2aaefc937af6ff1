/** The nullable values of the plugin's parameters and of its response record. */
module Wrappers {

  datatype Option<+T> = None | Some(value: T)

  /** JavaScript arithmetic on a nullable number: `null` counts as 0 in `+` and `-`. */
  function JsNumber(n: Option<int>): (v: int)
    ensures n.Some? ==> v == n.value
    ensures n.None? ==> v == 0
  {
    match n
    case None => 0
    case Some(x) => x
  }
}
