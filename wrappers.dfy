/** The optional value used for Go's nil-able pointers. */
module Wrappers {

  datatype Option<+T> = None | Some(value: T)

  /** How many values an optional holds: 0 or 1. */
  function Count<T>(o: Option<T>): (n: nat)
    ensures n <= 1
    ensures n == 1 <==> o.Some?
  {
    if o.Some? then 1 else 0
  }
}
