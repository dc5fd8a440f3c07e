/** Option and Result, in place of Go's nil pointers and error returns. */
module Wrappers {
  datatype Option<+T> = None | Some(value: T)

  datatype Result<+T, +E> = Ok(value: T) | Err(error: E)

  /** There is always a number not yet used. */
  lemma {:induction false} Unused(used: set<nat>) returns (n: nat)
    ensures n !in used && forall m | m in used :: m < n
  {
    if used == {} {
      n := 0;
    } else {
      var m :| m in used;
      var k := Unused(used - {m});
      assert forall x | x in used :: x == m || x in used - {m};
      n := if k <= m then m + 1 else k;
    }
  }
}
