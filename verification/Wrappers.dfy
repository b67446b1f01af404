/** Values that may be absent. */
module Wrappers {
  datatype Option<+T> = None | Some(value: T)
}

/** Facts about products that several modules need. */
module Arith {
  lemma {:induction false} MulLess(y: nat, a: nat, b: nat)
    requires a < b
    ensures y * a + y <= y * b
    decreases b
  {
    assert y * b == y * (b - 1) + y;
    if a < b - 1 {
      MulLess(y, a, b - 1);
    }
  }
}
