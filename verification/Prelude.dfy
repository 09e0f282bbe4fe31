/** Small shared vocabulary: optional values and the real-number helpers that
    stand for the `f64` operations of the audio crates. */
module Prelude {
  datatype Option<+T> = None | Some(value: T)

  /** `f64::abs`. */
  function Abs(x: real): real {
    if x < 0.0 then -x else x
  }

  /** `x as i64`: truncation toward zero. */
  function Trunc(x: real): int {
    if x >= 0.0 then x.Floor else -((-x).Floor)
  }

  /** `f64::round` on a non-negative value: halves go away from zero. */
  function Round(x: real): int {
    (x + 0.5).Floor
  }

  function Min(a: int, b: int): int {
    if a <= b then a else b
  }

  function Max(a: int, b: int): int {
    if a >= b then a else b
  }

  /** `saturating_sub` on unsigned integers. */
  function SatSub(a: nat, b: nat): nat {
    if a >= b then a - b else 0
  }

  lemma {:induction false} MulOrder(x: real, y: real, b: real)
    requires b > 0.0 && x * b <= y * b
    ensures x <= y
  {
    assert (y - x) * b >= 0.0;
  }

  /** A quotient lies between two bounds when its numerator lies between their multiples. */
  lemma {:induction false} DivBetween(a: real, b: real, lo: real, hi: real)
    requires b > 0.0
    requires lo * b <= a <= hi * b
    ensures lo <= a / b <= hi
  {
    var q := a / b;
    assert q * b == a;
    MulOrder(lo, q, b);
    MulOrder(q, hi, b);
  }

  /** A subset is no larger. */
  lemma {:induction false} SubsetSize<T>(a: set<T>, b: set<T>)
    requires a <= b
    ensures |a| <= |b|
  {
    assert b == a + (b - a);
  }
}
