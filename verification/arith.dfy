/** Facts about integer multiplication and Euclidean division that the
    geometry proofs need (Python's `//` and `%` agree with Dafny's `/` and
    `%` whenever the divisor is positive, which it always is here). */
module Arith {

  function Min(a: int, b: int): int
  {
    if a <= b then a else b
  }

  /** Python's `max(lo, min(hi, v))`. */
  function Clamp(v: int, lo: int, hi: int): (r: int)
    ensures lo <= hi ==> lo <= r <= hi
    ensures lo <= v <= hi ==> r == v
    ensures v < lo ==> r == lo
    ensures lo <= hi < v ==> r == hi
  {
    var capped := Min(hi, v);
    if lo >= capped then lo else capped
  }

  /** A product of two positive factors is at least its second factor. */
  lemma {:induction false} ProductAtLeast(k: int, d: int)
    requires k >= 1 && d >= 1
    ensures k * d >= d
    decreases k
  {
    if k > 1 {
      ProductAtLeast(k - 1, d);
      assert k * d == (k - 1) * d + d;
    }
  }

  /** Multiplying by a positive number keeps the order. */
  lemma MulMonotone(a: int, b: int, d: int)
    requires a <= b && d >= 1
    ensures a * d <= b * d
  {
    if a < b {
      ProductAtLeast(b - a, d);
      assert b * d - a * d == (b - a) * d;
    }
  }

  /** Euclidean division of `q * d + r` by `d` when `0 <= r < d`. */
  lemma DivModOf(a: int, d: int, q: int, r: int)
    requires d > 0 && 0 <= r < d && a == q * d + r
    ensures a / d == q && a % d == r
  {
    var q', r' := a / d, a % d;
    assert q' * d + r' == q * d + r;
    if q' > q {
      ProductAtLeast(q' - q, d);
      assert false;
    } else if q' < q {
      ProductAtLeast(q - q', d);
      assert false;
    }
  }
}
