/**
  * Rust's fixed-width integers and the operators on them that the tuning code
  * uses. Dafny's `/` and `%` are Euclidean; Rust's `/` truncates toward zero and
  * its `%` takes the sign of the dividend, so both are written out here.
  */
module RustInt {

  const I32Min: int := -0x8000_0000
  const I32Max: int := 0x7FFF_FFFF
  const I64Min: int := -0x8000_0000_0000_0000
  const I64Max: int := 0x7FFF_FFFF_FFFF_FFFF

  type i32 = x: int | I32Min <= x <= I32Max
  type i64 = x: int | I64Min <= x <= I64Max

  predicate InI32(x: int) { I32Min <= x <= I32Max }

  function Abs(x: int): nat { if x < 0 then -x else x }

  /**
    * Rust's integer `/` by a positive divisor: the quotient rounded toward
    * zero (the only divisor in this program is 12; Rust's `MIN / -1` and
    * division-by-zero panics therefore never arise). The remainder it leaves
    * is smaller than the divisor and has the sign of the dividend, which is
    * what tells it apart from floor division.
    */
  function TruncDiv(a: int, b: int): (q: int)
    requires b > 0
    ensures Abs(a - q * b) < b
    ensures a - q * b == 0 || (a - q * b < 0 <==> a < 0)
  {
    if a >= 0 then a / b else -((-a) / b)
  }

  /** Rust's integer `%`: what the truncating quotient leaves over. */
  function TruncRem(a: int, b: int): (r: int)
    requires b > 0
    ensures Abs(r) < b
    ensures r == 0 || (r < 0 <==> a < 0)
  {
    a - b * TruncDiv(a, b)
  }

  /**
    * Rust's `rem_euclid` by a positive divisor: the truncating remainder,
    * moved up by `b` when it is negative. It is the non-negative remainder,
    * i.e. Dafny's Euclidean `%`.
    */
  function RemEuclid(a: int, b: int): (r: int)
    requires b > 0
    ensures 0 <= r < b
    ensures r == a % b
  {
    var q := TruncDiv(a, b);
    var t := TruncRem(a, b);
    var r := if t < 0 then t + b else t;
    EuclideanUnique(a, b, if t < 0 then q - 1 else q, r);
    r
  }

  /** Any quotient/remainder pair with the remainder in `[0, b)` is Dafny's. */
  lemma EuclideanUnique(a: int, b: int, k: int, r: int)
    requires b > 0 && 0 <= r < b && a == b * k + r
    ensures r == a % b && k == a / b
  {
    var k', r' := a / b, a % b;
    assert b * (k - k') == r' - r;
    if k > k' {
      MulAtLeast(b, k - k');
    } else if k < k' {
      MulAtLeast(b, k' - k);
    }
  }

  lemma {:induction false} MulAtLeast(b: nat, d: int)
    requires d >= 1
    ensures b * d >= b
    decreases d
  {
    if d > 1 {
      MulAtLeast(b, d - 1);
      assert b * d == b * (d - 1) + b;
    }
  }

  /** `x as i32` on a wider integer: keep the low 32 bits as two's complement. */
  function CastI32(x: int): (r: i32)
    ensures InI32(x) ==> r == x
    ensures (x - r) % 0x1_0000_0000 == 0
  {
    (x - I32Min) % 0x1_0000_0000 + I32Min
  }
}
