/** Real-number stand-ins for the `f64` arithmetic the copula families use.
    Sums, products, integer powers and the usize-to-i32 cast are written out;
    the transcendental functions (`powf`, `exp`, `ln`) and the non-finite
    outcome of a division by zero have no real-number counterpart and are
    passed in as an `Ops` record, so the model says where they are applied
    but not what they return. */
module F64 {

  /** The operations the model leaves abstract. */
  datatype Ops = Ops(
    powf: (real, real) -> real,   // x.powf(y)
    exp: real -> real,            // x.exp()
    ln: real -> real,             // x.ln()
    divByZero: real -> real)      // x / 0.0, an infinity or NaN in f64

  /** `a / b` in f64: exact when `b` is non-zero, abstract otherwise. */
  function Div(a: real, b: real, ops: Ops): real {
    if b != 0.0 then a / b else ops.divByZero(a)
  }

  /** `f64::max` on non-NaN operands. */
  function Max(a: real, b: real): real {
    if a < b then b else a
  }

  /** `iter().sum()`: the fold of `+` from 0. */
  function Sum(s: seq<real>): real {
    if s == [] then 0.0 else Sum(s[..|s| - 1]) + s[|s| - 1]
  }

  /** `iter().product()`: the fold of `*` from 1. */
  function Product(s: seq<real>): real {
    if s == [] then 1.0 else Product(s[..|s| - 1]) * s[|s| - 1]
  }

  /** `x^k` for a natural exponent. */
  function Pow(x: real, k: nat): real {
    if k == 0 then 1.0 else Pow(x, k - 1) * x
  }

  /** `f64::powi`: a negative exponent gives the reciprocal power. */
  function PowI(x: real, k: int, ops: Ops): real {
    if k >= 0 then Pow(x, k) else Div(1.0, Pow(x, -k), ops)
  }

  const TWO_32: int := 0x1_0000_0000
  const TWO_31: int := 0x8000_0000

  /** `n as i32` for a `usize` n: keeps the low 32 bits, read in two's complement. */
  function AsI32(n: nat): (r: int)
    ensures -TWO_31 <= r < TWO_31
    ensures (r - n) % TWO_32 == 0
    ensures n < TWO_31 ==> r == n
  {
    var low := n % TWO_32;
    if low < TWO_31 then low else low - TWO_32
  }

  predicate InUnitInterval(x: real) {
    0.0 <= x <= 1.0
  }

  /** A product of values in [0,1] is itself in [0,1]. */
  lemma {:induction false} ProductInUnit(s: seq<real>)
    requires forall i :: 0 <= i < |s| ==> InUnitInterval(s[i])
    ensures InUnitInterval(Product(s))
  {
    if s != [] {
      var init := s[..|s| - 1];
      assert forall i :: 0 <= i < |init| ==> init[i] == s[i];
      ProductInUnit(init);
      var p, x := Product(init), s[|s| - 1];
      assert 0.0 <= p * x;
      assert p * x <= p * 1.0;
    }
  }

  /** A product of positive values is positive. */
  lemma {:induction false} ProductPositive(s: seq<real>)
    requires forall i :: 0 <= i < |s| ==> s[i] > 0.0
    ensures Product(s) > 0.0
  {
    if s != [] {
      var init := s[..|s| - 1];
      assert forall i :: 0 <= i < |init| ==> init[i] == s[i];
      ProductPositive(init);
    }
  }
}
