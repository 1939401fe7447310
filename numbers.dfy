/**
 * The Number type (`src/core/numbers.rs`). An IEEE-754 double is kept
 * abstract: the equality operations only ever ask whether a value is NaN,
 * a zero (and of which sign) or something else, so a finite non-zero double
 * is represented by the real number it denotes.
 */
module Numbers {

  type NonZeroReal = r: real | r != 0.0 witness 1.0

  datatype F64 =
    | NaN
    | Zero(negative: bool)
    | Infinity(negative: bool)
    | Finite(v: NonZeroReal)

  function Pow2(n: nat): (r: nat)
    ensures r >= 1
  {
    if n == 0 then 1 else 2 * Pow2(n - 1)
  }

  /** `MAX_SAFE_INTEGER`, the largest integer n such that n and n + 1 are both exact doubles. */
  const MaxSafeInteger: F64 := Finite(9_007_199_254_740_991.0)

  lemma {:induction false} Pow2Add(a: nat, b: nat)
    ensures Pow2(a + b) == Pow2(a) * Pow2(b)
  {
    if a > 0 {
      Pow2Add(a - 1, b);
    }
  }

  lemma MaxSafeIntegerIsTwoToThe53MinusOne()
    ensures MaxSafeInteger == Finite((Pow2(53) - 1) as real)
  {
    assert Pow2(8) == 256;
    Pow2Add(8, 8);
    Pow2Add(16, 16);
    Pow2Add(32, 16);
    Pow2Add(48, 5);
    assert Pow2(5) == 32;
  }

  /**
   * Rust's `==` on `f64`: IEEE-754 equality. It is structural equality
   * except that NaN equals nothing and the two zeros are equal.
   */
  predicate FloatEq(x: F64, y: F64)
    ensures FloatEq(x, y) <==> x != NaN && y != NaN && (x == y || (x.Zero? && y.Zero?))
  {
    match (x, y)
    case (Zero(_), Zero(_)) => true
    case (Infinity(a), Infinity(b)) => a == b
    case (Finite(a), Finite(b)) => a == b
    case _ => false
  }

  /** `is_sign_negative`; the sign bit of a NaN is not modelled and reads as positive. */
  predicate SignNegative(x: F64) {
    match x
    case NaN => false
    case Zero(negative) => negative
    case Infinity(negative) => negative
    case Finite(v) => v < 0.0
  }

  predicate IsNaN(x: F64) {
    x.NaN?
  }

  predicate IsInf(x: F64) {
    x.Infinity?
  }

  predicate IsFinite(x: F64) {
    !IsNaN(x) && !IsInf(x)
  }

  predicate IsPosInf(x: F64) {
    FloatEq(x, Infinity(false))
  }

  predicate IsNegInf(x: F64) {
    FloatEq(x, Infinity(true))
  }

  /** `value == 0.0`, true of both zeros. */
  predicate IsZero(x: F64) {
    FloatEq(x, Zero(false))
  }

  predicate IsPosZero(x: F64) {
    FloatEq(x, Zero(false)) && !SignNegative(x)
  }

  predicate IsNegZero(x: F64) {
    FloatEq(x, Zero(false)) && SignNegative(x)
  }

  /** The zero classifiers: both zeros are zeros, and the signed tests split them. */
  lemma ZeroClassifiers(x: F64)
    ensures IsZero(x) <==> x.Zero?
    ensures IsPosZero(x) <==> x == Zero(false)
    ensures IsNegZero(x) <==> x == Zero(true)
    ensures IsZero(x) <==> (IsPosZero(x) || IsNegZero(x))
    ensures !(IsPosZero(x) && IsNegZero(x))
    ensures IsPosInf(x) <==> x == Infinity(false)
    ensures IsNegInf(x) <==> x == Infinity(true)
    ensures IsNaN(NaN) && !IsNaN(Zero(false)) && !IsZero(Finite(1.0))
  {
  }

  /** Number::equal (ECMA-262 section 6.1.6.1.13), the comparison behind `===`. */
  function Equal(x: F64, y: F64): (r: bool)
    ensures (IsNaN(x) || IsNaN(y)) ==> !r
    ensures IsZero(x) && IsZero(y) ==> r
    ensures r <==> FloatEq(x, y)
  {
    if IsNaN(x) || IsNaN(y) then
      false
    else if IsZero(x) && IsZero(y) then
      true
    else
      FloatEq(x, y)
  }

  /** Number::sameValue (ECMA-262 section 6.1.6.1.14): identity of the abstract value. */
  function SameValue(x: F64, y: F64): (r: bool)
    ensures IsNaN(x) && IsNaN(y) ==> r
    ensures r <==> x == y
  {
    if IsNaN(x) && IsNaN(y) then
      true
    else if IsZero(x) && IsZero(y) then
      (IsNegZero(x) && IsNegZero(y)) || (IsPosZero(x) && IsPosZero(y))
    else
      FloatEq(x, y)
  }

  /** Number::sameValueZero (ECMA-262 section 6.1.6.1.15): like SameValue, but the zeros are one. */
  function SameValueZero(x: F64, y: F64): (r: bool)
    ensures IsNaN(x) && IsNaN(y) ==> r
    ensures IsZero(x) && IsZero(y) ==> r
    ensures r <==> x == y || (x.Zero? && y.Zero?)
  {
    if IsNaN(x) && IsNaN(y) then
      true
    else if IsZero(x) && IsZero(y) then
      true
    else
      FloatEq(x, y)
  }

  /** Away from NaN and the pair of zeros, the three comparisons are plain `==`. */
  lemma ComparisonsAgreeOffNaNAndZero(x: F64, y: F64)
    requires !IsNaN(x) && !IsNaN(y) && !(IsZero(x) && IsZero(y))
    ensures Equal(x, y) == FloatEq(x, y)
    ensures SameValue(x, y) == FloatEq(x, y)
    ensures SameValueZero(x, y) == FloatEq(x, y)
  {
  }

  /** The three comparisons differ exactly on NaN and on the signed zeros. */
  lemma ComparisonsOnNaNAndZeros()
    ensures !Equal(NaN, NaN) && SameValue(NaN, NaN) && SameValueZero(NaN, NaN)
    ensures Equal(Zero(false), Zero(true)) && !SameValue(Zero(false), Zero(true))
    ensures SameValueZero(Zero(false), Zero(true))
    ensures SameValue(Zero(true), Zero(true)) && SameValue(Zero(false), Zero(false))
  {
  }
}
