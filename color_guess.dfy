/**
 * Front-colour classification by channel ratio. The source divides one int
 * channel by the other as `float`, so a zero denominator yields +Infinity
 * (non-zero numerator) or NaN (zero numerator) instead of an exception; this
 * module models that IEEE outcome explicitly for non-negative readings.
 */
module ColorGuess {
  import opened Wrappers
  import opened AutoTypes

  /** The outcome of a floating-point division of two non-negative values. */
  datatype Quotient = Finite(q: real) | PositiveInfinity | NaN

  /** `n / (float) d` for non-negative `n` and `d`, without rounding. */
  function FloatDivide(n: nat, d: nat): Quotient {
    if d != 0 then Finite(n as real / d as real)
    else if n != 0 then PositiveInfinity
    else NaN
  }

  /** The comparison `ratio > 2.0f`: true of +Infinity, false of NaN. */
  predicate ExceedsTwo(ratio: Quotient) {
    match ratio
    case Finite(q) => q > 2.0
    case PositiveInfinity => true
    case NaN => false
  }

  /** For a positive denominator the real ratio exceeds 2 exactly when `n > 2d`. */
  lemma RatioExceedsTwo(n: nat, d: nat)
    requires d > 0
    ensures ExceedsTwo(FloatDivide(n, d)) <==> n > 2 * d
  {
    RealRatioExceedsTwo(n as real, d as real);
    assert (2 * d) as real == 2.0 * d as real;
  }

  lemma RealRatioExceedsTwo(x: real, y: real)
    requires y > 0.0
    ensures x / y > 2.0 <==> x > 2.0 * y
  {
    var q := x / y;
    assert q * y == x;
    if q > 2.0 {
      ProductSign(q - 2.0, y);
      assert (q - 2.0) * y == x - 2.0 * y;
    } else if q < 2.0 {
      ProductSign(2.0 - q, y);
      assert (2.0 - q) * y == 2.0 * y - x;
    }
  }

  lemma ProductSign(a: real, b: real)
    requires a > 0.0 && b > 0.0
    ensures a * b > 0.0
  {
  }

  /** The division-based comparison is the cross-multiplied one, zeros included. */
  lemma {:induction false} ExceedsTwoIsCrossMultiplied(n: nat, d: nat)
    ensures ExceedsTwo(FloatDivide(n, d)) <==> n > 2 * d
  {
    if d > 0 {
      RatioExceedsTwo(n, d);
    }
  }

  /**
   * `guessFrontColor`: Red when red/blue exceeds 2, otherwise Blue when
   * blue/red exceeds 2, otherwise no confident guess.
   */
  function GuessFrontColor(red: nat, blue: nat): (r: Option<Color>)
    ensures r == Some(Red) <==> red > 2 * blue
    ensures r == Some(Blue) <==> blue > 2 * red
    ensures r == None <==> red <= 2 * blue && blue <= 2 * red
  {
    ExceedsTwoIsCrossMultiplied(red, blue);
    ExceedsTwoIsCrossMultiplied(blue, red);
    if ExceedsTwo(FloatDivide(red, blue)) then Some(Red)
    else if ExceedsTwo(FloatDivide(blue, red)) then Some(Blue)
    else None
  }

  /** Sample readings, zero channels included. */
  lemma GuessFrontColorExamples()
    ensures GuessFrontColor(10, 1) == Some(Red)
    ensures GuessFrontColor(1, 10) == Some(Blue)
    ensures GuessFrontColor(5, 5) == None
    ensures GuessFrontColor(5, 0) == Some(Red)
    ensures GuessFrontColor(0, 5) == Some(Blue)
    ensures GuessFrontColor(0, 0) == None
    ensures GuessFrontColor(4, 2) == None
  {
  }
}
