/** Quantisation of an entry's delta to quarter steps (util/snapToQuarter.kt). */
module QuarterSnap {

  /** `kotlin.math.round`: the nearest integer, ties to the even one. */
  function RoundHalfEven(x: real): (n: int)
    ensures n as real - 0.5 <= x <= n as real + 0.5
    ensures x == n as real + 0.5 || x == n as real - 0.5 ==> n % 2 == 0
  {
    var f := x.Floor;
    var frac := x - f as real;
    if frac < 0.5 then f
    else if frac > 0.5 then f + 1
    else if f % 2 == 0 then f
    else f + 1
  }

  /** The nearest integer is unique except at a tie, where the even one is taken. */
  lemma RoundUnique(x: real, n: int)
    requires n as real - 0.5 < x < n as real + 0.5
    ensures RoundHalfEven(x) == n
  {
  }

  lemma RoundOfInteger(n: int)
    ensures RoundHalfEven(n as real) == n
  {
    RoundUnique(n as real, n);
  }

  lemma {:induction false} RoundMonotone(x: real, y: real)
    requires x <= y
    ensures RoundHalfEven(x) <= RoundHalfEven(y)
  {
  }

  function Abs(x: real): real {
    if x < 0.0 then -x else x
  }

  /** `snapToQuarter`: round to a multiple of 0.25, write a zero as +0, and
      clamp into [-2, 2]. */
  function SnapToQuarter(value: real): (r: real)
    ensures -2.0 <= r <= 2.0
    ensures (4.0 * r).Floor as real == 4.0 * r
  {
    var step := 0.25;
    var snapped := RoundHalfEven(value / step) as real * step;
    if Abs(snapped) < 0.125 then 0.0
    else if snapped < -2.0 then -2.0
    else if snapped > 2.0 then 2.0
    else snapped
  }

  /** Inside the slider's range a delta moves by at most an eighth. */
  lemma {:induction false} SnapIsNearest(x: real)
    requires -2.0 <= x <= 2.0
    ensures Abs(SnapToQuarter(x) - x) <= 0.125
  {
    var q := RoundHalfEven(x / 0.25);
    RoundMonotone(x / 0.25, 8.0);
    RoundMonotone(-8.0, x / 0.25);
    RoundOfInteger(8);
    RoundOfInteger(-8);
  }

  /** Everything within an eighth of zero becomes exactly zero, the ties at
      plus and minus an eighth included because they round to the even 0. */
  lemma {:induction false} SnapNearZero(x: real)
    requires -0.125 <= x <= 0.125
    ensures SnapToQuarter(x) == 0.0
  {
    RoundMonotone(x / 0.25, 0.5);
    RoundMonotone(-0.5, x / 0.25);
    assert RoundHalfEven(0.5) == 0;
    assert RoundHalfEven(-0.5) == 0;
  }

  /** Out-of-range deltas stick to the nearest end. */
  lemma {:induction false} SnapClamps(x: real)
    ensures x >= 2.0 ==> SnapToQuarter(x) == 2.0
    ensures x <= -2.0 ==> SnapToQuarter(x) == -2.0
  {
    RoundOfInteger(8);
    RoundOfInteger(-8);
    if x >= 2.0 {
      RoundMonotone(8.0, x / 0.25);
    }
    if x <= -2.0 {
      RoundMonotone(x / 0.25, -8.0);
    }
  }

  /** A snapped delta is a fixed point. */
  lemma {:induction false} SnapIdempotent(x: real)
    ensures SnapToQuarter(SnapToQuarter(x)) == SnapToQuarter(x)
  {
    var r := SnapToQuarter(x);
    var q := (4.0 * r).Floor;
    assert r / 0.25 == q as real;
    RoundOfInteger(q);
  }

  /** A larger raw value never snaps to a smaller delta. */
  lemma {:induction false} SnapMonotone(x: real, y: real)
    requires x <= y
    ensures SnapToQuarter(x) <= SnapToQuarter(y)
  {
    RoundMonotone(x / 0.25, y / 0.25);
  }
}
