/** Shared vocabulary: an optional value, clamping, and the two rounding rules
    the system relies on (Python's round-half-to-even and JavaScript's
    Math.round, which rounds halves upward), stated over exact reals. */
module Common {

  /** A value that may be missing: a failed parse, a missing key, NaN. */
  datatype Option<+T> = None | Some(value: T) {
    function GetOr(default: T): T {
      match this
      case Some(v) => v
      case None => default
    }
  }

  /** `max(lo, min(hi, x))`, the clamp used throughout the generators. */
  function Clamp(lo: real, hi: real, x: real): (r: real)
    requires lo <= hi
    ensures lo <= r <= hi
    ensures lo <= x <= hi ==> r == x
    ensures x < lo ==> r == lo
    ensures hi < x ==> r == hi
  {
    if x < lo then lo else if hi < x then hi else x
  }

  /** Clamping never reverses the order of two values. */
  lemma ClampMonotone(lo: real, hi: real, x: real, y: real)
    requires lo <= hi && x <= y
    ensures Clamp(lo, hi, x) <= Clamp(lo, hi, y)
  {
  }

  /** Python's built-in `round` to an integer: nearest integer, ties to even. */
  function RoundHalfEven(x: real): (r: int)
    ensures r as real - 0.5 <= x <= r as real + 0.5
    ensures x == r as real - 0.5 || x == r as real + 0.5 ==> r % 2 == 0
  {
    var f := x.Floor;
    var d := x - f as real;
    if d < 0.5 then f
    else if d > 0.5 then f + 1
    else if f % 2 == 0 then f
    else f + 1
  }

  /** Rounding half to even is monotone. */
  lemma RoundHalfEvenMonotone(x: real, y: real)
    requires x <= y
    ensures RoundHalfEven(x) <= RoundHalfEven(y)
  {
  }

  /** JavaScript's `Math.round`: nearest integer, ties toward positive infinity. */
  function RoundHalfUp(x: real): (r: int)
    ensures r as real - 0.5 <= x < r as real + 0.5
  {
    (x + 0.5).Floor
  }

  /** Python's `round(x, 3)`: the nearest multiple of 0.001, ties to even. */
  function RoundThousandths(x: real): (r: real)
    ensures r - 0.0005 <= x <= r + 0.0005
  {
    RoundHalfEven(x * 1000.0) as real / 1000.0
  }

  /** A uniform integer draw `randint(lo, hi + 1)`: the random source is the
      parameter `draw`, and every draw lands in `[lo, hi]`. */
  function Draw(lo: int, hi: int, draw: nat): (r: int)
    requires lo <= hi
    ensures lo <= r <= hi
  {
    lo + draw % (hi - lo + 1)
  }

  /** Every value of the range can be drawn, so the draw's support is exactly
      `[lo, hi]`. */
  lemma DrawCoversRange(lo: int, hi: int, v: int)
    requires lo <= v <= hi
    ensures exists draw: nat :: Draw(lo, hi, draw) == v
  {
    assert Draw(lo, hi, v - lo) == v;
  }

  /** Multiplying by a non-negative factor keeps order. */
  lemma MulLeftMonotone(p: real, a: real, b: real)
    requires p >= 0.0 && a <= b
    ensures p * a <= p * b
  {
    assert p * b - p * a == p * (b - a);
  }
}
