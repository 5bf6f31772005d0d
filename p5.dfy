/** The few p5.js library helpers the sketches rely on, over exact reals. */
module P5 {

  /** A source of `Math.random()` draws: the i-th draw of a run is `rng(i)`.
      Every generator takes the position of its first draw and returns the
      position after its last one. */
  type Stream = nat -> real

  /** `Math.random()` always lies in [0, 1). */
  ghost predicate IsUnitStream(rng: Stream)
  {
    forall i: nat :: 0.0 <= rng(i) < 1.0
  }

  /** p5 `random(min, max)` for `min <= max`: the unit draw `u` scaled onto [min, max). */
  function Uniform(u: real, min: real, max: real): (r: real)
    ensures 0.0 <= u < 1.0 && min <= max ==> min <= r <= max
    ensures 0.0 <= u < 1.0 && min < max ==> r < max
    ensures min == max ==> r == min
  {
    var span := max - min;
    assert 0.0 <= u < 1.0 && min <= max ==> 0.0 <= u * span <= span && (min < max ==> u * span < span) by {
      if 0.0 <= u < 1.0 && min <= max {
        ScaledBelow(u, span);
      }
    }
    min + u * span
  }

  /** A unit draw scales a non-negative span to no more than the span, and a positive one to less. */
  lemma ScaledBelow(u: real, d: real)
    requires 0.0 <= u < 1.0 && d >= 0.0
    ensures 0.0 <= u * d <= d
    ensures d > 0.0 ==> u * d < d
  {
    MulNonneg(u, d);
    MulNonneg(1.0 - u, d);
    assert (1.0 - u) * d == d - u * d;
    if d > 0.0 {
      MulPos(1.0 - u, d);
    }
  }

  lemma MulPos(a: real, b: real)
    requires a > 0.0 && b > 0.0
    ensures a * b > 0.0
  {
  }

  lemma MulNonneg(a: real, b: real)
    requires a >= 0.0 && b >= 0.0
    ensures a * b >= 0.0
  {
    if a > 0.0 && b > 0.0 { MulPos(a, b); }
  }

  lemma SquareNonneg(a: real)
    ensures a * a >= 0.0
  {
    if a > 0.0 { MulPos(a, a); } else if a < 0.0 { MulPos(-a, -a); }
  }

  /** p5 `round(x)`, which is `Math.round`: the nearest integer, halves rounded up. */
  function Round(x: real): (r: int)
    ensures r as real - 0.5 <= x < r as real + 0.5
  {
    (x + 0.5).Floor
  }

  /** Rounding is monotone. */
  lemma RoundMonotone(x: real, y: real)
    requires x <= y
    ensures Round(x) <= Round(y)
  {
  }

  /** Rounding leaves an integer alone. */
  lemma RoundInt(n: int)
    ensures Round(n as real) == n
  {
  }

  /** p5 `constrain(n, low, high)`, which is `max(min(n, high), low)`. */
  function Constrain(n: real, low: real, high: real): (r: real)
    ensures low <= high ==> low <= r <= high
    ensures low <= n <= high ==> r == n
    ensures n < low ==> r == low
    ensures low <= high < n ==> r == high
  {
    var m := if n < high then n else high;
    if m < low then low else m
  }
}
