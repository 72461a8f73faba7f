/** Random draws of the generator, passed in as explicit values.
  *
  * The generator draws from Python's `random` module: `uniform(a, b)`, which is
  * `a + (b - a) * random()` with `random()` in [0, 1), and `randrange(a, b)`, an
  * integer in [a, b). Here a `random()` value is a `Fraction` parameter and a
  * `randrange` value is an `int` parameter whose range the caller's `requires`
  * states; the pseudo-random generator itself is not modelled.
  */
module Draws {

  /** One value of `random()`: a real in [0, 1). */
  type Fraction = t: real | 0.0 <= t < 1.0

  /** `v` lies in the closed interval spanned by `a` and `b`, whichever is larger. */
  predicate Between(a: real, b: real, v: real) {
    if a <= b then a <= v <= b else b <= v <= a
  }

  /** `uniform(a, b)` fed with the fraction `t`. The source never checks `a <= b`:
    * an inverted pair yields a value in [b, a] instead. */
  function Uniform(a: real, b: real, t: Fraction): (r: real)
    ensures Between(a, b, r)
    ensures r == b ==> a == b
    ensures t == 0.0 ==> r == a
  {
    var w := b - a;
    var wt := w * t;
    ScaledFractionBounds(w, t, wt);
    a + wt
  }

  /** A width scaled by a fraction lies between 0 and the width, and reaches the
    * width only when the width is 0. */
  lemma ScaledFractionBounds(w: real, t: Fraction, wt: real)
    requires wt == w * t
    ensures 0.0 <= w ==> 0.0 <= wt <= w
    ensures w <= 0.0 ==> w <= wt <= 0.0
    ensures wt == w ==> w == 0.0
    ensures t == 0.0 ==> wt == 0.0
  {
    var m := if w < 0.0 then -w else w;
    MulNonNegative(m, t);
    MulPositive(m, 1.0 - t);
    assert m * t + m * (1.0 - t) == m;
    if w < 0.0 {
      assert wt == -(m * t);
    }
  }

  lemma MulNonNegative(x: real, y: real)
    requires 0.0 <= x && 0.0 <= y
    ensures 0.0 <= x * y
  {
  }

  lemma MulPositive(x: real, y: real)
    requires 0.0 <= x && 0.0 < y
    ensures 0.0 <= x * y
    ensures 0.0 < x ==> 0.0 < x * y
  {
  }

  /** Shrinking a non-negative width `w` first by `s` and then the remainder by
    * `u` keeps both parts inside the width. */
  lemma ScaledTwiceBounds(w: real, s: Fraction, u: Fraction, head: real, tail: real)
    requires 0.0 <= w && head == w * s && tail == w * (1.0 - s) * u
    ensures 0.0 <= head && 0.0 <= tail
    ensures head + tail <= w
  {
    var v := w * (1.0 - s);
    ScaledFractionBounds(w, s, head);
    assert head + v == w;
    assert 0.0 <= v;
    ScaledFractionBounds(v, u, tail);
  }
}
