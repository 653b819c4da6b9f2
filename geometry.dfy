/** Numbers and library mathematics shared by the whole game.

    Coordinates, velocities and angles are Dafny `real`s: the game's IEEE
    doubles are idealised, so no rounding is modelled.  The game calls
    Math.atan2, Math.sin, Math.cos and Math.hypot; the model does not define
    them but receives them as a `Trig` value, so every result that depends on
    them is stated in terms of the values they return. */
module Geometry {

  /** Math.PI, the double nearest to pi. */
  const PI: real := 3.141592653589793

  /** One full turn, Math.PI*2 (doubling is exact, so TAU == 2.0 * PI). */
  const TAU: real := 6.283185307179586

  datatype Option<T> = None | Some(value: T)

  /** The library functions the game calls, supplied by the host. */
  datatype Trig = Trig(
    atan2: (real, real) -> real,
    sin: real -> real,
    cos: real -> real,
    hypot: (real, real) -> real)

  /** `hypot` returns the Euclidean length of its argument vector. */
  ghost predicate IsHypot(hypot: (real, real) -> real) {
    forall a, b :: 0.0 <= hypot(a, b) && hypot(a, b) * hypot(a, b) == a * a + b * b
  }

  function Abs(x: real): real {
    if x < 0.0 then -x else x
  }

  function Max(a: int, b: int): int {
    if a < b then b else a
  }

  /** `a` and `b` differ by a whole number of turns. */
  predicate SameHeading(a: real, b: real) {
    ((a - b) / TAU).Floor as real == (a - b) / TAU
  }

  /** The heading in (-pi, pi] that is `d` up to whole turns. */
  function Wrap(d: real): (r: real)
    ensures -PI < r <= PI
    ensures SameHeading(r, d)
  {
    var k := ((PI - d) / TAU).Floor;
    d + TAU * k as real
  }

  /** A heading in (-pi, pi] is fixed by its value up to whole turns. */
  lemma WrapUnique(d: real, r: real)
    requires -PI < r <= PI
    requires SameHeading(r, d)
    ensures r == Wrap(d)
  {
    var w := Wrap(d);
    var n := ((r - d) / TAU).Floor;
    var m := ((w - d) / TAU).Floor;
    assert r - d == TAU * n as real;
    assert w - d == TAU * m as real;
    assert r - w == TAU * (n - m) as real;
    assert -1 < n - m < 1;
  }

  lemma SameHeadingTurn(a: real, b: real)
    requires SameHeading(a, b)
    ensures SameHeading(a + TAU, b) && SameHeading(a - TAU, b)
  {
    var q := (a - b) / TAU;
    assert (a + TAU - b) / TAU == q + 1.0;
    assert (a - TAU - b) / TAU == q - 1.0;
    assert (q + 1.0).Floor == q.Floor + 1;
    assert (q - 1.0).Floor == q.Floor - 1;
  }

  /** The two `while` loops of the auto-helm: add whole turns while the
      heading difference is at most -pi, then subtract whole turns while it
      exceeds pi.  The result is the one heading in (-pi, pi] that differs
      from `d` by whole turns. */
  method NormalizeAngle(d: real) returns (r: real)
    ensures -PI < r <= PI
    ensures r == Wrap(d)
  {
    r := d;
    assert SameHeading(r, d) by { assert (r - d) / TAU == 0.0; }
    while r <= -PI
      invariant SameHeading(r, d)
      decreases (-PI - r).Floor
    {
      SameHeadingTurn(r, d);
      r := r + TAU;
    }
    while r > PI
      invariant -PI < r
      invariant SameHeading(r, d)
      decreases r.Floor
    {
      SameHeadingTurn(r, d);
      r := r - TAU;
    }
    WrapUnique(d, r);
  }
}
