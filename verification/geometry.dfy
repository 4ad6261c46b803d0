/**
 * Locations on a flat plane and the Euclidean distance between them.
 *
 * The program computes `Math.sqrt(dx * dx + dy * dy)` over doubles. Dafny's
 * reals have no square root, so a distance is never computed here: it is a
 * value `d` that a caller supplies, and `IsDistance(a, b, d)` says that `d` is
 * the non-negative root of the squared coordinate difference. Every fact about
 * fares is proved from that characterisation alone.
 */
module Geometry {

  /** An immutable named point; latitude and longitude are plain plane coordinates. */
  datatype Location = Location(name: string, latitude: real, longitude: real)

  /** Two locations with the same coordinates, whatever their names. */
  predicate SameSpot(a: Location, b: Location) {
    a.latitude == b.latitude && a.longitude == b.longitude
  }

  /** The radicand of `distanceTo`: `dx * dx + dy * dy`. */
  function SquaredDistance(a: Location, b: Location): (sq: real)
    ensures 0.0 <= sq
    ensures sq == 0.0 <==> SameSpot(a, b)
  {
    var dx := a.latitude - b.latitude;
    var dy := a.longitude - b.longitude;
    SquareNonNegative(dx);
    SquareNonNegative(dy);
    SquareZero(dx);
    SquareZero(dy);
    dx * dx + dy * dy
  }

  /** `d` is what `a.distanceTo(b)` returns: the non-negative square root of the radicand. */
  predicate IsDistance(a: Location, b: Location, d: real) {
    0.0 <= d && d * d == SquaredDistance(a, b)
  }

  /** Squaring is strictly increasing on the non-negative reals. */
  lemma SquareStrictlyIncreasing(x: real, y: real)
    requires 0.0 <= x < y
    ensures x * x < y * y
  {
    var gap := y - x;
    assert y * y == x * x + gap * (x + y);
    assert 0.0 < gap * (x + y);
  }

  lemma SquareOfNegation(x: real)
    ensures (-x) * (-x) == x * x
  {
  }

  lemma SquareNonNegative(x: real)
    ensures 0.0 <= x * x
  {
    if x < 0.0 {
      SquareOfNegation(x);
      SquareStrictlyIncreasing(0.0, -x);
    }
  }

  lemma SquareZero(x: real)
    ensures x * x == 0.0 <==> x == 0.0
  {
    if 0.0 < x {
      SquareStrictlyIncreasing(0.0, x);
    } else if x < 0.0 {
      SquareOfNegation(x);
      SquareStrictlyIncreasing(0.0, -x);
    }
  }

  /** The distance does not depend on the direction of travel. */
  lemma DistanceSymmetric(a: Location, b: Location, d: real)
    ensures IsDistance(a, b, d) <==> IsDistance(b, a, d)
  {
    SquareOfNegation(a.latitude - b.latitude);
    SquareOfNegation(a.longitude - b.longitude);
  }

  /** The distance between two locations is a single value: non-negative roots are unique. */
  lemma DistanceUnique(a: Location, b: Location, d: real, e: real)
    requires IsDistance(a, b, d) && IsDistance(a, b, e)
    ensures d == e
  {
    if d < e {
      SquareStrictlyIncreasing(d, e);
    } else if e < d {
      SquareStrictlyIncreasing(e, d);
    }
  }

  /** The distance is zero exactly when the two locations share their coordinates. */
  lemma ZeroDistanceIffSameSpot(a: Location, b: Location, d: real)
    requires IsDistance(a, b, d)
    ensures d == 0.0 <==> SameSpot(a, b)
  {
    SquareZero(d);
  }

  /** Every pair of locations at the same spot has distance zero, so such a distance exists. */
  lemma SameSpotIsDistanceZero(a: Location, b: Location)
    requires SameSpot(a, b)
    ensures IsDistance(a, b, 0.0)
  {
  }
}
