/** ShipPositionCalculator (ShipPositionCalculator.cs). The dead-reckoning step (lines 17-45:
    double-precision Sin, Cos, Asin and Atan2 and the decimal/double casts) is a parameter of
    the model, a Projection; the longitude normalisation that follows it is modelled exactly.
    Decimal arithmetic is modelled by `real`: a decimal obtained from a double carries at most
    15 significant digits, so subtracting or adding 360 to it is exact. */
module ShipPositionCalculator {

  /** (latitude, longitude, velocity in knots, heading in degrees, interval in seconds) to the
      projected (latitude, longitude) in degrees, before normalisation. */
  type Projection = (real, real, real, int, real) -> (real, real)

  /** The number of whole turns the two normalisation loops remove from a longitude: the first
      loop subtracts 360 ceil((lon - 180) / 360) times when lon > 180, the second adds 360
      ceil((-180 - lon) / 360) times when lon < -180. */
  function Turns(lon: real): int {
    if lon > 180.0 then -((180.0 - lon) / 360.0).Floor
    else if lon < -180.0 then ((lon + 180.0) / 360.0).Floor
    else 0
  }

  /** The longitude the loops end with. */
  function Normalized(lon: real): real {
    lon - 360.0 * Turns(lon) as real
  }

  /** The normalised longitude lies in [-180, 180]; coming from above 180 it lies in
      (-180, 180], from below -180 in [-180, 180). */
  lemma NormalizedBounds(lon: real)
    ensures -180.0 <= Normalized(lon) <= 180.0
    ensures lon > 180.0 ==> -180.0 < Normalized(lon)
    ensures lon < -180.0 ==> Normalized(lon) < 180.0
  {
    var t := Turns(lon);
    if lon > 180.0 {
      var x := (180.0 - lon) / 360.0;
      assert x.Floor as real <= x < x.Floor as real + 1.0;
      assert t == -x.Floor;
    } else if lon < -180.0 {
      var y := (lon + 180.0) / 360.0;
      assert y.Floor as real <= y < y.Floor as real + 1.0;
    }
  }

  /** A longitude already in [-180, 180], either end included, is left as it is (the loop
      guards are strict comparisons). */
  lemma NormalizedFixesRange(lon: real)
    requires -180.0 <= lon <= 180.0
    ensures Normalized(lon) == lon
  {
  }

  /** The only change is a whole number of turns: the difference is 360 times an integer. */
  lemma NormalizedIsWholeTurns(lon: real)
    ensures (lon - Normalized(lon)) / 360.0 == Turns(lon) as real
  {
  }

  /** Normalising twice is normalising once. */
  lemma NormalizedIdempotent(lon: real)
    ensures Normalized(Normalized(lon)) == Normalized(lon)
  {
    NormalizedBounds(lon);
  }

  /** Longitudes a whole turn apart normalise alike, except that 180 and -180 both stand for
      the antimeridian and the loops keep whichever one the value reaches first. */
  lemma NormalizedAntimeridian()
    ensures Normalized(540.0) == 180.0
    ensures Normalized(-540.0) == -180.0
    ensures Normalized(190.0) == -170.0
    ensures Normalized(-190.0) == 170.0
  {
    assert ((180.0 - 540.0) / 360.0).Floor == -1;
    assert ((-540.0 + 180.0) / 360.0).Floor == -1;
    assert ((180.0 - 190.0) / 360.0).Floor == -1;
    assert ((-190.0 + 180.0) / 360.0).Floor == -1;
  }

  /** The two loops of lines 48-49. */
  method NormalizeLongitude(longitude: real) returns (newLongitude: real)
    ensures newLongitude == Normalized(longitude)
    ensures -180.0 <= newLongitude <= 180.0
  {
    newLongitude := longitude;
    ghost var turns: int := 0;
    while newLongitude > 180.0
      invariant newLongitude == longitude - 360.0 * turns as real
      invariant turns >= 0
      invariant turns > 0 ==> newLongitude > -180.0
      invariant longitude <= 180.0 ==> turns == 0
      decreases (newLongitude - 180.0).Floor
    {
      newLongitude := newLongitude - 360.0;
      turns := turns + 1;
    }
    while newLongitude < -180.0
      invariant newLongitude == longitude - 360.0 * turns as real
      invariant turns <= 0 || newLongitude > -180.0
      invariant turns < 0 ==> newLongitude < 180.0
      invariant turns <= 0 && longitude >= -180.0 ==> turns == 0
      invariant newLongitude <= 180.0
      decreases (-180.0 - newLongitude).Floor
    {
      newLongitude := newLongitude + 360.0;
      turns := turns - 1;
    }
    TurnsUnique(longitude, turns);
  }

  /** Turns(lon) is the only whole number of turns that brings lon into the interval the loops
      stop in. */
  lemma TurnsUnique(lon: real, n: int)
    requires -180.0 <= lon - 360.0 * n as real <= 180.0
    requires lon > 180.0 ==> lon - 360.0 * n as real > -180.0
    requires lon < -180.0 ==> lon - 360.0 * n as real < 180.0
    requires -180.0 <= lon <= 180.0 ==> n == 0
    ensures n == Turns(lon)
  {
    if lon > 180.0 {
      var x := (180.0 - lon) / 360.0;
      assert x == (180.0 - (lon - 360.0 * n as real)) / 360.0 - n as real;
      assert -n as real <= x < -n as real + 1.0;
    } else if lon < -180.0 {
      var y := (lon + 180.0) / 360.0;
      assert y == ((lon - 360.0 * n as real) + 180.0) / 360.0 + n as real;
      assert n as real <= y < n as real + 1.0;
    }
  }

  /** CalculateNewPosition: the projected latitude is returned as computed, with no
      normalisation or clamping, and the projected longitude is normalised into [-180, 180]. */
  method CalculateNewPosition(project: Projection, currentLatitude: real, currentLongitude: real,
                              velocityKnots: real, headingDegrees: int, timeIntervalSeconds: real)
    returns (newLatitude: real, newLongitude: real)
    ensures newLatitude == project(currentLatitude, currentLongitude, velocityKnots, headingDegrees, timeIntervalSeconds).0
    ensures newLongitude == Normalized(project(currentLatitude, currentLongitude, velocityKnots, headingDegrees, timeIntervalSeconds).1)
    ensures -180.0 <= newLongitude <= 180.0
  {
    var projected := project(currentLatitude, currentLongitude, velocityKnots, headingDegrees, timeIntervalSeconds);
    newLatitude := projected.0;
    newLongitude := NormalizeLongitude(projected.1);
  }
}
