/** The augmented-reality placement of the ISS (`ISSARCalculator.calculatePosition`):
    the observer-to-ISS bearing and elevation are projected onto a sphere of
    fixed radius around the camera.

    The model works over `real`. The transcendental functions and the geodesic
    distance of `CLLocation` are not computed here: they are the fields of a
    `Numerics` value, and the lemmas name the facts about them they rely on. */
module ArProjection {
  import opened Common

  /** `sin`, `cos`, `atan2` and `CLLocation.distance(from:)` (in metres). */
  datatype Numerics = Numerics(
    sin: real -> real,
    cos: real -> real,
    atan2: (real, real) -> real,
    distanceMeters: (Coordinate, Coordinate) -> real)

  /** sin² + cos² = 1 at every angle. */
  ghost predicate Pythagorean(m: Numerics) {
    forall a :: m.sin(a) * m.sin(a) + m.cos(a) * m.cos(a) == 1.0
  }

  /** sin 0 = 0 and cos 0 = 1. */
  ghost predicate ZeroAngle(m: Numerics) {
    m.sin(0.0) == 0.0 && m.cos(0.0) == 1.0
  }

  /** Swift's `Double.pi`. */
  const Pi: real := 3.141592653589793

  /** A scene offset. */
  datatype Offset = Offset(x: real, y: real, z: real)

  function SquaredNorm(p: Offset): real {
    p.x * p.x + p.y * p.y + p.z * p.z
  }

  function Scale(k: real, p: Offset): Offset {
    Offset(k * p.x, k * p.y, k * p.z)
  }

  function Radians(degrees: real): real {
    degrees * Pi / 180.0
  }

  /** East-west component of the spherical bearing formula (all angles in radians). */
  function BearingEast(m: Numerics, issLat: real, dLon: real): real {
    m.sin(dLon) * m.cos(issLat)
  }

  /** North-south component of the spherical bearing formula (all angles in radians). */
  function BearingNorth(m: Numerics, userLat: real, issLat: real, dLon: real): real {
    m.cos(userLat) * m.sin(issLat) - m.sin(userLat) * m.cos(issLat) * m.cos(dLon)
  }

  /** Initial great-circle bearing between two points given in radians. */
  function BearingRadians(m: Numerics, userLat: real, userLon: real, issLat: real, issLon: real): real {
    var dLon := issLon - userLon;
    m.atan2(BearingEast(m, issLat, dLon), BearingNorth(m, userLat, issLat, dLon))
  }

  /** Bearing from the observer to the ISS subpoint, in radians, from positions in degrees. */
  function Bearing(m: Numerics, user: Coordinate, issLatitude: real, issLongitude: real): real {
    BearingRadians(m, Radians(user.latitude), Radians(user.longitude), Radians(issLatitude), Radians(issLongitude))
  }

  /** From a point to itself both atan2 arguments are zero. */
  lemma BearingRadiansToItself(m: Numerics, lat: real, lon: real)
    requires ZeroAngle(m)
    ensures BearingRadians(m, lat, lon, lat, lon) == m.atan2(0.0, 0.0)
  {
    assert lon - lon == 0.0;
    assert BearingEast(m, lat, 0.0) == 0.0;
    assert BearingNorth(m, lat, lat, 0.0) == 0.0;
  }

  /** Surface distance from the observer to the ISS subpoint, in kilometres. */
  function SurfaceDistanceKm(m: Numerics, user: Coordinate, issLatitude: real, issLongitude: real): real {
    m.distanceMeters(user, Coordinate(issLatitude, issLongitude)) / 1000.0
  }

  /** Elevation angle: atan2 of the altitude over the surface distance, with no special case. */
  function Elevation(m: Numerics, user: Coordinate, issLatitude: real, issLongitude: real, issAltitudeKm: real): real {
    m.atan2(issAltitudeKm, SurfaceDistanceKm(m, user, issLatitude, issLongitude))
  }

  /** The spherical-to-Cartesian step shared by both projections. */
  function Project(m: Numerics, radius: real, elevation: real, bearing: real): Offset {
    Offset(
      radius * m.cos(elevation) * m.sin(bearing),
      radius * m.sin(elevation),
      -radius * m.cos(elevation) * m.cos(bearing))
  }

  /** The offset lies on the sphere of the given radius. */
  lemma ProjectOnSphere(m: Numerics, radius: real, elevation: real, bearing: real)
    requires Pythagorean(m)
    ensures SquaredNorm(Project(m, radius, elevation, bearing)) == radius * radius
  {
    var se, ce, sb, cb := m.sin(elevation), m.cos(elevation), m.sin(bearing), m.cos(bearing);
    var p := Project(m, radius, elevation, bearing);
    assert sb * sb + cb * cb == 1.0;
    assert se * se + ce * ce == 1.0;
    calc {
      SquaredNorm(p);
      (radius * ce * sb) * (radius * ce * sb) + (radius * se) * (radius * se) + (-radius * ce * cb) * (-radius * ce * cb);
      { MulFour(radius, ce, sb); MulFour(radius, ce, cb); }
      radius * radius * (ce * ce) * (sb * sb) + radius * radius * (se * se) + radius * radius * (ce * ce) * (cb * cb);
      radius * radius * ((ce * ce) * (sb * sb + cb * cb) + se * se);
      radius * radius * (ce * ce + se * se);
      radius * radius;
    }
  }

  lemma MulFour(r: real, a: real, b: real)
    ensures (r * a * b) * (r * a * b) == r * r * (a * a) * (b * b)
    ensures (-r * a * b) * (-r * a * b) == r * r * (a * a) * (b * b)
  {
  }

  /** Every component is linear in the radius. */
  lemma ProjectLinearInRadius(m: Numerics, k: real, radius: real, elevation: real, bearing: real)
    ensures Project(m, k * radius, elevation, bearing) == Scale(k, Project(m, radius, elevation, bearing))
  {
    var se, ce, sb, cb := m.sin(elevation), m.cos(elevation), m.sin(bearing), m.cos(bearing);
    assert (k * radius) * ce * sb == k * (radius * ce * sb);
    assert (k * radius) * se == k * (radius * se);
    assert -(k * radius) * ce * cb == k * (-radius * ce * cb);
  }

  /** With a positive radius the offset is at or above the horizon exactly when sin(elevation) >= 0. */
  lemma ProjectAboveHorizon(m: Numerics, radius: real, elevation: real, bearing: real)
    requires radius > 0.0
    ensures Project(m, radius, elevation, bearing).y >= 0.0 <==> m.sin(elevation) >= 0.0
  {
    var s := m.sin(elevation);
    if s < 0.0 {
      assert radius * s < 0.0 by { assert radius * (-s) > 0.0; }
    }
  }

  /** Bearing 0 and elevation 0 put the marker straight ahead on the horizon. */
  lemma ProjectStraightAhead(m: Numerics, radius: real)
    requires ZeroAngle(m)
    ensures Project(m, radius, 0.0, 0.0) == Offset(0.0, 0.0, -radius)
  {
  }

  /** `ISSARCalculator.calculatePosition`: the projection onto the sphere of radius 100. */
  function CalculatePosition(m: Numerics, userLocation: Coordinate, issLatitude: real, issLongitude: real, issAltitudeKm: real): (p: Offset)
    ensures Pythagorean(m) ==> SquaredNorm(p) == 10000.0
    ensures p.y >= 0.0 <==> m.sin(Elevation(m, userLocation, issLatitude, issLongitude, issAltitudeKm)) >= 0.0
  {
    var bearing := Bearing(m, userLocation, issLatitude, issLongitude);
    var elevation := Elevation(m, userLocation, issLatitude, issLongitude, issAltitudeKm);
    var p := Project(m, 100.0, elevation, bearing);
    assert Pythagorean(m) ==> SquaredNorm(p) == 10000.0 by {
      if Pythagorean(m) { ProjectOnSphere(m, 100.0, elevation, bearing); }
    }
    assert p.y >= 0.0 <==> m.sin(elevation) >= 0.0 by {
      ProjectAboveHorizon(m, 100.0, elevation, bearing);
    }
    p
  }

  /** The components of `calculatePosition` are those of the radius-100 sphere. */
  lemma CalculatePositionComponents(m: Numerics, user: Coordinate, issLatitude: real, issLongitude: real, issAltitudeKm: real)
    ensures var p := CalculatePosition(m, user, issLatitude, issLongitude, issAltitudeKm);
            var e := Elevation(m, user, issLatitude, issLongitude, issAltitudeKm);
            var b := Bearing(m, user, issLatitude, issLongitude);
            p.x == 100.0 * m.cos(e) * m.sin(b) && p.y == 100.0 * m.sin(e) && p.z == -100.0 * m.cos(e) * m.cos(b)
  {
  }

  /** The ISS at zero altitude over the observer's own position: the bearing is atan2(0, 0), the
      elevation atan2(0, 0), and neither is special-cased, so the marker is straight ahead. */
  lemma CalculatePositionOverhead(m: Numerics, user: Coordinate)
    requires ZeroAngle(m)
    requires m.atan2(0.0, 0.0) == 0.0
    requires m.distanceMeters(user, user) == 0.0
    ensures CalculatePosition(m, user, user.latitude, user.longitude, 0.0) == Offset(0.0, 0.0, -100.0)
  {
    BearingRadiansToItself(m, Radians(user.latitude), Radians(user.longitude));
    assert Coordinate(user.latitude, user.longitude) == user;
    ProjectStraightAhead(m, 100.0);
  }
}
