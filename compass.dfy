/** The sky-object compass (`CompassView`): the rose turns against the device heading,
    the needle points at the target azimuth, and the rose's ticks on a 15-degree grid
    are classified into cardinal, intercardinal and minor ticks. */
module Compass {
  import opened Common

  /** Rotation of the rose: `-(heading ?? 0)`. */
  function RoseRotation(heading: Option<real>): (r: real)
    ensures heading.None? ==> r == 0.0
    ensures heading.Some? ==> r + heading.value == 0.0
  {
    -heading.GetOr(0.0)
  }

  /** Rotation of the needle: `targetAzimuth - (heading ?? 0)`. Measured on the rotated rose,
      the needle always points at the target azimuth. */
  function NeedleRotation(targetAzimuth: real, heading: Option<real>): (r: real)
    ensures r - RoseRotation(heading) == targetAzimuth
    ensures heading.None? ==> r == targetAzimuth
  {
    targetAzimuth - heading.GetOr(0.0)
  }

  /** `rotationDegrees`: the needle's rotation, negated. */
  function RotationDegrees(targetAzimuth: real, heading: Option<real>): (r: real)
    ensures r == -NeedleRotation(targetAzimuth, heading)
  {
    var h := heading.GetOr(0.0);
    h - targetAzimuth
  }

  /** The drawing parameters of one tick of the rose. */
  datatype TickStyle = TickStyle(length: real, width: real, shouldLabel: bool)

  /** `TickStyle.init(deg:)`. Swift's `%` truncates toward zero, but a remainder is zero
      under truncation exactly when it is zero under Dafny's Euclidean `%`. */
  function TickStyleFor(deg: int): (t: TickStyle)
    ensures deg % 90 == 0 ==> t.length == 16.0 && t.width == 3.0
    ensures deg % 90 != 0 && deg % 45 == 0 ==> t.length == 11.0 && t.width == 1.0
    ensures deg % 45 != 0 ==> t.length == 6.0 && t.width == 1.0
    ensures t.shouldLabel <==> deg % 45 == 0
    ensures t.width == 3.0 ==> t.shouldLabel
    ensures t.shouldLabel <==> t.length > 6.0
  {
    var isCardinal := deg % 90 == 0;
    var isIntercardinal := deg % 45 == 0;
    assert isCardinal ==> isIntercardinal by {
      if isCardinal { assert deg == 45 * (2 * (deg / 90)); }
    }
    TickStyle(
      if isCardinal then 16.0 else if isIntercardinal then 11.0 else 6.0,
      if isCardinal then 3.0 else 1.0,
      isIntercardinal)
  }

  /** `labelFor(_:)`: a label exists exactly for the eight multiples of 45 in [0, 360). */
  function LabelFor(deg: int): (l: Option<string>)
    ensures l.Some? <==> 0 <= deg < 360 && deg % 45 == 0
  {
    assert 0 <= deg < 360 && deg % 45 == 0 ==> deg in {0, 45, 90, 135, 180, 225, 270, 315} by {
      if 0 <= deg < 360 && deg % 45 == 0 {
        var q := deg / 45;
        assert deg == 45 * q;
        assert 0 <= q < 8;
        assert q == 0 || q == 1 || q == 2 || q == 3 || q == 4 || q == 5 || q == 6 || q == 7;
      }
    }
    match deg
    case 0 => Some("N")
    case 45 => Some("NE")
    case 90 => Some("E")
    case 135 => Some("SE")
    case 180 => Some("S")
    case 225 => Some("SW")
    case 270 => Some("W")
    case 315 => Some("NW")
    case _ => None
  }

  /** `Array(stride(from: lo, to: hi, by: step))`: `lo`, `lo + step`, ... while below `hi`. */
  function Stride(lo: int, hi: int, step: int): (s: seq<int>)
    requires step > 0
    decreases hi - lo
    ensures forall i :: 0 <= i < |s| ==> (s[i] == lo + i * step && s[i] < hi)
    ensures lo + |s| * step >= hi
    ensures lo >= hi ==> s == []
  {
    if lo >= hi then []
    else
      var rest := Stride(lo + step, hi, step);
      assert forall i :: 1 <= i < |rest| + 1 ==> ([lo] + rest)[i] == rest[i - 1];
      assert forall i :: 1 <= i < |rest| + 1 ==> (lo + step) + (i - 1) * step == lo + i * step;
      assert (lo + step) + |rest| * step == lo + (|rest| + 1) * step;
      [lo] + rest
  }

  /** `Geometry.degrees`, the tick positions of the rose: 0, 15, ..., 345, that is 24 strictly
      ascending multiples of 15 in [0, 360). */
  function GridDegrees(): (g: seq<int>)
    ensures |g| == 24
    ensures forall i :: 0 <= i < 24 ==> g[i] == 15 * i
    ensures forall i, j :: 0 <= i < j < 24 ==> g[i] < g[j]
    ensures forall i :: 0 <= i < 24 ==> 0 <= g[i] < 360 && g[i] % 15 == 0
  {
    var g := Stride(0, 360, 15);
    assert |g| > 0;
    assert g[|g| - 1] == (|g| - 1) * 15 < 360;
    assert |g| == 24;
    assert forall i :: 0 <= i < 24 ==> g[i] == 15 * i && g[i] % 15 == 0 by {
      forall i | 0 <= i < 24 ensures g[i] == 15 * i && g[i] % 15 == 0 {
        assert g[i] == 0 + i * 15;
      }
    }
    g
  }

  /** Membership in the grid, without indices. */
  lemma InGrid(d: int)
    ensures d in GridDegrees() <==> 0 <= d < 360 && d % 15 == 0
  {
    var g := GridDegrees();
    if 0 <= d < 360 && d % 15 == 0 {
      assert g[d / 15] == d;
    }
  }

  /** On the grid, a tick marked for labelling always gets a label and vice versa, so the
      rose shows exactly the eight labels N, NE, ..., NW. */
  lemma GridLabelsMatchTickStyle()
    ensures forall d :: d in GridDegrees() ==> (TickStyleFor(d).shouldLabel <==> LabelFor(d).Some?)
  {
    forall d | d in GridDegrees() ensures TickStyleFor(d).shouldLabel <==> LabelFor(d).Some? {
      InGrid(d);
    }
  }

  /** Among the multiples of 15 in [0, 360), the labelled ones are the eight compass points. */
  lemma LabelledAmongMultiplesOf15(g: seq<int>)
    requires forall d :: d in g <==> 0 <= d < 360 && d % 15 == 0
    ensures (set d | d in g && LabelFor(d).Some?) == {0, 45, 90, 135, 180, 225, 270, 315}
  {
    var labelled := set d | d in g && LabelFor(d).Some?;
    var compassPoints := {0, 45, 90, 135, 180, 225, 270, 315};
    assert compassPoints <= labelled;
    assert labelled <= compassPoints;
  }

  /** The labels the rose shows are at exactly the eight compass points. */
  lemma GridLabelPositions()
    ensures (set d | d in GridDegrees() && LabelFor(d).Some?) == {0, 45, 90, 135, 180, 225, 270, 315}
  {
    forall d ensures d in GridDegrees() <==> 0 <= d < 360 && d % 15 == 0 {
      InGrid(d);
    }
    LabelledAmongMultiplesOf15(GridDegrees());
  }
}
