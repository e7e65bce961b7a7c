/** The sky list's view model (`PlanetsViewModel`): a load replaces the bodies with the
    fetched ones ordered from highest to lowest altitude, or keeps them and records the
    error, and is never left loading. */
module Planets {
  import opened Common

  /** One body above the observer (`VisibleBody`). */
  datatype VisibleBody = VisibleBody(
    name: string,
    constellation: Option<string>,
    altitude: real,
    azimuth: real,
    aboveHorizon: bool,
    phase: Option<real>,
    magnitude: Option<real>,
    nakedEyeObject: Option<bool>)

  /** The decoded reply of the visible-planets service. */
  datatype VisiblePlanetsResponse = VisiblePlanetsResponse(data: seq<VisibleBody>)

  /** Highest altitude first: no body is higher than one before it. */
  ghost predicate NonIncreasing(s: seq<VisibleBody>) {
    forall i, j :: 0 <= i < j < |s| ==> s[i].altitude >= s[j].altitude
  }

  /** Places `b` before the first body that is not higher than it. */
  function Insert(b: VisibleBody, s: seq<VisibleBody>): (r: seq<VisibleBody>)
    requires NonIncreasing(s)
    ensures NonIncreasing(r)
    ensures multiset(r) == multiset(s) + multiset{b}
    ensures forall x :: x in r ==> x == b || x in s
  {
    if s == [] then [b]
    else if b.altitude >= s[0].altitude then [b] + s
    else
      var rest := Insert(b, s[1..]);
      assert s == [s[0]] + s[1..];
      assert forall x :: x in rest ==> x.altitude <= s[0].altitude;
      [s[0]] + rest
  }

  /** `sorted { $0.altitude > $1.altitude }`: the same bodies, highest altitude first. Bodies
      of equal altitude keep their input order. */
  function SortedByAltitude(s: seq<VisibleBody>): (r: seq<VisibleBody>)
    ensures NonIncreasing(r)
    ensures multiset(r) == multiset(s)
    ensures |r| == |s|
  {
    if s == [] then []
    else
      assert s == [s[0]] + s[1..];
      var r := Insert(s[0], SortedByAltitude(s[1..]));
      assert |r| == |multiset(r)|;
      r
  }

  /** A list already ordered by altitude is left as it is. */
  lemma {:induction false} SortedByAltitudeKeepsSorted(s: seq<VisibleBody>)
    requires NonIncreasing(s)
    ensures SortedByAltitude(s) == s
  {
    if s != [] {
      assert NonIncreasing(s[1..]);
      SortedByAltitudeKeepsSorted(s[1..]);
      if |s| > 1 {
        assert s[0].altitude >= s[1..][0].altitude;
      }
      assert s == [s[0]] + s[1..];
    }
  }

  /** Sorting twice is sorting once. */
  lemma SortedByAltitudeIdempotent(s: seq<VisibleBody>)
    ensures SortedByAltitude(SortedByAltitude(s)) == SortedByAltitude(s)
  {
    SortedByAltitudeKeepsSorted(SortedByAltitude(s));
  }

  /** The first body of a sorted list is the highest of all. */
  lemma SortedHeadIsHighest(s: seq<VisibleBody>, b: VisibleBody)
    requires b in s
    ensures SortedByAltitude(s) != [] && SortedByAltitude(s)[0].altitude >= b.altitude
  {
    var r := SortedByAltitude(s);
    assert b in multiset(s);
    assert b in multiset(r);
    var k :| 0 <= k < |r| && r[k] == b;
  }

  class PlanetsViewModel {
    var bodies: seq<VisibleBody>
    var isLoading: bool
    var errorMessage: Option<string>

    constructor ()
      ensures bodies == [] && !isLoading && errorMessage == None
    {
      bodies, isLoading, errorMessage := [], false, None;
    }

    /** `load(latitude:longitude:)`; `service` stands for `fetchVisibleBodies`. Loading is set
        for the duration of the call and cleared on both paths. */
    method Load(latitude: real, longitude: real, service: (real, real) -> Result<VisiblePlanetsResponse>)
      modifies this
      ensures !isLoading
      ensures service(latitude, longitude).Success? ==>
        NonIncreasing(bodies) && multiset(bodies) == multiset(service(latitude, longitude).value.data)
        && bodies == SortedByAltitude(service(latitude, longitude).value.data)
        && errorMessage == None
      ensures service(latitude, longitude).Failure? ==>
        bodies == old(bodies) && errorMessage == Some(service(latitude, longitude).description)
    {
      isLoading := true;
      var response := service(latitude, longitude);
      match response {
      case Success(reply) =>
        bodies := SortedByAltitude(reply.data);
        errorMessage := None;
      case Failure(description) =>
        errorMessage := Some(description);
      }
      isLoading := false;
    }
  }
}
