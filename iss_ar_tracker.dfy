/** The ISS view model that also drives the AR view (`Space/ViewModel/ISSMapViewModel.swift`):
    the same start/stop polling guard as the map-only one, plus the observer's location,
    the location-manager requests, and the radius-50 AR placement with its fallback. */
module IssArTracker {
  import opened Common
  import opened ArProjection

  /** One position report of the ISS (the record without `visibility`). */
  datatype IssState = IssState(latitude: real, longitude: real, altitude: real, velocity: real, timestamp: real)

  /** What the view model asks of its `CLLocationManager`: how often authorisation and
      location updates were requested, and whether updates are currently running. */
  class LocationRequests {
    var authorizationRequests: nat
    var updateRequests: nat
    var updating: bool

    constructor ()
      ensures authorizationRequests == 0 && updateRequests == 0 && !updating
    {
      authorizationRequests, updateRequests, updating := 0, 0, false;
    }

    /** `requestWhenInUseAuthorization()`. */
    method RequestWhenInUseAuthorization()
      modifies this
      ensures authorizationRequests == old(authorizationRequests) + 1
      ensures updateRequests == old(updateRequests) && updating == old(updating)
    {
      authorizationRequests := authorizationRequests + 1;
    }

    /** `startUpdatingLocation()`. */
    method StartUpdatingLocation()
      modifies this
      ensures updating && updateRequests == old(updateRequests) + 1
      ensures authorizationRequests == old(authorizationRequests)
    {
      updateRequests := updateRequests + 1;
      updating := true;
    }

    /** `stopUpdatingLocation()`. */
    method StopUpdatingLocation()
      modifies this
      ensures !updating
      ensures authorizationRequests == old(authorizationRequests) && updateRequests == old(updateRequests)
    {
      updating := false;
    }
  }

  /** Where the AR marker goes while the ISS state or the observer's location is missing. */
  const Fallback: Offset := Offset(0.0, 0.0, -10.0)

  class IssMapViewModel {
    var pollingTask: PollingTask?
    const locationManager: LocationRequests
    var userLocation: Option<Coordinate>
    var iss: Option<IssState>
    var errorMessage: Option<string>
    var isFollowingISS: bool

    /** A task the view model still holds has not been cancelled. */
    ghost predicate Valid()
      reads this, pollingTask
    {
      pollingTask != null ==> !pollingTask.cancelled
    }

    constructor ()
      ensures Valid() && fresh(locationManager)
      ensures pollingTask == null && userLocation == None && iss == None && errorMessage == None
      ensures isFollowingISS
      ensures locationManager.authorizationRequests == 0 && locationManager.updateRequests == 0
      ensures !locationManager.updating
    {
      pollingTask := null;
      locationManager := new LocationRequests();
      userLocation := None;
      iss := None;
      errorMessage := None;
      isFollowingISS := true;
    }

    /** `start()`: asks for authorisation and location updates every time, then creates
        the polling task only when there is none. */
    method Start()
      requires Valid()
      modifies this, locationManager
      ensures Valid()
      ensures locationManager.authorizationRequests == old(locationManager.authorizationRequests) + 1
      ensures locationManager.updateRequests == old(locationManager.updateRequests) + 1
      ensures locationManager.updating
      ensures old(pollingTask) != null ==> pollingTask == old(pollingTask)
      ensures old(pollingTask) == null ==> pollingTask != null && fresh(pollingTask)
      ensures userLocation == old(userLocation) && iss == old(iss) && errorMessage == old(errorMessage)
      ensures isFollowingISS == old(isFollowingISS)
    {
      locationManager.RequestWhenInUseAuthorization();
      locationManager.StartUpdatingLocation();
      if pollingTask != null {
        return;
      }
      pollingTask := new PollingTask();
    }

    /** `stop()`: stops location updates, cancels the task, if any, and forgets it. */
    method Stop()
      requires Valid()
      modifies this, locationManager, pollingTask
      ensures Valid()
      ensures pollingTask == null
      ensures old(pollingTask) != null ==> old(pollingTask).cancelled
      ensures !locationManager.updating
      ensures locationManager.authorizationRequests == old(locationManager.authorizationRequests)
      ensures locationManager.updateRequests == old(locationManager.updateRequests)
      ensures userLocation == old(userLocation) && iss == old(iss) && errorMessage == old(errorMessage)
      ensures isFollowingISS == old(isFollowingISS)
    {
      locationManager.StopUpdatingLocation();
      if pollingTask != null {
        pollingTask.Cancel();
      }
      pollingTask := null;
    }

    /** One pass of the polling loop, given what `fetchISS()` returned. */
    method PollIteration(fetched: Result<IssState>)
      requires Valid()
      modifies this
      ensures Valid()
      ensures fetched.Success? ==> iss == Some(fetched.value) && errorMessage == None
      ensures fetched.Failure? ==> iss == old(iss) && errorMessage == Some(fetched.description)
      ensures pollingTask == old(pollingTask) && userLocation == old(userLocation)
      ensures isFollowingISS == old(isFollowingISS)
    {
      match fetched
      case Success(state) =>
        iss := Some(state);
        errorMessage := None;
      case Failure(description) =>
        errorMessage := Some(description);
    }

    /** `locationManager(_:didUpdateLocations:)`: keeps the last reported location
        (none when the list is empty). */
    method DidUpdateLocations(locations: seq<Coordinate>)
      requires Valid()
      modifies this
      ensures Valid()
      ensures locations == [] ==> userLocation == None
      ensures locations != [] ==> userLocation == Some(locations[|locations| - 1])
      ensures pollingTask == old(pollingTask) && iss == old(iss) && errorMessage == old(errorMessage)
      ensures isFollowingISS == old(isFollowingISS)
    {
      if |locations| == 0 {
        userLocation := None;
      } else {
        userLocation := Some(locations[|locations| - 1]);
      }
    }

    /** `locationManager(_:didFailWithError:)`: reports the failure with a "GPS: " prefix. */
    method DidFailWithError(description: string)
      requires Valid()
      modifies this
      ensures Valid()
      ensures errorMessage == Some("GPS: " + description)
      ensures pollingTask == old(pollingTask) && iss == old(iss) && userLocation == old(userLocation)
      ensures isFollowingISS == old(isFollowingISS)
    {
      errorMessage := Some("GPS: " + description);
    }

    /** `getARPosition()`: the fallback while data is missing, otherwise the projection onto the
        radius-50 sphere, which is the radius-100 `calculatePosition` scaled by one half. */
    function GetArPosition(m: Numerics): (p: Offset)
      reads this
      ensures iss.None? || userLocation.None? ==> p == Fallback
      ensures iss.Some? && userLocation.Some? ==>
        p == Scale(0.5, CalculatePosition(m, userLocation.value, iss.value.latitude, iss.value.longitude, iss.value.altitude))
      ensures iss.Some? && userLocation.Some? && Pythagorean(m) ==> SquaredNorm(p) == 2500.0
    {
      if iss.None? || userLocation.None? then Fallback
      else
        var s, user := iss.value, userLocation.value;
        var bearing := Bearing(m, user, s.latitude, s.longitude);
        var elevation := Elevation(m, user, s.latitude, s.longitude, s.altitude);
        var p := Project(m, 50.0, elevation, bearing);
        assert p == Scale(0.5, Project(m, 100.0, elevation, bearing)) by {
          ProjectLinearInRadius(m, 0.5, 100.0, elevation, bearing);
        }
        assert Pythagorean(m) ==> SquaredNorm(p) == 2500.0 by {
          if Pythagorean(m) { ProjectOnSphere(m, 50.0, elevation, bearing); }
        }
        p
    }

    /** `coordinate`: the ISS subpoint, present exactly when a state is. */
    function CurrentCoordinate(): (c: Option<Coordinate>)
      reads this
      ensures c.None? <==> iss.None?
      ensures iss.Some? ==> c.value.latitude == iss.value.latitude && c.value.longitude == iss.value.longitude
    {
      match iss
      case None => None
      case Some(s) => Some(Coordinate(s.latitude, s.longitude))
    }

    /** `altitudeText`; `wholeNumber` renders `%.0f`. */
    function AltitudeText(wholeNumber: real -> string): (t: string)
      reads this
      ensures t == Dash <==> iss.None?
      ensures iss.Some? ==> t == wholeNumber(iss.value.altitude) + " km"
    {
      match iss
      case None => Dash
      case Some(s) =>
        var t := wholeNumber(s.altitude) + " km";
        assert t[|t| - 1] != Dash[0];
        t
    }

    /** `velocityText`; `wholeNumber` renders `%.0f`. */
    function VelocityText(wholeNumber: real -> string): (t: string)
      reads this
      ensures t == Dash <==> iss.None?
      ensures iss.Some? ==> t == wholeNumber(iss.value.velocity) + " km/h"
    {
      match iss
      case None => Dash
      case Some(s) =>
        var t := wholeNumber(s.velocity) + " km/h";
        assert t[|t| - 1] != Dash[0];
        t
    }

    /** `timestampText`; `formatDate` renders a time interval since 1970 as date and time. */
    function TimestampText(formatDate: real -> string): (t: string)
      reads this
      ensures iss.None? ==> t == Dash
      ensures iss.Some? ==> t == formatDate(iss.value.timestamp)
      ensures (forall x :: formatDate(x) != Dash) ==> (t == Dash <==> iss.None?)
    {
      match iss
      case None => Dash
      case Some(s) => formatDate(s.timestamp)
    }
  }

  /** `start` twice re-requests location updates but keeps the one polling task;
      after `stop`, `start` creates a new task. */
  method PollingLifecycle() returns (vm: IssMapViewModel, first: PollingTask)
    ensures fresh(vm) && vm.Valid() && vm.pollingTask != null
    ensures first.cancelled && vm.pollingTask != first && fresh(vm.pollingTask)
    ensures vm.locationManager.updateRequests == 3 && vm.locationManager.updating
  {
    vm := new IssMapViewModel();
    vm.Start();
    first := vm.pollingTask;
    vm.Start();
    assert vm.pollingTask == first && vm.locationManager.updateRequests == 2;
    vm.Stop();
    assert first.cancelled && vm.pollingTask == null && !vm.locationManager.updating;
    vm.Start();
    assert vm.pollingTask != first;
  }
}
