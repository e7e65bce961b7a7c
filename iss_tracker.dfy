/** The ISS map screen's view model (`Space/ISSMapViewModel.swift`): a polling
    task that is started at most once, one polling iteration's update of the
    tracked state, and the text the map overlay derives from that state. */
module IssTracker {
  import opened Common

  /** One position report of the ISS (the record that carries `visibility`). */
  datatype IssState = IssState(
    name: string,
    id: int,
    latitude: real,
    longitude: real,
    altitude: real,
    velocity: real,
    visibility: Option<string>,
    footprint: Option<real>,
    timestamp: real,
    units: string)

  class IssMapViewModel {
    var pollingTask: PollingTask?
    var iss: Option<IssState>
    var errorMessage: Option<string>
    var isFollowingISS: bool

    /** A task the view model still holds has not been cancelled. */
    ghost predicate Valid()
      reads this, pollingTask
    {
      pollingTask != null ==> !pollingTask.cancelled
    }

    constructor ()
      ensures Valid()
      ensures pollingTask == null && iss == None && errorMessage == None
      ensures isFollowingISS
    {
      pollingTask := null;
      iss := None;
      errorMessage := None;
      isFollowingISS := true;
    }

    /** `start()`: creates the polling task only when there is none. */
    method Start()
      requires Valid()
      modifies this
      ensures Valid()
      ensures old(pollingTask) != null ==> pollingTask == old(pollingTask)
      ensures old(pollingTask) == null ==> pollingTask != null && fresh(pollingTask)
      ensures iss == old(iss) && errorMessage == old(errorMessage) && isFollowingISS == old(isFollowingISS)
    {
      if pollingTask != null {
        return;
      }
      pollingTask := new PollingTask();
    }

    /** `stop()`: cancels the task, if any, and forgets it. */
    method Stop()
      requires Valid()
      modifies this, pollingTask
      ensures Valid()
      ensures pollingTask == null
      ensures old(pollingTask) != null ==> old(pollingTask).cancelled
      ensures iss == old(iss) && errorMessage == old(errorMessage) && isFollowingISS == old(isFollowingISS)
    {
      if pollingTask != null {
        pollingTask.Cancel();
      }
      pollingTask := null;
    }

    /** One pass of the polling loop, given what `fetchISS()` returned: a success replaces the
        state and clears the error; a failure records the error and keeps the last state. */
    method PollIteration(fetched: Result<IssState>)
      requires Valid()
      modifies this
      ensures Valid()
      ensures fetched.Success? ==> iss == Some(fetched.value) && errorMessage == None
      ensures fetched.Failure? ==> iss == old(iss) && errorMessage == Some(fetched.description)
      ensures pollingTask == old(pollingTask) && isFollowingISS == old(isFollowingISS)
    {
      match fetched
      case Success(state) =>
        iss := Some(state);
        errorMessage := None;
      case Failure(description) =>
        errorMessage := Some(description);
    }

    /** `coordinate`: the ISS subpoint, present exactly when a state is. */
    function CurrentCoordinate(): (c: Option<Coordinate>)
      reads this
      ensures c.None? <==> iss.None?
      ensures iss.Some? ==> c.value.latitude == iss.value.latitude && c.value.longitude == iss.value.longitude
    {
      match iss
      case None => None
      case Some(s) => Some(Coordinate(s.latitude, s.longitude))
    }

    /** `altitudeText`; `wholeNumber` renders `%.0f`. */
    function AltitudeText(wholeNumber: real -> string): (t: string)
      reads this
      ensures t == Dash <==> iss.None?
      ensures iss.Some? ==> t == wholeNumber(iss.value.altitude) + " km"
    {
      match iss
      case None => Dash
      case Some(s) =>
        var t := wholeNumber(s.altitude) + " km";
        assert t[|t| - 1] != Dash[0];
        t
    }

    /** `velocityText`; `wholeNumber` renders `%.0f`. */
    function VelocityText(wholeNumber: real -> string): (t: string)
      reads this
      ensures t == Dash <==> iss.None?
      ensures iss.Some? ==> t == wholeNumber(iss.value.velocity) + " km/h"
    {
      match iss
      case None => Dash
      case Some(s) =>
        var t := wholeNumber(s.velocity) + " km/h";
        assert t[|t| - 1] != Dash[0];
        t
    }

    /** `visibilityText`: the reported visibility when there is a state that has one. */
    function VisibilityText(): (t: string)
      reads this
      ensures iss.Some? && iss.value.visibility.Some? ==> t == iss.value.visibility.value
      ensures iss.None? || iss.value.visibility.None? ==> t == Dash
    {
      if iss.Some? then iss.value.visibility.GetOr(Dash) else Dash
    }

    /** `timestampText`; `formatDate` renders a time interval since 1970 as date and time. */
    function TimestampText(formatDate: real -> string): (t: string)
      reads this
      ensures iss.None? ==> t == Dash
      ensures iss.Some? ==> t == formatDate(iss.value.timestamp)
      ensures (forall x :: formatDate(x) != Dash) ==> (t == Dash <==> iss.None?)
    {
      match iss
      case None => Dash
      case Some(s) => formatDate(s.timestamp)
    }
  }

  /** A start/stop/start sequence: a second `start` keeps the running task, `stop` cancels it,
      and the next `start` begins a fresh one. */
  method PollingLifecycle() returns (vm: IssMapViewModel, first: PollingTask)
    ensures fresh(vm) && vm.Valid() && vm.pollingTask != null && vm.isFollowingISS
    ensures first.cancelled && vm.pollingTask != first && fresh(vm.pollingTask)
  {
    vm := new IssMapViewModel();
    vm.Start();
    first := vm.pollingTask;
    vm.Start();
    assert vm.pollingTask == first;
    vm.Stop();
    assert first.cancelled && vm.pollingTask == null;
    vm.Start();
    assert vm.pollingTask != first;
  }
}
