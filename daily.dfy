/** The daily page's view model (`DailyViewModel`): one `load` combines the Mars weather,
    the upcoming launches and the picture of the day into the displayed state and one
    ordered error message, and the Mars, launch and date texts fall back to "—". */
module Daily {
  import opened Common
  import opened MarsWeather

  /** The picture of the day (`APODState`); URLs are kept as strings. */
  datatype ApodState = ApodState(
    date: string,
    title: string,
    explanation: string,
    url: string,
    hdurl: Option<string>,
    mediaType: string)

  /** One upcoming launch (`RocketLaunchState`), with the provider's and vehicle's names. */
  datatype RocketLaunchState = RocketLaunchState(
    id: int,
    name: string,
    providerName: string,
    vehicleName: string,
    winOpen: Option<string>,
    t0: Option<string>,
    dateStr: string)

  /** Renderings and parsers the view model takes from Foundation. An instant is a `real`
      (seconds since a fixed epoch). */
  datatype Formats = Formats(
    oneDecimal: real -> string,                // `%.1f`
    wholeNumber: real -> string,               // `%.0f`
    parseFractional: string -> Option<real>,   // ISO 8601 internet date-time with fractional seconds
    parseInternet: string -> Option<real>,     // ISO 8601 internet date-time
    monthDay: real -> string,                  // abbreviated month and day
    dateAndTime: real -> string)               // abbreviated date and short time

  /** The error line of one fetch: "<tag><description>" on failure, nothing on success. */
  function ErrorPart<T>(r: Result<T>, tag: string): (parts: seq<string>)
    ensures r.Success? ==> parts == []
    ensures r.Failure? ==> parts == [tag + r.description]
  {
    match r
    case Success(_) => []
    case Failure(description) => [tag + description]
  }

  /** The errors `load` collects, in the order it awaits the fetches: Mars, launches, APOD. */
  function LoadErrors(marsResult: Result<MarsWeatherResponse>, launchesResult: Result<seq<RocketLaunchState>>,
                      apodResult: Result<ApodState>): (errors: seq<string>)
    ensures |errors| <= 3
    ensures errors == [] <==> marsResult.Success? && launchesResult.Success? && apodResult.Success?
  {
    ErrorPart(marsResult, "Mars: ") + ErrorPart(launchesResult, "Launches: ") + ErrorPart(apodResult, "APOD: ")
  }

  /** The error message `load` leaves: nothing when no fetch failed, otherwise the errors joined by " • ". */
  function LoadErrorMessage(marsResult: Result<MarsWeatherResponse>, launchesResult: Result<seq<RocketLaunchState>>,
                            apodResult: Result<ApodState>): (message: Option<string>)
    ensures message.None? <==> marsResult.Success? && launchesResult.Success? && apodResult.Success?
  {
    var errors := LoadErrors(marsResult, launchesResult, apodResult);
    if errors == [] then None else Some(Join(errors, Bullet))
  }

  /** When every fetch fails, the message names all three, Mars first and APOD last. */
  lemma AllFailedMessage(mars: string, launches: string, apod: string)
    ensures LoadErrorMessage(Failure(mars), Failure(launches), Failure(apod))
         == Some("Mars: " + mars + Bullet + "Launches: " + launches + Bullet + "APOD: " + apod)
  {
    var parts := ["Mars: " + mars, "Launches: " + launches, "APOD: " + apod];
    assert LoadErrors(Failure(mars), Failure(launches), Failure(apod)) == parts;
    JoinThree("Mars: " + mars, "Launches: " + launches, "APOD: " + apod, Bullet);
    assert "Mars: " + mars + Bullet + "Launches: " + launches + Bullet + "APOD: " + apod
        == ("Mars: " + mars) + Bullet + ("Launches: " + launches) + Bullet + ("APOD: " + apod);
  }

  /** A failed Mars fetch always opens the message. */
  lemma MarsErrorComesFirst(marsResult: Result<MarsWeatherResponse>, launchesResult: Result<seq<RocketLaunchState>>,
                            apodResult: Result<ApodState>)
    requires marsResult.Failure?
    ensures LoadErrorMessage(marsResult, launchesResult, apodResult).Some?
    ensures "Mars: " + marsResult.description <= LoadErrorMessage(marsResult, launchesResult, apodResult).value
  {
    var errors := LoadErrors(marsResult, launchesResult, apodResult);
    assert errors[0] == "Mars: " + marsResult.description;
    if |errors| >= 2 {
      JoinStartsWithFirst(errors, Bullet);
    }
  }

  /** A single failure, whichever fetch it is, is reported alone under its own tag, without a separator. */
  lemma SingleFailureMessage(marsResult: Result<MarsWeatherResponse>, launchesResult: Result<seq<RocketLaunchState>>,
                             apodResult: Result<ApodState>)
    requires (if marsResult.Failure? then 1 else 0) + (if launchesResult.Failure? then 1 else 0)
           + (if apodResult.Failure? then 1 else 0) == 1
    ensures marsResult.Failure? ==> LoadErrorMessage(marsResult, launchesResult, apodResult) == Some("Mars: " + marsResult.description)
    ensures launchesResult.Failure? ==>
      LoadErrorMessage(marsResult, launchesResult, apodResult) == Some("Launches: " + launchesResult.description)
    ensures apodResult.Failure? ==> LoadErrorMessage(marsResult, launchesResult, apodResult) == Some("APOD: " + apodResult.description)
  {
    var errors := LoadErrors(marsResult, launchesResult, apodResult);
    assert |errors| == 1;
    assert errors == [errors[0]];
  }

  /** `formatMeasurement(_:suffix:)`: the average wins; then a min–max range; then a lone
      minimum or maximum, marked as such; with no value at all, "—". */
  function FormatMeasurement(fmt: Formats, m: MarsMeasurement, suffix: string): (t: string)
    ensures t == Dash <==> m.av.None? && m.mn.None? && m.mx.None?
    ensures m.av.Some? ==> t == fmt.oneDecimal(m.av.value) + " " + suffix
    ensures m.av.None? && m.mn.Some? && m.mx.Some? ==>
      t == fmt.oneDecimal(m.mn.value) + "–" + fmt.oneDecimal(m.mx.value) + " " + suffix
    ensures m.av.None? && m.mn.Some? && m.mx.None? ==> t == fmt.oneDecimal(m.mn.value) + " " + suffix + " (min)"
    ensures m.av.None? && m.mn.None? && m.mx.Some? ==> t == fmt.oneDecimal(m.mx.value) + " " + suffix + " (max)"
  {
    if m.av.Some? then
      var t := fmt.oneDecimal(m.av.value) + " " + suffix;
      SpacedIsNotDash(fmt.oneDecimal(m.av.value), suffix);
      t
    else if m.mn.Some? && m.mx.Some? then
      var t := fmt.oneDecimal(m.mn.value) + "–" + fmt.oneDecimal(m.mx.value) + " " + suffix;
      SpacedIsNotDash(fmt.oneDecimal(m.mn.value) + "–" + fmt.oneDecimal(m.mx.value), suffix);
      t
    else if m.mn.Some? then
      var t := fmt.oneDecimal(m.mn.value) + " " + suffix + " (min)";
      SpacedIsNotDash(fmt.oneDecimal(m.mn.value), suffix + " (min)");
      assert t == fmt.oneDecimal(m.mn.value) + " " + (suffix + " (min)");
      t
    else if m.mx.Some? then
      var t := fmt.oneDecimal(m.mx.value) + " " + suffix + " (max)";
      SpacedIsNotDash(fmt.oneDecimal(m.mx.value), suffix + " (max)");
      assert t == fmt.oneDecimal(m.mx.value) + " " + (suffix + " (max)");
      t
    else Dash
  }

  /** A text with a space in it is never the placeholder dash. */
  lemma SpacedIsNotDash(a: string, b: string)
    ensures a + " " + b != Dash
  {
    var t := a + " " + b;
    assert t[|a|] == ' ';
    assert forall i :: 0 <= i < |Dash| ==> Dash[i] != ' ';
  }

  /** With an average present, the minimum and maximum do not show. */
  lemma AverageHidesRange(fmt: Formats, m: MarsMeasurement, suffix: string)
    requires m.av.Some?
    ensures FormatMeasurement(fmt, m, suffix) == FormatMeasurement(fmt, MarsMeasurement(m.av, None, None), suffix)
  {
  }

  /** `parseISO(_:)`: with fractional seconds first, then without. */
  function ParseIso(fmt: Formats, s: string): (d: Option<real>)
    ensures fmt.parseFractional(s).Some? ==> d == fmt.parseFractional(s)
    ensures fmt.parseFractional(s).None? ==> d == fmt.parseInternet(s)
    ensures d.None? <==> fmt.parseFractional(s).None? && fmt.parseInternet(s).None?
  {
    fmt.parseFractional(s).OrElse(fmt.parseInternet(s))
  }

  /** `earthDateText(from:)`: month and day of the parsed date; "—" when there is no date
      or it does not parse. */
  function EarthDateText(fmt: Formats, firstUTC: Option<string>): (t: string)
    ensures firstUTC.None? ==> t == Dash
    ensures firstUTC.Some? && ParseIso(fmt, firstUTC.value).None? ==> t == Dash
    ensures firstUTC.Some? && ParseIso(fmt, firstUTC.value).Some? ==>
      t == fmt.monthDay(ParseIso(fmt, firstUTC.value).value)
  {
    match firstUTC
    case None => Dash
    case Some(s) =>
      match ParseIso(fmt, s)
      case None => Dash
      case Some(date) => fmt.monthDay(date)
  }

  /** The text of a launch whose date cannot be shown. */
  function EstimatedText(launch: RocketLaunchState): string {
    launch.dateStr + " (estimated)"
  }

  /** `launchDateText(_:)`: `winOpen` is chosen over `t0` before parsing, so a `winOpen`
      that does not parse gives the estimate even when `t0` would have parsed. */
  function LaunchDateText(fmt: Formats, launch: RocketLaunchState): (t: string)
    ensures launch.winOpen.Some? && ParseIso(fmt, launch.winOpen.value).Some? ==>
      t == fmt.dateAndTime(ParseIso(fmt, launch.winOpen.value).value)
    ensures launch.winOpen.Some? && ParseIso(fmt, launch.winOpen.value).None? ==> t == EstimatedText(launch)
    ensures launch.winOpen.None? && launch.t0.Some? && ParseIso(fmt, launch.t0.value).Some? ==>
      t == fmt.dateAndTime(ParseIso(fmt, launch.t0.value).value)
    ensures launch.winOpen.None? && launch.t0.Some? && ParseIso(fmt, launch.t0.value).None? ==> t == EstimatedText(launch)
    ensures launch.winOpen.None? && launch.t0.None? ==> t == EstimatedText(launch)
  {
    match launch.winOpen.OrElse(launch.t0)
    case None => EstimatedText(launch)
    case Some(iso) =>
      match ParseIso(fmt, iso)
      case None => EstimatedText(launch)
      case Some(date) => fmt.dateAndTime(date)
  }

  /** A whole-number temperature, or "—". */
  function DegreesText(fmt: Formats, v: Option<real>): (t: string)
    ensures v.None? ==> t == Dash
    ensures v.Some? ==> t == fmt.wholeNumber(v.value) + "°C"
  {
    match v
    case None => Dash
    case Some(x) => fmt.wholeNumber(x) + "°C"
  }

  /** A measurement that may be missing, formatted or "—". */
  function MeasurementText(fmt: Formats, m: Option<MarsMeasurement>, suffix: string): (t: string)
    ensures m.None? ==> t == Dash
    ensures m.Some? ==> t == FormatMeasurement(fmt, m.value, suffix)
    ensures t == Dash <==> m.None? || (m.value.av.None? && m.value.mn.None? && m.value.mx.None?)
  {
    match m
    case None => Dash
    case Some(x) => FormatMeasurement(fmt, x, suffix)
  }

  class DailyViewModel {
    var apod: Option<ApodState>
    var mars: Option<MarsWeatherState>
    var marsLatest: Option<MarsWeatherState>
    var marsDays: seq<MarsWeatherState>
    var rocketLaunches: seq<RocketLaunchState>
    var isLoading: bool
    var errorMessage: Option<string>

    constructor ()
      ensures apod == None && mars == None && marsLatest == None && marsDays == [] && rocketLaunches == []
      ensures !isLoading && errorMessage == None
    {
      apod, mars, marsLatest, marsDays, rocketLaunches := None, None, None, [], [];
      isLoading, errorMessage := false, None;
    }

    /** `load()`, given what the three fetches returned (the launch service is asked for five).
        A call while loading is ignored. Otherwise each failure clears its part of the state
        and adds an error line; at the end the lines are joined and loading is over. */
    method Load(marsResult: Result<MarsWeatherResponse>, launchesResult: Result<seq<RocketLaunchState>>,
                apodResult: Result<ApodState>)
      modifies this
      ensures old(isLoading) ==> unchanged(this)
      ensures !old(isLoading) ==> !isLoading
      ensures !old(isLoading) && marsResult.Success? ==>
        marsLatest == Latest(marsResult.value) && mars == marsLatest && marsDays == Days(marsResult.value)
      ensures !old(isLoading) && marsResult.Failure? ==> marsLatest == None && mars == None && marsDays == []
      ensures !old(isLoading) && launchesResult.Success? ==> rocketLaunches == Prefix(launchesResult.value, 3)
      ensures !old(isLoading) && launchesResult.Failure? ==> rocketLaunches == []
      ensures !old(isLoading) && apodResult.Success? ==> apod == Some(apodResult.value)
      ensures !old(isLoading) && apodResult.Failure? ==> apod == None
      ensures !old(isLoading) ==> errorMessage == LoadErrorMessage(marsResult, launchesResult, apodResult)
    {
      if isLoading {
        return;
      }
      isLoading := true;
      errorMessage := None;
      var errors: seq<string> := [];

      match marsResult {
      case Success(res) =>
        marsLatest := Latest(res);
        marsDays := Days(res);
        mars := Latest(res);
      case Failure(description) =>
        marsLatest := None;
        marsDays := [];
        mars := None;
        errors := errors + ["Mars: " + description];
      }

      match launchesResult {
      case Success(launches) =>
        rocketLaunches := Prefix(launches, 3);
      case Failure(description) =>
        rocketLaunches := [];
        errors := errors + ["Launches: " + description];
      }

      match apodResult {
      case Success(state) =>
        apod := Some(state);
      case Failure(description) =>
        apod := None;
        errors := errors + ["APOD: " + description];
      }

      assert errors == LoadErrors(marsResult, launchesResult, apodResult);
      errorMessage := if |errors| == 0 then None else Some(Join(errors, Bullet));
      isLoading := false;
    }

    /** `marsTitle`. */
    function MarsTitle(): (t: string)
      reads this
      ensures mars.None? ==> t == "Marsväder"
      ensures mars.Some? ==> t == "Marsväder (Sol " + mars.value.sol + ")"
    {
      match mars
      case None => "Marsväder"
      case Some(state) => "Marsväder (Sol " + state.sol + ")"
    }

    /** `marsTempText`: the air temperature in °C. */
    function MarsTempText(fmt: Formats): (t: string)
      reads this
      ensures mars.None? ==> t == Dash
      ensures mars.Some? ==> t == MeasurementText(fmt, mars.value.data.at, "°C")
    {
      MeasurementText(fmt, if mars.Some? then mars.value.data.at else None, "°C")
    }

    /** `marsPressureText`: the pressure in Pa. */
    function MarsPressureText(fmt: Formats): (t: string)
      reads this
      ensures mars.None? ==> t == Dash
      ensures mars.Some? ==> t == MeasurementText(fmt, mars.value.data.pre, "Pa")
    {
      MeasurementText(fmt, if mars.Some? then mars.value.data.pre else None, "Pa")
    }

    /** `marsWindText`: the horizontal wind speed in m/s. */
    function MarsWindText(fmt: Formats): (t: string)
      reads this
      ensures mars.None? ==> t == Dash
      ensures mars.Some? ==> t == MeasurementText(fmt, mars.value.data.hws, "m/s")
    {
      MeasurementText(fmt, if mars.Some? then mars.value.data.hws else None, "m/s")
    }

    /** `marsHeroSolText`. */
    function MarsHeroSolText(): (t: string)
      reads this
      ensures marsLatest.None? ==> t == "Sol " + Dash
      ensures marsLatest.Some? ==> t == "Sol " + marsLatest.value.sol
    {
      "Sol " + (if marsLatest.Some? then marsLatest.value.sol else Dash)
    }

    /** `marsHeroEarthDateText`: the Earth date of the latest sol's first UTC instant. */
    function MarsHeroEarthDateText(fmt: Formats): (t: string)
      reads this
      ensures marsLatest.None? ==> t == Dash
      ensures marsLatest.Some? ==> t == EarthDateText(fmt, marsLatest.value.data.firstUTC)
    {
      EarthDateText(fmt, if marsLatest.Some? then marsLatest.value.data.firstUTC else None)
    }

    /** The latest sol's air temperature, if any. */
    function LatestTemperature(): Option<MarsMeasurement>
      reads this
    {
      if marsLatest.Some? then marsLatest.value.data.at else None
    }

    /** `marsHeroHighLowText`: the latest sol's maximum and minimum air temperature. */
    function MarsHeroHighLowText(fmt: Formats): (t: string)
      reads this
      ensures LatestTemperature().None? ==> t == "High: " + Dash + "   Low: " + Dash
      ensures LatestTemperature().Some? ==>
        t == "High: " + DegreesText(fmt, LatestTemperature().value.mx) + "   Low: " + DegreesText(fmt, LatestTemperature().value.mn)
    {
      var at := LatestTemperature();
      var hi := DegreesText(fmt, if at.Some? then at.value.mx else None);
      var lo := DegreesText(fmt, if at.Some? then at.value.mn else None);
      "High: " + hi + "   Low: " + lo
    }
  }

  /** After a load in which the Mars fetch failed, every Mars text shows its fallback. */
  method LoadWithMarsFailure(vm: DailyViewModel, fmt: Formats, description: string,
                             launchesResult: Result<seq<RocketLaunchState>>, apodResult: Result<ApodState>)
    requires !vm.isLoading
    modifies vm
    ensures vm.MarsTitle() == "Marsväder"
    ensures vm.MarsTempText(fmt) == Dash && vm.MarsPressureText(fmt) == Dash && vm.MarsWindText(fmt) == Dash
    ensures vm.MarsHeroSolText() == "Sol " + Dash && vm.MarsHeroEarthDateText(fmt) == Dash
    ensures vm.MarsHeroHighLowText(fmt) == "High: " + Dash + "   Low: " + Dash
    ensures vm.errorMessage.Some? && "Mars: " + description <= vm.errorMessage.value
  {
    vm.Load(Failure(description), launchesResult, apodResult);
    MarsErrorComesFirst(Failure(description), launchesResult, apodResult);
  }
}
