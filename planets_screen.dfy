/** The sky list screen (`PlanetsView`): a refresh needs a position, the list section shows
    loading before an error before an empty note before the rows, and each row has a
    naked-eye badge and a detail line of two to four parts. */
module PlanetsScreen {
  import opened Common
  import opened Planets

  /** `refresh()`: without a position nothing is loaded; with one, the view model loads
      for that position. */
  method Refresh(vm: PlanetsViewModel, coordinate: Option<Coordinate>,
                 service: (real, real) -> Result<VisiblePlanetsResponse>)
    modifies vm
    ensures coordinate.None? ==> unchanged(vm)
    ensures coordinate.Some? ==> !vm.isLoading
    ensures coordinate.Some? && Fetch(service, coordinate.value).Success? ==>
      vm.bodies == SortedByAltitude(Fetch(service, coordinate.value).value.data) && vm.errorMessage == None
    ensures coordinate.Some? && Fetch(service, coordinate.value).Failure? ==>
      vm.bodies == old(vm.bodies) && vm.errorMessage == Some(Fetch(service, coordinate.value).description)
    ensures coordinate.Some? && Fetch(service, coordinate.value).Failure? ==>
      SectionFor(vm) == Failed(Fetch(service, coordinate.value).description)
    ensures coordinate.Some? && Fetch(service, coordinate.value).Success? ==>
      (SectionFor(vm) == NoBodies <==> Fetch(service, coordinate.value).value.data == [])
  {
    if coordinate.None? {
      return;
    }
    var c := coordinate.value;
    vm.Load(c.latitude, c.longitude, service);
  }

  /** What the service returns for a position. */
  function Fetch(service: (real, real) -> Result<VisiblePlanetsResponse>, c: Coordinate): Result<VisiblePlanetsResponse> {
    service(c.latitude, c.longitude)
  }

  /** What the "Synliga objekt" section shows. */
  datatype ListSection = Loading | Failed(message: string) | NoBodies | Rows(bodies: seq<VisibleBody>)

  /** The section's precedence: loading, then the error, then the empty note, then the rows. */
  function SectionFor(vm: PlanetsViewModel): (s: ListSection)
    reads vm
    ensures s == Loading <==> vm.isLoading
    ensures s.Failed? <==> !vm.isLoading && vm.errorMessage.Some?
    ensures s.Failed? ==> s.message == vm.errorMessage.value
    ensures s == NoBodies <==> !vm.isLoading && vm.errorMessage.None? && vm.bodies == []
    ensures s.Rows? ==> s.bodies == vm.bodies && s.bodies != []
  {
    if vm.isLoading then Loading
    else if vm.errorMessage.Some? then Failed(vm.errorMessage.value)
    else if vm.bodies == [] then NoBodies
    else Rows(vm.bodies)
  }

  /** The naked-eye badge: only for bodies that say whether they are visible without a telescope. */
  function Badge(b: VisibleBody): (t: Option<string>)
    ensures t.None? <==> b.nakedEyeObject.None?
    ensures b.nakedEyeObject == Some(true) ==> t == Some("Naked eye")
    ensures b.nakedEyeObject == Some(false) ==> t == Some("Teleskop")
  {
    match b.nakedEyeObject
    case None => None
    case Some(naked) => Some(if naked then "Naked eye" else "Teleskop")
  }

  /** The moon-phase line, for bodies that report a phase; `wholeNumber` renders `%.0f`. */
  function PhaseText(b: VisibleBody, wholeNumber: real -> string): (t: Option<string>)
    ensures t.None? <==> b.phase.None?
    ensures b.phase.Some? ==> t == Some("Fas: " + wholeNumber(b.phase.value) + "%")
  {
    match b.phase
    case None => None
    case Some(p) => Some("Fas: " + wholeNumber(p) + "%")
  }

  /** `Double.rounded()`: to the nearest integer, ties away from zero. */
  function Rounded(x: real): (n: int)
    ensures -0.5 <= x - n as real <= 0.5
    ensures x - n as real == -0.5 ==> x >= 0.0
    ensures x - n as real == 0.5 ==> x < 0.0
  {
    if x >= 0.0 then (x + 0.5).Floor else -((-x + 0.5).Floor)
  }

  function DigitChar(d: int): (c: char)
    requires 0 <= d < 10
    ensures '0' <= c <= '9' && c as int - '0' as int == d
  {
    ('0' as int + d) as char
  }

  predicate AllDigits(s: string) {
    forall i :: 0 <= i < |s| ==> '0' <= s[i] <= '9'
  }

  /** The decimal digits of a natural number, most significant first, without leading zeros. */
  function NatText(n: nat): (s: string)
    ensures |s| >= 1 && AllDigits(s)
    ensures s[0] == '0' ==> n == 0
  {
    if n < 10 then [DigitChar(n)]
    else NatText(n / 10) + [DigitChar(n % 10)]
  }

  /** The number a string of decimal digits denotes. */
  function DigitsValue(s: string): nat
    requires AllDigits(s)
  {
    if s == [] then 0
    else DigitsValue(s[..|s| - 1]) * 10 + (s[|s| - 1] as int - '0' as int)
  }

  /** Reading back the digits gives the number. */
  lemma {:induction false} NatTextRoundTrip(n: nat)
    ensures DigitsValue(NatText(n)) == n
  {
    if n >= 10 {
      NatTextRoundTrip(n / 10);
      var s := NatText(n);
      assert s[..|s| - 1] == NatText(n / 10);
    }
  }

  /** Swift's decimal rendering of an `Int`. */
  function IntText(n: int): string {
    if n >= 0 then NatText(n) else "-" + NatText(-n)
  }

  /** The rendering of an `Int` reads back as that `Int`: a sign exactly for negative
      numbers, then the digits of its magnitude. */
  lemma IntTextReadsBack(n: int)
    ensures n >= 0 ==> AllDigits(IntText(n)) && DigitsValue(IntText(n)) == n
    ensures n < 0 ==> IntText(n)[0] == '-' && AllDigits(IntText(n)[1..]) && DigitsValue(IntText(n)[1..]) == -n
  {
    if n >= 0 {
      NatTextRoundTrip(n);
    } else {
      NatTextRoundTrip(-n);
      assert IntText(n)[1..] == NatText(-n);
    }
  }

  /** "Alt: <altitude rounded>°". */
  function AltitudePart(b: VisibleBody): string {
    "Alt: " + IntText(Rounded(b.altitude)) + "°"
  }

  /** "Az: <azimuth rounded>°". */
  function AzimuthPart(b: VisibleBody): string {
    "Az: " + IntText(Rounded(b.azimuth)) + "°"
  }

  /** The magnitude part, when there is a magnitude. */
  function MagnitudeParts(b: VisibleBody, oneDecimal: real -> string): seq<string> {
    if b.magnitude.Some? then ["Mag: " + oneDecimal(b.magnitude.value)] else []
  }

  /** The constellation part, when there is a constellation. */
  function ConstellationParts(b: VisibleBody): seq<string> {
    if b.constellation.Some? then [b.constellation.value] else []
  }

  /** The parts of `detailLine(for:)`: altitude and azimuth, then the magnitude and the
      constellation when present; `oneDecimal` renders `%.1f`. */
  function DetailParts(b: VisibleBody, oneDecimal: real -> string): (parts: seq<string>)
    ensures 2 <= |parts| <= 4
    ensures |parts| == 2 + (if b.magnitude.Some? then 1 else 0) + (if b.constellation.Some? then 1 else 0)
    ensures parts[0] == AltitudePart(b) && parts[1] == AzimuthPart(b)
    ensures b.magnitude.Some? ==> parts[2] == "Mag: " + oneDecimal(b.magnitude.value)
    ensures b.constellation.Some? ==> parts[|parts| - 1] == b.constellation.value
  {
    [AltitudePart(b), AzimuthPart(b)] + MagnitudeParts(b, oneDecimal) + ConstellationParts(b)
  }

  /** `detailLine(for:)`: builds the parts one append at a time and joins them with " • ". */
  method DetailLine(b: VisibleBody, oneDecimal: real -> string) returns (line: string)
    ensures line == Join(DetailParts(b, oneDecimal), Bullet)
  {
    var parts: seq<string> := [];
    parts := parts + [AltitudePart(b)];
    parts := parts + [AzimuthPart(b)];
    if b.magnitude.Some? {
      parts := parts + ["Mag: " + oneDecimal(b.magnitude.value)];
    }
    assert parts == [AltitudePart(b), AzimuthPart(b)] + MagnitudeParts(b, oneDecimal);
    if b.constellation.Some? {
      parts := parts + [b.constellation.value];
    }
    assert parts == DetailParts(b, oneDecimal);
    line := Join(parts, Bullet);
  }

  /** Every detail line opens with the altitude and then the azimuth. */
  lemma DetailLineStartsWithAltAz(b: VisibleBody, oneDecimal: real -> string)
    ensures AltitudePart(b) + Bullet + AzimuthPart(b) <= Join(DetailParts(b, oneDecimal), Bullet)
  {
    JoinStartsWithFirstTwo(DetailParts(b, oneDecimal), Bullet);
  }

  /** A body with neither magnitude nor constellation shows exactly altitude and azimuth. */
  lemma DetailLineBare(b: VisibleBody, oneDecimal: real -> string)
    requires b.magnitude.None? && b.constellation.None?
    ensures Join(DetailParts(b, oneDecimal), Bullet) == AltitudePart(b) + Bullet + AzimuthPart(b)
  {
    var parts := DetailParts(b, oneDecimal);
    assert parts[1..] == [AzimuthPart(b)];
  }

  /** With every field present, the four parts appear in the order altitude, azimuth,
      magnitude, constellation. */
  lemma DetailLineFull(b: VisibleBody, oneDecimal: real -> string)
    requires b.magnitude.Some? && b.constellation.Some?
    ensures Join(DetailParts(b, oneDecimal), Bullet)
         == AltitudePart(b) + Bullet + AzimuthPart(b) + Bullet + "Mag: " + oneDecimal(b.magnitude.value) + Bullet + b.constellation.value
  {
    var parts := DetailParts(b, oneDecimal);
    assert parts == [parts[0], parts[1], parts[2], parts[3]];
    JoinFour(parts[0], parts[1], parts[2], parts[3], Bullet);
  }
}
