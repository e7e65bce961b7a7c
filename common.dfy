/** Shared vocabulary of the Space app model: optional values, fetch outcomes,
    string joining, geographic coordinates and cancellable polling tasks. */
module Common {

  /** Swift's `T?`. */
  datatype Option<+T> = None | Some(value: T) {
    /** Swift's `x ?? default`. */
    function GetOr(default: T): T {
      match this
      case Some(v) => v
      case None => default
    }

    /** Swift's `a ?? b` where both sides are optional. */
    function OrElse(other: Option<T>): Option<T> {
      if Some? then this else other
    }
  }

  /** Outcome of a throwing call: the value, or the error's `localizedDescription`. */
  datatype Result<+T> = Success(value: T) | Failure(description: string)

  /** The placeholder the views show for a missing value (an em dash). */
  const Dash: string := "—"

  /** The separator the app uses between parts of a line (a bullet between spaces). */
  const Bullet: string := " • "

  /** A latitude/longitude pair in degrees (`CLLocationCoordinate2D`). */
  datatype Coordinate = Coordinate(latitude: real, longitude: real)

  /** Swift's `parts.joined(separator: sep)`. */
  function Join(parts: seq<string>, sep: string): (r: string)
    ensures parts == [] ==> r == ""
    ensures |parts| == 1 ==> r == parts[0]
  {
    if parts == [] then ""
    else if |parts| == 1 then parts[0]
    else parts[0] + sep + Join(parts[1..], sep)
  }

  /** Joining one more part appends the separator and that part. */
  lemma {:induction false} JoinSnoc(parts: seq<string>, p: string, sep: string)
    requires parts != []
    ensures Join(parts + [p], sep) == Join(parts, sep) + sep + p
  {
    if |parts| == 1 {
      assert parts + [p] == [parts[0], p];
      assert [parts[0], p][1..] == [p];
    } else {
      assert (parts + [p])[1..] == parts[1..] + [p];
      JoinSnoc(parts[1..], p, sep);
    }
  }

  /** A joined line with several parts begins with its first part and the separator. */
  lemma JoinStartsWithFirst(parts: seq<string>, sep: string)
    requires |parts| >= 2
    ensures parts[0] + sep <= Join(parts, sep)
  {
  }

  /** A joined line with at least two parts begins with the first two and the separator between them. */
  lemma JoinStartsWithFirstTwo(parts: seq<string>, sep: string)
    requires |parts| >= 2
    ensures parts[0] + sep + parts[1] <= Join(parts, sep)
  {
    var rest := if |parts| == 2 then "" else sep + Join(parts[2..], sep);
    assert Join(parts[1..], sep) == parts[1] + rest by {
      if |parts| > 2 {
        assert parts[1..][1..] == parts[2..];
      }
    }
    assert Join(parts, sep) == (parts[0] + sep + parts[1]) + rest;
  }

  /** Joining three parts puts the separator between neighbours only. */
  lemma JoinThree(a: string, b: string, c: string, sep: string)
    ensures Join([a, b, c], sep) == a + sep + b + sep + c
  {
    assert [a, b, c][1..] == [b, c];
    assert [b, c][1..] == [c];
    assert a + sep + (b + sep + c) == a + sep + b + sep + c;
  }

  /** Joining four parts puts the separator between neighbours only. */
  lemma JoinFour(a: string, b: string, c: string, d: string, sep: string)
    ensures Join([a, b, c, d], sep) == a + sep + b + sep + c + sep + d
  {
    assert [a, b, c, d][1..] == [b, c, d];
    JoinThree(b, c, d, sep);
    assert a + sep + (b + sep + c + sep + d) == a + sep + b + sep + c + sep + d;
  }

  /** Swift's `Array(s.prefix(n))`. */
  function Prefix<T>(s: seq<T>, n: nat): (r: seq<T>)
    ensures |r| == if |s| < n then |s| else n
    ensures forall i :: 0 <= i < |r| ==> r[i] == s[i]
    ensures |s| <= n ==> r == s
  {
    if |s| <= n then s else s[..n]
  }

  /** A `Task` handle: the only thing the view models do with one is cancel it. */
  class PollingTask {
    var cancelled: bool

    constructor ()
      ensures !cancelled
    {
      cancelled := false;
    }

    /** `task.cancel()`. */
    method Cancel()
      modifies this
      ensures cancelled
    {
      cancelled := true;
    }
  }
}
