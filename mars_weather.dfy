/** The Mars weather response (`MarsWeatherResponse`): decoding keeps only the sols
    that `sol_keys` lists and whose entries decode; `days` lists them in key order and
    `latest` is the last listed sol, when it has data. */
module MarsWeather {
  import opened Common

  /** One measured quantity: average, minimum and maximum, each optional. */
  datatype MarsMeasurement = MarsMeasurement(av: Option<real>, mn: Option<real>, mx: Option<real>)

  /** The weather of one sol. */
  datatype MarsSolWeather = MarsSolWeather(
    firstUTC: Option<string>,
    lastUTC: Option<string>,
    season: Option<string>,
    at: Option<MarsMeasurement>,
    pre: Option<MarsMeasurement>,
    hws: Option<MarsMeasurement>)

  /** One sol with its data. */
  datatype MarsWeatherState = MarsWeatherState(sol: string, data: MarsSolWeather)

  /** The decoded response: the listed sols and the data of those that decoded. */
  datatype MarsWeatherResponse = MarsWeatherResponse(solKeys: seq<string>, sols: map<string, MarsSolWeather>)

  /** `init(from:)`. `solKeysField` is the `sol_keys` entry (`None` when it is absent or is not a
      list of strings); `entries` holds the top-level entries that decode as a sol's weather. */
  method Decode(solKeysField: Option<seq<string>>, entries: map<string, MarsSolWeather>)
    returns (r: MarsWeatherResponse)
    ensures r.solKeys == solKeysField.GetOr([])
    ensures solKeysField.None? ==> r.sols == map[]
    ensures forall sol :: sol in r.sols <==> sol in r.solKeys && sol in entries
    ensures forall sol :: sol in r.sols ==> r.sols[sol] == entries[sol]
  {
    var solKeys := solKeysField.GetOr([]);
    var tmp: map<string, MarsSolWeather> := map[];
    for i := 0 to |solKeys|
      invariant forall sol :: sol in tmp <==> sol in solKeys[..i] && sol in entries
      invariant forall sol :: sol in tmp ==> tmp[sol] == entries[sol]
    {
      var sol := solKeys[i];
      assert solKeys[..i + 1] == solKeys[..i] + [sol];
      if sol in entries {
        tmp := tmp[sol := entries[sol]];
      }
    }
    assert solKeys[..|solKeys|] == solKeys;
    r := MarsWeatherResponse(solKeys, tmp);
  }

  /** The keys that have data, in key order, each paired with its data (`compactMap` over the keys). */
  function DaysOf(keys: seq<string>, sols: map<string, MarsSolWeather>): (days: seq<MarsWeatherState>)
    ensures |days| <= |keys|
    ensures forall i :: 0 <= i < |days| ==> days[i].sol in keys && days[i].sol in sols && days[i].data == sols[days[i].sol]
  {
    if keys == [] then []
    else
      var rest := DaysOf(keys[1..], sols);
      assert forall i :: 0 <= i < |rest| ==> rest[i].sol in keys;
      if keys[0] in sols then [MarsWeatherState(keys[0], sols[keys[0]])] + rest else rest
  }

  /** `days`: every listed sol that has data, and only those, each paired with its data. */
  function Days(r: MarsWeatherResponse): (days: seq<MarsWeatherState>)
    ensures |days| <= |r.solKeys|
    ensures forall i :: 0 <= i < |days| ==> days[i].sol in r.solKeys && days[i].sol in r.sols && days[i].data == r.sols[days[i].sol]
    ensures forall k :: k in r.solKeys && k in r.sols ==> exists i :: 0 <= i < |days| && days[i].sol == k
  {
    var days := DaysOf(r.solKeys, r.sols);
    assert forall k :: k in r.solKeys && k in r.sols ==> exists i :: 0 <= i < |days| && days[i].sol == k by {
      forall k | k in r.solKeys && k in r.sols ensures exists i :: 0 <= i < |days| && days[i].sol == k {
        DaysOfMembership(r.solKeys, r.sols, k);
      }
    }
    days
  }

  /** `latest`: the last listed sol, provided it has data. */
  function Latest(r: MarsWeatherResponse): (l: Option<MarsWeatherState>)
    ensures l.Some? <==> r.solKeys != [] && r.solKeys[|r.solKeys| - 1] in r.sols
    ensures l.Some? ==> l.value.sol == r.solKeys[|r.solKeys| - 1] && l.value.data == r.sols[l.value.sol]
  {
    if r.solKeys == [] then None
    else
      var last := r.solKeys[|r.solKeys| - 1];
      if last in r.sols then Some(MarsWeatherState(last, r.sols[last])) else None
  }

  /** Filtering distributes over concatenation of key lists, so `days` keeps key order. */
  lemma {:induction false} DaysOfAppend(a: seq<string>, b: seq<string>, sols: map<string, MarsSolWeather>)
    ensures DaysOf(a + b, sols) == DaysOf(a, sols) + DaysOf(b, sols)
  {
    if a == [] {
      assert a + b == b;
    } else {
      assert (a + b)[0] == a[0];
      assert (a + b)[1..] == a[1..] + b;
      DaysOfAppend(a[1..], b, sols);
    }
  }

  /** A sol appears in `days` exactly when it is listed and has data. */
  lemma {:induction false} DaysOfMembership(keys: seq<string>, sols: map<string, MarsSolWeather>, sol: string)
    ensures (exists i :: 0 <= i < |DaysOf(keys, sols)| && DaysOf(keys, sols)[i].sol == sol) <==> sol in keys && sol in sols
  {
    if keys != [] {
      DaysOfMembership(keys[1..], sols, sol);
      var days, rest := DaysOf(keys, sols), DaysOf(keys[1..], sols);
      if keys[0] in sols {
        assert days == [MarsWeatherState(keys[0], sols[keys[0]])] + rest;
        if exists i :: 0 <= i < |rest| && rest[i].sol == sol {
          var i :| 0 <= i < |rest| && rest[i].sol == sol;
          assert days[i + 1].sol == sol;
        }
        if sol == keys[0] {
          assert days[0].sol == sol;
        }
      }
      assert keys == [keys[0]] + keys[1..];
    }
  }

  /** A non-empty `latest` is the last of the `days`. */
  lemma LatestIsLastDay(r: MarsWeatherResponse)
    requires Latest(r).Some?
    ensures Days(r) != [] && Latest(r).value == Days(r)[|Days(r)| - 1]
  {
    var n := |r.solKeys|;
    var last := r.solKeys[n - 1];
    assert r.solKeys == r.solKeys[..n - 1] + [last];
    DaysOfAppend(r.solKeys[..n - 1], [last], r.sols);
    assert DaysOf([last], r.sols) == [MarsWeatherState(last, r.sols[last])] by {
      assert [last][1..] == [];
    }
  }
}
