/**
 * Choosing the forecast for a target day and normalising it into a snapshot
 * (the pure part of `get_weather_forecast`). The HTTP request, the clock and
 * the local-timezone conversion are outside the model: the provider's answer
 * is a parameter, and every entry carries its local date and hour.
 */
module Forecast {
  import opened Wrappers
  import opened Weather

  /**
   * What the provider request produced: a failure of any kind (transport,
   * HTTP status, unreadable body), or a decoded body with its optional `cod`
   * field and its list of entries.
   */
  datatype Response = Unavailable | Payload(cod: Option<string>, entries: seq<ForecastEntry>)

  /** The status the provider reports for a usable forecast. */
  const SUCCESS_CODE: string := "200"

  /** The target hour: entries are ranked by their distance from noon. */
  const NOON: int := 12

  /** `abs(hour - 12)`. */
  function NoonDistance(e: ForecastEntry): (d: nat)
    ensures d <= 12
    ensures d == 0 <==> e.hour == NOON
  {
    if e.hour >= NOON then e.hour - NOON else NOON - e.hour
  }

  /** The entries that fall on day d, in list order (the list comprehension). */
  function OnDate(entries: seq<ForecastEntry>, d: Date): (r: seq<ForecastEntry>)
    ensures |r| <= |entries|
    ensures forall i :: 0 <= i < |r| ==> r[i].date == d
    ensures r == [] <==> forall i :: 0 <= i < |entries| ==> entries[i].date != d
    ensures forall e :: e in r <==> e in entries && e.date == d
  {
    if entries == [] then []
    else
      var last := entries[|entries| - 1];
      OnDate(entries[..|entries| - 1], d) + (if last.date == d then [last] else [])
  }

  /**
   * The index `min(s, key=noon distance)` picks: a scan from the left that
   * replaces its candidate only on a strictly smaller distance, so the first
   * of several equally close entries wins.
   */
  function ClosestToNoonIndex(s: seq<ForecastEntry>): (k: nat)
    requires |s| > 0
    ensures k < |s|
    ensures forall j :: 0 <= j < |s| ==> NoonDistance(s[k]) <= NoonDistance(s[j])
    ensures forall j :: 0 <= j < k ==> NoonDistance(s[j]) > NoonDistance(s[k])
  {
    if |s| == 1 then 0
    else
      var k := ClosestToNoonIndex(s[..|s| - 1]);
      if NoonDistance(s[|s| - 1]) < NoonDistance(s[k]) then |s| - 1 else k
  }

  /** A `rain`/`snow` flag: the block is present and its `3h` volume (0 when missing) is positive. */
  function PrecipitationFlag(block: Option<Precipitation>): (b: bool)
    ensures b <==> block.Some? && block.value.threeHour.Some? && block.value.threeHour.value > 0.0
  {
    block.Some? && block.value.threeHour.GetOr(0.0) > 0.0
  }

  /**
   * The snapshot built from the chosen entry, dated with the target day: the
   * readings are copied, and each flag is set exactly when its block reports
   * a positive `3h` volume.
   */
  function BuildSnapshot(e: ForecastEntry, d: Date): (s: Snapshot)
    ensures s.date == d && s.temp == e.temp && s.feelsLike == e.feelsLike
    ensures s.description == e.description && s.wind == e.windSpeed && s.humidity == e.humidity
    ensures s.rain <==> e.rain.Some? && e.rain.value.threeHour.Some? && e.rain.value.threeHour.value > 0.0
    ensures s.snow <==> e.snow.Some? && e.snow.value.threeHour.Some? && e.snow.value.threeHour.value > 0.0
  {
    Snapshot(d, e.temp, e.feelsLike, e.description, e.windSpeed, e.humidity,
             PrecipitationFlag(e.rain), PrecipitationFlag(e.snow))
  }

  /** The entry chosen for day d, if any entry falls on it. */
  function Select(entries: seq<ForecastEntry>, d: Date): (r: Option<ForecastEntry>)
    ensures r.None? <==> forall i :: 0 <= i < |entries| ==> entries[i].date != d
    ensures r.Some? ==> r.value in entries && r.value.date == d
  {
    var onDay := OnDate(entries, d);
    if onDay == [] then None else Some(onDay[ClosestToNoonIndex(onDay)])
  }

  /**
   * `get_weather_forecast` after the request: None for a failed request, a
   * status other than "200" or a day without entries; otherwise the snapshot
   * of the entry closest to noon on that day.
   */
  function GetWeatherForecast(response: Response, target: Date): (r: Option<Snapshot>)
    ensures r.None? <==>
      || response.Unavailable?
      || response.cod != Some(SUCCESS_CODE)
      || forall i :: 0 <= i < |response.entries| ==> response.entries[i].date != target
    ensures r.Some? ==> r.value.date == target
  {
    if response.Unavailable? || response.cod != Some(SUCCESS_CODE) then None
    else
      match Select(response.entries, target)
      case None => None
      case Some(e) => Some(BuildSnapshot(e, target))
  }

  // ---------------------------------------------------------------------
  // The selection, stated on the provider's list itself
  // ---------------------------------------------------------------------

  /**
   * Index k holds the entry the bot should choose for day d: it falls on d,
   * no entry on d is closer to noon, and every entry on d before it is
   * strictly farther from noon.
   */
  predicate FirstClosestOnDate(entries: seq<ForecastEntry>, d: Date, k: int)
  {
    && 0 <= k < |entries|
    && entries[k].date == d
    && (forall j :: 0 <= j < |entries| && entries[j].date == d ==> NoonDistance(entries[k]) <= NoonDistance(entries[j]))
    && (forall j :: 0 <= j < k && entries[j].date == d ==> NoonDistance(entries[j]) > NoonDistance(entries[k]))
  }

  /** At most one index is the first closest entry of a day, so the choice is determined. */
  lemma FirstClosestIsUnique(entries: seq<ForecastEntry>, d: Date, k1: int, k2: int)
    requires FirstClosestOnDate(entries, d, k1) && FirstClosestOnDate(entries, d, k2)
    ensures k1 == k2
  {
  }

  /** Appending one entry to the list: either it is off the day, or it is chosen exactly when it is strictly closer to noon. */
  lemma SelectAppend(init: seq<ForecastEntry>, x: ForecastEntry, d: Date)
    ensures Select(init + [x], d) ==
      if x.date != d then Select(init, d)
      else match Select(init, d)
        case None => Some(x)
        case Some(y) => if NoonDistance(x) < NoonDistance(y) then Some(x) else Some(y)
  {
    var s := init + [x];
    assert s[..|s| - 1] == init;
    var onInit := OnDate(init, d);
    assert OnDate(s, d) == onInit + (if x.date == d then [x] else []);
    if x.date == d {
      var onDay := onInit + [x];
      assert onDay[..|onDay| - 1] == onInit;
      assert Select(s, d) == Some(onDay[ClosestToNoonIndex(onDay)]);
      if onInit == [] {
        assert onDay == [x];
        assert Select(init, d) == None;
        assert Select(s, d) == Some(x);
      } else {
        var c := ClosestToNoonIndex(onInit);
        assert Select(init, d) == Some(onInit[c]);
        assert ClosestToNoonIndex(onDay) == if NoonDistance(x) < NoonDistance(onInit[c]) then |onInit| else c;
        assert onDay[c] == onInit[c];
        assert onDay[|onInit|] == x;
        assert Select(s, d) == if NoonDistance(x) < NoonDistance(onInit[c]) then Some(x) else Some(onInit[c]);
      }
    } else {
      assert OnDate(s, d) == onInit;
    }
  }

  /** An entry appended off the day leaves the first closest entry in place. */
  lemma FirstClosestAppendOff(init: seq<ForecastEntry>, x: ForecastEntry, d: Date, k: int)
    requires FirstClosestOnDate(init, d, k) && x.date != d
    ensures FirstClosestOnDate(init + [x], d, k)
  {
  }

  /** An entry appended on the day that is not strictly closer leaves the first closest entry in place. */
  lemma FirstClosestAppendFarther(init: seq<ForecastEntry>, x: ForecastEntry, d: Date, k: int)
    requires FirstClosestOnDate(init, d, k) && NoonDistance(x) >= NoonDistance(init[k])
    ensures FirstClosestOnDate(init + [x], d, k)
  {
  }

  /** An entry appended on the day that is strictly closer than every earlier one becomes the first closest. */
  lemma FirstClosestAppendCloser(init: seq<ForecastEntry>, x: ForecastEntry, d: Date)
    requires x.date == d
    requires forall j :: 0 <= j < |init| && init[j].date == d ==> NoonDistance(init[j]) > NoonDistance(x)
    ensures FirstClosestOnDate(init + [x], d, |init|)
  {
  }

  /**
   * Filtering and then taking the first minimum selects, from the whole list,
   * the first entry of day d that is closest to noon; nothing is selected
   * exactly when no entry falls on d.
   */
  lemma {:induction false} SelectIsFirstClosest(entries: seq<ForecastEntry>, d: Date)
    ensures Select(entries, d).None? <==> forall i :: 0 <= i < |entries| ==> entries[i].date != d
    ensures Select(entries, d).Some? ==>
      exists k :: FirstClosestOnDate(entries, d, k) && Select(entries, d).value == entries[k]
  {
    if entries == [] {
      assert OnDate(entries, d) == [];
    } else {
      var n := |entries|;
      var init, x := entries[..n - 1], entries[n - 1];
      assert entries == init + [x];
      SelectIsFirstClosest(init, d);
      SelectAppend(init, x, d);
      if Select(init, d).None? {
        if x.date == d {
          FirstClosestAppendCloser(init, x, d);
        }
      } else {
        var k :| FirstClosestOnDate(init, d, k) && Select(init, d).value == init[k];
        if x.date != d {
          FirstClosestAppendOff(init, x, d, k);
        } else if NoonDistance(x) < NoonDistance(init[k]) {
          FirstClosestAppendCloser(init, x, d);
        } else {
          FirstClosestAppendFarther(init, x, d, k);
        }
      }
    }
  }

  /**
   * End to end: a successful result is the snapshot of the first entry of the
   * target day that is closest to noon, with its fields copied and its
   * precipitation flags set from the blocks.
   */
  lemma ForecastIsFirstClosestToNoon(response: Response, target: Date)
    requires GetWeatherForecast(response, target).Some?
    ensures exists k :: FirstClosestOnDate(response.entries, target, k)
              && GetWeatherForecast(response, target).value == BuildSnapshot(response.entries[k], target)
  {
    SelectIsFirstClosest(response.entries, target);
  }

  /** Two entries of the day at 9:00 and 13:00: the 13:00 one is chosen (distance 1 against 3). */
  lemma NineVersusThirteen(e9: ForecastEntry, e13: ForecastEntry, d: Date)
    requires e9.date == d && e9.hour == 9 && e13.date == d && e13.hour == 13
    ensures Select([e9, e13], d) == Some(e13)
  {
    var s := [e9, e13];
    assert s[..1] == [e9];
    assert OnDate(s, d) == OnDate([e9], d) + [e13];
    assert OnDate([e9], d) == [e9] by {
      assert [e9][..0] == [];
    }
  }

  /** Two entries of the day equally far from noon (11:00 and 13:00): the earlier in the list wins. */
  lemma TieGoesToFirst(e11: ForecastEntry, e13: ForecastEntry, d: Date)
    requires e11.date == d && e11.hour == 11 && e13.date == d && e13.hour == 13
    ensures Select([e13, e11], d) == Some(e13)
  {
    var s := [e13, e11];
    assert s[..1] == [e13];
    assert OnDate(s, d) == OnDate([e13], d) + [e11];
    assert OnDate([e13], d) == [e13] by {
      assert [e13][..0] == [];
    }
  }
}
