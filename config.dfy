/**
 * The static recommendation tables: the ordered temperature bands and the
 * special conditions, held as data (bounds and texts; a condition kind and
 * texts) rather than as closures.
 */
module Config {
  import opened Weather

  /** One temperature band; it matches a temperature t when `minTemp <= t < maxTemp`. */
  datatype Band = Band(minTemp: real, maxTemp: real, description: string, recommendation: string)

  /** The half-open membership test the engine applies to every band. */
  predicate InBand(b: Band, t: real)
  {
    b.minTemp <= t < b.maxTemp
  }

  /** The five bands, coldest first. */
  const TEMPERATURE_RANGES: seq<Band> := [
    Band(-50.0, 0.0, "❄️ Сильный мороз", "Теплая зимняя куртка, шапка, шарф, перчатки, термобельё"),
    Band(0.0, 10.0, "🥶 Холодно", "Пуховик/демисезонная куртка, шапка, тёплый свитер"),
    Band(10.0, 18.0, "🧥 Прохладно", "Ветровка/джинсовка, лёгкий свитер/кофта"),
    Band(18.0, 25.0, "👕 Тепло", "Футболка/рубашка, джинсы/шорты"),
    Band(25.0, 50.0, "🔥 Жара", "Лёгкая одежда, головной убор, солнцезащитные очки")
  ]

  /** The kinds of special condition; each stands for one predicate over a snapshot. */
  datatype ConditionKind = StrongWind | Rain | Snow

  /** Wind speeds strictly above this (in m/s) count as strong wind. */
  const STRONG_WIND_SPEED: real := 10.0

  /** The predicate a condition kind stands for: wind strictly above 10 m/s, or the snapshot's rain or snow flag. */
  predicate Holds(kind: ConditionKind, w: Snapshot): (b: bool)
    ensures kind == StrongWind ==> (b <==> w.wind > 10.0)
    ensures kind == Rain ==> (b <==> w.rain)
    ensures kind == Snow ==> (b <==> w.snow)
  {
    match kind
    case StrongWind => w.wind > STRONG_WIND_SPEED
    case Rain => w.rain
    case Snow => w.snow
  }

  datatype SpecialCondition = SpecialCondition(kind: ConditionKind, description: string, recommendation: string)

  /** The special conditions, in the order they are checked and reported. */
  const SPECIAL_CONDITIONS: seq<SpecialCondition> := [
    SpecialCondition(StrongWind, "💨 Сильный ветер", "Ветровка/непродуваемая одежда"),
    SpecialCondition(Rain, "☔ Ожидается дождь", "Возьмите зонт или дождевик"),
    SpecialCondition(Snow, "❄️ Ожидается снег", "Наденьте непромокаемую обувь")
  ]

  // ---------------------------------------------------------------------
  // Properties of band tables in general
  // ---------------------------------------------------------------------

  /** Every band holds at least one temperature. */
  predicate NonEmptyBands(bands: seq<Band>)
  {
    forall i :: 0 <= i < |bands| ==> bands[i].minTemp < bands[i].maxTemp
  }

  /** Each band ends where the next one begins. */
  predicate Contiguous(bands: seq<Band>)
  {
    forall i :: 0 <= i < |bands| - 1 ==> bands[i].maxTemp == bands[i + 1].minTemp
  }

  /** In a contiguous table of non-empty bands, a later band starts no lower than an earlier one ends. */
  lemma {:induction false} LaterBandsLieAbove(bands: seq<Band>, i: nat, j: nat)
    requires NonEmptyBands(bands) && Contiguous(bands)
    requires i < j < |bands|
    ensures bands[i].maxTemp <= bands[j].minTemp
    decreases j - i
  {
    if j > i + 1 {
      LaterBandsLieAbove(bands, i, j - 1);
    }
  }

  /** Such a table's bands are pairwise disjoint: at most one of them contains t. */
  lemma AtMostOneBand(bands: seq<Band>, t: real, i: nat, j: nat)
    requires NonEmptyBands(bands) && Contiguous(bands)
    requires i < |bands| && j < |bands|
    requires InBand(bands[i], t) && InBand(bands[j], t)
    ensures i == j
  {
    if i < j {
      LaterBandsLieAbove(bands, i, j);
    } else if j < i {
      LaterBandsLieAbove(bands, j, i);
    }
  }

  /** Such a table covers exactly the interval from its first band's minimum up to its last band's maximum. */
  lemma {:induction false} CoveredIffInRange(bands: seq<Band>, t: real)
    requires |bands| > 0 && NonEmptyBands(bands) && Contiguous(bands)
    ensures (exists i :: 0 <= i < |bands| && InBand(bands[i], t))
        <==> bands[0].minTemp <= t < bands[|bands| - 1].maxTemp
  {
    var last := |bands| - 1;
    if |bands| == 1 {
      if bands[0].minTemp <= t < bands[0].maxTemp {
        assert InBand(bands[0], t);
      }
    } else {
      var init := bands[..last];
      assert NonEmptyBands(init) && Contiguous(init);
      CoveredIffInRange(init, t);
      assert init[0] == bands[0] && init[last - 1] == bands[last - 1];
      if exists i :: 0 <= i < |bands| && InBand(bands[i], t) {
        var i :| 0 <= i < |bands| && InBand(bands[i], t);
        if i < last {
          assert InBand(init[i], t);
          LaterBandsLieAbove(bands, last - 1, last);
        } else if last > 0 {
          LaterBandsLieAbove(bands, 0, last);
        }
      }
      if bands[0].minTemp <= t < bands[last].maxTemp {
        if t < bands[last].minTemp {
          LaterBandsLieAbove(bands, last - 1, last);
          var i :| 0 <= i < |init| && InBand(init[i], t);
          assert InBand(bands[i], t);
        } else {
          assert InBand(bands[last], t);
        }
      }
    }
  }

  // ---------------------------------------------------------------------
  // Properties of the configured tables
  // ---------------------------------------------------------------------

  /** The configured bands: five of them, each non-empty, contiguous, running from -50 to 50. */
  lemma TemperatureRangesShape()
    ensures |TEMPERATURE_RANGES| == 5
    ensures NonEmptyBands(TEMPERATURE_RANGES) && Contiguous(TEMPERATURE_RANGES)
    ensures TEMPERATURE_RANGES[0].minTemp == -50.0 && TEMPERATURE_RANGES[4].maxTemp == 50.0
  {
  }

  /**
   * The configured bands partition [-50, 50): a temperature in that interval
   * lies in exactly one band, one outside it lies in none.
   */
  lemma TemperatureRangesPartition(t: real)
    ensures (exists i :: 0 <= i < |TEMPERATURE_RANGES| && InBand(TEMPERATURE_RANGES[i], t)) <==> -50.0 <= t < 50.0
    ensures forall i, j ::
              (0 <= i < |TEMPERATURE_RANGES| && 0 <= j < |TEMPERATURE_RANGES| &&
               InBand(TEMPERATURE_RANGES[i], t) && InBand(TEMPERATURE_RANGES[j], t)) ==> i == j
  {
    TemperatureRangesShape();
    CoveredIffInRange(TEMPERATURE_RANGES, t);
    forall i, j | 0 <= i < |TEMPERATURE_RANGES| && 0 <= j < |TEMPERATURE_RANGES|
              && InBand(TEMPERATURE_RANGES[i], t) && InBand(TEMPERATURE_RANGES[j], t)
      ensures i == j
    {
      AtMostOneBand(TEMPERATURE_RANGES, t, i, j);
    }
  }

  /** The wind condition is strict: exactly 10 m/s does not fire it, anything above does. */
  lemma StrongWindIsStrict(w: Snapshot)
    ensures w.wind == 10.0 ==> !Holds(StrongWind, w)
    ensures w.wind > 10.0 ==> Holds(StrongWind, w)
  {
  }

  /** The configured conditions are wind, rain and snow, in that order, and rain and snow read the snapshot's flags. */
  lemma SpecialConditionsShape(w: Snapshot)
    ensures |SPECIAL_CONDITIONS| == 3
    ensures SPECIAL_CONDITIONS[0].kind == StrongWind
    ensures SPECIAL_CONDITIONS[1].kind == Rain && (Holds(Rain, w) <==> w.rain)
    ensures SPECIAL_CONDITIONS[2].kind == Snow && (Holds(Snow, w) <==> w.snow)
  {
  }
}
