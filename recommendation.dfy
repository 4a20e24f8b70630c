/**
 * The recommendation engine (`get_clothing_recommendation`): the line of the
 * first temperature band that contains the snapshot's temperature, then one
 * line for each special condition that holds, joined with newlines.
 */
module Recommendation {
  import opened Wrappers
  import opened Weather
  import opened Config

  /** One advice line: `"{description}: {recommendation}"`. */
  function Line(description: string, recommendation: string): string
  {
    description + ": " + recommendation
  }

  function BandLine(b: Band): string
  {
    Line(b.description, b.recommendation)
  }

  function ConditionLine(c: SpecialCondition): string
  {
    Line(c.description, c.recommendation)
  }

  /** The index of the first band in table order that contains t, if any. */
  function FirstBand(bands: seq<Band>, t: real): (r: Option<nat>)
    ensures r.Some? ==> r.value < |bands| && InBand(bands[r.value], t)
    ensures r.Some? ==> forall j :: 0 <= j < r.value ==> !InBand(bands[j], t)
    ensures r.None? ==> forall j :: 0 <= j < |bands| ==> !InBand(bands[j], t)
  {
    if bands == [] then None
    else if InBand(bands[0], t) then Some(0)
    else
      match FirstBand(bands[1..], t)
      case None => None
      case Some(i) => Some(i + 1)
  }

  /** What the band loop contributes: the first matching band's line, or nothing. */
  function BandLines(bands: seq<Band>, t: real): seq<string>
  {
    match FirstBand(bands, t)
    case None => []
    case Some(i) => [BandLine(bands[i])]
  }

  /** What the condition loop contributes: one line per condition that holds, in table order. */
  function ConditionLines(conditions: seq<SpecialCondition>, w: Snapshot): seq<string>
  {
    if conditions == [] then []
    else
      var last := conditions[|conditions| - 1];
      ConditionLines(conditions[..|conditions| - 1], w) + (if Holds(last.kind, w) then [ConditionLine(last)] else [])
  }

  /** The list `recommendations` holds before it is joined. */
  function RecommendationLines(w: Snapshot): seq<string>
  {
    BandLines(TEMPERATURE_RANGES, w.temp) + ConditionLines(SPECIAL_CONDITIONS, w)
  }

  /**
   * `"\n".join(lines)`: nothing for no lines; otherwise the text starts with
   * the first line, a newline follows it when more lines come, and the text
   * ends with the last line.
   */
  function Join(lines: seq<string>): (r: string)
    ensures lines == [] ==> r == ""
    ensures |lines| > 0 ==> lines[0] <= r
    ensures |lines| > 1 ==> |r| > |lines[0]| && r[|lines[0]|] == '\n'
  {
    if lines == [] then ""
    else if |lines| == 1 then lines[0]
    else lines[0] + "\n" + Join(lines[1..])
  }

  /** `text.split("\n")`: the pieces between newlines, empty pieces included. */
  function Split(text: string): (r: seq<string>)
    ensures |r| > 0
  {
    if text == [] then [""]
    else
      var rest := Split(text[1..]);
      if text[0] == '\n' then [""] + rest
      else [[text[0]] + rest[0]] + rest[1..]
  }

  /**
   * Builds the advice text: the band loop stops at the first band whose
   * half-open interval contains the temperature; the condition loop checks
   * every condition and never stops early.
   */
  method GetClothingRecommendation(w: Snapshot) returns (text: string)
    ensures text == Join(RecommendationLines(w))
  {
    var recommendations: seq<string> := [];

    for i := 0 to |TEMPERATURE_RANGES|
      invariant recommendations == []
      invariant forall j :: 0 <= j < i ==> !InBand(TEMPERATURE_RANGES[j], w.temp)
    {
      var band := TEMPERATURE_RANGES[i];
      if band.minTemp <= w.temp < band.maxTemp {
        recommendations := recommendations + [Line(band.description, band.recommendation)];
        break;
      }
    }
    assert recommendations == BandLines(TEMPERATURE_RANGES, w.temp);

    ghost var bandPart := recommendations;
    for i := 0 to |SPECIAL_CONDITIONS|
      invariant recommendations == bandPart + ConditionLines(SPECIAL_CONDITIONS[..i], w)
    {
      var condition := SPECIAL_CONDITIONS[i];
      assert SPECIAL_CONDITIONS[..i + 1][..i] == SPECIAL_CONDITIONS[..i];
      if Holds(condition.kind, w) {
        recommendations := recommendations + [Line(condition.description, condition.recommendation)];
      }
    }
    assert SPECIAL_CONDITIONS[..|SPECIAL_CONDITIONS|] == SPECIAL_CONDITIONS;

    text := Join(recommendations);
  }

  // ---------------------------------------------------------------------
  // Properties of the advice lines
  // ---------------------------------------------------------------------

  /** No line for temperatures outside [-50, 50); otherwise exactly the line of the one band containing t. */
  lemma BandLineForTemperature(t: real)
    ensures |BandLines(TEMPERATURE_RANGES, t)| <= 1
    ensures BandLines(TEMPERATURE_RANGES, t) == [] <==> t < -50.0 || t >= 50.0
    ensures -50.0 <= t < 50.0 ==>
      forall i :: 0 <= i < |TEMPERATURE_RANGES| && InBand(TEMPERATURE_RANGES[i], t) ==>
        BandLines(TEMPERATURE_RANGES, t) == [BandLine(TEMPERATURE_RANGES[i])]
  {
    TemperatureRangesPartition(t);
    match FirstBand(TEMPERATURE_RANGES, t)
    case None =>
    case Some(k) =>
  }

  /** The condition lines: at most one per condition, never more lines than conditions. */
  lemma {:induction false} ConditionLinesBound(conditions: seq<SpecialCondition>, w: Snapshot)
    ensures |ConditionLines(conditions, w)| <= |conditions|
    ensures (forall i :: 0 <= i < |conditions| ==> !Holds(conditions[i].kind, w)) ==> ConditionLines(conditions, w) == []
  {
    if conditions != [] {
      var init := conditions[..|conditions| - 1];
      ConditionLinesBound(init, w);
      assert forall i :: 0 <= i < |init| ==> init[i] == conditions[i];
    }
  }

  /** With the configured table: the wind line, then the rain line, then the snow line, each present exactly when its condition holds. */
  lemma SpecialConditionLines(w: Snapshot)
    ensures ConditionLines(SPECIAL_CONDITIONS, w) ==
      (if w.wind > 10.0 then [Line("💨 Сильный ветер", "Ветровка/непродуваемая одежда")] else []) +
      (if w.rain then [Line("☔ Ожидается дождь", "Возьмите зонт или дождевик")] else []) +
      (if w.snow then [Line("❄️ Ожидается снег", "Наденьте непромокаемую обувь")] else [])
  {
    var cs := SPECIAL_CONDITIONS;
    assert cs[..1] == [cs[0]] && cs[..2] == [cs[0], cs[1]];
    assert [cs[0]][..0] == [] && [cs[0], cs[1]][..1] == [cs[0]] && cs[..3] == cs;
    assert ConditionLines([cs[0]], w) == (if w.wind > 10.0 then [ConditionLine(cs[0])] else []);
    assert ConditionLines([cs[0], cs[1]], w) == ConditionLines([cs[0]], w) + (if w.rain then [ConditionLine(cs[1])] else []);
    assert ConditionLines(cs, w) == ConditionLines([cs[0], cs[1]], w) + (if w.snow then [ConditionLine(cs[2])] else []);
  }

  /**
   * The whole list: the optional band line comes first, then the condition
   * lines; there are at most four lines.
   */
  lemma RecommendationLinesShape(w: Snapshot)
    ensures |RecommendationLines(w)| <= 1 + |SPECIAL_CONDITIONS|
    ensures (-50.0 <= w.temp < 50.0) ==>
      exists i :: 0 <= i < |TEMPERATURE_RANGES| && InBand(TEMPERATURE_RANGES[i], w.temp) &&
        RecommendationLines(w) == [BandLine(TEMPERATURE_RANGES[i])] + ConditionLines(SPECIAL_CONDITIONS, w)
    ensures (w.temp < -50.0 || w.temp >= 50.0) ==> RecommendationLines(w) == ConditionLines(SPECIAL_CONDITIONS, w)
  {
    BandLineForTemperature(w.temp);
    ConditionLinesBound(SPECIAL_CONDITIONS, w);
    TemperatureRangesPartition(w.temp);
    assert BandLines(TEMPERATURE_RANGES, w.temp) + ConditionLines(SPECIAL_CONDITIONS, w) == RecommendationLines(w);
  }

  /** 22 degrees, wind 15 m/s, no rain or snow: the "warm" line, then the wind line. */
  lemma WarmAndWindy(w: Snapshot)
    requires w.temp == 22.0 && w.wind == 15.0 && !w.rain && !w.snow
    ensures RecommendationLines(w) == [
      Line("👕 Тепло", "Футболка/рубашка, джинсы/шорты"),
      Line("💨 Сильный ветер", "Ветровка/непродуваемая одежда")]
  {
    SpecialConditionLines(w);
    BandLineForTemperature(w.temp);
    assert InBand(TEMPERATURE_RANGES[3], w.temp);
  }

  /** -60 degrees lies below every band: only the condition lines remain. */
  lemma FarBelowRange(w: Snapshot)
    requires w.temp == -60.0
    ensures RecommendationLines(w) == ConditionLines(SPECIAL_CONDITIONS, w)
  {
  }

  // ---------------------------------------------------------------------
  // The joined text
  // ---------------------------------------------------------------------

  /** The text holds no line break. */
  predicate NoNewline(s: string)
  {
    '\n' !in s
  }

  /** Splitting a newline-free piece followed by more text keeps the piece at the head of the first part. */
  lemma {:induction false} SplitPrefix(a: string, t: string)
    requires NoNewline(a)
    ensures Split(a + t) == [a + Split(t)[0]] + Split(t)[1..]
  {
    if a != [] {
      assert (a + t)[1..] == a[1..] + t;
      assert a[0] != '\n' by { assert a[0] in a; }
      assert NoNewline(a[1..]) by {
        forall i | 0 <= i < |a[1..]| ensures a[1..][i] != '\n' {
          assert a[1..][i] == a[i + 1];
          assert a[i + 1] in a;
        }
      }
      SplitPrefix(a[1..], t);
      assert [a[0]] + (a[1..] + Split(t)[0]) == a + Split(t)[0];
    } else {
      assert a + t == t;
      assert a + Split(t)[0] == Split(t)[0];
      assert Split(t) == [Split(t)[0]] + Split(t)[1..];
    }
  }

  /** Joining newline-free lines and splitting the text again gives back the lines. */
  lemma {:induction false} SplitJoin(lines: seq<string>)
    requires |lines| > 0
    requires forall i :: 0 <= i < |lines| ==> NoNewline(lines[i])
    ensures Split(Join(lines)) == lines
  {
    if |lines| == 1 {
      SplitPrefix(lines[0], "");
      assert lines[0] + "" == lines[0];
    } else {
      var rest := Join(lines[1..]);
      SplitJoin(lines[1..]);
      assert Split("\n" + rest) == [""] + Split(rest) by {
        assert ("\n" + rest)[1..] == rest;
      }
      assert Join(lines) == lines[0] + ("\n" + rest);
      SplitPrefix(lines[0], "\n" + rest);
      assert lines[0] + "" == lines[0];
      assert lines == [lines[0]] + lines[1..];
    }
  }
}
