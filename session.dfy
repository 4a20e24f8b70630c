/**
 * The conversation state (`user_state`) and the two handlers that update it:
 * choosing a day stores a pending offset for the user; sending a city
 * consumes that offset once and deletes it whatever happens next.
 */
module Session {
  import opened Wrappers
  import opened Weather
  import opened Forecast
  import opened Recommendation

  /** A chat user's identity (`message.from_user.id`). */
  type UserId = int

  /** Days ahead of today: 0 today, 1 tomorrow, 2 the day after. */
  type Offset = o: int | 0 <= o <= 2

  // ---------------------------------------------------------------------
  // Recognising a day choice
  // ---------------------------------------------------------------------

  /** The upper-case letters `LowerChar` maps: Latin A-Z and the Cyrillic block U+0400-U+042F. */
  predicate IsUpper(c: char)
  {
    ('A' <= c <= 'Z') || ('\U{0400}' <= c <= '\U{042F}')
  }

  /** `str.lower` on one character of the Latin or basic Cyrillic alphabet. */
  function LowerChar(c: char): (l: char)
    ensures !IsUpper(l)
    ensures !IsUpper(c) ==> l == c
    ensures IsUpper(c) ==> l as int == c as int + (if '\U{0400}' <= c < '\U{0410}' then 80 else 32)
  {
    if 'A' <= c <= 'Z' then (c as int + 32) as char
    else if '\U{0410}' <= c <= '\U{042F}' then (c as int + 32) as char
    else if '\U{0400}' <= c <= '\U{040F}' then (c as int + 80) as char
    else c
  }

  /** `text.lower()`, character by character: no upper-case letter is left, and a text without one is unchanged. */
  function Lower(text: string): (r: string)
    ensures |r| == |text|
    ensures forall i :: 0 <= i < |r| ==> !IsUpper(r[i])
    ensures (forall i :: 0 <= i < |text| ==> !IsUpper(text[i])) ==> r == text
  {
    seq(|text|, i requires 0 <= i < |text| => LowerChar(text[i]))
  }

  /** Lowering twice is lowering once. */
  lemma LowerIdempotent(text: string)
    ensures Lower(Lower(text)) == Lower(text)
  {
  }

  const TODAY: string := "сегодня"
  const TOMORROW: string := "завтра"
  const DAY_AFTER_TOMORROW: string := "послезавтра"

  /** The word that selects an offset. */
  function Keyword(offset: Offset): string
  {
    if offset == 0 then TODAY else if offset == 1 then TOMORROW else DAY_AFTER_TOMORROW
  }

  /**
   * The day a message selects: its lower-cased text must be one of the three
   * words; any other text selects nothing and reaches the city handler.
   */
  function ParseDate(text: string): (r: Option<Offset>)
    ensures r.Some? <==> Lower(text) in [TODAY, TOMORROW, DAY_AFTER_TOMORROW]
    ensures r.Some? ==> Lower(text) == Keyword(r.value)
  {
    var lowered := Lower(text);
    if lowered == TODAY then Some(0)
    else if lowered == TOMORROW then Some(1)
    else if lowered == DAY_AFTER_TOMORROW then Some(2)
    else None
  }

  /** The match ignores case: a text and its lower-cased form select the same day. */
  lemma ParseDateIgnoresCase(text: string)
    ensures ParseDate(Lower(text)) == ParseDate(text)
  {
  }

  /** Each word selects its own offset, and only the words do. */
  lemma KeywordRoundTrip(offset: Offset, text: string)
    ensures ParseDate(Keyword(offset)) == Some(offset)
    ensures ParseDate(text) == Some(offset) <==> Lower(text) == Keyword(offset)
  {
  }

  /** The keyboard's capitalised buttons select today, tomorrow and the day after. */
  lemma ButtonLabels()
    ensures ParseDate("Сегодня") == Some(0)
    ensures ParseDate("Завтра") == Some(1)
    ensures ParseDate("Послезавтра") == Some(2)
  {
  }

  // ---------------------------------------------------------------------
  // The per-user pending offsets
  // ---------------------------------------------------------------------

  /** How one city message ends. */
  datatype Outcome =
    | Prompted                                      // no day chosen: "choose a date first"
    | Answered(city: string, weather: Snapshot, advice: string)
    | NotFound                                      // no forecast: "check the city name"
    | Errored                                       // an exception inside the handler's try block

  /**
   * The outcome of a city message for a user with a pending day: an exception
   * while answering wins; otherwise the forecast decides.
   */
  function CityOutcome(city: string, weather: Option<Snapshot>, answerRaises: bool): (o: Outcome)
    ensures !o.Prompted?
    ensures o.Errored? <==> answerRaises
    ensures o.NotFound? <==> !answerRaises && weather.None?
    ensures o.Answered? <==> !answerRaises && weather.Some?
    ensures o.Answered? ==> o.city == city && weather == Some(o.weather) && o.advice == Join(RecommendationLines(o.weather))
  {
    if answerRaises then Errored
    else match weather
      case None => NotFound
      case Some(w) => Answered(city, w, Join(RecommendationLines(w)))
  }

  /** The module-level `user_state` dictionary. */
  class SessionStore {
    var pending: map<UserId, Offset>

    constructor ()
      ensures pending == map[]
    {
      pending := map[];
    }

    /**
     * `select_date`, reached only for a text that names a day: the user's
     * pending offset becomes that day, replacing any earlier choice.
     */
    method SelectDate(user: UserId, text: string)
      requires ParseDate(text).Some?
      modifies this
      ensures pending == old(pending)[user := ParseDate(text).value]
    {
      var lowered := Lower(text);
      var offset: Offset := if lowered == TODAY then 0 else if lowered == TOMORROW then 1 else 2;
      pending := pending[user := offset];
    }

    /**
     * `handle_city`: without a pending day the user is prompted and nothing
     * changes. Otherwise the pending offset is read once, the forecast for
     * that day is requested (`response` is what the provider answered for
     * `city`, `targetDate` the clock's date for each offset) and answered, and
     * the offset is deleted on every path, success, no forecast or exception.
     */
    method HandleCity(user: UserId, city: string, response: Response, targetDate: Offset -> Date, answerRaises: bool)
      returns (outcome: Outcome)
      modifies this
      ensures user !in old(pending) ==> outcome == Prompted && pending == old(pending)
      ensures user in old(pending) ==> pending == old(pending) - {user}
      ensures user in old(pending) ==>
        outcome == CityOutcome(city, GetWeatherForecast(response, targetDate(old(pending)[user])), answerRaises)
    {
      if user !in pending {
        outcome := Prompted;
        return;
      }
      var offset := pending[user];
      var weather := GetWeatherForecast(response, targetDate(offset));
      if answerRaises {
        outcome := Errored;
      } else if weather.None? {
        outcome := NotFound;
      } else {
        var advice := GetClothingRecommendation(weather.value);
        outcome := Answered(city, weather.value, advice);
      }
      if user in pending {
        pending := pending - {user};
      }
    }
  }

  /**
   * A user picks "Завтра", changes the choice to "Сегодня" and sends a city
   * twice: the first message is answered for today, the second one is
   * prompted, because the choice was used up.
   */
  method ChoiceIsUsedOnce(response: Response, targetDate: Offset -> Date) returns (first: Outcome, second: Outcome)
    ensures first == CityOutcome("Москва", GetWeatherForecast(response, targetDate(0)), false)
    ensures first != Prompted && second == Prompted
  {
    var store := new SessionStore();
    ButtonLabels();
    store.SelectDate(7, "Завтра");
    store.SelectDate(7, "Сегодня");
    first := store.HandleCity(7, "Москва", response, targetDate, false);
    second := store.HandleCity(7, "Москва", response, targetDate, false);
  }
}
