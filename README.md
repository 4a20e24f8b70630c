# Weather-to-clothing bot: decision logic in Dafny

This project models the decision logic of a chat bot. The user picks a day
(today, tomorrow or the day after) and then sends a city name. The bot fetches
the 3-hour forecast for that city, keeps the entries of the chosen day, takes
the one closest to noon, and answers with clothing advice. The advice is the
line of the first temperature band that contains the temperature, followed by
one line for each special condition that holds: strong wind, rain and snow.

Modules, following the program's structure:

- `Wrappers` (wrappers.dfy): the `Option` type.
- `Weather` (weather.dfy): a typed forecast entry and the snapshot dictionary.
  Each entry carries its local date and hour. Its `rain`/`snow` blocks are
  optional, and so is their `3h` volume.
- `Config` (config.dfy): the band table and the special-condition table from
  `config.py`, held as data. Bands are `(min, max, texts)` records. Conditions
  are a kind enum plus texts. Lemmas show that the bands partition [-50, 50).
- `Forecast` (forecast.dfy): the pure part of `get_weather_forecast`, i.e. the
  status check, the day filter, the first-minimum noon selection and the
  snapshot. Lemmas restate the selection on the provider's original list.
- `Recommendation` (recommendation.dfy): `get_clothing_recommendation` as a
  method with the source's two loops (including the early `break`). It is
  proved equal to a specification function, and lemmas are proved about that
  function.
- `Session` (session.dfy): the case-insensitive day words, and `user_state` as
  a class over a `map` with the `select_date` and `handle_city` updates.

Temperatures and wind speeds are `real`. They are only compared, never
computed with.

## Model

| member | source | states |
|---|---|---|
| `Config.LaterBandsLieAbove` | config.py:2-33 | in a contiguous table of non-empty bands, a later band starts no lower than an earlier band ends |
| `Config.AtMostOneBand` | config.py:2-33 | in such a table, at most one band contains any given temperature under the half-open test |
| `Config.CoveredIffInRange` | config.py:2-33 | such a table covers a temperature exactly when it lies between the first band's minimum and the last band's maximum |
| `Config.TemperatureRangesShape` | config.py:2-33 | the configured table has five bands; each is non-empty, each ends where the next begins, and they run from -50 to 50 |
| `Config.TemperatureRangesPartition` | config.py:2-33 | a temperature lies in some configured band exactly when it is in [-50, 50), and it never lies in two |
| `Config.Holds` | config.py:36-52 | the wind condition holds exactly when the wind is strictly above 10 m/s; the rain and snow conditions hold exactly on the snapshot's `rain` and `snow` flags |
| `Config.StrongWindIsStrict` | config.py:38 | 10 m/s of wind does not trigger the wind condition; anything above 10 does |
| `Config.SpecialConditionsShape` | config.py:36-52 | there are three conditions, in the order wind, rain, snow; rain fires exactly on the `rain` flag and snow exactly on the `snow` flag |
| `Forecast.NoonDistance` | main.py:65 | the selection key `abs(hour - 12)` is at most 12, and it is 0 exactly at noon |
| `Forecast.OnDate` | main.py:56-57 | the filtered list holds exactly the input's entries of the target day (an entry is in it iff it is in the input and falls on the day), is no longer than the input, and is empty exactly when no entry falls on that day |
| `Forecast.ClosestToNoonIndex` | main.py:64-65 | `min` with the noon key picks an entry that no entry beats, and every earlier entry is strictly farther from noon (first minimum wins) |
| `Forecast.Select` | main.py:56-65 | nothing is chosen exactly when no entry falls on the day; a chosen entry comes from the input and falls on the day |
| `Forecast.BuildSnapshot` | main.py:67-76 | the snapshot carries the target date, copies temperature, feels-like, description, wind and humidity, and sets each rain/snow flag exactly when its block is present with a positive `3h` volume |
| `Forecast.PrecipitationFlag` | main.py:74-75 | the flag is true exactly when the block is present, its `3h` volume is present and that volume is positive |
| `Forecast.GetWeatherForecast` | main.py:51-76 | the result is "not found" exactly when the request failed, `cod` is not "200", or no entry falls on the target day; a snapshot carries the target date |
| `Forecast.FirstClosestIsUnique` | main.py:64-65 | at most one index is the first closest-to-noon entry of a day, so the selection is deterministic |
| `Forecast.SelectAppend` | main.py:56-65 | appending an entry changes the choice only if the entry is on the day and strictly closer to noon than the current choice |
| `Forecast.SelectIsFirstClosest` | main.py:56-65 | filter-then-min picks, from the whole provider list, the first entry of the day with the smallest distance from noon; it picks nothing exactly when the day has no entries |
| `Forecast.ForecastIsFirstClosestToNoon` | main.py:51-76 | a successful result is the snapshot of the first entry of the target day that is closest to noon |
| `Forecast.NineVersusThirteen` | main.py:64-65 | given entries at 9:00 and 13:00 on the day, the 13:00 entry is chosen |
| `Forecast.TieGoesToFirst` | main.py:64-65 | given entries at 13:00 and 11:00 on the day (equally far from noon), the one listed first is chosen |
| `Recommendation.FirstBand` | main.py:92-97 | the chosen band contains the temperature and no earlier band does; when none is chosen, no band contains it |
| `Recommendation.GetClothingRecommendation` | main.py:88-106 | the two loops produce the optional first-band line followed by the lines of the holding conditions, joined with newlines |
| `Recommendation.BandLineForTemperature` | main.py:92-97 | there is at most one band line; there is none exactly when the temperature is below -50 or at least 50; otherwise it is the line of the band that contains the temperature |
| `Recommendation.ConditionLinesBound` | main.py:100-104 | a condition table produces at most one line per condition, and no lines when no condition holds |
| `Recommendation.SpecialConditionLines` | main.py:100-104 | with the configured table, the output is a wind line iff wind > 10, then a rain line iff it rains, then a snow line iff it snows |
| `Recommendation.RecommendationLinesShape` | main.py:88-106 | there are at most four lines; inside [-50, 50) the containing band's line comes first, before the condition lines; outside that range only condition lines appear |
| `Recommendation.WarmAndWindy` | config.py:21-40 | 22 degrees with 15 m/s wind and no rain or snow gives exactly the "Тепло" line followed by the "Сильный ветер" line |
| `Recommendation.FarBelowRange` | main.py:92-97 | at -60 degrees only the condition lines are produced |
| `Recommendation.Join` | main.py:106 | no lines join to the empty text; otherwise the text starts with the first line, and a newline follows it when there are more lines |
| `Recommendation.SplitJoin` | main.py:106 | splitting the joined text at newlines gives back the lines, provided there is at least one line and no line contains a newline |
| `Session.LowerChar` | main.py:118 | a lowered character is never upper case; characters that are not upper case are unchanged; upper-case ones move to their lower-case partner |
| `Session.Lower` | main.py:118 | lowering keeps the length, leaves no upper-case letter, and leaves a text without upper-case letters unchanged |
| `Session.LowerIdempotent` | main.py:118 | lowering a text twice gives the same result as lowering it once |
| `Session.ParseDate` | main.py:118-121 | a text selects a day exactly when its lowered form is "сегодня", "завтра" or "послезавтра", and it then selects that word's offset |
| `Session.ParseDateIgnoresCase` | main.py:118-121 | a text and its lowered form select the same day |
| `Session.KeywordRoundTrip` | main.py:118-121 | each word selects its own offset (0, 1, 2); a text selects an offset exactly when it lowers to that offset's word |
| `Session.ButtonLabels` | main.py:29-30 | the capitalised keyboard labels "Сегодня", "Завтра" and "Послезавтра" select 0, 1 and 2 |
| `Session.CityOutcome` | main.py:138-160 | a user with a pending day is never prompted; the result is an error exactly when answering raises, not-found exactly when no forecast came back, and otherwise the answer for the city with the snapshot and its advice text |
| `Session.SessionStore.constructor` | main.py:24 | the store starts with no pending choices |
| `Session.SessionStore.SelectDate` | main.py:118-122 | the user's pending offset becomes the chosen day and replaces any earlier choice; other users' entries stay as they were |
| `Session.SessionStore.HandleCity` | main.py:126-164 | with no pending day, the user is prompted and the map is unchanged; otherwise the pending offset picks the day, the outcome is the answer, not-found or error, and the user's entry is removed on every path while other entries stay as they were |
| `Session.ChoiceIsUsedOnce` | main.py:120-164 | after "Завтра" and then "Сегодня", the next city message is answered for today (the overwrite) and the one after it is prompted (the choice is used up) |

## Left out

- The HTTP request, `raise_for_status` and the 10 s timeout (main.py:38-47) are not modelled. They are network I/O. Their result is the `Response` parameter, and every failure becomes `Unavailable`.
- JSON field access and the `KeyError`/`ValueError`/generic handlers (main.py:49, 78-85) are not modelled. Entries are typed records, so a malformed body also becomes `Unavailable`.
- `datetime.now()`, `timedelta` and local-time `fromtimestamp` (main.py:55, 57, 65) are not modelled. They depend on the clock and the time zone. Each entry carries its local `date` and `hour`, and `HandleCity` takes the clock's date for each offset as the `targetDate` parameter.
- The `date` field is the target `Date` itself, not the `strftime("%d.%m.%Y")` string (main.py:68). The `.1f` formatting, `capitalize()` and the Markdown reply text (main.py:146-156) are presentation. `Answered` carries the city, the snapshot and the advice text instead.
- The bot, dispatcher, keyboards, `/start` handler, `message.answer` and polling (main.py:20-33, 109-115, 167-172) are not modelled. They are chat transport. Handler routing is represented by `SelectDate`'s precondition. The `answerRaises` flag stands for an exception raised while answering inside the `try` block.
- The "requesting forecast" notice at main.py:136 is sent outside the `try`. An exception there would skip the `finally` and leave the entry in place. Transport failures at that point are not modelled.
- Environment, `load_dotenv`, logging (main.py:12-18) and `API_SETTINGS` (config.py:55-59) are not modelled. They are process bootstrap and request parameters.
- Session.LowerChar: models `str.lower` only for Latin A-Z and the Cyrillic block U+0400-U+042F. Other scripts' case mappings cannot affect whether a text lowers to one of the three Russian words, so they are left out.
- Recommendation.SplitJoin: stated for newline-free lines in general. The proof that every configured table text is newline-free is not part of the model, because character-by-character checks of the long literal texts are too costly for the verifier.
- Interleaving of concurrent handlers is not modelled; each method runs to completion. `get_weather_forecast` calls the blocking `requests.get` and never awaits (main.py:46), so `await get_weather_forecast(...)` (main.py:139) gives up no control. Handlers can only interleave at the `await message.answer(...)` calls (main.py:123, 130, 136, 141, 156, 160). The model therefore does not capture a lost choice: if the same user picks a day while `handle_city` is paused at main.py:136, 141, 156 or 160, `select_date` stores it (main.py:120), and the `finally` at main.py:162-164 then deletes it.
