# Plant-care assistant: the decision rules, modelled in Dafny

The application is a Flask web app for plant owners. It answers care questions
(an AI answer with a rule-based fallback and a weather hint), keeps watering and
care reminders that move with the weather, and keeps a care journal per plant.
It also assembles the context the AI sees, sends a welcome-email series, and
enforces a free plan with a trial. It serves a sitemap and SEO landing pages.

Most of the code is glue around a database, a weather API, an AI API and an
email API. This project models the small, deterministic rules underneath that
glue:

- **Input sanitising and moderation.** Allowlist filters, length cuts,
  whitespace collapsing, care-context coercion, escaped display strings and
  the blocklist check.
- **Location rules.** City normalisation into the weather service's form,
  and region inference with its presets.
- **The advice pipeline.** Rule tips, temperature hints, AI-first answering
  with a fallback, and the bounded newest-first history.
- **Reminders.** Due-date scheduling, snooze bounds, field whitelists, soft
  delete, the weather adjustment, batch counters, and the route validators.
- **The journal.** Action types, field whitelists, statistics, and the route
  checks.
- **The AI context.** The overdue / due-today partition, truncation,
  per-plant counts and formatting.
- **Welcome emails.** Eligibility, duplicate suppression, the send decision
  order and queue accounting.
- **Plans.** Plan limits and trial arithmetic.
- **Serialisers.** The sitemap, related SEO pages, and photo URL handling.

Every external service is a parameter: a function value standing for the
oracle's answer, or a datatype holding what the call returned. The
inserts of reminders, journal entries and profiles, and the
weather-adjustment update, have a reply (`Common.WriteReply`): the rows
echoed back, or the exception raised. Today's date is an integer day
number and a timestamp is an integer count of seconds. A parsed date or
timestamp appears inside a JSON-like `Value` as an `Int`. Text is
`string`, and Python's case mapping is modelled on ASCII letters.

Modules follow the source files:

| Module | Source |
|---|---|
| `Common` | Option/Result, JSON-like `Value`, truthiness, whole days |
| `Text` | Python `str` helpers |
| `Sorting` | stable sort |
| `Markup` | `html.escape` |
| `Validation` | `app/utils/validation.py` |
| `Moderation` | `app/services/moderation.py` |
| `Weather` | `app/services/weather.py` |
| `Presets`, `PresetsApi` | `app/utils/presets.py`, `app/routes/api.py` |
| `Advice` | `app/services/ai.py` |
| `Web` | `app/routes/web.py` |
| `Reminders` | `app/services/reminders.py` |
| `ReminderRoutes` | `app/routes/reminders.py` |
| `Journal` | `app/services/journal.py` |
| `JournalRoutes` | `app/routes/journal.py` |
| `UserContext` | `app/services/user_context.py` |
| `MarketingEmails` | `app/services/marketing_emails.py` |
| `Plans` | `app/services/supabase_client.py` |
| `PhotoHandler` | `app/utils/photo_handler.py` |
| `Seo` | `app/routes/seo.py` |
| `Marketing` | `app/routes/marketing.py` |

## Model

| member | source | states |
|---|---|---|
| Common.WithoutKeys | app/services/reminders.py:329-331 | the dictionary comprehension that drops banned keys keeps exactly the other keys, with their values |
| Common.WithoutKeysSplits | app/services/journal.py:289-291 | the kept part and the dropped part together rebuild the original fields: nothing is lost or invented |
| Common.FirstStored | app/services/journal.py:97-105 | the first echoed row iff the reply holds rows; the failure text for no rows; the error prefix and the exception's text when the write raised |
| Markup.Escape | app/utils/validation.py:72 | the escaped text contains no `<` or `>` |
| Markup.UnescapeEscape | app/routes/marketing.py:94-96 | escaping loses no information: unescaping the escaped text gives the text back |
| Markup.EscapePlain | app/routes/marketing.py:94-96 | text without `&`, `<` and `>` is left unchanged; quotes are excluded only when quoting |
| Sorting.SortBy | app/routes/reminders.py:58-61 | the result is a permutation of the input, ordered by the key |
| Sorting.SortByStable | app/services/user_context.py:224-225 | sorting is stable: the elements sharing a key keep their input order |
| Validation.Filter | app/utils/validation.py:40 | removing disallowed characters never lengthens the text and leaves only admitted characters |
| Validation.FilterKeepsAdmitted | app/utils/validation.py:40 | the filter removes nothing from text that is already admitted |
| Validation.FilterTwice | app/utils/validation.py:40 | two filters in a row equal one filter by the intersection of their sets |
| Validation.Collapse | app/utils/validation.py:41 | whitespace collapsing never lengthens, keeps emptiness, and leaves no two adjacent run characters |
| Validation.CollapseKeepsVisible | app/utils/validation.py:41 | collapsing changes only whitespace: the non-run characters are the same sequence before and after |
| Validation.CollapseChars | app/utils/validation.py:41 | every character after collapsing is a space or comes from the input |
| Validation.CollapseNoop | app/utils/validation.py:41 | text without a double run is left unchanged |
| Validation.CollapseIdempotent | app/utils/validation.py:41 | collapsing twice equals collapsing once |
| Validation.SoftSanitize | app/utils/validation.py:28-42 | the result is at most `max_len` long, uses only allowlisted characters, has no double whitespace, and is empty for blank input |
| Validation.SoftSanitizeKeeps | app/utils/validation.py:36-41 | the visible characters of the result are exactly the allowlisted visible characters of the stripped, cut input |
| Validation.SoftSanitizeQuestion | app/utils/validation.py:45-58 | the question is at most 1200 long, holds no control characters and no double space/tab, and is empty for blank input |
| Validation.SoftSanitizeQuestionKeeps | app/utils/validation.py:54-57 | every non-control, non-space/tab character of the stripped, cut question survives, in order |
| Validation.NormalizeContext | app/utils/validation.py:61-64 | the result is always a care-context choice: the trimmed, lower-cased input when it is one, else `indoor_potted` |
| Validation.NormalizeContextIdempotent | app/utils/validation.py:61-64 | normalising a normalised context changes nothing |
| Validation.ChoiceIsNormal | app/utils/validation.py:25 | each of the three choices is already trimmed and lower-case |
| Validation.DisplaySanitizeShort | app/utils/validation.py:67-75 | empty gives empty; no `<`/`>`; at most 241 characters; the ellipsis appears exactly when the escaped text exceeds 240, after its first 240 characters |
| Validation.DisplaySanitizeShortRoundTrip | app/utils/validation.py:71-75 | a short display string unescapes back to the original text |
| Validation.Payload | app/utils/validation.py:100-105 | the four payload fields: plant, city and question each within its own length limit and free of the characters its sanitiser drops, a blank plant or city left empty, and the care context one of the allowed choices |
| Validation.ValidateInputs | app/utils/validation.py:78-105 | an error and no payload exactly when the sanitised question is empty (in particular for a blank question); otherwise no error and the full payload with a non-empty question |
| Moderation.BlocklistOrderEnumerates | app/services/moderation.py:14-16 | the enumeration order used for the reason lists exactly the blocklist terms |
| Moderation.FirstOccurring | app/services/moderation.py:25-27 | the search finds nothing exactly when no term occurs, and otherwise returns a term that occurs |
| Moderation.RunModeration | app/services/moderation.py:19-28 | allowed iff no blocklist term occurs in the lower-cased text; the reason is absent iff allowed and otherwise names a term that occurs |
| Moderation.ModerationIgnoresCase | app/services/moderation.py:24 | a text and its lower-cased form get the same verdict |
| Moderation.ModerationMonotone | app/services/moderation.py:25-27 | a text containing a refused text is refused too |
| Moderation.TermIsRefused | app/services/moderation.py:14-27 | each blocklist term on its own is refused |
| Moderation.EmptyIsAllowed | app/services/moderation.py:24-28 | `None` and the empty text are allowed, with no reason |
| Weather.CleanPieces | app/services/weather.py:18 | the kept pieces are trimmed and non-empty, and there are no more of them than input parts |
| Weather.NormalizeCity | app/services/weather.py:11-27 | "" for ""; an error iff no non-empty piece; otherwise one piece as is, two pieces with the second upper-cased plus `US` for a two-letter alphabetic state, and three or more cut to city, STATE, COUNTRY |
| Weather.PiecesOfJoin | app/services/weather.py:18 | splitting a comma-join of clean pieces gives the pieces back |
| Weather.ShapeRegion | app/services/weather.py:21-27 | with a second piece the normalised form has two or three pieces, each still trimmed, non-empty and free of commas, so the joined form splits back into them |
| Weather.ShapeFixed | app/services/weather.py:19-27 | shaping an already shaped piece list changes nothing |
| Weather.NormalizeCityIdempotent | app/services/weather.py:11-27 | normalising a normalised location gives it back unchanged |
| Weather.NormalizeWeather | app/services/weather.py:37-45 | succeeds iff the nested lookups cannot raise; the snapshot has exactly the five keys, and the city falls back when the name is missing |
| Weather.WeatherForCity | app/services/weather.py:47-82 | no snapshot without a city or key, or when normalising raises; a snapshot always has the five keys; a by-name answer is used as is; a by-name request that raises gives no snapshot; only a bad by-name status falls back to geocoding |
| Weather.GeoPlace | app/services/weather.py:71-76 | the first geocoding result's coordinates, both present, and its truthy name or else the user's text |
| Weather.Geocoded | app/services/weather.py:67-80 | a snapshot exactly when the geocoder answers with a place and the query by its coordinates answers with a well-formed payload; the snapshot is that payload named after the place |
| Presets.LibraryRegions | app/utils/presets.py:25-46 | the library has exactly the four regions |
| Presets.RegionFromLatLon | app/utils/presets.py:7-13 | strict bands on the absolute latitude at 23.5, 35 and 45, from tropical to cool; the result is a library region |
| Presets.RegionFromLatLonSymmetric | app/utils/presets.py:9-13 | longitude and the hemisphere do not matter |
| Presets.RegionFromCity | app/utils/presets.py:15-23 | temperate for a missing or empty city; otherwise keyword priority tropical, warm, temperate, cool, defaulting to temperate |
| Presets.RegionFromCityIgnoresCase | app/utils/presets.py:17 | a city and its lower-cased form get the same region |
| Presets.TropicalKeywordWins | app/utils/presets.py:19-20 | a tropical keyword anywhere in the name decides the region |
| Presets.RegionPresets | app/utils/presets.py:48-50 | a known region's list, else the temperate list; never empty |
| Presets.InferredRegionsHavePresets | app/utils/presets.py:10-50 | every region either inference returns has its own list |
| PresetsApi.PresetsFor | app/routes/api.py:13-36 | latitude decides when both coordinates are present, else a non-empty city, else temperate; the items are that region's list |
| PresetsApi.CoordinatesOverrideCity | app/routes/api.py:26-27 | with both coordinates the city is never consulted |
| PresetsApi.LoneCoordinateIgnored | app/routes/api.py:26-31 | one coordinate without the other counts for nothing |
| Advice.TopicOf | app/services/ai.py:90-107 | the topic follows the keyword priority water, light/sun, fertil/feed, repot/pot, general, on the lower-cased question |
| Advice.TopicExtend | app/services/ai.py:99-107 | appending text can only move the topic to a higher-priority rule |
| Advice.TopicIgnoresCase | app/services/ai.py:90 | a question and its lower-cased form get the same topic |
| Advice.PlantName | app/services/ai.py:91 | the trimmed plant name, or "the plant" when the name is missing or blank |
| Advice.LocationPhrase | app/services/ai.py:93-97 | the plant name followed by " indoors", " outdoors in a pot" or " in a garden bed" for the three care contexts, and the bare name for any other |
| Advice.RuleTip | app/services/ai.py:85-107 | the tip is the opening and closing wording of `TopicOf(question)` around the location phrase, capitalised for the lighting tip |
| Advice.Classify | app/services/ai.py:76-80 | hot iff at least 32 °C, cold iff at most 5 °C, otherwise normal |
| Advice.WeatherTip | app/services/ai.py:65-82 | a hint iff the snapshot has a numeric temperature; its kind is the classification of that temperature, naming the plant or "the plant" |
| Advice.AiAdvice | app/services/ai.py:110-226 | an answer exactly when a key is configured, the chat call does not raise, and either the trimmed chat text or the Responses text is non-empty; the chat text wins, and the Responses text is used when chat is unavailable or blank |
| Advice.GenerateAdvice | app/services/ai.py:229-258 | weather only for a truthy city; source "ai" iff the AI answered, else the rule tip; fails exactly when a hint exists and the snapshot's city is truthy but not text; otherwise a weather note iff the hint exists, naming the city when it is truthy |
| Advice.GenerateAdviceNeverEmpty | app/services/ai.py:244-250 | the answer body is never empty |
| Web.RoutePlantName | app/routes/web.py:26 | the trimmed plant name, or "your plant" when blank |
| Web.BasicPlantTip | app/routes/web.py:23-35 | the route's tip is the route's wording for `TopicOf(question)` around the plant name, capitalised for the lighting tip |
| Web.WeatherAdjustmentTip | app/routes/web.py:37-46 | no hint without a temperature; a non-numeric temperature raises; otherwise the classification of the temperature |
| Web.HintsAgree | app/routes/web.py:42-46 | on a numeric temperature the route and the advice service classify it the same way |
| Web.PushBounded | app/routes/web.py:21 | the new element comes first, followed by the newest earlier elements, up to the bound |
| Web.Record | app/routes/web.py:123-131 | the history length becomes min(previous + 1, 25) with the new entry at the front |
| Web.PushAllKeepsNewest | app/routes/web.py:123-131 | after any run of requests the history holds the newest 25 entries, newest first |
| Web.AnswerBody | app/routes/web.py:105-114 | source "ai" iff the AI answered and output moderation allowed it; otherwise the route's rule tip |
| Web.Screen | app/routes/web.py:91-102 | the validation error wins over the sensitive-request refusal, which wins over the moderation refusal; only the moderation check calls a service, and the AI is never called on a refusal |
| Web.Consult | app/routes/web.py:103-121 | an allowed question calls moderation, the weather lookup and the AI in that order; the body and source are `AnswerBody`'s; the request raises exactly when the route's weather hint raises; a note exactly when the temperature is numeric; an answered request records one entry and a raised one leaves the history alone |
| Web.WithNote | app/routes/web.py:117-120 | the response keeps the body and source; it fails exactly when the weather hint raises, and carries a note holding that hint exactly when the temperature is numeric |
| Web.Ask | app/routes/web.py:85-141 | invalid, sensitive and refused questions get fixed answers with no weather or AI call; on the allowed path the answer is `AnswerBody`'s, the request raises exactly when the weather hint raises, and a note appears exactly for a numeric temperature; an answered request records one entry |
| Web.AskGrowsHistory | app/routes/web.py:123-131 | each answered request grows the history by one, up to 25 |
| Reminders.ReminderPayload | app/services/reminders.py:63-101 | rejects unknown frequencies and "custom" without a truthy interval; the due date is today plus the interval; recurring iff not one_time |
| Reminders.CreateReminder | app/services/reminders.py:37-108 | succeeds iff the fields pass those checks and the insert echoes a row, which is the result; an insert with no rows gives "Failed to create reminder", one that raises gives "Error creating reminder: " and its text, and a refusal before the insert keeps its message |
| Reminders.NamedFrequencyWithinMonth | app/services/reminders.py:15-23 | every named frequency schedules within the next 30 days |
| Reminders.SnoozeReminder | app/services/reminders.py:265-305 | without a database the "not configured" message; days outside 1..30 are refused before any database call; otherwise exactly one snooze call, and success iff the reply's first row has a truthy `success`, with `RpcOutcome`'s message |
| Reminders.RpcOutcome | app/services/reminders.py:246-262 | success iff the call returned a row whose `success` is truthy; on failure the value is the row's `message` (which may be null) or the fallback text |
| Reminders.ReminderUpdate | app/services/reminders.py:308-345 | the locked fields are never forwarded, the others are kept, and an error exactly when nothing remains |
| Reminders.Apply | app/services/reminders.py:334-337 | an update overwrites its own keys and leaves every other column alone |
| Reminders.SoftDeleteKeepsRow | app/services/reminders.py:364-367 | a delete only makes the row inactive |
| Reminders.AdjustUpdate | app/services/reminders.py:496-501 | an adjustment writes exactly the adjusted due date and the reason |
| Reminders.Decide | app/services/reminders.py:470-513 | for a readable snapshot and a stored date: a truthy temperature of at least 32 °C adjusts to one day earlier but not before today; otherwise rain in the conditions adjusts to two days later; otherwise nothing is needed; an unreadable snapshot, or a needed adjustment without a date, raises |
| Reminders.AdjustForWeather | app/services/reminders.py:424-513 | the guards in order (indoor, not found, not watering, opted out, no weather, no database), each with its outcome and calls; once all pass, the outcome is `Decide`'s, except that an adjustment whose update raises becomes a failure with the exception's text after the write was attempted; an adjustment is reported only when the update did not raise, and with an update that does not raise a row is written only for an adjustment |
| Reminders.HeatBeatsRain | app/services/reminders.py:476-494 | heat wins over rain |
| Reminders.AdjustKeepsSchedule | app/services/reminders.py:496-501 | an adjustment leaves the stored schedule and other columns untouched |
| Reminders.ClearUndoesAdjust | app/services/reminders.py:516-542 | clearing after an adjustment gives the same row as clearing alone |
| Reminders.ClearWeatherAdjustment | app/services/reminders.py:516-542 | success iff configured and the row matched; an error exactly on failure |
| Reminders.BatchAdjust | app/services/reminders.py:545-597 | fails exactly when some candidate's location lookup raises or it has no id; otherwise total checked equals the number of rows, adjusted plus skipped equals it too, errors stay 0, and the adjusted count is the reference `AdjustedCount`, so a reminder whose update raised is counted as skipped |
| Reminders.AdjustedCount | app/services/reminders.py:570-595 | the reminders whose own step adjusted them number no more than the candidates |
| Reminders.BatchStep | app/services/reminders.py:570-595 | a non-candidate is skipped; a step fails exactly when the reminder ends the batch; an adjusted reminder is a candidate with an id whose update did not raise |
| Reminders.NoneAbortsMeans | app/services/reminders.py:570-590 | the step-by-step "no reminder ends the batch" agrees with "every reminder passes" |
| Reminders.CandidateRowsAppend | app/services/reminders.py:563-573 | the candidates of a longer list are the earlier candidates plus the new row when it qualifies |
| ReminderRoutes.CustomInterval | app/routes/reminders.py:98-108 | for "custom" the value must parse to an integer in 1..365; other frequencies drop it |
| ReminderRoutes.CustomIntervalAcceptsRange | app/routes/reminders.py:98-104 | every integer in 1..365, written out, is accepted as itself |
| ReminderRoutes.ValidateCreate | app/routes/reminders.py:80-108 | plant id first, then title, then the interval; an accepted form carries the trimmed fields and a custom interval iff "custom" |
| ReminderRoutes.ValidatedCreateReachesService | app/routes/reminders.py:110-120 | a validated form is accepted by the service exactly when its frequency is known |
| ReminderRoutes.ValidateEdit | app/routes/reminders.py:180-212 | the title is required and the interval checked; the update has exactly the editable fields |
| ReminderRoutes.ValidatedEditIsUpdatable | app/routes/reminders.py:204-212 | a validated edit passes the service's field whitelist unchanged |
| ReminderRoutes.ArchivedRows | app/routes/reminders.py:53-55 | exactly the inactive reminders are kept |
| ReminderRoutes.History | app/routes/reminders.py:42-61 | a permutation of the inactive reminders in descending key order; fails exactly when there are two archived reminders and some key is not text |
| ReminderRoutes.HistoryStable | app/routes/reminders.py:58-61 | reminders with equal keys keep their listed order |
| ReminderRoutes.CompletionsAppend | app/routes/reminders.py:258-263 | the completion count grows by one exactly for a successful completion |
| ReminderRoutes.BulkFlashes | app/routes/reminders.py:265-269 | one success flash when something completed (plural iff the count is not 1) and one failure flash showing at most three errors |
| ReminderRoutes.BulkComplete | app/routes/reminders.py:245-271 | succeeds exactly when every due reminder has an id and every failed one a title; then one completion call per reminder in order, the completed count, the failures' titles and errors in order, and the flashes |
| ReminderRoutes.FailuresStep | app/routes/reminders.py:258-263 | trying one more reminder appends its failure entry, if it failed, to the failure list |
| ReminderRoutes.SnoozeDays | app/routes/reminders.py:282-286 | the parsed number of days, or 1 when missing or not numeric |
| ReminderRoutes.SnoozeDaysRoundTrip | app/routes/reminders.py:282-286 | any integer written out is read back as itself |
| ReminderRoutes.UuidNewlineQuirk | app/routes/reminders.py:442 | a UUID passes with at most one trailing newline |
| ReminderRoutes.UuidIgnoresCase | app/routes/reminders.py:442 | the UUID check ignores case |
| ReminderRoutes.ApiComplete | app/routes/reminders.py:429-452 | a malformed id gets 400 with no service call; success iff the id is well formed and the completion succeeded |
| Journal.ActionTablesAgree | app/services/journal.py:27-44 | the valid types and both display tables have the same keys |
| Journal.ActionPayload | app/services/journal.py:73-96 | rejects an unknown action type; the record carries the type and plant, and `action_at` only when provided |
| Journal.CreatePlantAction | app/services/journal.py:47-105 | succeeds iff configured, the type is valid and the insert echoes a row, which is the result; otherwise "Database not configured", the invalid-type message, "Failed to create action" for no rows, or "Error creating action: " and the exception's text |
| Journal.ActionUpdate | app/services/journal.py:268-305 | the locked fields are dropped, the others kept, and an error exactly when nothing remains |
| Journal.ActionUpdateIdempotent | app/services/journal.py:289-293 | filtering an already filtered update changes nothing |
| Journal.GetActionStats | app/services/journal.py:339-403 | the total is the number of actions, each count is the number of that type, and the last times are the first truthy times in list order |
| Journal.CountAppend | app/services/journal.py:383-397 | counting over a longer list adds one exactly for a matching action |
| Journal.FirstTimeAppend | app/services/journal.py:383-401 | the first truthy time of a longer list is the earlier one if any, else the new action's |
| Journal.CountsWithinTotal | app/services/journal.py:364-397 | the per-type counts sum to at most the total |
| JournalRoutes.AmountMl | app/routes/journal.py:81-100 | empty gives none; otherwise an error unless it parses as an integer above 0 |
| JournalRoutes.AmountRoundTrip | app/routes/journal.py:86-95 | every positive amount written out is read back as itself |
| JournalRoutes.AddEntry | app/routes/journal.py:53-131 | the action type is checked first, then the amount, then the photo; an accepted entry carries the checked values |
| JournalRoutes.SaveEntryAsWritten | app/routes/journal.py:133-142 | as written, the call raises `TypeError` whenever `photo_url_original` is not a declared parameter, and otherwise reaches the service |
| JournalRoutes.SavingAlwaysRaises | app/routes/journal.py:133-142 | as written, saving every validated entry raises, whatever its photo, the database and the insert's reply |
| JournalRoutes.SaveEntry | app/services/journal.py:47-105 | without the original-size URL the call binds; a row is sent to the insert exactly with a database, carrying the type, plant, display photo and thumbnail; the entry is saved exactly when the database is configured and the insert echoes a row, and otherwise the error is "Database not configured", "Failed to create action" or "Error creating action: " with the exception's text |
| JournalRoutes.RecentDays | app/routes/journal.py:177-186 | the window is the requested days when in 1..90, otherwise 7 |
| JournalRoutes.RecentDaysRoundTrip | app/routes/journal.py:184-186 | every allowed window written out is read back as itself |
| JournalRoutes.DeleteEntry | app/routes/journal.py:201-232 | nothing for a missing entry; otherwise one delete per stored photo version, then the action delete |
| JournalRoutes.PhotosGoFirst | app/routes/journal.py:217-225 | no photo is deleted after the action |
| JournalRoutes.QuickLog | app/routes/journal.py:238-296 | no body gives 400; missing fields give 400 before the lookup; an unowned plant gives 404; for an owned plant the reply is 200 exactly when the service call succeeds, naming the logged type, and otherwise a 400 with the service's error, so an insert that raises gives "Error creating action: " and its text; the insert is called exactly when the row passes the service's checks |
| UserContext.FormatReminder | app/services/user_context.py:179-186 | `weather_adjusted` iff the adjustment reason is truthy |
| UserContext.AdjustedShowsAsAdjusted | app/services/user_context.py:184 | a reminder the weather rule adjusted is shown as adjusted |
| UserContext.ClearedShowsAsUnadjusted | app/services/user_context.py:184 | a cleared reminder is shown as not adjusted |
| UserContext.SlotOf | app/services/user_context.py:48-59 | overdue iff the effective due date is present and before today; a missing date counts as due today |
| UserContext.PartitionIsExact | app/services/user_context.py:48-59 | every due reminder lands in exactly one of the two lists |
| UserContext.Partition | app/services/user_context.py:44-59 | the two lists are the formatted overdue and due-today reminders, whose sizes add up to the due list |
| UserContext.WithDaysUntil | app/services/user_context.py:63-74 | days until is the effective due date minus today, set only when the date is present |
| UserContext.Upcoming | app/services/user_context.py:62-74 | at most the first ten upcoming reminders, each formatted with its days until |
| UserContext.InWindow | app/services/user_context.py:199-218 | fails exactly on an unparseable time; otherwise keeps exactly the rows with a time in the window (as many as `KeptCount`, each kept row present, nothing else), each with its whole days ago |
| UserContext.ActivityOf | app/services/user_context.py:216-222 | a kept row's entry has its whole days ago, at most the window |
| UserContext.KeptCount | app/services/user_context.py:207-215 | never more than the rows |
| UserContext.WindowTestAsWritten | app/services/user_context.py:199-215 | as written, the comparison raises exactly for an offset-aware time |
| UserContext.StoredTimeRaises | app/services/user_context.py:211-215 | every time stored with an offset makes the as-written test raise |
| UserContext.WindowTest | app/services/user_context.py:199-215 | the intended test never raises, agrees with the source on naive times, and keeps a time exactly when it is within `days` days |
| UserContext.RecentSummary | app/services/user_context.py:189-226 | at most ten in-window activities, sorted by days ago ascending |
| UserContext.RecentSummaryKeepsNewest | app/services/user_context.py:224-226 | no dropped activity is more recent than a kept one |
| UserContext.RecentSummaryStable | app/services/user_context.py:224-226 | activities with the same days ago keep their listed order |
| UserContext.CalculatePlantStats | app/services/user_context.py:262-281 | the counts match the multiset of action types, they total the number of activities, and last watered is the first watering's days ago |
| UserContext.FormatPlant | app/services/user_context.py:149-176 | nothing for an empty plant; location defaults to indoor_potted; species/nickname only when truthy; the detailed form adds light, notes and created_at |
| UserContext.DetailedExtendsConcise | app/services/user_context.py:166-175 | the detailed form extends the concise one |
| UserContext.GetUserContext | app/services/user_context.py:20-96 | the counts match the partition; active reminders count the untruncated lists; the upcoming list is `Upcoming`'s and the recent list `RecentSummary`'s, both cut to ten; each plant is its concise `FormatPlant` form |
| MarketingEmails.SignupOf | app/services/marketing_emails.py:566-580 | users without an email or creation time are skipped; an eligible user has an email and their id |
| MarketingEmails.UserItems | app/services/marketing_emails.py:582-604 | an email is queued iff it is due (day 0 always, day 3 and day 7 after that many days) and unsent, in series order |
| MarketingEmails.Pending | app/services/marketing_emails.py:563-607 | no queued email repeats a sent pair, and each has a truthy address |
| MarketingEmails.SentPairs | app/services/marketing_emails.py:558-561 | the sent set holds every recorded pair; a row missing a column is an error |
| MarketingEmails.GetPending | app/services/marketing_emails.py:529-609 | empty without a database, users, or a well-formed sent list; otherwise nothing already sent |
| MarketingEmails.RecordingDrainsQueue | app/services/marketing_emails.py:558-604 | once every pending email is recorded as sent, nothing is pending |
| MarketingEmails.SendWelcomeEmail | app/services/marketing_emails.py:427-526 | decides in order: no database, already sent (nothing posted), no key, unknown type; the API is called only after all four; success iff it answered 200 |
| MarketingEmails.ProcessQueue | app/services/marketing_emails.py:612-647 | sent plus failed plus skipped equals the number of pending emails, with skipped exactly the already-sent answers |
| MarketingEmails.SyncToAudience | app/services/marketing_emails.py:650-700 | true when unconfigured, otherwise true iff the answer is 200, 201 or 204 |
| Plans.TrialEnd | app/services/supabase_client.py:265-276 | a trial end exists iff the profile has a parsed end date |
| Plans.TrialDaysRemaining | app/services/supabase_client.py:281-305 | the whole days left, floored, never negative, and 0 without a trial |
| Plans.DaysLeftMeansInTrial | app/services/supabase_client.py:255-305 | days left imply the trial is running; outside a trial no days are left |
| Plans.CanAddPlant | app/services/supabase_client.py:346-365 | premium access is unlimited; otherwise allowed iff fewer than 10 plants, reporting 10 minus the count |
| Plans.LimitIsMonotone | app/services/supabase_client.py:356-365 | a user at the limit stays there as plants are added |
| Plans.NewProfile | app/services/supabase_client.py:215-225 | a new profile is on the free plan with onboarding not done |
| Plans.NewProfileHasFullTrial | app/services/supabase_client.py:215-225 | a new profile is not premium but has premium access with all fourteen trial days left |
| Plans.CreateUserProfile | app/services/supabase_client.py:193-235 | nothing without the admin client; the stored row; on a duplicate key the existing profile |
| PhotoHandler.HandlePhotoUpload | app/utils/photo_handler.py:16-67 | no URLs on a validation error, no file or a failed upload; the three stored URLs on success |
| PhotoHandler.PhotoDeletions | app/utils/photo_handler.py:70-99 | one delete per truthy photo field, in the order display, original, thumbnail, and nothing else |
| PhotoHandler.StoredPhotosAreDeleted | app/utils/photo_handler.py:94-99 | all three stored versions of an upload are deleted |
| PhotoHandler.NoPhotosNoDeletions | app/utils/photo_handler.py:94-99 | without photo fields nothing is deleted |
| PhotoHandler.ExtractPhotoUrls | app/utils/photo_handler.py:102-125 | all none for a missing or empty result, otherwise the three lookups with none for a missing key |
| PhotoHandler.ExtractAgreesWithUpload | app/utils/photo_handler.py:118-125 | extraction and a successful upload agree on the three URLs |
| Seo.LandingPages | app/routes/seo.py:24 | the table's keys are the records' slugs, each mapped to a record with that slug |
| Seo.LastRecordWins | app/routes/seo.py:24 | for a repeated slug the last record is kept |
| Seo.SlugToRoute | app/routes/seo.py:27 | the route table has the same keys as the page table, with each page's route name |
| Seo.GetPage | app/routes/seo.py:30-32 | none exactly for an unknown slug |
| Seo.GetPageFindsRecord | app/routes/seo.py:24-32 | a lookup succeeds iff some record has the slug, and returns such a record |
| Seo.EveryPageHasRoute | app/routes/seo.py:24-32 | a slug has a route iff it has a page |
| Seo.RelatedPages | app/routes/seo.py:35-45 | at most one link per input slug, each copying a known page's slug, title and route |
| Seo.RelatedPagesAppend | app/routes/seo.py:36-45 | input order is kept |
| Seo.KnownSlugsAllLinked | app/routes/seo.py:36-45 | with only known slugs there is one link per slug, in order, duplicates kept |
| Seo.UnknownSlugsDropped | app/routes/seo.py:36-45 | unknown slugs give no links |
| Seo.LandingRoute | app/routes/seo.py:48-109 | a landing page renders iff its slug has a record, together with its related links |
| Marketing.LoadGuideSlugs | app/routes/marketing.py:20-32 | nothing when the file is missing; the truthy slugs when every guide is an object; an error otherwise |
| Marketing.TruthySlugsAppend | app/routes/marketing.py:27-32 | file order is kept |
| Marketing.OneGuide | app/routes/marketing.py:29-31 | a guide contributes its slug exactly when the slug is truthy |
| Marketing.Pages | app/routes/marketing.py:57-86 | nine static pages, then the five landing pages, then one page per guide slug |
| Marketing.Fields | app/routes/marketing.py:94-96 | loc, changefreq and priority hold no raw `<` or `>` |
| Marketing.SitemapFor | app/routes/marketing.py:46-101 | the sitemap is built exactly when the guide slugs load, from those slugs |
| Marketing.LocationsDecode | app/routes/marketing.py:94 | each loc unescapes to the base URL followed by the page path |
| Marketing.GuideLocation | app/routes/marketing.py:81-94 | a guide's loc is the base URL, the guides prefix and the slug |
| Marketing.Unsubscribe | app/routes/marketing.py:121-181 | bad token, then no profile, then already opted out (no update); for an opted-in user the opt-out update comes first, the page is "unsubscribed" exactly when it succeeded, and the audience removal happens exactly after a successful update with an email |
| Marketing.UnsubscribeIsIdempotent | app/routes/marketing.py:153-158 | following the link again after it worked reports already unsubscribed and changes nothing |

## Left out

- Network and database I/O are not modelled as calls. The database, the weather, AI and email APIs, and the `complete_reminder` / `snooze_reminder` procedures appear only as oracle parameters or reply values. The 1000- and 100-row query limits are the oracle's business.
- The clock and date parsing are parameters. Dates are day numbers and timestamps are seconds. A parsed date is an `Int` value, so a stored `0` counts as present.
- Float formatting (`_fmt_temp`, `{t:.0f}`) is not modelled. Hints and answers carry the temperature and the plant as data, not as rendered sentences.
- The prompt text, the email HTML/text bodies, the `robots.txt` route, and the flash texts that appear only as strings are left out. This includes the mis-encoded check mark in the bulk-complete flash.
- Unsubscribe token signing is not modelled. The token check is an input.
- Flask plumbing is not modelled: sessions, authentication, rate limits, templates, redirects, analytics, the debug and history-clear routes, and `get_plant_context` / `_get_plant_activities_summary`.
- The history deque is process-wide state shared between requests. Concurrency is not modelled.
- Python's case mapping, `isalpha` and `int()` are modelled on ASCII letters and digits.
- The ask route calls `validate_inputs` with three arguments, but the function takes one dictionary. The route also imports `looks_sensitive` and `redact_pii`, which the validation module does not define. Their results are inputs to `Web.Ask`.
- The rest of the model uses the corrected save (`JournalRoutes.SaveEntry`) and window test (`UserContext.WindowTest`); see Findings.
- The seo landing records come from a data file, so they are a parameter. The eight route handlers share one model, `Seo.LandingRoute`.
- Guide slugs that are not strings go through `str()`, which is a parameter of `Marketing.SitemapFor`.
- The exception branch of `presets_api` cannot be reached in the model, because every lookup it guards is total.
- Presets.RegionFromLatLon: floats are modelled as reals. NaN, which the source classes as cool because every band comparison is false, and the infinities are not represented.
- ReminderRoutes.History: the model treats any non-text key as a failure once there are two archived reminders, because the column holds ISO text. The source fails only when two keys cannot be compared, such as text against a number; two numeric keys sort.
- MarketingEmails.Pending: an error while scanning a profile ends the scan and keeps the items found so far, so the day-0/3/7 rule is stated per user (`UserItems`), not for the whole list.
- MarketingEmails.SendWelcomeEmail: a failure of the recording insert after a successful send is only logged by the source and is not modelled.
- Advice.RuleTip: the tip is the wording of `TopicOf(question)` around the location phrase, but the model does not prove that the five wordings differ from one another, so it does not show that the topic can be read back from the tip.
- Web.BasicPlantTip: as for `Advice.RuleTip`, the tip is tied to the route wording of its topic, but the wordings are not proved pairwise distinct.
- Plans.TrialEnd: reads an end date only when it parsed to a timestamp; the source's handlers already turn a parse error into "no trial".

## Findings

| source | as written | input that shows it | evidently intended | confidence | as-written member | corrected member |
|---|---|---|---|---|---|---|
| app/routes/journal.py:133-142 | `add_entry` passes `photo_url_original=` to `create_plant_action`, whose parameters (app/services/journal.py:47-56) do not include it | any valid add-entry form, with or without a photo | the insert receives the display URL and thumbnail only | high; not executed | JournalRoutes.SavingAlwaysRaises | JournalRoutes.SaveEntry |
| app/services/user_context.py:199-215 | the cutoff is the naive `datetime.now()`, and `action_at` parsed from "...Z" is offset-aware, so `action_at >= cutoff_date` raises `TypeError` | any activity whose stored `action_at` carries an offset, as every database timestamp does | compare both times on one clock | medium; not executed | UserContext.StoredTimeRaises | UserContext.WindowTest |
