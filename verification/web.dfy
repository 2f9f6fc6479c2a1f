/** The question page (app/routes/web.py): validate, refuse sensitive or
    blocklisted questions, fetch weather, ask the AI with a rule fallback,
    moderate the AI's answer, add a weather note, and record the exchange in
    a bounded, newest-first history. */
module Web {
  import opened Common
  import opened Text
  import opened Advice
  import Moderation
  import Validation
  import Weather

  /** The route's own fallback wording around the plant name. */
  function RouteWording(t: Topic): (string, string) {
    match t
    case Watering => ("For ", ", water when the top 2–3 cm of soil is dry. Soak thoroughly; empty the saucer.")
    case Lighting => ("", " typically prefers bright, indirect light. Avoid harsh midday sun behind glass.")
    case Feeding => ("Feed ", " at 1/4–1/2 strength every 4–6 weeks during active growth; pause in winter.")
    case Repotting => ("Repot ", " only when rootbound; choose a pot 2–5 cm wider with a free-draining mix.")
    case General => ("For ", ", keep it simple: bright-indirect light, water when the top inch is dry, and ensure drainage.")
  }

  /** The plant as the route names it: trimmed, "your plant" when blank. */
  function RoutePlantName(plant: string): (p: string)
    ensures p != ""
    ensures Strip(plant) != "" ==> p == Strip(plant)
    ensures Strip(plant) == "" ==> p == "your plant"
  {
    if Strip(plant) != "" then Strip(plant) else "your plant"
  }

  /** `basic_plant_tip`: the same keyword priority as the service's rule tip,
      naming the plant rather than a location. */
  function BasicPlantTip(question: string, plant: string): (tip: string)
    ensures TopicOf(question) == Lighting ==> IsPrefix(Capitalize(RoutePlantName(plant)), tip)
    ensures TopicOf(question) != Lighting ==> Contains(tip, RoutePlantName(plant))
    ensures var w, p := RouteWording(TopicOf(question)), RoutePlantName(plant);
      && IsPrefix(w.0, tip) && IsSuffix(w.1, tip) && |w.0| + |w.1| <= |tip|
      && tip[|w.0|..|tip| - |w.1|] == if TopicOf(question) == Lighting then Capitalize(p) else p
  {
    var t := TopicOf(question);
    Render(RouteWording(t), t, RoutePlantName(plant))
  }

  /** `weather_adjustment_tip`: no hint without a temperature; unlike the
      service's hint this one is not guarded, so a temperature that cannot be
      compared with a number raises out of the request. */
  function WeatherAdjustmentTip(weather: Option<Weather.Snapshot>, plant: string): (r: Result<Option<Hint>>)
    ensures TempOf(weather) == Null ==> r == Ok(None)
    ensures r.Err? <==> TempOf(weather) != Null && Number(TempOf(weather)).None?
    ensures r.Ok? && r.value.Some? ==>
      && Number(TempOf(weather)) == Some(r.value.value.tempC)
      && r.value.value.kind == Classify(r.value.value.tempC)
      && r.value.value.subject == (if plant != "" then plant else "your plant")
  {
    var t := TempOf(weather);
    if t == Null then Ok(None)
    else match Number(t)
      case None => Err("TypeError: '>=' not supported")
      case Some(x) => Ok(Some(Hint(Classify(x), x, if plant != "" then plant else "your plant")))
  }

  /** With a numeric temperature the route and the service agree on the kind
      of hint. */
  lemma HintsAgree(weather: Option<Weather.Snapshot>, plant: string)
    requires Number(TempOf(weather)).Some?
    ensures WeatherAdjustmentTip(weather, plant).Ok?
    ensures WeatherAdjustmentTip(weather, plant).value.Some?
    ensures WeatherAdjustmentTip(weather, plant).value.value.kind == WeatherTip(weather, Some(plant)).value.kind
  {
  }

  // ---------------------------------------------------------------------
  // the history

  const HistoryLimit: nat := 25

  /** One sidebar entry; `ts` is the request time in seconds. */
  datatype Entry = Entry(ts: int, plant: string, city: string, question: string,
                         answer: Answer, weather: Option<Weather.Snapshot>, source: Source)

  function Min(a: int, b: int): int { if a < b then a else b }

  /** `deque.appendleft(e)` on a deque bounded to `limit`: the new element in
      front, the oldest dropped when full. */
  function PushBounded<T>(s: seq<T>, e: T, limit: nat): (r: seq<T>)
    requires limit > 0
    ensures |r| == Min(|s| + 1, limit)
    ensures r[0] == e
    ensures r[1..] == s[..|r| - 1]
  {
    var full := [e] + s;
    assert full[1..] == s;
    if |full| <= limit then full else full[..limit]
  }

  /** `HISTORY.appendleft(entry)` on the 25-entry history. */
  function Record(history: seq<Entry>, e: Entry): (r: seq<Entry>)
    ensures |r| == Min(|history| + 1, HistoryLimit)
    ensures r[0] == e
    ensures r[1..] == history[..|r| - 1]
  {
    PushBounded(history, e, HistoryLimit)
  }

  /** Pushing elements one after another. */
  function PushAll<T>(s: seq<T>, es: seq<T>, limit: nat): seq<T>
    requires limit > 0
    decreases |es|
  {
    if |es| == 0 then s else PushAll(PushBounded(s, es[0], limit), es[1..], limit)
  }

  function Reverse<T>(s: seq<T>): (r: seq<T>)
    ensures |r| == |s|
  {
    if |s| == 0 then [] else Reverse(s[1..]) + [s[0]]
  }

  /** After any run of requests the history holds the newest entries, newest
      first, and never more than the bound. */
  lemma {:induction false} PushAllKeepsNewest<T>(s: seq<T>, es: seq<T>, limit: nat)
    requires 0 < limit && |s| <= limit
    ensures var all := Reverse(es) + s;
      PushAll(s, es, limit) == all[..Min(|all|, limit)]
    decreases |es|
  {
    if |es| > 0 {
      var h1 := PushBounded(s, es[0], limit);
      var r, f := Reverse(es[1..]), [es[0]] + s;
      AppendAssoc(r, [es[0]], s);
      assert f[1..] == s;
      assert h1 == f[..|h1|];
      TakeAfter(r, f, |h1|);
      var n := Min(|r| + |h1|, limit);
      assert n == Min(|r| + |f|, limit);
      TakeTake(r + f, |r| + |h1|, n);
      PushAllKeepsNewest(h1, es[1..], limit);
    }
  }

  lemma AppendAssoc<T>(a: seq<T>, b: seq<T>, c: seq<T>)
    ensures (a + b) + c == a + (b + c)
  {
  }

  lemma TakeAfter<T>(a: seq<T>, b: seq<T>, k: nat)
    requires k <= |b|
    ensures a + b[..k] == (a + b)[..|a| + k]
  {
  }

  lemma TakeTake<T>(s: seq<T>, k: nat, j: nat)
    requires j <= k <= |s|
    ensures s[..k][..j] == s[..j]
  {
  }

  // ---------------------------------------------------------------------
  // the ask pipeline

  const SensitiveRefusal: string := "I can’t help with requests for confidential access or illegal activities."
  const ModerationRefusal: string := "Your question can’t be answered due to content restrictions."

  /** The helpers the route calls that the validation module does not define
      (`looks_sensitive`, `redact_pii`, and the three-argument
      `validate_inputs`): their results are inputs. */
  datatype Checks = Checks(invalid: Option<string>, sensitive: bool, redact: string -> string)

  /** The outside calls the pipeline makes, in order. */
  datatype Effect = Moderate(text: string) | FetchWeather(city: string) | AskAi

  datatype Response = Response(answer: Answer, weather: Option<Weather.Snapshot>, source: Source)

  /** The request's result (`Err` for an exception that escapes the route),
      the history afterwards, and the outside calls made. */
  datatype Outcome = Outcome(response: Result<Response>, history: seq<Entry>, effects: seq<Effect>)

  /** The answer on the allowed path, before the weather note: the AI's text
      if it passes output moderation, the route's rule tip otherwise. */
  function AnswerBody(question: string, plant: string, ai: AiService): (r: (string, Source))
    ensures r.1 == AiSource <==> AiAdvice(ai).Some? && Moderation.RunModeration(AiAdvice(ai)).0
    ensures r.1 == AiSource ==> r.0 == AiAdvice(ai).value
    ensures r.1 == RuleSource ==> r.0 == BasicPlantTip(question, plant)
  {
    match AiAdvice(ai)
    case Some(text) =>
      if Moderation.RunModeration(Some(text)).0 then (text, AiSource) else (BasicPlantTip(question, plant), RuleSource)
    case None => (BasicPlantTip(question, plant), RuleSource)
  }

  /** The entry recorded for a response. */
  function EntryFor(ts: int, question: string, plant: string, city: string, checks: Checks, r: Response): Entry {
    Entry(ts,
          if plant != "" then Validation.DisplaySanitizeShort(checks.redact(plant)) else plant,
          if city != "" then Validation.DisplaySanitizeShort(checks.redact(city)) else city,
          checks.redact(question), r.answer, r.weather, r.source)
  }

  /** `ask`. */
  function Ask(question: string, plant: string, city: string, ts: int, checks: Checks,
               weatherOf: string -> Option<Weather.Snapshot>, ai: AiService, history: seq<Entry>): (o: Outcome)
    ensures checks.invalid.Some? ==>
      o.effects == [] && o.response == Ok(Response(Answer(checks.invalid.value, None), None, RuleSource))
    ensures checks.invalid.None? && checks.sensitive ==>
      o.effects == [] && o.response == Ok(Response(Answer(SensitiveRefusal, None), None, RuleSource))
    ensures checks.invalid.None? && !checks.sensitive && !Moderation.RunModeration(Some(question)).0 ==>
      o.effects == [Moderate(question)] && o.response == Ok(Response(Answer(ModerationRefusal, None), None, RuleSource))
    ensures o.response.Ok? && o.response.value.source == AiSource ==>
      AiAdvice(ai).Some? && Moderation.RunModeration(AiAdvice(ai)).0 && o.response.value.answer.body == AiAdvice(ai).value
    ensures AskAi in o.effects ==> checks.invalid.None? && !checks.sensitive && Moderation.RunModeration(Some(question)).0
    ensures o.response.Err? <==>
      checks.invalid.None? && !checks.sensitive && Moderation.RunModeration(Some(question)).0
      && WeatherAdjustmentTip(weatherOf(city), plant).Err?
    ensures checks.invalid.None? && !checks.sensitive && Moderation.RunModeration(Some(question)).0 && o.response.Ok? ==>
      && (o.response.value.answer.body, o.response.value.source) == AnswerBody(question, plant, ai)
      && (o.response.value.answer.note.Some? <==> Number(TempOf(weatherOf(city))).Some?)
    ensures o.response.Ok? && o.response.value.answer.note.Some? ==> FetchWeather(city) in o.effects
    ensures o.response.Err? ==> o.history == history
    ensures o.response.Ok? ==>
      o.history == Record(history, EntryFor(ts, question, plant, city, checks, o.response.value))
  {
    match Screen(question, checks)
    case Some((refusal, effects)) =>
      Done(Response(Answer(refusal, None), None, RuleSource), effects, ts, question, plant, city, checks, history)
    case None => Consult(question, plant, city, ts, checks, weatherOf, ai, history)
  }

  /** The checks before any answer is sought, in order: the validation
      error, the sensitive-request refusal, then the moderation refusal (the
      only one that calls the moderation service). `None` lets the question
      through. */
  function Screen(question: string, checks: Checks): (r: Option<(string, seq<Effect>)>)
    ensures checks.invalid.Some? ==> r == Some((checks.invalid.value, []))
    ensures checks.invalid.None? && checks.sensitive ==> r == Some((SensitiveRefusal, []))
    ensures checks.invalid.None? && !checks.sensitive ==>
      r == (if Moderation.RunModeration(Some(question)).0 then None else Some((ModerationRefusal, [Moderate(question)])))
    ensures r.Some? ==> AskAi !in r.value.1
  {
    if checks.invalid.Some? then Some((checks.invalid.value, []))
    else if checks.sensitive then Some((SensitiveRefusal, []))
    else if !Moderation.RunModeration(Some(question)).0 then Some((ModerationRefusal, [Moderate(question)]))
    else None
  }

  /** A question that passed the checks and moderation: the weather lookup,
      the AI call and the moderation of its answer, then the answer with its
      weather note. */
  function Consult(question: string, plant: string, city: string, ts: int, checks: Checks,
                   weatherOf: string -> Option<Weather.Snapshot>, ai: AiService, history: seq<Entry>): (o: Outcome)
    ensures |o.effects| >= 3 && o.effects[..3] == [Moderate(question), FetchWeather(city), AskAi]
    ensures FetchWeather(city) in o.effects && AskAi in o.effects
    ensures o.response.Err? <==> WeatherAdjustmentTip(weatherOf(city), plant).Err?
    ensures o.response.Ok? ==>
      && (o.response.value.answer.body, o.response.value.source) == AnswerBody(question, plant, ai)
      && o.response.value.weather == weatherOf(city)
      && (o.response.value.answer.note.Some? <==> Number(TempOf(weatherOf(city))).Some?)
    ensures o.response.Ok? && o.response.value.answer.note.Some? ==>
      WeatherAdjustmentTip(weatherOf(city), plant) == Ok(Some(o.response.value.answer.note.value.hint))
    ensures o.response.Ok? && o.response.value.source == AiSource ==>
      AiAdvice(ai).Some? && Moderation.RunModeration(AiAdvice(ai)).0 && o.response.value.answer.body == AiAdvice(ai).value
    ensures o.response.Err? ==> o.history == history
    ensures o.response.Ok? ==>
      o.history == Record(history, EntryFor(ts, question, plant, city, checks, o.response.value))
  {
    var aiText := AiAdvice(ai);
    var effects := [Moderate(question), FetchWeather(city), AskAi] + (if aiText.Some? then [Moderate(aiText.value)] else []);
    var (body, source) := AnswerBody(question, plant, ai);
    match WithNote(body, source, weatherOf(city), plant)
    case Err(e) => Outcome(Err(e), history, effects)
    case Ok(r) => Done(r, effects, ts, question, plant, city, checks, history)
  }

  /** The response once its body is known: the route's weather hint becomes
      the note, naming the snapshot's city when it has a string one, and a
      hint that raises ends the request. */
  function WithNote(body: string, source: Source, weather: Option<Weather.Snapshot>, plant: string): (r: Result<Response>)
    ensures r.Err? <==> WeatherAdjustmentTip(weather, plant).Err?
    ensures r.Ok? ==> r.value.answer.body == body && r.value.source == source && r.value.weather == weather
    ensures r.Ok? ==> (r.value.answer.note.Some? <==> Number(TempOf(weather)).Some?)
    ensures r.Ok? && r.value.answer.note.Some? ==> WeatherAdjustmentTip(weather, plant) == Ok(Some(r.value.answer.note.value.hint))
  {
    match WeatherAdjustmentTip(weather, plant)
    case Err(e) => Err(e)
    case Ok(None) => Ok(Response(Answer(body, None), weather, source))
    case Ok(Some(hint)) =>
      var place := Get(weather.value, "city", Null);
      Ok(Response(Answer(body, Some(TipNote(if place.Str? then Some(place.s) else None, hint))), weather, source))
  }

  function Done(r: Response, effects: seq<Effect>, ts: int, question: string, plant: string, city: string,
                checks: Checks, history: seq<Entry>): Outcome {
    Outcome(Ok(r), Record(history, EntryFor(ts, question, plant, city, checks, r)), effects)
  }

  /** Each answered request adds exactly one entry, up to the bound. */
  lemma AskGrowsHistory(question: string, plant: string, city: string, ts: int, checks: Checks,
                        weatherOf: string -> Option<Weather.Snapshot>, ai: AiService, history: seq<Entry>)
    requires Ask(question, plant, city, ts, checks, weatherOf, ai, history).response.Ok?
    ensures |Ask(question, plant, city, ts, checks, weatherOf, ai, history).history| == Min(|history| + 1, HistoryLimit)
  {
  }
}
