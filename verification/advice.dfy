/** The advice engine (app/services/ai.py): an AI answer when the model
    replies, otherwise a keyword rule tip, followed by a temperature hint when
    the weather is known. The OpenAI and OpenWeather calls are oracles. */
module Advice {
  import opened Common
  import opened Text
  import Weather

  // ---------------------------------------------------------------------
  // the rule tip

  /** What a question is about, in the rules' priority order. */
  datatype Topic = Watering | Lighting | Feeding | Repotting | General {
    function Rank(): nat {
      match this
      case Watering => 0
      case Lighting => 1
      case Feeding => 2
      case Repotting => 3
      case General => 4
    }
  }

  /** The keyword rule shared by both fallback tips: "water", then "light" or
      "sun", then "fertil" or "feed", then "repot" or "pot", matched on the
      lower-cased question. */
  function TopicOf(question: string): (t: Topic)
    ensures var q := Lower(question);
      && (t == Watering <==> Contains(q, "water"))
      && (t == Lighting <==> !Contains(q, "water") && (Contains(q, "light") || Contains(q, "sun")))
      && (t == Feeding <==> !Contains(q, "water") && !Contains(q, "light") && !Contains(q, "sun")
                            && (Contains(q, "fertil") || Contains(q, "feed")))
      && (t == General <==> !Contains(q, "water") && !Contains(q, "light") && !Contains(q, "sun")
                            && !Contains(q, "fertil") && !Contains(q, "feed") && !Contains(q, "repot") && !Contains(q, "pot"))
  {
    var q := Lower(question);
    if Contains(q, "water") then Watering
    else if Contains(q, "light") || Contains(q, "sun") then Lighting
    else if Contains(q, "fertil") || Contains(q, "feed") then Feeding
    else if Contains(q, "repot") || Contains(q, "pot") then Repotting
    else General
  }

  /** Saying more can only make the matched rule more urgent: extending a
      question never moves it to a lower-priority topic. */
  lemma TopicExtend(question: string, more: string)
    ensures TopicOf(question + more).Rank() <= TopicOf(question).Rank()
  {
    var q, q2 := Lower(question), Lower(question + more);
    assert q2 == q + Lower(more);
    forall k | Contains(q, k) ensures Contains(q2, k) {
      ContainsExtendRight(q, Lower(more), k);
    }
  }

  /** The rules ignore case. */
  lemma TopicIgnoresCase(question: string)
    ensures TopicOf(Lower(question)) == TopicOf(question)
  {
    LowerIdempotent(question);
  }

  /** The plant as `_basic_plant_tip` names it: trimmed, "the plant" when
      blank. */
  function PlantName(plant: Option<string>): (p: string)
    ensures p != ""
    ensures Strip(plant.GetOr("")) != "" ==> p == Strip(plant.GetOr(""))
    ensures Strip(plant.GetOr("")) == "" ==> p == "the plant"
  {
    var p := Strip(plant.GetOr(""));
    if p != "" then p else "the plant"
  }

  /** Where the plant lives, for the three known care contexts; the bare
      plant name otherwise. */
  function LocationPhrase(plant: Option<string>, careContext: string): (loc: string)
    ensures IsPrefix(PlantName(plant), loc)
    ensures careContext == "indoor_potted" ==> loc == PlantName(plant) + " indoors"
    ensures careContext == "outdoor_potted" ==> loc == PlantName(plant) + " outdoors in a pot"
    ensures careContext == "outdoor_bed" ==> loc == PlantName(plant) + " in a garden bed"
    ensures careContext !in {"indoor_potted", "outdoor_potted", "outdoor_bed"} ==> loc == PlantName(plant)
  {
    var p := PlantName(plant);
    if careContext == "indoor_potted" then p + " indoors"
    else if careContext == "outdoor_potted" then p + " outdoors in a pot"
    else if careContext == "outdoor_bed" then p + " in a garden bed"
    else p
  }

  /** The text around the location in each `_basic_plant_tip` answer. */
  function ServiceWording(t: Topic): (string, string) {
    match t
    case Watering => ("For ", ", water when the top 2–3 cm of soil is dry. Soak thoroughly and ensure drainage.")
    case Lighting => ("", " generally prefers bright, indirect light unless it’s sun-tolerant.")
    case Feeding => ("Feed ", " at 1/4–1/2 strength every 4–6 weeks during active growth; reduce in winter.")
    case Repotting => ("Repot ", " only when root-bound; choose a pot 2–5 cm wider with a free-draining mix.")
    case General => ("For ", ", aim for bright-indirect light, water when the top inch is dry, and ensure good drainage.")
  }

  /** A tip naming `subject` inside the wording of `t`; the lighting tip opens
      with the capitalised subject. */
  function Render(wording: (string, string), t: Topic, subject: string): (tip: string)
    requires t == Lighting ==> wording.0 == ""
    ensures t == Lighting ==> IsPrefix(Capitalize(subject), tip)
    ensures t != Lighting ==> Contains(tip, subject)
    ensures IsPrefix(wording.0, tip) && IsSuffix(wording.1, tip)
    ensures |wording.0| + |wording.1| <= |tip|
    ensures tip[|wording.0|..|tip| - |wording.1|] == if t == Lighting then Capitalize(subject) else subject
  {
    var s := if t == Lighting then Capitalize(subject) else subject;
    ContainsMiddle(wording.0, s, wording.1);
    wording.0 + s + wording.1
  }

  /** `_basic_plant_tip`: the tip of the question's topic for the location
      phrase. */
  function RuleTip(question: string, plant: Option<string>, careContext: string): (tip: string)
    ensures TopicOf(question) == Lighting ==> IsPrefix(Capitalize(LocationPhrase(plant, careContext)), tip)
    ensures TopicOf(question) != Lighting ==> Contains(tip, LocationPhrase(plant, careContext))
    ensures var w, loc := ServiceWording(TopicOf(question)), LocationPhrase(plant, careContext);
      && IsPrefix(w.0, tip) && IsSuffix(w.1, tip) && |w.0| + |w.1| <= |tip|
      && tip[|w.0|..|tip| - |w.1|] == if TopicOf(question) == Lighting then Capitalize(loc) else loc
  {
    var t := TopicOf(question);
    Render(ServiceWording(t), t, LocationPhrase(plant, careContext))
  }

  lemma ContainsMiddle(a: string, b: string, c: string)
    ensures Contains(a + b + c, b)
    ensures a == "" ==> IsPrefix(b, a + b + c)
  {
    ContainsSelf(b);
    ContainsExtendRight(b, c, b);
    ContainsExtendLeft(a, b + c, b);
    assert a + b + c == a + (b + c);
    if a == "" {
      assert (a + b + c)[..|b|] == b;
    }
  }

  // ---------------------------------------------------------------------
  // the weather hint

  /** The three temperature hints. */
  datatype HintKind = Hot | Cold | Usual

  /** The thresholds, in °C: at least 32 is hot, at most 5 is cold. */
  function Classify(tempC: real): (k: HintKind)
    ensures k == Hot <==> tempC >= 32.0
    ensures k == Cold <==> tempC <= 5.0
  {
    if tempC >= 32.0 then Hot else if tempC <= 5.0 then Cold else Usual
  }

  /** A hint as shown: its kind, the temperature and the plant it names. The
      exact wording and the °C/°F formatting are not modelled. */
  datatype Hint = Hint(kind: HintKind, tempC: real, subject: string)

  /** The snapshot's temperature, when there is a snapshot with one. */
  function TempOf(weather: Option<Weather.Snapshot>): Value {
    if weather.None? || weather.value == map[] then Null else Get(weather.value, "temp_c", Null)
  }

  /** `_weather_tip`: no hint without a temperature; a temperature that cannot
      be compared with a number raises inside the guarded block, which yields
      no hint either. */
  function WeatherTip(weather: Option<Weather.Snapshot>, plant: Option<string>): (h: Option<Hint>)
    ensures h.Some? <==> Number(TempOf(weather)).Some?
    ensures h.Some? ==> h.value.tempC == Number(TempOf(weather)).value
    ensures h.Some? ==> h.value.kind == Classify(h.value.tempC)
    ensures h.Some? ==> h.value.subject == (if Filled(plant) then plant.value else "the plant")
  {
    match Number(TempOf(weather))
    case None => None
    case Some(t) => Some(Hint(Classify(t), t, if Filled(plant) then plant.value else "the plant"))
  }

  // ---------------------------------------------------------------------
  // the AI answer

  /** One way of asking the model: not offered by the installed SDK, raised,
      or returned this text. */
  datatype Attempt = Unavailable | Raised(message: string) | Returned(text: string)

  /** The OpenAI side of one request: whether a key is configured, and what
      the chat-completions and responses calls do. The responses text is the
      one the SDK exposes (`output_text`, or the first content block). */
  datatype AiService = AiService(configured: bool, chat: Attempt, responses: Attempt)

  /** `_ai_advice` / `ai_advice`: never raises; `None` without a key, on an
      exception, or when neither call yields text; otherwise non-empty text. */
  function AiAdvice(ai: AiService): (r: Option<string>)
    ensures !ai.configured ==> r.None?
    ensures ai.chat.Raised? ==> r.None?
    ensures r.Some? ==> r.value != ""
    ensures r.Some? <==> ai.configured && !ai.chat.Raised?
                         && ((ai.chat.Returned? && Strip(ai.chat.text) != "") || (ai.responses.Returned? && ai.responses.text != ""))
    ensures ai.configured && ai.chat.Returned? && Strip(ai.chat.text) != "" ==> r == Some(Strip(ai.chat.text))
    ensures (ai.configured && (ai.chat.Unavailable? || (ai.chat.Returned? && Strip(ai.chat.text) == ""))
             && ai.responses.Returned? && ai.responses.text != "") ==> r == Some(ai.responses.text)
  {
    if !ai.configured then None
    else if ai.chat.Raised? then None
    else if ai.chat.Returned? && Strip(ai.chat.text) != "" then Some(Strip(ai.chat.text))
    else match ai.responses
      case Returned(t) => if t != "" then Some(t) else None
      case _ => None
  }

  // ---------------------------------------------------------------------
  // generate_advice

  datatype Source = AiSource | RuleSource

  /** The weather note appended to an answer: the snapshot's city (if it has
      a truthy one) and the hint. */
  datatype TipNote = TipNote(place: Option<string>, hint: Hint)

  /** An answer: the body text and the optional weather note after it. */
  datatype Answer = Answer(body: string, note: Option<TipNote>)

  datatype Advice = Advice(answer: Answer, weather: Option<Weather.Snapshot>, source: Source)

  /** The city the weather note names: the snapshot's "city" entry, or
      `null` without a snapshot. */
  function NoteCity(weather: Option<Weather.Snapshot>): Value {
    if weather.Some? then Get(weather.value, "city", Null) else Null
  }

  /** `generate_advice`: weather only for a truthy city; the AI's text with
      source "ai" when it replies, the rule tip with source "rule" otherwise;
      a weather note exactly when `_weather_tip` gives a hint. A truthy
      snapshot city that is not a string makes the note's concatenation
      raise. */
  function GenerateAdvice(question: string, plant: Option<string>, city: Option<string>, careContext: string,
                          weatherOf: string -> Option<Weather.Snapshot>, ai: AiService): (r: Result<Advice>)
    ensures r.Ok? ==> r.value.weather == (if Filled(city) then weatherOf(city.value) else None)
    ensures r.Ok? ==> (r.value.source == AiSource <==> AiAdvice(ai).Some?)
    ensures r.Ok? && AiAdvice(ai).Some? ==> r.value.answer.body == AiAdvice(ai).value
    ensures r.Ok? && AiAdvice(ai).None? ==> r.value.answer.body == RuleTip(question, plant, careContext)
    ensures r.Ok? ==> (r.value.answer.note.Some? <==> WeatherTip(r.value.weather, plant).Some?)
    ensures r.Ok? && r.value.answer.note.Some? ==> r.value.answer.note.value.hint == WeatherTip(r.value.weather, plant).value
    ensures WeatherTip(if Filled(city) then weatherOf(city.value) else None, plant).None? ==> r.Ok?
    ensures var w := if Filled(city) then weatherOf(city.value) else None;
      r.Err? <==> WeatherTip(w, plant).Some? && Truthy(NoteCity(w)) && !NoteCity(w).Str?
    ensures r.Ok? && r.value.answer.note.Some? ==>
      (r.value.answer.note.value.place.None? <==> !Truthy(NoteCity(r.value.weather)))
    ensures r.Ok? && r.value.answer.note.Some? && r.value.answer.note.value.place.Some? ==>
      NoteCity(r.value.weather) == Str(r.value.answer.note.value.place.value)
  {
    var weather := if Filled(city) then weatherOf(city.value) else None;
    var aiText := AiAdvice(ai);
    var body := if aiText.Some? then aiText.value else RuleTip(question, plant, careContext);
    var source := if aiText.Some? then AiSource else RuleSource;
    match WeatherTip(weather, plant)
    case None => Ok(Advice(Answer(body, None), weather, source))
    case Some(hint) =>
      var cityName := NoteCity(weather);
      if !Truthy(cityName) then Ok(Advice(Answer(body, Some(TipNote(None, hint))), weather, source))
      else if cityName.Str? then Ok(Advice(Answer(body, Some(TipNote(Some(cityName.s), hint))), weather, source))
      else Err("TypeError: can only concatenate str to str")
  }

  /** The fallback never leaves the answer empty. */
  lemma GenerateAdviceNeverEmpty(question: string, plant: Option<string>, city: Option<string>, careContext: string,
                                 weatherOf: string -> Option<Weather.Snapshot>, ai: AiService)
    requires GenerateAdvice(question, plant, city, careContext, weatherOf, ai).Ok?
    ensures GenerateAdvice(question, plant, city, careContext, weatherOf, ai).value.answer.body != ""
  {
    var tip := RuleTip(question, plant, careContext);
    assert Contains(tip, LocationPhrase(plant, careContext)) || IsPrefix(Capitalize(LocationPhrase(plant, careContext)), tip);
  }
}
