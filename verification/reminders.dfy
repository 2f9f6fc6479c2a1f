/** Care-reminder scheduling (app/services/reminders.py): frequencies and the
    first due date, the snooze range, field whitelisting on update, soft
    delete, and the weather adjustment of outdoor watering reminders with its
    batch counters. Dates are day numbers; database rows are JSON objects;
    the database and weather calls are oracles. */
module Reminders {
  import opened Common
  import opened Text
  import Weather

  /** A database row. */
  type Row = map<string, Value>

  /** `FREQUENCY_DAYS`. */
  const FrequencyDays: map<string, int> := map[
    "daily" := 1, "every_2_days" := 2, "every_3_days" := 3, "weekly" := 7,
    "biweekly" := 14, "monthly" := 30, "one_time" := 0]

  const DatabaseNotConfigured: string := "Database not configured"

  // ---------------------------------------------------------------------
  // create_reminder

  /** The fields a new reminder is inserted with. */
  datatype NewReminder = NewReminder(
    plantId: string, reminderType: string, title: string, frequency: string,
    customIntervalDays: Option<int>, nextDue: int, notes: Option<string>,
    skipWeatherAdjustment: bool, isActive: bool, isRecurring: bool)

  /** `create_reminder` up to the insert, which gets these fields: the
      frequency must be known or "custom", and "custom" needs a truthy
      interval; the first due date is today plus the interval (0 for
      "one_time"). */
  function ReminderPayload(configured: bool, plantId: string, reminderType: string, title: string,
                          frequency: string, customIntervalDays: Option<int>, notes: Option<string>,
                          skipWeatherAdjustment: bool, today: int): (r: Result<NewReminder>)
    ensures !configured ==> r == Err(DatabaseNotConfigured)
    ensures configured ==>
      (r.Ok? <==> (frequency in FrequencyDays || frequency == "custom")
                  && (frequency == "custom" ==> customIntervalDays.Some? && customIntervalDays.value != 0))
    ensures r.Ok? && frequency == "custom" ==> r.value.nextDue == today + customIntervalDays.value
    ensures r.Ok? && frequency != "custom" ==> r.value.nextDue == today + FrequencyDays[frequency]
    ensures r.Ok? && frequency == "one_time" ==> r.value.nextDue == today
    ensures r.Ok? ==> (r.value.isRecurring <==> frequency != "one_time")
    ensures r.Ok? ==> r.value.isActive && r.value.frequency == frequency && r.value.customIntervalDays == customIntervalDays
  {
    if !configured then Err(DatabaseNotConfigured)
    else if frequency !in FrequencyDays && frequency != "custom" then Err("Invalid frequency: " + frequency)
    else if frequency == "custom" && (customIntervalDays.None? || customIntervalDays.value == 0) then
      Err("custom_interval_days required for custom frequency")
    else
      var interval := if frequency == "custom" then customIntervalDays.value else FrequencyDays[frequency];
      Ok(NewReminder(plantId, reminderType, title, frequency, customIntervalDays, today + interval, notes,
                     skipWeatherAdjustment, true, frequency != "one_time"))
  }

  /** `create_reminder` with the insert's reply: refused before the insert
      as above; then the first echoed row, "Failed to create reminder" when
      none came back, and the exception's text when the insert raised. */
  function CreateReminder(configured: bool, plantId: string, reminderType: string, title: string,
                          frequency: string, customIntervalDays: Option<int>, notes: Option<string>,
                          skipWeatherAdjustment: bool, today: int, reply: WriteReply): (r: Result<Row>)
    ensures var sent := ReminderPayload(configured, plantId, reminderType, title, frequency, customIntervalDays,
                                        notes, skipWeatherAdjustment, today);
      && (r.Ok? <==> sent.Ok? && reply.Stored? && |reply.rows| > 0)
      && (sent.Err? ==> r == Err(sent.message))
      && (sent.Ok? && reply.WriteRaised? ==> r == Err("Error creating reminder: " + reply.message))
      && (sent.Ok? && reply == Stored([]) ==> r == Err("Failed to create reminder"))
    ensures r.Ok? ==> r.value == reply.rows[0]
  {
    match ReminderPayload(configured, plantId, reminderType, title, frequency, customIntervalDays,
                          notes, skipWeatherAdjustment, today)
    case Err(e) => Err(e)
    case Ok(_) => FirstStored(reply, "Failed to create reminder", "Error creating reminder: ")
  }

  /** Every named frequency schedules the first reminder no earlier than
      today and at most a month ahead. */
  lemma NamedFrequencyWithinMonth(frequency: string, today: int, plantId: string)
    requires frequency in FrequencyDays
    ensures ReminderPayload(true, plantId, "watering", "t", frequency, None, None, false, today).Ok?
    ensures today <= ReminderPayload(true, plantId, "watering", "t", frequency, None, None, false, today).value.nextDue <= today + 30
  {
  }

  // ---------------------------------------------------------------------
  // snooze_reminder and the reminder RPCs

  /** What a reminder RPC returned: rows, or an exception. */
  datatype RpcReply = Rows(rows: seq<Row>) | RpcRaised(message: string)

  /** The call a function made to the database, if any. */
  datatype SnoozeCall = SnoozeCall(reminderId: string, days: int)

  /** `snooze_reminder`: days outside 1..30 are refused before the RPC is
      called; otherwise the RPC's first row decides. */
  function SnoozeReminder(configured: bool, reminderId: string, days: int, reply: RpcReply)
    : (r: (bool, Option<Value>, seq<SnoozeCall>))
    ensures !configured ==> r.2 == []
    ensures configured && (days < 1 || days > 30) ==> r == (false, Some(Str("Snooze days must be between 1 and 30")), [])
    ensures r.2 != [] <==> configured && 1 <= days <= 30
    ensures r.2 != [] ==> r.2 == [SnoozeCall(reminderId, days)]
    ensures r.0 ==> configured && 1 <= days <= 30 && r.1.None?
    ensures !configured ==> r.0 == false && r.1 == Some(Str(DatabaseNotConfigured))
    ensures configured && 1 <= days <= 30 ==>
      (r.0 <==> reply.Rows? && |reply.rows| > 0 && Truthy(Get(reply.rows[0], "success", Null)))
    ensures configured && 1 <= days <= 30 ==>
      (r.0, r.1) == RpcOutcome(reply, "Failed to snooze reminder", "Error snoozing reminder: ")
  {
    if !configured then (false, Some(Str(DatabaseNotConfigured)), [])
    else if days < 1 || days > 30 then (false, Some(Str("Snooze days must be between 1 and 30")), [])
    else
      var (ok, msg) := RpcOutcome(reply, "Failed to snooze reminder", "Error snoozing reminder: ");
      (ok, msg, [SnoozeCall(reminderId, days)])
  }

  /** The shared reading of a `{success, message}` RPC reply. */
  function RpcOutcome(reply: RpcReply, failure: string, errorPrefix: string): (r: (bool, Option<Value>))
    ensures r.0 <==> reply.Rows? && |reply.rows| > 0 && Truthy(Get(reply.rows[0], "success", Null))
    ensures r.0 <==> r.1.None?
  {
    match reply
    case RpcRaised(e) => (false, Some(Str(errorPrefix + e)))
    case Rows(rows) =>
      if |rows| == 0 then (false, Some(Str("Unexpected response from database")))
      else if Truthy(Get(rows[0], "success", Null)) then (true, None)
      else
        var m := Get(rows[0], "message", Str(failure));
        (false, Some(m))
  }

  // ---------------------------------------------------------------------
  // update_reminder and delete_reminder

  const ReminderLocked: set<string> := {"id", "user_id", "plant_id", "created_at", "last_completed_at"}

  /** `update_reminder` up to the database call: the update never carries
      identity or completion fields, keeps every other field as given, and is
      refused when nothing is left. */
  function ReminderUpdate(configured: bool, fields: Row): (r: Result<Row>)
    ensures !configured ==> r == Err(DatabaseNotConfigured)
    ensures configured ==> (r.Err? <==> fields.Keys <= ReminderLocked)
    ensures r.Ok? ==> r.value == WithoutKeys(fields, ReminderLocked)
    ensures r.Ok? ==> r.value.Keys !! ReminderLocked && r.value != map[]
  {
    if !configured then Err(DatabaseNotConfigured)
    else
      var data := WithoutKeys(fields, ReminderLocked);
      if data == map[] then
        assert data.Keys == {};
        Err("No fields to update")
      else Ok(data)
  }

  /** Applying a row update: the new values win, everything else stays. */
  function Apply(row: Row, update: Row): (r: Row)
    ensures r.Keys == row.Keys + update.Keys
    ensures forall k :: k in update ==> r[k] == update[k]
    ensures forall k :: k in row && k !in update ==> r[k] == row[k]
  {
    row + update
  }

  /** `delete_reminder` is a soft delete: the update only clears
      `is_active`. */
  const SoftDelete: Row := map["is_active" := Bool(false)]

  /** A deleted reminder is inactive and otherwise unchanged. */
  lemma SoftDeleteKeepsRow(row: Row)
    ensures var d := Apply(row, SoftDelete);
      && d["is_active"] == Bool(false)
      && !Truthy(d["is_active"])
      && forall k :: k in row && k != "is_active" ==> d[k] == row[k]
  {
  }

  // ---------------------------------------------------------------------
  // adjust_reminder_for_weather

  /** Why an adjustment was made; the temperature and the conditions are
      shown to the user. */
  datatype AdjustReason = HotWeather(tempC: real) | RainForecast(conditions: string)

  /** Why no adjustment was made. */
  datatype Skip =
    | IndoorPlant | ReminderNotFound | NotWatering | AdjustmentDisabled | NoWeather
    | NoDatabase | Raised(error: string) | NothingNeeded

  datatype Adjustment =
    | NotAdjusted(why: Skip, seen: Option<Weather.Snapshot>)
    | Adjusted(newDue: int, reason: AdjustReason, weather: Weather.Snapshot)

  /** The outside calls, in order. */
  datatype Effect = FetchReminder | FetchWeather(city: string) | WriteRow(update: Row)

  const RainWords: seq<string> := ["rain", "drizzle", "shower", "thunderstorm"]

  predicate MentionsRain(conditions: string) {
    exists i :: 0 <= i < |RainWords| && Contains(conditions, RainWords[i])
  }

  /** The due date as stored; `None` when missing or not a date, where
      `date.fromisoformat` raises. */
  function DueDay(row: Row): Option<int> {
    if "next_due" in row && row["next_due"].Int? then Some(row["next_due"].i) else None
  }

  const AdjustFields: set<string> := {"weather_adjusted_due", "weather_adjustment_reason"}

  /** The update an adjustment writes. */
  function AdjustUpdate(newDue: int, reason: AdjustReason): (u: Row)
    ensures u.Keys == AdjustFields
  {
    map["weather_adjusted_due" := Int(newDue),
        "weather_adjustment_reason" := match reason
          case HotWeather(t) => Real(t)
          case RainForecast(c) => Str(c)]
  }

  function Max(a: int, b: int): int { if a < b then b else a }

  /** Whether the snapshot can be read without raising: its conditions are
      text, and a truthy temperature can be compared with a number. */
  predicate Readable(weather: Weather.Snapshot) {
    var temp := Get(weather, "temp_c", Null);
    Get(weather, "conditions", Str("")).Str? && (Truthy(temp) ==> Number(temp).Some?)
  }

  /** The temperature that counts as hot: truthy and at least 32 °C. */
  function HotTemp(weather: Weather.Snapshot): Option<real> {
    var temp := Get(weather, "temp_c", Null);
    if Truthy(temp) && Number(temp).Some? && Number(temp).value >= 32.0 then Number(temp) else None
  }

  /** The lower-cased conditions, `""` when absent. */
  function ConditionsOf(weather: Weather.Snapshot): string {
    var cond := Get(weather, "conditions", Str(""));
    if cond.Str? then Lower(cond.s) else ""
  }

  /** The decision once the guards passed: heat first (a truthy temperature
      of at least 32 °C advances the date by a day, never before today), then
      rain (postpones by two days). */
  function Decide(row: Row, weather: Weather.Snapshot, today: int): (r: Adjustment)
    ensures Readable(weather) && HotTemp(weather).Some? && DueDay(row).Some? ==>
      r == Adjusted(Max(DueDay(row).value - 1, today), HotWeather(HotTemp(weather).value), weather)
    ensures Readable(weather) && HotTemp(weather).None? && MentionsRain(ConditionsOf(weather)) && DueDay(row).Some? ==>
      r == Adjusted(DueDay(row).value + 2, RainForecast(ConditionsOf(weather)), weather)
    ensures Readable(weather) && HotTemp(weather).None? && !MentionsRain(ConditionsOf(weather)) ==>
      r == NotAdjusted(NothingNeeded, Some(weather))
    ensures !Readable(weather) ==> r.NotAdjusted? && r.why.Raised?
    ensures (HotTemp(weather).Some? || MentionsRain(ConditionsOf(weather))) && DueDay(row).None? ==>
      r.NotAdjusted? && r.why.Raised?
    ensures r.Adjusted? && r.reason.HotWeather? ==>
      DueDay(row).Some? && r.newDue == Max(DueDay(row).value - 1, today) && r.newDue >= today && r.reason.tempC >= 32.0
    ensures r.Adjusted? && r.reason.RainForecast? ==>
      DueDay(row).Some? && r.newDue == DueDay(row).value + 2 && MentionsRain(r.reason.conditions)
    ensures r.NotAdjusted? ==> r.why.Raised? || r.why.NothingNeeded?
    ensures r.NotAdjusted? && r.why.NothingNeeded? ==> r.seen == Some(weather)
  {
    var temp := Get(weather, "temp_c", Null);
    var cond := Get(weather, "conditions", Str(""));
    if !cond.Str? then NotAdjusted(Raised("AttributeError: no attribute 'lower'"), None)
    else
      var conditions := Lower(cond.s);
      if Truthy(temp) && Number(temp).None? then NotAdjusted(Raised("TypeError: '>=' not supported"), None)
      else if Truthy(temp) && Number(temp).value >= 32.0 then
        match DueDay(row)
        case None => NotAdjusted(Raised("invalid isoformat string"), None)
        case Some(due) => Adjusted(Max(due - 1, today), HotWeather(Number(temp).value), weather)
      else if MentionsRain(conditions) then
        match DueDay(row)
        case None => NotAdjusted(Raised("invalid isoformat string"), None)
        case Some(due) => Adjusted(due + 2, RainForecast(conditions), weather)
      else NotAdjusted(NothingNeeded, Some(weather))
  }

  /** `adjust_reminder_for_weather`. The guards run in the source's order:
      indoor location (before the reminder is even fetched), missing
      reminder, non-watering type, opted out, no weather, no database. An
      adjustment is written with the update whose reply is `write`; the
      reply's rows are ignored, but an update that raises turns the
      adjustment into a failure carrying the exception's text. */
  function AdjustForWeather(location: string, found: Option<Row>, city: string,
                            weatherOf: string -> Option<Weather.Snapshot>, configured: bool, today: int,
                            write: WriteReply)
    : (r: (Adjustment, seq<Effect>))
    ensures Contains(Lower(location), "indoor") ==> r == (NotAdjusted(IndoorPlant, None), [])
    ensures r.0.Adjusted? ==>
      && !Contains(Lower(location), "indoor")
      && found.Some? && found.value != map[] && Get(found.value, "reminder_type", Null) == Str("watering")
      && !Truthy(Get(found.value, "skip_weather_adjustment", Null))
      && configured && write.Stored?
      && weatherOf(city) == Some(r.0.weather) && r.0.weather != map[]
    ensures r.0.Adjusted? ==> r.1 == [FetchReminder, FetchWeather(city), WriteRow(AdjustUpdate(r.0.newDue, r.0.reason))]
    ensures r.0.NotAdjusted? && write.Stored? ==> forall e <- r.1 :: !e.WriteRow?
    ensures !Contains(Lower(location), "indoor") && (found.None? || found.value == map[]) ==>
      r == (NotAdjusted(ReminderNotFound, None), [FetchReminder])
    ensures !Contains(Lower(location), "indoor") && found.Some? && found.value != map[] ==>
      (Get(found.value, "reminder_type", Null) != Str("watering") ==> r == (NotAdjusted(NotWatering, None), [FetchReminder]))
    ensures !Contains(Lower(location), "indoor") && found.Some? && found.value != map[]
            && Get(found.value, "reminder_type", Null) == Str("watering") ==>
      var skip, w := Truthy(Get(found.value, "skip_weather_adjustment", Null)), weatherOf(city);
      && (skip ==> r == (NotAdjusted(AdjustmentDisabled, None), [FetchReminder]))
      && (!skip && (w.None? || w.value == map[]) ==> r == (NotAdjusted(NoWeather, None), [FetchReminder, FetchWeather(city)]))
      && (!skip && w.Some? && w.value != map[] && !configured ==>
            r == (NotAdjusted(NoDatabase, None), [FetchReminder, FetchWeather(city)]))
      && (!skip && w.Some? && w.value != map[] && configured ==>
            var d := Decide(found.value, w.value, today);
            && (d.NotAdjusted? || write.Stored? ==> r.0 == d)
            && (d.Adjusted? && write.WriteRaised? ==>
                  r == (NotAdjusted(Raised(write.message), None),
                        [FetchReminder, FetchWeather(city), WriteRow(AdjustUpdate(d.newDue, d.reason))])))
  {
    if Contains(Lower(location), "indoor") then (NotAdjusted(IndoorPlant, None), [])
    else if found.None? || found.value == map[] then (NotAdjusted(ReminderNotFound, None), [FetchReminder])
    else
        var row := found.value;
        if Get(row, "reminder_type", Null) != Str("watering") then (NotAdjusted(NotWatering, None), [FetchReminder])
        else if Truthy(Get(row, "skip_weather_adjustment", Null)) then (NotAdjusted(AdjustmentDisabled, None), [FetchReminder])
        else
          var w := weatherOf(city);
          var fetched := [FetchReminder, FetchWeather(city)];
          if w.None? || w.value == map[] then (NotAdjusted(NoWeather, None), fetched)
          else if !configured then (NotAdjusted(NoDatabase, None), fetched)
          else
            var d := Decide(row, w.value, today);
            if d.NotAdjusted? then (d, fetched)
            else
              var effects := [FetchReminder, FetchWeather(city), WriteRow(AdjustUpdate(d.newDue, d.reason))];
              if write.WriteRaised? then (NotAdjusted(Raised(write.message), None), effects)
              else (d, effects)
  }

  /** Heat wins over rain: a hot, rainy day advances the date. */
  lemma HeatBeatsRain(row: Row, weather: Weather.Snapshot, today: int, t: real, c: string)
    requires Get(weather, "temp_c", Null) == Real(t) && t >= 32.0
    requires Get(weather, "conditions", Str("")) == Str(c) && MentionsRain(Lower(c))
    requires DueDay(row).Some?
    ensures Decide(row, weather, today) == Adjusted(Max(DueDay(row).value - 1, today), HotWeather(t), weather)
  {
  }

  /** An adjustment never touches the stored schedule: `next_due` and every
      field other than the two adjustment fields keep their values. */
  lemma AdjustKeepsSchedule(row: Row, newDue: int, reason: AdjustReason)
    ensures var a := Apply(row, AdjustUpdate(newDue, reason));
      && a["weather_adjusted_due"] == Int(newDue)
      && forall k :: k in row && k !in AdjustFields ==> a[k] == row[k]
  {
  }

  // ---------------------------------------------------------------------
  // clear_weather_adjustment

  /** The update `clear_weather_adjustment` writes. */
  const ClearUpdate: Row := map["weather_adjusted_due" := Null, "weather_adjustment_reason" := Null]

  /** Clearing undoes any adjustment: adjusting then clearing is the same as
      clearing the original row. */
  lemma ClearUndoesAdjust(row: Row, newDue: int, reason: AdjustReason)
    ensures Apply(Apply(row, AdjustUpdate(newDue, reason)), ClearUpdate) == Apply(row, ClearUpdate)
  {
    var a := Apply(Apply(row, AdjustUpdate(newDue, reason)), ClearUpdate);
    var b := Apply(row, ClearUpdate);
    assert a.Keys == b.Keys;
    forall k | k in a ensures a[k] == b[k] {
    }
  }

  /** `clear_weather_adjustment`: success exactly when the update matched a
      row. */
  function ClearWeatherAdjustment(configured: bool, matched: bool): (r: (bool, Option<string>))
    ensures r.0 <==> configured && matched
    ensures r.0 <==> r.1.None?
  {
    if !configured then (false, Some(DatabaseNotConfigured))
    else if matched then (true, None)
    else (false, Some("Reminder not found"))
  }

  // ---------------------------------------------------------------------
  // batch_adjust_reminders_for_weather

  datatype BatchStats = BatchStats(totalChecked: nat, adjusted: nat, skipped: nat, errors: nat)

  /** Whether the batch even tries to adjust a reminder. */
  predicate Candidate(row: Row) {
    Get(row, "reminder_type", Null) == Str("watering") && !Truthy(Get(row, "skip_weather_adjustment", Null))
  }

  /** The joined plant's location (`reminder.get("plants", {}).get("location",
      "indoor_potted")`); `None` when the lookup or the later `.lower()`
      would raise. */
  function LocationOf(row: Row): Option<string> {
    var plant := Get(row, "plants", Obj(map[]));
    if !plant.Obj? then None
    else
      var loc := Get(plant.fields, "location", Str("indoor_potted"));
      if loc.Str? then Some(loc.s) else None
  }

  /** `batch_adjust_reminders_for_weather`. Each candidate is re-fetched by id
      (`fetch`), and its update answers with `writeOf` of that id; a
      candidate without an id, or whose location makes the source raise,
      aborts the whole batch, which the model reports as an error. */
  method BatchAdjust(rows: seq<Row>, city: string, fetch: Value -> Option<Row>, writeOf: Value -> WriteReply,
                     weatherOf: string -> Option<Weather.Snapshot>, configured: bool, today: int)
    returns (r: Result<BatchStats>)
    ensures r.Ok? ==> r.value.totalChecked == |rows|
    ensures r.Ok? ==> r.value.adjusted + r.value.skipped == |rows|
    ensures r.Ok? ==> r.value.errors == 0
    ensures r.Ok? ==> r.value.adjusted <= |CandidateRows(rows)|
    ensures r.Ok? ==> r.value.skipped >= |rows| - |CandidateRows(rows)|
    ensures r.Err? <==> exists row <- rows :: Aborts(row)
    ensures r.Ok? ==> r.value.adjusted == AdjustedCount(rows, city, fetch, writeOf, weatherOf, configured, today)
  {
    var total, adjusted, skipped := 0, 0, 0;
    for i := 0 to |rows|
      invariant total == i && adjusted + skipped == i
      invariant adjusted <= |CandidateRows(rows[..i])|
      invariant skipped >= i - |CandidateRows(rows[..i])|
      invariant NoneAborts(rows[..i])
      invariant adjusted == AdjustedCount(rows[..i], city, fetch, writeOf, weatherOf, configured, today)
    {
      var row := rows[i];
      BatchPrefixStep(rows, i, city, fetch, writeOf, weatherOf, configured, today);
      total := total + 1;
      match BatchStep(row, city, fetch, writeOf, weatherOf, configured, today)
      case Err(e) =>
        NoneAbortsMeans(rows);
        assert rows[i] in rows;
        return Err(e);
      case Ok(done) =>
        if done {
          adjusted := adjusted + 1;
        } else {
          skipped := skipped + 1;
        }
    }
    assert rows[..|rows|] == rows;
    NoneAbortsMeans(rows);
    return Ok(BatchStats(total, adjusted, skipped, 0));
  }

  /** One more reminder of the batch: the candidates and the adjusted count
      grow by that reminder's share. */
  lemma BatchPrefixStep(rows: seq<Row>, i: nat, city: string, fetch: Value -> Option<Row>, writeOf: Value -> WriteReply,
                        weatherOf: string -> Option<Weather.Snapshot>, configured: bool, today: int)
    requires i < |rows|
    ensures CandidateRows(rows[..i + 1]) == CandidateRows(rows[..i]) + (if Candidate(rows[i]) then [rows[i]] else [])
    ensures AdjustedCount(rows[..i + 1], city, fetch, writeOf, weatherOf, configured, today)
         == AdjustedCount(rows[..i], city, fetch, writeOf, weatherOf, configured, today)
            + (if BatchStep(rows[i], city, fetch, writeOf, weatherOf, configured, today) == Ok(true) then 1 else 0)
    ensures NoneAborts(rows[..i + 1]) == (NoneAborts(rows[..i]) && !Aborts(rows[i]))
  {
    assert rows[..i + 1] == rows[..i] + [rows[i]];
    assert rows[..i + 1][..i] == rows[..i];
    CandidateRowsAppend(rows[..i], rows[i]);
  }

  /** A candidate that ends the batch: its location lookup raises, or it has
      no id to re-fetch it by. */
  predicate Aborts(row: Row) {
    Candidate(row) && (LocationOf(row).None? || "id" !in row)
  }

  /** No reminder of `rows` ends the batch. */
  predicate NoneAborts(rows: seq<Row>) {
    |rows| == 0 || (NoneAborts(rows[..|rows| - 1]) && !Aborts(rows[|rows| - 1]))
  }

  lemma {:induction false} NoneAbortsMeans(rows: seq<Row>)
    ensures NoneAborts(rows) <==> forall row <- rows :: !Aborts(row)
  {
    if |rows| > 0 {
      NoneAbortsMeans(rows[..|rows| - 1]);
      assert rows == rows[..|rows| - 1] + [rows[|rows| - 1]];
    }
  }

  /** The reference count of adjusted reminders: those whose own step made
      an adjustment. */
  function AdjustedCount(rows: seq<Row>, city: string, fetch: Value -> Option<Row>, writeOf: Value -> WriteReply,
                         weatherOf: string -> Option<Weather.Snapshot>, configured: bool, today: int): (n: nat)
    ensures n <= |CandidateRows(rows)|
  {
    if |rows| == 0 then 0
    else AdjustedCount(rows[..|rows| - 1], city, fetch, writeOf, weatherOf, configured, today)
         + (if BatchStep(rows[|rows| - 1], city, fetch, writeOf, weatherOf, configured, today) == Ok(true) then 1 else 0)
  }

  /** One reminder of the batch: skipped unless it is a candidate; otherwise
      whether the adjustment was made, or the error that ends the batch. */
  function BatchStep(row: Row, city: string, fetch: Value -> Option<Row>, writeOf: Value -> WriteReply,
                     weatherOf: string -> Option<Weather.Snapshot>, configured: bool, today: int): (r: Result<bool>)
    ensures !Candidate(row) ==> r == Ok(false)
    ensures r == Ok(true) ==> Candidate(row)
    ensures r == Ok(true) ==> "id" in row && writeOf(row["id"]).Stored?
    ensures r.Err? <==> Aborts(row)
  {
    if !Candidate(row) then Ok(false)
    else match LocationOf(row)
      case None => Err("AttributeError: no attribute 'lower'")
      case Some(loc) =>
        if "id" !in row then Err("KeyError: 'id'")
        else Ok(AdjustForWeather(loc, fetch(row["id"]), city, weatherOf, configured, today, writeOf(row["id"])).0.Adjusted?)
  }

  function CandidateRows(rows: seq<Row>): (c: seq<Row>)
    ensures |c| <= |rows|
  {
    if |rows| == 0 then [] else CandidateRows(rows[..|rows| - 1]) + (if Candidate(rows[|rows| - 1]) then [rows[|rows| - 1]] else [])
  }

  lemma CandidateRowsAppend(rows: seq<Row>, row: Row)
    ensures CandidateRows(rows + [row]) == CandidateRows(rows) + (if Candidate(row) then [row] else [])
  {
    assert (rows + [row])[..|rows|] == rows;
  }
}
