/** The reminder pages (app/routes/reminders.py): form validation for
    creating and editing, the archived-history listing, bulk completion, the
    snooze form's day count and the JSON completion endpoint's id check. The
    service calls are oracles or go through the `Reminders` model. */
module ReminderRoutes {
  import opened Common
  import opened Text
  import Reminders
  import Sorting

  /** A submitted form: field name to text. */
  type Form = map<string, string>

  function FormGet(form: Form, name: string, default: string): string {
    if name in form then form[name] else default
  }

  function FormGetOpt(form: Form, name: string): Option<string> {
    if name in form then Some(form[name]) else None
  }

  // ---------------------------------------------------------------------
  // create and edit

  const InvalidInterval: string := "Invalid custom interval days."
  const IntervalOutOfRange: string := "Custom interval must be between 1 and 365 days."

  /** The custom interval as the create and edit forms read it: for
      "custom" it must parse as an integer between 1 and 365; for any other
      frequency it is dropped. */
  function CustomInterval(frequency: string, raw: Option<string>): (r: Result<Option<int>>)
    ensures frequency != "custom" ==> r == Ok(None)
    ensures frequency == "custom" && r.Ok? ==>
      raw.Some? && ParseInt(raw.value).Some? && r.value == ParseInt(raw.value) && 1 <= ParseInt(raw.value).value <= 365
    ensures frequency == "custom" ==>
      (r.Err? <==> raw.None? || ParseInt(raw.value).None? || !(1 <= ParseInt(raw.value).value <= 365))
  {
    if frequency != "custom" then Ok(None)
    else if raw.None? then Err(InvalidInterval)
    else match ParseInt(raw.value)
      case None => Err(InvalidInterval)
      case Some(n) => if n < 1 || n > 365 then Err(IntervalOutOfRange) else Ok(Some(n))
  }

  /** Every interval in range, written as a number, is accepted as is. */
  lemma CustomIntervalAcceptsRange(n: int)
    requires 1 <= n <= 365
    ensures CustomInterval("custom", Some(IntToString(n))) == Ok(Some(n))
  {
    ParseIntToString(n);
  }

  /** What the create form passes on to the service. */
  datatype CreateRequest = CreateRequest(
    plantId: string, reminderType: string, title: string, frequency: string,
    customIntervalDays: Option<int>, notes: Option<string>, skipWeather: bool)

  /** `notes or None`. */
  function OrNone(s: string): Option<string> {
    if s == "" then None else Some(s)
  }

  /** The create form's checks, in order: a plant, then a title, then the
      custom interval. */
  function ValidateCreate(form: Form): (r: Result<CreateRequest>)
    ensures Strip(FormGet(form, "plant_id", "")) == "" ==> r == Err("Please select a plant.")
    ensures Strip(FormGet(form, "plant_id", "")) != "" && Strip(FormGet(form, "title", "")) == "" ==>
      r == Err("Reminder title is required.")
    ensures r.Ok? <==>
      && Strip(FormGet(form, "plant_id", "")) != ""
      && Strip(FormGet(form, "title", "")) != ""
      && CustomInterval(FormGet(form, "frequency", "weekly"), FormGetOpt(form, "custom_interval_days")).Ok?
    ensures r.Ok? ==>
      && r.value.plantId == Strip(FormGet(form, "plant_id", "")) != ""
      && r.value.title == Strip(FormGet(form, "title", "")) != ""
      && r.value.frequency == FormGet(form, "frequency", "weekly")
      && r.value.reminderType == FormGet(form, "reminder_type", "watering")
      && (r.value.frequency == "custom" <==> r.value.customIntervalDays.Some?)
      && (r.value.customIntervalDays.Some? ==> 1 <= r.value.customIntervalDays.value <= 365)
      && (r.value.skipWeather <==> FormGetOpt(form, "skip_weather_adjustment") == Some("on"))
  {
    var plantId := Strip(FormGet(form, "plant_id", ""));
    var title := Strip(FormGet(form, "title", ""));
    var frequency := FormGet(form, "frequency", "weekly");
    if plantId == "" then Err("Please select a plant.")
    else if title == "" then Err("Reminder title is required.")
    else match CustomInterval(frequency, FormGetOpt(form, "custom_interval_days"))
      case Err(e) => Err(e)
      case Ok(days) =>
        Ok(CreateRequest(plantId, FormGet(form, "reminder_type", "watering"), title, frequency, days,
                         OrNone(Strip(FormGet(form, "notes", ""))),
                         FormGetOpt(form, "skip_weather_adjustment") == Some("on")))
  }

  /** A form the route accepts is refused by the service only for an unknown
      frequency (or a missing database): the route's interval check is
      stricter than the service's. */
  lemma ValidatedCreateReachesService(form: Form, today: int)
    requires ValidateCreate(form).Ok?
    ensures var q := ValidateCreate(form).value;
      Reminders.ReminderPayload(true, q.plantId, q.reminderType, q.title, q.frequency, q.customIntervalDays,
                               q.notes, q.skipWeather, today).Ok?
      <==> q.frequency in Reminders.FrequencyDays || q.frequency == "custom"
  {
  }

  /** The edit form's checks, in order: a title, then the custom interval.
      The result is the update handed to `update_reminder`. */
  function ValidateEdit(form: Form): (r: Result<Reminders.Row>)
    ensures Strip(FormGet(form, "title", "")) == "" ==> r == Err("Reminder title is required.")
    ensures r.Ok? <==>
      Strip(FormGet(form, "title", "")) != ""
      && CustomInterval(FormGet(form, "frequency", "weekly"), FormGetOpt(form, "custom_interval_days")).Ok?
    ensures r.Ok? ==> r.value.Keys == EditFields
    ensures r.Ok? ==> r.value["title"] == Str(Strip(FormGet(form, "title", "")))
  {
    var title := Strip(FormGet(form, "title", ""));
    var frequency := FormGet(form, "frequency", "weekly");
    if title == "" then Err("Reminder title is required.")
    else match CustomInterval(frequency, FormGetOpt(form, "custom_interval_days"))
      case Err(e) => Err(e)
      case Ok(days) =>
        var notes := Strip(FormGet(form, "notes", ""));
        Ok(EditUpdate(title, frequency, days, notes, FormGetOpt(form, "skip_weather_adjustment") == Some("on")))
  }

  const EditFields: set<string> := {"title", "frequency", "custom_interval_days", "notes", "skip_weather_adjustment"}

  /** The keyword arguments the edit route passes to `update_reminder`. */
  function EditUpdate(title: string, frequency: string, days: Option<int>, notes: string, skip: bool): (u: Reminders.Row)
    ensures u.Keys == EditFields
    ensures u["title"] == Str(title)
  {
    map[
      "title" := Str(title),
      "frequency" := Str(frequency),
      "custom_interval_days" := if days.Some? then Int(days.value) else Null,
      "notes" := if notes == "" then Null else Str(notes),
      "skip_weather_adjustment" := Bool(skip)]
  }

  lemma EditFieldsUnlocked()
    ensures EditFields !! Reminders.ReminderLocked
  {
  }

  /** An accepted edit always reaches the database whole: none of its fields
      is one the service strips. */
  lemma ValidatedEditIsUpdatable(form: Form)
    requires ValidateEdit(form).Ok?
    ensures Reminders.ReminderUpdate(true, ValidateEdit(form).value) == Ok(ValidateEdit(form).value)
  {
    var u := ValidateEdit(form).value;
    EditFieldsUnlocked();
    assert WithoutKeys(u, Reminders.ReminderLocked) == u;
  }

  // ---------------------------------------------------------------------
  // history

  /** Archived means `is_active` is falsy, a missing flag counting as
      active. */
  predicate Archived(row: Reminders.Row) {
    !Truthy(Get(row, "is_active", Bool(true)))
  }

  function ArchivedRows(rows: seq<Reminders.Row>): (r: seq<Reminders.Row>)
    ensures |r| <= |rows|
    ensures forall x <- r :: Archived(x)
    ensures forall x <- rows :: Archived(x) ==> x in r
  {
    if |rows| == 0 then []
    else (if Archived(rows[0]) then [rows[0]] else []) + ArchivedRows(rows[1..])
  }

  /** `r.get("last_completed_at") or r.get("updated_at") or ""`. */
  function CompletionKey(row: Reminders.Row): Value {
    var done := Get(row, "last_completed_at", Null);
    var updated := Get(row, "updated_at", Null);
    if Truthy(done) then done else if Truthy(updated) then updated else Str("")
  }

  function KeyText(row: Reminders.Row): string {
    var k := CompletionKey(row);
    if k.Str? then k.s else ""
  }

  /** `history`: the archived reminders, most recently completed first,
      ties in their listed order. Timestamps are ISO text, so comparing the
      strings orders them in time; a key that is not text cannot be compared
      with one that is, and the page fails. */
  function History(rows: seq<Reminders.Row>): (r: Result<seq<Reminders.Row>>)
    ensures r.Err? <==> |ArchivedRows(rows)| >= 2 && exists x <- ArchivedRows(rows) :: !CompletionKey(x).Str?
    ensures r.Ok? ==> multiset(r.value) == multiset(ArchivedRows(rows))
    ensures r.Ok? ==> forall i, j :: 0 <= i < j < |r.value| ==> !Sorting.LexLess(KeyText(r.value[i]), KeyText(r.value[j]))
  {
    var kept := ArchivedRows(rows);
    if |kept| >= 2 && exists x <- kept :: !CompletionKey(x).Str? then Err("TypeError: '<' not supported")
    else
      Sorting.DescendingIsOrder();
      var sorted := Sorting.SortBy(kept, KeyText, Sorting.Descending());
      Ok(sorted)
  }

  /** Reminders completed at the same moment keep their listed order. */
  lemma HistoryStable(rows: seq<Reminders.Row>, t: string)
    requires History(rows).Ok?
    ensures Sorting.WithKey(History(rows).value, KeyText, t) == Sorting.WithKey(ArchivedRows(rows), KeyText, t)
  {
    Sorting.DescendingIsOrder();
    Sorting.SortByStable(ArchivedRows(rows), KeyText, Sorting.Descending(), t);
  }

  // ---------------------------------------------------------------------
  // bulk completion

  /** One failed completion, as the error flash lists it. */
  datatype Failure = Failure(title: Value, error: Option<string>)

  /** The flashes `bulk_complete` shows; the texts themselves are not
      modelled. */
  datatype Flash = MarkedComplete(count: nat, plural: bool) | SomeFailed(shown: seq<Failure>)

  datatype BulkResult = BulkResult(completed: nat, failures: seq<Failure>, flashes: seq<Flash>, calls: seq<Value>)

  /** The reference count: how many due reminders the service completes. */
  function Completions(ids: seq<Value>, complete: Value -> (bool, Option<string>)): (n: nat)
    ensures n <= |ids|
  {
    if |ids| == 0 then 0 else (if complete(ids[0]).0 then 1 else 0) + Completions(ids[1..], complete)
  }

  function Ids(rows: seq<Reminders.Row>): (ids: seq<Value>)
    requires forall x <- rows :: "id" in x
    ensures |ids| == |rows| && forall i :: 0 <= i < |rows| ==> ids[i] == rows[i]["id"]
  {
    if |rows| == 0 then [] else [rows[0]["id"]] + Ids(rows[1..])
  }

  lemma CompletionsAppend(ids: seq<Value>, id: Value, complete: Value -> (bool, Option<string>))
    ensures Completions(ids + [id], complete) == Completions(ids, complete) + (if complete(id).0 then 1 else 0)
  {
    if |ids| > 0 {
      assert (ids + [id])[1..] == ids[1..] + [id];
      CompletionsAppend(ids[1..], id, complete);
    }
  }

  /** The flashes for a run: a success count when anything completed (plural
      unless exactly one), then at most the first three failures. */
  function BulkFlashes(completed: nat, failures: seq<Failure>): (f: seq<Flash>)
    ensures |f| == (if completed > 0 then 1 else 0) + (if |failures| > 0 then 1 else 0)
    ensures completed > 0 ==> f[0].MarkedComplete? && f[0].count == completed && (f[0].plural <==> completed != 1)
    ensures |failures| > 0 ==>
      var last := f[|f| - 1];
      last.SomeFailed? && last.shown <= failures && |last.shown| == (if |failures| < 3 then |failures| else 3)
  {
    var shown := failures[..if |failures| < 3 then |failures| else 3];
    (if completed > 0 then [MarkedComplete(completed, completed != 1)] else [])
    + (if |failures| > 0 then [SomeFailed(shown)] else [])
  }

  /** Whether a run gets through every due reminder: each has an id, and each
      one the service fails to complete has a title for the error list. */
  predicate Completable(due: seq<Reminders.Row>, complete: Value -> (bool, Option<string>)) {
    forall x <- due :: "id" in x && (!complete(x["id"]).0 ==> "title" in x)
  }

  /** The reference failure list: the title and error of every reminder the
      service fails to complete, in the order tried. */
  function Failures(due: seq<Reminders.Row>, complete: Value -> (bool, Option<string>)): seq<Failure>
    requires Completable(due, complete)
    decreases |due|
  {
    if |due| == 0 then []
    else
      var last := due[|due| - 1];
      assert last in due;
      assert forall x <- due[..|due| - 1] :: x in due;
      Failures(due[..|due| - 1], complete)
      + (if complete(last["id"]).0 then [] else [Failure(last["title"], complete(last["id"]).1)])
  }

  /** One more reminder gets through: the id list grows by its id and the
      failure list by its entry. */
  lemma FailuresStep(due: seq<Reminders.Row>, i: nat, complete: Value -> (bool, Option<string>))
    requires i < |due| && Completable(due[..i], complete)
    requires "id" in due[i] && (!complete(due[i]["id"]).0 ==> "title" in due[i])
    ensures Completable(due[..i + 1], complete)
    ensures Failures(due[..i + 1], complete) == Failures(due[..i], complete)
      + (if complete(due[i]["id"]).0 then [] else [Failure(due[i]["title"], complete(due[i]["id"]).1)])
    ensures Ids(due[..i + 1]) == Ids(due[..i]) + [due[i]["id"]]
  {
    assert due[..i + 1] == due[..i] + [due[i]];
    assert due[..i + 1][..i] == due[..i];
  }

  /** `bulk_complete`: tries every due reminder once, in order; a reminder
      without an id, or a failed one without a title, makes the source raise,
      which the model reports as an error. */
  method BulkComplete(due: seq<Reminders.Row>, complete: Value -> (bool, Option<string>)) returns (r: Result<BulkResult>)
    ensures r.Ok? <==> Completable(due, complete)
    ensures r.Ok? ==> r.value.completed + |r.value.failures| == |due|
    ensures r.Ok? ==> r.value.calls == Ids(due)
    ensures r.Ok? ==> r.value.completed == Completions(Ids(due), complete)
    ensures r.Ok? ==> r.value.failures == Failures(due, complete)
    ensures r.Ok? ==> r.value.flashes == BulkFlashes(r.value.completed, r.value.failures)
  {
    var completed: nat := 0;
    var failures: seq<Failure> := [];
    var calls: seq<Value> := [];
    var i := 0;
    while i < |due|
      invariant 0 <= i <= |due|
      invariant Completable(due[..i], complete)
      invariant completed + |failures| == i
      invariant calls == Ids(due[..i])
      invariant completed == Completions(calls, complete)
      invariant failures == Failures(due[..i], complete)
    {
      var row := due[i];
      if "id" !in row {
        assert row in due;
        return Err("KeyError: 'id'");
      }
      CompletionsAppend(calls, row["id"], complete);
      var (ok, error) := complete(row["id"]);
      calls := calls + [row["id"]];
      if ok {
        completed := completed + 1;
      } else {
        if "title" !in row {
          assert row in due;
          return Err("KeyError: 'title'");
        }
        failures := failures + [Failure(row["title"], error)];
      }
      FailuresStep(due, i, complete);
      i := i + 1;
    }
    assert due[..|due|] == due;
    return Ok(BulkResult(completed, failures, BulkFlashes(completed, failures), calls));
  }

  // ---------------------------------------------------------------------
  // snooze

  /** The snooze form's day count: 1 when the field is missing or not an
      integer. The range is checked by the service. */
  function SnoozeDays(raw: Option<string>): (days: int)
    ensures raw.None? ==> days == 1
    ensures raw.Some? && ParseInt(raw.value).None? ==> days == 1
    ensures raw.Some? && ParseInt(raw.value).Some? ==> days == ParseInt(raw.value).value
  {
    if raw.None? then 1
    else match ParseInt(raw.value)
      case None => 1
      case Some(n) => n
  }

  /** Every number the service accepts can be entered as itself, and the
      fallback of one day is always accepted. */
  lemma SnoozeDaysRoundTrip(n: int)
    ensures SnoozeDays(Some(IntToString(n))) == n
    ensures SnoozeDays(None) == 1
  {
    ParseIntToString(n);
  }

  // ---------------------------------------------------------------------
  // the JSON completion endpoint

  predicate HexDigit(c: char) {
    IsDigit(c) || 'a' <= c <= 'f' || 'A' <= c <= 'F'
  }

  /** 8-4-4-4-12 hexadecimal digits, case-insensitive. */
  predicate UuidShape(s: string) {
    && |s| == 36
    && forall i :: 0 <= i < 36 ==> (if i in {8, 13, 18, 23} then s[i] == '-' else HexDigit(s[i]))
  }

  /** `re.match(r'^…$', id, re.IGNORECASE)`: `$` also matches before one
      final newline, so an id followed by "\n" passes. */
  predicate IsUuid(s: string) {
    UuidShape(s) || (|s| == 37 && s[36] == '\n' && UuidShape(s[..36]))
  }

  /** The check accepts exactly the well-shaped ids and those ids with one
      trailing newline; a second newline is refused. */
  lemma UuidNewlineQuirk(s: string)
    requires UuidShape(s)
    ensures IsUuid(s) && IsUuid(s + "\n") && !IsUuid(s + "\n\n")
  {
    assert (s + "\n")[..36] == s;
  }

  /** Upper-casing an id does not change whether it passes. */
  lemma UuidIgnoresCase(s: string)
    ensures UuidShape(Upper(s)) <==> UuidShape(s)
  {
    if |s| == 36 {
      forall i | 0 <= i < 36 ensures HexDigit(Upper(s)[i]) <==> HexDigit(s[i]) {
      }
    }
  }

  datatype ApiReply = ApiReply(status: int, success: bool, error: Option<string>)

  /** `api_complete`: a malformed id is refused with 400 before the service
      is called; otherwise the service's verdict is reported, with a generic
      message when it gives none. */
  function ApiComplete(id: string, complete: string -> (bool, Option<string>)): (r: (ApiReply, seq<string>))
    ensures !IsUuid(id) ==> r == (ApiReply(400, false, Some("Invalid reminder ID")), [])
    ensures IsUuid(id) ==> r.1 == [id]
    ensures r.0.success <==> IsUuid(id) && complete(id).0
    ensures r.0.status == 200 <==> r.0.success
    ensures !r.0.success ==> r.0.status == 400 && r.0.error.Some? && r.0.error.value != ""
  {
    if !IsUuid(id) then (ApiReply(400, false, Some("Invalid reminder ID")), [])
    else
      var (ok, error) := complete(id);
      if ok then (ApiReply(200, true, None), [id])
      else
        var message := if error.Some? && error.value != "" then error.value else "Failed to complete reminder";
        (ApiReply(400, false, Some(message)), [id])
  }
}
