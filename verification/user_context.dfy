/** The context assembled for the assistant (app/services/user_context.py):
    due reminders split into overdue and due today, the next upcoming ones,
    recent activity, per-plant statistics and the plant and reminder
    summaries. Database reads are parameters; dates are day numbers and
    timestamps are seconds. */
module UserContext {
  import opened Common
  import Sorting
  import Reminders

  type Row = map<string, Value>

  /** A date or timestamp column once parsed: missing when falsy, a number
      when it holds one (a parsed date is always truthy in Python, so every
      `Int` counts as present), and a parse error for anything else. */
  function WhenOf(r: Row, column: string): (w: Result<Option<int>>)
    ensures w == Ok(None) <==> !Get(r, column, Null).Int? && !Truthy(Get(r, column, Null))
    ensures w.Ok? && w.value.Some? <==> Get(r, column, Null).Int?
    ensures w.Ok? && w.value.Some? ==> Get(r, column, Null) == Int(w.value.value)
  {
    match Get(r, column, Null)
    case Int(d) => Ok(Some(d))
    case v => if Truthy(v) then Err("ValueError") else Ok(None)
  }

  function First<T>(s: seq<T>, n: nat): (r: seq<T>)
    ensures |r| == if |s| < n then |s| else n
    ensures forall i :: 0 <= i < |r| ==> r[i] == s[i]
  {
    if |s| < n then s else s[..n]
  }

  // ---------------------------------------------------------------------
  // Reminder summaries

  /** `_format_reminder_context`, plus the days until the reminder is due
      that the upcoming list adds. */
  datatype ReminderContext = ReminderContext(plantName: Value, kind: Value, title: Value,
                                             weatherAdjusted: bool, daysUntil: Option<int>)

  function FormatReminder(r: Row): (c: ReminderContext)
    ensures c.weatherAdjusted <==> Truthy(Get(r, "weather_adjustment_reason", Null))
    ensures c.daysUntil.None?
  {
    ReminderContext(Get(r, "plant_name", Null), Get(r, "reminder_type", Null), Get(r, "title", Null),
                    Truthy(Get(r, "weather_adjustment_reason", Null)), None)
  }

  /** A reminder the weather moved shows as adjusted. */
  lemma AdjustedShowsAsAdjusted(row: Row, newDue: int, reason: Reminders.AdjustReason)
    requires reason.HotWeather? ==> reason.tempC >= 32.0
    requires reason.RainForecast? ==> reason.conditions != ""
    ensures FormatReminder(Reminders.Apply(row, Reminders.AdjustUpdate(newDue, reason))).weatherAdjusted
  {
  }

  /** A cleared adjustment no longer shows. */
  lemma ClearedShowsAsUnadjusted(row: Row)
    ensures !FormatReminder(Reminders.Apply(row, Reminders.ClearUpdate)).weatherAdjusted
  {
  }

  function FormatAll(rows: seq<Row>): (cs: seq<ReminderContext>)
    ensures |cs| == |rows| && forall i :: 0 <= i < |cs| ==> cs[i] == FormatReminder(rows[i])
  {
    seq(|rows|, i requires 0 <= i < |rows| => FormatReminder(rows[i]))
  }

  lemma FormatAllSnoc(rows: seq<Row>, r: Row)
    ensures FormatAll(rows + [r]) == FormatAll(rows) + [FormatReminder(r)]
  {
  }

  // ---------------------------------------------------------------------
  // The due partition

  datatype Slot = Overdue | DueToday

  /** Which list a due reminder joins: overdue when its effective due date
      is before today, due today otherwise, also when it has no date. */
  function SlotOf(r: Row, today: int): (s: Result<Slot>)
    ensures s.Err? <==> WhenOf(r, "effective_due_date").Err?
    ensures s == Ok(Overdue) <==> WhenOf(r, "effective_due_date").Ok? && WhenOf(r, "effective_due_date").value.Some?
                                  && WhenOf(r, "effective_due_date").value.value < today
  {
    match WhenOf(r, "effective_due_date")
    case Err(e) => Err(e)
    case Ok(None) => Ok(DueToday)
    case Ok(Some(d)) => Ok(if d < today then Overdue else DueToday)
  }

  /** The reminders of `s` that join list `slot`, in order. */
  function Select(s: seq<Row>, today: int, slot: Slot): (r: seq<Row>)
    ensures |r| <= |s|
  {
    if |s| == 0 then []
    else Select(s[..|s| - 1], today, slot) + (if SlotOf(s[|s| - 1], today) == Ok(slot) then [s[|s| - 1]] else [])
  }

  lemma SelectSnoc(s: seq<Row>, r: Row, today: int, slot: Slot)
    ensures Select(s + [r], today, slot) == Select(s, today, slot) + (if SlotOf(r, today) == Ok(slot) then [r] else [])
  {
    assert (s + [r])[..|s|] == s;
  }

  /** One step of the partition: the formatted list for `slot` grows by
      the next reminder exactly when that reminder joins `slot`. */
  lemma PartitionStep(due: seq<Row>, i: nat, today: int, slot: Slot)
    requires i < |due|
    ensures FormatAll(Select(due[..i + 1], today, slot))
         == FormatAll(Select(due[..i], today, slot)) + (if SlotOf(due[i], today) == Ok(slot) then [FormatReminder(due[i])] else [])
  {
    assert due[..i + 1] == due[..i] + [due[i]];
    SelectSnoc(due[..i], due[i], today, slot);
    if SlotOf(due[i], today) == Ok(slot) {
      FormatAllSnoc(Select(due[..i], today, slot), due[i]);
    }
  }

  /** Every due reminder lands in exactly one of the two lists. */
  lemma {:induction false} PartitionIsExact(s: seq<Row>, today: int)
    requires forall i :: 0 <= i < |s| ==> SlotOf(s[i], today).Ok?
    ensures |Select(s, today, Overdue)| + |Select(s, today, DueToday)| == |s|
  {
    if |s| > 0 {
      PartitionIsExact(s[..|s| - 1], today);
      assert SlotOf(s[|s| - 1], today).Ok?;
    }
  }

  /** The loop over the due reminders: the formatted overdue and due-today
      lists, or the parse error of the first bad date. */
  method Partition(due: seq<Row>, today: int) returns (r: Result<(seq<ReminderContext>, seq<ReminderContext>)>)
    ensures r.Ok? <==> forall i :: 0 <= i < |due| ==> SlotOf(due[i], today).Ok?
    ensures r.Ok? ==> r.value.0 == FormatAll(Select(due, today, Overdue))
    ensures r.Ok? ==> r.value.1 == FormatAll(Select(due, today, DueToday))
    ensures r.Ok? ==> |r.value.0| + |r.value.1| == |due|
  {
    var overdue: seq<ReminderContext> := [];
    var dueToday: seq<ReminderContext> := [];
    for i := 0 to |due|
      invariant forall j :: 0 <= j < i ==> SlotOf(due[j], today).Ok?
      invariant overdue == FormatAll(Select(due[..i], today, Overdue))
      invariant dueToday == FormatAll(Select(due[..i], today, DueToday))
    {
      PartitionStep(due, i, today, Overdue);
      PartitionStep(due, i, today, DueToday);
      match SlotOf(due[i], today)
      case Err(e) =>
        return Err(e);
      case Ok(Overdue) =>
        overdue := overdue + [FormatReminder(due[i])];
      case Ok(DueToday) =>
        dueToday := dueToday + [FormatReminder(due[i])];
    }
    assert due[..|due|] == due;
    PartitionIsExact(due, today);
    return Ok((overdue, dueToday));
  }

  // ---------------------------------------------------------------------
  // Upcoming reminders

  const UpcomingLimit: nat := 10

  /** One upcoming reminder with the days until its effective due date, when
      it has one. */
  function WithDaysUntil(r: Row, today: int): (c: Result<ReminderContext>)
    ensures c.Err? <==> WhenOf(r, "effective_due_date").Err?
    ensures c.Ok? ==> c.value.weatherAdjusted == FormatReminder(r).weatherAdjusted
    ensures c.Ok? && WhenOf(r, "effective_due_date").value.Some? ==>
      c.value.daysUntil == Some(WhenOf(r, "effective_due_date").value.value - today)
    ensures c.Ok? && WhenOf(r, "effective_due_date").value.None? ==> c.value.daysUntil.None?
  {
    match WhenOf(r, "effective_due_date")
    case Err(e) => Err(e)
    case Ok(None) => Ok(FormatReminder(r))
    case Ok(Some(d)) => Ok(FormatReminder(r).(daysUntil := Some(d - today)))
  }

  function UpcomingAll(rows: seq<Row>, today: int): (r: Result<seq<ReminderContext>>)
    ensures r.Ok? <==> forall i :: 0 <= i < |rows| ==> WithDaysUntil(rows[i], today).Ok?
    ensures r.Ok? ==> |r.value| == |rows|
    ensures r.Ok? ==> forall i :: 0 <= i < |rows| ==> r.value[i] == WithDaysUntil(rows[i], today).value
  {
    if |rows| == 0 then Ok([])
    else match WithDaysUntil(rows[0], today)
      case Err(e) => Err(e)
      case Ok(c) =>
        match UpcomingAll(rows[1..], today)
        case Err(e) =>
          assert !WithDaysUntil(rows[1..][0], today).Ok? || exists i :: 0 <= i < |rows[1..]| && !WithDaysUntil(rows[1..][i], today).Ok?;
          Err(e)
        case Ok(cs) => Ok([c] + cs)
  }

  /** The upcoming week: only the first ten reminders are formatted, so a bad
      date after them goes unnoticed. */
  function Upcoming(rows: seq<Row>, today: int): (r: Result<seq<ReminderContext>>)
    ensures r.Ok? <==> forall i :: 0 <= i < |rows| && i < UpcomingLimit ==> WithDaysUntil(rows[i], today).Ok?
    ensures r.Ok? ==> |r.value| <= UpcomingLimit && |r.value| == |First(rows, UpcomingLimit)|
    ensures r.Ok? ==> forall i :: 0 <= i < |r.value| ==> r.value[i] == WithDaysUntil(rows[i], today).value
  {
    UpcomingAll(First(rows, UpcomingLimit), today)
  }

  // ---------------------------------------------------------------------
  // Recent activity

  datatype Activity = Activity(plantName: Value, actionType: Value, daysAgo: int, notes: Value)

  function DaysAgo(a: Activity): int { a.daysAgo }

  const RecentLimit: nat := 10

  /** A parsed `action_at`: the instant in seconds, and whether its text
      carried a UTC offset. The database writes every time with one ("Z",
      which the source turns into "+00:00"). */
  datatype Stamp = Stamp(seconds: int, aware: bool)

  const NaiveAwareError: string := "TypeError: can't compare offset-naive and offset-aware datetimes"

  /** The window test as the source writes it: the cutoff comes from the
      naive `datetime.now()`, and Python refuses to order a naive time
      against an offset-aware one. */
  function WindowTestAsWritten(s: Stamp, now: int, days: int): (r: Result<bool>)
    ensures r.Err? <==> s.aware
    ensures r.Ok? ==> (r.value <==> now - s.seconds <= days * SecondsPerDay)
  {
    if s.aware then Err(NaiveAwareError) else Ok(s.seconds >= now - days * SecondsPerDay)
  }

  /** As written, every stored time makes the summary raise, whatever the
      window. */
  lemma StoredTimeRaises(seconds: int, now: int, days: int)
    ensures WindowTestAsWritten(Stamp(seconds, true), now, days) == Err(NaiveAwareError)
  {
  }

  /** The window test as intended: both times on one clock. It never
      raises, agrees with the source wherever the source does not raise, and
      keeps only times at most `days` whole days old. */
  function WindowTest(s: Stamp, now: int, days: int): (r: bool)
    ensures !s.aware ==> WindowTestAsWritten(s, now, days) == Ok(r)
    ensures r ==> WholeDays(now - s.seconds) <= days
    ensures now - s.seconds <= days * SecondsPerDay ==> r
  {
    WholeDaysBounds(now - s.seconds);
    s.seconds >= now - days * SecondsPerDay
  }

  /** Whether an activity row has a time within the last `days` days of
      `now` (rows without a time never are). */
  predicate Kept(row: Row, now: int, days: int) {
    var w := WhenOf(row, "action_at");
    w.Ok? && w.value.Some? && WindowTest(Stamp(w.value.value, true), now, days)
  }

  /** The summary entry of a kept row: its plant name ("Unknown" when
      absent), type, notes, and the whole days since its time. */
  function ActivityOf(row: Row, now: int, days: int): (a: Activity)
    requires Kept(row, now, days)
    ensures a.daysAgo == WholeDays(now - WhenOf(row, "action_at").value.value) && a.daysAgo <= days
  {
    var t := WhenOf(row, "action_at").value.value;
    Activity(Get(row, "plant_name", Str("Unknown")), Get(row, "action_type", Null), WholeDays(now - t), Get(row, "notes", Null))
  }

  /** The reference count of kept rows. */
  function KeptCount(acts: seq<Row>, now: int, days: int): (n: nat)
    ensures n <= |acts|
  {
    if |acts| == 0 then 0 else (if Kept(acts[0], now, days) then 1 else 0) + KeptCount(acts[1..], now, days)
  }

  /** The activities whose `action_at` falls within the last `days` days of
      `now`, in order; those without a time are dropped. */
  function InWindow(acts: seq<Row>, now: int, days: int): (r: Result<seq<Activity>>)
    ensures r.Ok? <==> forall i :: 0 <= i < |acts| ==> WhenOf(acts[i], "action_at").Ok?
    ensures r.Ok? ==> |r.value| == KeptCount(acts, now, days)
    ensures r.Ok? ==> forall i :: 0 <= i < |acts| && Kept(acts[i], now, days) ==> ActivityOf(acts[i], now, days) in r.value
    ensures r.Ok? ==> forall a <- r.value :: exists i :: 0 <= i < |acts| && Kept(acts[i], now, days) && a == ActivityOf(acts[i], now, days)
    ensures r.Ok? ==> forall a <- r.value :: a.daysAgo <= days
  {
    if |acts| == 0 then Ok([])
    else
      var a := acts[0];
      match WhenOf(a, "action_at")
      case Err(e) => Err(e)
      case Ok(t) =>
        match InWindow(acts[1..], now, days)
        case Err(e) =>
          assert !WhenOf(acts[1..][0], "action_at").Ok? || exists i :: 0 <= i < |acts[1..]| && !WhenOf(acts[1..][i], "action_at").Ok?;
          Err(e)
        case Ok(rest) =>
          InWindowTail(acts, now, days, rest);
          if Kept(a, now, days) then Ok([ActivityOf(a, now, days)] + rest) else Ok(rest)
  }

  /** The rows after the first keep their places, one further on. */
  lemma InWindowTail(acts: seq<Row>, now: int, days: int, rest: seq<Activity>)
    requires |acts| > 0
    requires forall i :: 0 <= i < |acts| - 1 && Kept(acts[1..][i], now, days) ==> ActivityOf(acts[1..][i], now, days) in rest
    requires forall a <- rest :: exists i :: 0 <= i < |acts| - 1 && Kept(acts[1..][i], now, days) && a == ActivityOf(acts[1..][i], now, days)
    ensures forall i :: 1 <= i < |acts| && Kept(acts[i], now, days) ==> ActivityOf(acts[i], now, days) in rest
    ensures forall a <- rest :: exists i :: 1 <= i < |acts| && Kept(acts[i], now, days) && a == ActivityOf(acts[i], now, days)
  {
    forall i | 1 <= i < |acts| && Kept(acts[i], now, days)
      ensures ActivityOf(acts[i], now, days) in rest
    {
      assert acts[1..][i - 1] == acts[i];
    }
    forall a <- rest
      ensures exists i :: 1 <= i < |acts| && Kept(acts[i], now, days) && a == ActivityOf(acts[i], now, days)
    {
      var j :| 0 <= j < |acts| - 1 && Kept(acts[1..][j], now, days) && a == ActivityOf(acts[1..][j], now, days);
      assert acts[1..][j] == acts[j + 1];
    }
  }

  /** `_get_recent_activities_summary`: the in-window activities, most
      recent first (a stable sort on the whole days ago), at most ten. */
  function RecentSummary(acts: seq<Row>, now: int, days: int): (r: Result<seq<Activity>>)
    ensures r.Ok? <==> InWindow(acts, now, days).Ok?
    ensures r.Ok? ==> |r.value| == |First(InWindow(acts, now, days).value, RecentLimit)|
    ensures r.Ok? ==> Sorting.SortedBy(r.value, DaysAgo, Sorting.Ascending())
    ensures r.Ok? ==> multiset(r.value) <= multiset(InWindow(acts, now, days).value)
    ensures r.Ok? ==> forall a <- r.value :: a.daysAgo <= days
  {
    match InWindow(acts, now, days)
    case Err(e) => Err(e)
    case Ok(w) =>
      Sorting.AscendingIsOrder();
      var s := Sorting.SortBy(w, DaysAgo, Sorting.Ascending());
      var k := |First(s, RecentLimit)|;
      assert s == s[..k] + s[k..];
      assert forall a <- s[..k] :: a in multiset(s);
      Ok(s[..k])
  }

  /** Truncation drops only the oldest: no activity left out is more recent
      than one kept. */
  lemma RecentSummaryKeepsNewest(acts: seq<Row>, now: int, days: int)
    requires InWindow(acts, now, days).Ok?
    ensures var w := InWindow(acts, now, days).value;
      var r := RecentSummary(acts, now, days).value;
      forall a, b | a in multiset(w) - multiset(r) && b in r :: b.daysAgo <= a.daysAgo
  {
    var w := InWindow(acts, now, days).value;
    Sorting.AscendingIsOrder();
    var s := Sorting.SortBy(w, DaysAgo, Sorting.Ascending());
    var k := |First(s, RecentLimit)|;
    assert RecentSummary(acts, now, days).value == s[..k];
    SortedPrefixIsNewest(s, k);
  }

  lemma SortedPrefixIsNewest(s: seq<Activity>, k: nat)
    requires k <= |s| && Sorting.SortedBy(s, DaysAgo, Sorting.Ascending())
    ensures forall a, b | a in multiset(s) - multiset(s[..k]) && b in s[..k] :: b.daysAgo <= a.daysAgo
  {
    assert s == s[..k] + s[k..];
    assert multiset(s) - multiset(s[..k]) == multiset(s[k..]);
    forall a, b | a in multiset(s) - multiset(s[..k]) && b in s[..k] ensures b.daysAgo <= a.daysAgo {
      assert a in s[k..];
      var j :| k <= j < |s| && s[j] == a;
      var i :| 0 <= i < k && s[i] == b;
      assert !Sorting.Ascending()(DaysAgo(s[j]), DaysAgo(s[i]));
    }
  }

  /** Ties keep their order: among the activities the same number of days
      ago, the summary is a prefix of the in-window order. */
  lemma RecentSummaryStable(acts: seq<Row>, now: int, days: int, d: int)
    requires InWindow(acts, now, days).Ok?
    ensures var w := InWindow(acts, now, days).value;
      var r := RecentSummary(acts, now, days).value;
      var kept := Sorting.WithKey(r, DaysAgo, d);
      |kept| <= |Sorting.WithKey(w, DaysAgo, d)| && kept == Sorting.WithKey(w, DaysAgo, d)[..|kept|]
  {
    var w := InWindow(acts, now, days).value;
    Sorting.AscendingIsOrder();
    var s := Sorting.SortBy(w, DaysAgo, Sorting.Ascending());
    var k := |First(s, RecentLimit)|;
    Sorting.SortByStable(w, DaysAgo, Sorting.Ascending(), d);
    WithKeyPrefix(s, k, DaysAgo, d);
  }

  lemma {:induction false} WithKeyPrefix<T, K>(s: seq<T>, n: nat, key: T -> K, d: K)
    requires n <= |s|
    ensures var kept := Sorting.WithKey(s[..n], key, d);
      |kept| <= |Sorting.WithKey(s, key, d)| && kept == Sorting.WithKey(s, key, d)[..|kept|]
  {
    if n > 0 {
      WithKeyPrefix(s[1..], n - 1, key, d);
      assert s[..n][1..] == s[1..][..n - 1];
    }
  }

  // ---------------------------------------------------------------------
  // Per-plant statistics

  datatype PlantStats = PlantStats(total: nat, counts: map<Value, nat>, lastWateredDaysAgo: Value)

  function TypeOf(a: Row): Value { Get(a, "action_type", Null) }

  function Types(acts: seq<Row>): (ts: seq<Value>)
    ensures |ts| == |acts| && forall i :: 0 <= i < |ts| ==> ts[i] == TypeOf(acts[i])
  {
    seq(|acts|, i requires 0 <= i < |acts| => TypeOf(acts[i]))
  }

  /** The `days_ago` of the first watering, `None` without one. */
  function FirstWatered(acts: seq<Row>): (v: Value)
    ensures (forall a <- acts :: TypeOf(a) != Str("water")) ==> v == Null
  {
    if |acts| == 0 then Null
    else if TypeOf(acts[0]) == Str("water") then Get(acts[0], "days_ago", Null)
    else FirstWatered(acts[1..])
  }

  function Tally(counts: map<Value, nat>, t: Value): (r: nat) {
    if t in counts then counts[t] else 0
  }

  /** `_calculate_plant_stats`: the count of every action type equals how
      often it occurs, so the counts add up to the number of activities. */
  method CalculatePlantStats(acts: seq<Row>) returns (s: PlantStats)
    ensures s.total == |acts| == |multiset(Types(acts))|
    ensures forall t :: Tally(s.counts, t) == multiset(Types(acts))[t]
    ensures forall t :: t in s.counts ==> s.counts[t] > 0
    ensures s.lastWateredDaysAgo == FirstWatered(acts)
  {
    var counts: map<Value, nat> := map[];
    for i := 0 to |acts|
      invariant forall t :: Tally(counts, t) == multiset(Types(acts[..i]))[t]
      invariant forall t :: t in counts ==> counts[t] > 0
    {
      var t := TypeOf(acts[i]);
      assert Types(acts[..i + 1]) == Types(acts[..i]) + [t];
      counts := counts[t := Tally(counts, t) + 1];
    }
    assert acts[..|acts|] == acts;
    var last := Null;
    var j := 0;
    while j < |acts|
      invariant 0 <= j <= |acts|
      invariant FirstWatered(acts[j..]) == FirstWatered(acts)
    {
      if TypeOf(acts[j]) == Str("water") {
        last := Get(acts[j], "days_ago", Null);
        break;
      }
      assert acts[j..][1..] == acts[j + 1..];
      j := j + 1;
    }
    s := PlantStats(|acts|, counts, last);
  }

  // ---------------------------------------------------------------------
  // Plant summaries

  /** `_format_plant_context`: `species`, `nickname` and (in the concise
      form) `light` are present only when truthy; the detailed form always
      carries `light`, `notes` and `created_at`. */
  datatype PlantContext = PlantContext(id: Value, name: Value, location: Value, species: Option<Value>,
                                       nickname: Option<Value>, light: Option<Value>, notes: Option<Value>,
                                       createdAt: Option<Value>)

  /** The keys of the dictionary a summary stands for. */
  function KeysOf(p: PlantContext): set<string> {
    {"id", "name", "location"}
    + (if p.species.Some? then {"species"} else {})
    + (if p.nickname.Some? then {"nickname"} else {})
    + (if p.light.Some? then {"light"} else {})
    + (if p.notes.Some? then {"notes"} else {})
    + (if p.createdAt.Some? then {"created_at"} else {})
  }

  function IfTruthy(v: Value): (r: Option<Value>)
    ensures r.Some? <==> Truthy(v)
    ensures r.Some? ==> r.value == v
  {
    if Truthy(v) then Some(v) else None
  }

  /** An empty plant gives an empty summary (`None`). */
  function FormatPlant(plant: Row, detailed: bool): (r: Option<PlantContext>)
    ensures r.None? <==> plant == map[]
    ensures r.Some? ==> r.value.location == Get(plant, "location", Str("indoor_potted"))
    ensures r.Some? ==> (r.value.species.Some? <==> Truthy(Get(plant, "species", Null)))
    ensures r.Some? ==> (r.value.nickname.Some? <==> Truthy(Get(plant, "nickname", Null)))
    ensures r.Some? && detailed ==> {"light", "notes", "created_at"} <= KeysOf(r.value)
    ensures r.Some? && !detailed ==> ("light" in KeysOf(r.value) <==> Truthy(Get(plant, "light", Null)))
    ensures r.Some? && !detailed ==> "notes" !in KeysOf(r.value) && "created_at" !in KeysOf(r.value)
  {
    if plant == map[] then None
    else
      var concise := PlantContext(Get(plant, "id", Null), Get(plant, "name", Null),
                                  Get(plant, "location", Str("indoor_potted")),
                                  IfTruthy(Get(plant, "species", Null)), IfTruthy(Get(plant, "nickname", Null)),
                                  None, None, None);
      if detailed then
        Some(concise.(light := Some(Get(plant, "light", Null)), notes := Some(Get(plant, "notes", Null)),
                      createdAt := Some(Get(plant, "created_at", Null))))
      else Some(concise.(light := IfTruthy(Get(plant, "light", Null))))
  }

  /** The detailed summary carries everything the concise one does, with the
      same values. */
  lemma DetailedExtendsConcise(plant: Row)
    requires plant != map[]
    ensures var c := FormatPlant(plant, false).value;
      var d := FormatPlant(plant, true).value;
      && KeysOf(c) <= KeysOf(d)
      && c.id == d.id && c.name == d.name && c.location == d.location
      && c.species == d.species && c.nickname == d.nickname
      && (c.light.Some? ==> d.light == c.light)
  {
  }

  // ---------------------------------------------------------------------
  // get_user_context

  datatype Stats = Stats(totalPlants: nat, activeReminders: nat, overdueCount: nat, dueTodayCount: nat)

  datatype Context = Context(plants: seq<Option<PlantContext>>, overdue: seq<ReminderContext>,
                             dueToday: seq<ReminderContext>, upcomingWeek: seq<ReminderContext>,
                             recent: seq<Activity>, stats: Stats)

  const RecentDays: int := 7

  /** `get_user_context` at time `now` (seconds; today is its day): the
      lists and counts, or the first parse error, which the source lets
      propagate. */
  method GetUserContext(plants: seq<Row>, due: seq<Row>, upcoming: seq<Row>, activities: seq<Row>, now: int)
    returns (r: Result<Context>)
    ensures r.Ok? ==> r.value.stats.activeReminders == |due| + |upcoming|
    ensures r.Ok? ==> r.value.stats.overdueCount == |r.value.overdue|
    ensures r.Ok? ==> r.value.stats.dueTodayCount == |r.value.dueToday|
    ensures r.Ok? ==> r.value.stats.overdueCount + r.value.stats.dueTodayCount == |due|
    ensures r.Ok? ==> r.value.overdue == FormatAll(Select(due, WholeDays(now), Overdue))
    ensures r.Ok? ==> r.value.dueToday == FormatAll(Select(due, WholeDays(now), DueToday))
    ensures r.Ok? ==> |r.value.upcomingWeek| <= UpcomingLimit && |r.value.recent| <= RecentLimit
    ensures r.Ok? ==> r.value.stats.totalPlants == |plants| == |r.value.plants|
    ensures r.Ok? ==> Upcoming(upcoming, WholeDays(now)) == Ok(r.value.upcomingWeek)
    ensures r.Ok? ==> RecentSummary(activities, now, RecentDays) == Ok(r.value.recent)
    ensures r.Ok? ==> forall i :: 0 <= i < |plants| ==> r.value.plants[i] == FormatPlant(plants[i], false)
    ensures r.Ok? <==>
      && (forall i :: 0 <= i < |due| ==> SlotOf(due[i], WholeDays(now)).Ok?)
      && Upcoming(upcoming, WholeDays(now)).Ok?
      && RecentSummary(activities, now, RecentDays).Ok?
  {
    var today := WholeDays(now);
    var split := Partition(due, today);
    if split.Err? {
      return Err(split.message);
    }
    var (overdue, dueToday) := split.value;
    var soon := Upcoming(upcoming, today);
    if soon.Err? {
      return Err(soon.message);
    }
    var recent := RecentSummary(activities, now, RecentDays);
    if recent.Err? {
      return Err(recent.message);
    }
    var stats := Stats(|plants|, |due| + |upcoming|, |overdue|, |dueToday|);
    var formatted := seq(|plants|, i requires 0 <= i < |plants| => FormatPlant(plants[i], false));
    return Ok(Context(formatted, overdue, dueToday, soon.value, recent.value, stats));
  }
}
