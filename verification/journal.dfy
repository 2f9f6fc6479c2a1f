/** The care journal service (app/services/journal.py): the action types
    and their labels, validation of a new entry, field whitelisting on
    update, and per-plant statistics. Database calls are oracles. */
module Journal {
  import opened Common

  type Row = map<string, Value>

  /** `valid_actions`, in the order the error message lists them. */
  const ActionTypes: seq<string> := ["water", "fertilize", "repot", "prune", "note", "pest"]

  /** `ACTION_TYPE_NAMES`. */
  const ActionTypeNames: map<string, string> := map[
    "water" := "Watering", "fertilize" := "Fertilizing", "repot" := "Repotting",
    "prune" := "Pruning", "note" := "Note", "pest" := "Pest Treatment"]

  /** `ACTION_TYPE_EMOJIS`. */
  const ActionTypeEmojis: map<string, string> := map[
    "water" := "💧", "fertilize" := "🌿", "repot" := "🪴",
    "prune" := "✂️", "note" := "📝", "pest" := "🐛"]

  /** The three tables describe the same six action types. */
  lemma ActionTablesAgree()
    ensures (set t | t in ActionTypes) == ActionTypeNames.Keys == ActionTypeEmojis.Keys
  {
    var six: set<string> := {"water", "fertilize", "repot", "prune", "note", "pest"};
    assert ActionTypeNames.Keys == six;
    assert ActionTypeEmojis.Keys == six;
    assert forall t :: t in ActionTypes <==> t in six;
  }

  const InvalidActionType: string := "Invalid action type. Must be one of: water, fertilize, repot, prune, note, pest"

  /** `create_plant_action` up to the insert, which gets this row: the type
      must be one of the six; `action_at` is sent only when given, so the
      database default (now) applies otherwise. The type is whatever JSON the
      caller passed. */
  function ActionPayload(configured: bool, userId: string, plantId: Value, actionType: Value,
                             notes: Value, amountMl: Value, photoUrl: Value, photoUrlThumb: Value,
                             actionAt: Option<int>): (r: Result<Row>)
    ensures !configured ==> r == Err("Database not configured")
    ensures configured ==> (r.Ok? <==> actionType.Str? && actionType.s in ActionTypes)
    ensures configured && r.Err? ==> r == Err(InvalidActionType)
    ensures r.Ok? ==> "action_type" in r.value && r.value["action_type"] == actionType
    ensures r.Ok? ==> "plant_id" in r.value && r.value["plant_id"] == plantId
    ensures r.Ok? ==> ("action_at" in r.value <==> actionAt.Some?)
    ensures r.Ok? && actionAt.Some? ==> r.value["action_at"] == Int(actionAt.value)
    ensures r.Ok? ==> r.value.Keys - {"action_at"} == ActionKeys
  {
    if !configured then Err("Database not configured")
    else if !(actionType.Str? && actionType.s in ActionTypes) then Err(InvalidActionType)
    else
      var base := ActionRow(userId, plantId, actionType, notes, amountMl, photoUrl, photoUrlThumb);
      Ok(if actionAt.Some? then base["action_at" := Int(actionAt.value)] else base)
  }

  /** `create_plant_action` with the insert's reply: refused before the
      insert as above; then the first echoed row, "Failed to create action"
      when none came back, and the exception's text when the insert raised. */
  function CreatePlantAction(configured: bool, userId: string, plantId: Value, actionType: Value,
                             notes: Value, amountMl: Value, photoUrl: Value, photoUrlThumb: Value,
                             actionAt: Option<int>, reply: WriteReply): (r: Result<Row>)
    ensures r.Ok? <==> configured && actionType.Str? && actionType.s in ActionTypes && reply.Stored? && |reply.rows| > 0
    ensures r.Ok? ==> r.value == reply.rows[0]
    ensures !configured ==> r == Err("Database not configured")
    ensures configured && !(actionType.Str? && actionType.s in ActionTypes) ==> r == Err(InvalidActionType)
    ensures configured && actionType.Str? && actionType.s in ActionTypes && reply.WriteRaised? ==>
      r == Err("Error creating action: " + reply.message)
    ensures configured && actionType.Str? && actionType.s in ActionTypes && reply == Stored([]) ==>
      r == Err("Failed to create action")
  {
    match ActionPayload(configured, userId, plantId, actionType, notes, amountMl, photoUrl, photoUrlThumb, actionAt)
    case Err(e) => Err(e)
    case Ok(_) => FirstStored(reply, "Failed to create action", "Error creating action: ")
  }

  const ActionKeys: set<string> := {"user_id", "plant_id", "action_type", "notes", "amount_ml", "photo_url", "photo_url_thumb"}

  /** The columns every new entry is inserted with. */
  function ActionRow(userId: string, plantId: Value, actionType: Value, notes: Value, amountMl: Value,
                     photoUrl: Value, photoUrlThumb: Value): (r: Row)
    ensures r.Keys == ActionKeys && "action_at" !in r
    ensures r["action_type"] == actionType && r["plant_id"] == plantId
  {
    map["user_id" := Str(userId), "plant_id" := plantId, "action_type" := actionType, "notes" := notes,
        "amount_ml" := amountMl, "photo_url" := photoUrl, "photo_url_thumb" := photoUrlThumb]
  }

  const ActionLocked: set<string> := {"id", "user_id", "plant_id", "action_type", "action_at"}

  /** `update_action` up to the database call: identity, type and time are
      never changed; every other field is forwarded as given; nothing left
      is an error. */
  function ActionUpdate(configured: bool, fields: Row): (r: Result<Row>)
    ensures !configured ==> r == Err("Database not configured")
    ensures configured ==> (r.Err? <==> fields.Keys <= ActionLocked)
    ensures r.Ok? ==> r.value.Keys == fields.Keys - ActionLocked
    ensures r.Ok? ==> forall k <- r.value :: r.value[k] == fields[k]
  {
    if !configured then Err("Database not configured")
    else
      var data := WithoutKeys(fields, ActionLocked);
      if data == map[] then
        assert data.Keys == {};
        Err("No fields to update")
      else Ok(data)
  }

  /** Filtering an update twice is filtering it once. */
  lemma ActionUpdateIdempotent(fields: Row)
    requires ActionUpdate(true, fields).Ok?
    ensures ActionUpdate(true, ActionUpdate(true, fields).value) == ActionUpdate(true, fields)
  {
    var once := ActionUpdate(true, fields).value;
    assert WithoutKeys(once, ActionLocked) == once;
  }

  // ---------------------------------------------------------------------
  // get_action_stats

  /** The statistics dictionary: `full` is false for the reduced form
      returned without a database, which has no repot/prune/note/pest counts
      and no `last_action`. */
  datatype ActionStats = ActionStats(
    full: bool, total: nat, watering: nat, fertilizing: nat, repotting: nat, pruning: nat,
    notes: nat, pests: nat, lastWatered: Value, lastFertilized: Value, lastAction: Value)

  const EmptyStats: ActionStats := ActionStats(false, 0, 0, 0, 0, 0, 0, 0, Null, Null, Null)

  function TypeOf(action: Row): Value {
    Get(action, "action_type", Null)
  }

  function TimeOf(action: Row): Value {
    Get(action, "action_at", Null)
  }

  /** The number of actions of one type. */
  function Count(actions: seq<Row>, t: string): (n: nat)
    ensures n <= |actions|
  {
    if |actions| == 0 then 0 else (if TypeOf(actions[0]) == Str(t) then 1 else 0) + Count(actions[1..], t)
  }

  /** The first truthy `action_at` among the actions of type `t` (any type
      for `None`). */
  function FirstTime(actions: seq<Row>, t: Option<string>): (r: Option<Value>)
    ensures r.Some? ==> Truthy(r.value)
  {
    if |actions| == 0 then None
    else if (t.None? || TypeOf(actions[0]) == Str(t.value)) && Truthy(TimeOf(actions[0])) then Some(TimeOf(actions[0]))
    else FirstTime(actions[1..], t)
  }

  /** `if not last: last = action_at`. */
  function Latch(last: Value, at: Value): Value {
    if Truthy(last) then last else at
  }

  /** `get_action_stats`: counts by type over the plant's actions (the
      database returns at most 1000), and for watering, fertilising and any
      action the first truthy time in list order. */
  method GetActionStats(configured: bool, actions: seq<Row>) returns (s: ActionStats)
    ensures !configured ==> s == EmptyStats
    ensures configured ==> s.full && s.total == |actions|
    ensures configured ==>
      && s.watering == Count(actions, "water") && s.fertilizing == Count(actions, "fertilize")
      && s.repotting == Count(actions, "repot") && s.pruning == Count(actions, "prune")
      && s.notes == Count(actions, "note") && s.pests == Count(actions, "pest")
    ensures configured ==>
      && (FirstTime(actions, Some("water")).Some? ==> s.lastWatered == FirstTime(actions, Some("water")).value)
      && (FirstTime(actions, Some("water")).None? ==> !Truthy(s.lastWatered))
      && (FirstTime(actions, Some("fertilize")).Some? ==> s.lastFertilized == FirstTime(actions, Some("fertilize")).value)
      && (FirstTime(actions, Some("fertilize")).None? ==> !Truthy(s.lastFertilized))
      && (FirstTime(actions, None).Some? ==> s.lastAction == FirstTime(actions, None).value)
      && (FirstTime(actions, None).None? ==> !Truthy(s.lastAction))
  {
    if !configured {
      return EmptyStats;
    }
    var w, f, rp, pr, nt, ps := 0, 0, 0, 0, 0, 0;
    var lastW, lastF, lastA := Null, Null, Null;
    var i := 0;
    while i < |actions|
      invariant 0 <= i <= |actions|
      invariant w == Count(actions[..i], "water") && f == Count(actions[..i], "fertilize")
      invariant rp == Count(actions[..i], "repot") && pr == Count(actions[..i], "prune")
      invariant nt == Count(actions[..i], "note") && ps == Count(actions[..i], "pest")
      invariant Tracks(actions[..i], Some("water"), lastW)
      invariant Tracks(actions[..i], Some("fertilize"), lastF)
      invariant Tracks(actions[..i], None, lastA)
    {
      var a := actions[i];
      var t, at := TypeOf(a), TimeOf(a);
      assert actions[..i + 1] == actions[..i] + [a];
      CountAppend(actions[..i], a, "water");
      CountAppend(actions[..i], a, "fertilize");
      CountAppend(actions[..i], a, "repot");
      CountAppend(actions[..i], a, "prune");
      CountAppend(actions[..i], a, "note");
      CountAppend(actions[..i], a, "pest");
      TracksAppend(actions[..i], a, Some("water"), lastW);
      TracksAppend(actions[..i], a, Some("fertilize"), lastF);
      TracksAppend(actions[..i], a, None, lastA);
      if t == Str("water") {
        w := w + 1;
        lastW := Latch(lastW, at);
      } else if t == Str("fertilize") {
        f := f + 1;
        lastF := Latch(lastF, at);
      } else if t == Str("repot") {
        rp := rp + 1;
      } else if t == Str("prune") {
        pr := pr + 1;
      } else if t == Str("note") {
        nt := nt + 1;
      } else if t == Str("pest") {
        ps := ps + 1;
      }
      lastA := Latch(lastA, at);
      i := i + 1;
    }
    assert actions[..|actions|] == actions;
    return ActionStats(true, |actions|, w, f, rp, pr, nt, ps, lastW, lastF, lastA);
  }

  /** The latched value agrees with the first truthy time so far. */
  predicate Tracks(seen: seq<Row>, t: Option<string>, last: Value) {
    && (FirstTime(seen, t).Some? ==> last == FirstTime(seen, t).value)
    && (FirstTime(seen, t).None? ==> !Truthy(last))
  }

  lemma {:induction false} CountAppend(actions: seq<Row>, a: Row, t: string)
    ensures Count(actions + [a], t) == Count(actions, t) + (if TypeOf(a) == Str(t) then 1 else 0)
    decreases |actions|
  {
    if |actions| > 0 {
      assert (actions + [a])[1..] == actions[1..] + [a];
      CountAppend(actions[1..], a, t);
    }
  }

  lemma {:induction false} FirstTimeAppend(actions: seq<Row>, a: Row, t: Option<string>)
    ensures FirstTime(actions + [a], t) ==
      if FirstTime(actions, t).Some? then FirstTime(actions, t)
      else if (t.None? || TypeOf(a) == Str(t.value)) && Truthy(TimeOf(a)) then Some(TimeOf(a))
      else None
    decreases |actions|
  {
    if |actions| > 0 {
      assert (actions + [a])[1..] == actions[1..] + [a];
      FirstTimeAppend(actions[1..], a, t);
    }
  }

  lemma TracksAppend(seen: seq<Row>, a: Row, t: Option<string>, last: Value)
    requires Tracks(seen, t, last)
    ensures Tracks(seen + [a], t, if t.None? || TypeOf(a) == Str(t.value) then Latch(last, TimeOf(a)) else last)
  {
    FirstTimeAppend(seen, a, t);
  }

  /** The per-type counts never exceed the total: each action has one
      type. */
  lemma {:induction false} CountsWithinTotal(actions: seq<Row>)
    ensures Count(actions, "water") + Count(actions, "fertilize") + Count(actions, "repot")
          + Count(actions, "prune") + Count(actions, "note") + Count(actions, "pest") <= |actions|
    decreases |actions|
  {
    if |actions| > 0 {
      CountsWithinTotal(actions[1..]);
      var t := TypeOf(actions[0]);
      assert t == Str("water") ==>
        (t != Str("fertilize") && t != Str("repot") && t != Str("prune") && t != Str("note") && t != Str("pest"));
      assert t == Str("fertilize") ==> t != Str("repot") && t != Str("prune") && t != Str("note") && t != Str("pest");
      assert t == Str("repot") ==> t != Str("prune") && t != Str("note") && t != Str("pest");
      assert t == Str("prune") ==> t != Str("note") && t != Str("pest");
      assert t == Str("note") ==> t != Str("pest");
    }
  }
}
