/** The journal pages (app/routes/journal.py): the add-entry form checks,
    the recent-activity window, deleting an entry with its photos, and the
    quick-log JSON endpoint. Lookups, storage and the insert are oracles. */
module JournalRoutes {
  import opened Common
  import opened Text
  import Journal
  import PhotoHandler

  // ---------------------------------------------------------------------
  // add_entry

  /** The amount field: empty means none; otherwise a whole number above
      zero. */
  function AmountMl(raw: Option<string>): (r: Result<Option<int>>)
    ensures raw.None? || raw.value == "" ==> r == Ok(None)
    ensures r.Ok? && r.value.Some? ==> raw.Some? && ParseInt(raw.value) == r.value && r.value.value > 0
    ensures raw.Some? && raw.value != "" ==>
      (r.Err? <==> ParseInt(raw.value).None? || ParseInt(raw.value).value <= 0)
  {
    if raw.None? || raw.value == "" then Ok(None)
    else match ParseInt(raw.value)
      case None => Err("Invalid amount value.")
      case Some(n) => if n <= 0 then Err("Amount must be greater than 0.") else Ok(Some(n))
  }

  /** Every positive amount, written as a number, is accepted as itself. */
  lemma AmountRoundTrip(n: int)
    requires n > 0
    ensures AmountMl(Some(IntToString(n))) == Ok(Some(n))
  {
    ParseIntToString(n);
  }

  /** What the add form hands on once its checks pass. */
  datatype EntryRequest = EntryRequest(actionType: string, notes: Option<string>, amountMl: Option<int>,
                                       photos: PhotoHandler.PhotoUrls)

  /** `add_entry`'s checks, in order: a known action type, a valid amount,
      then the photo; a failed photo upload is flashed but does not stop the
      entry. */
  function AddEntry(actionType: Option<string>, notes: Option<string>, amount: Option<string>,
                    file: PhotoHandler.FileCheck, store: Option<map<string, Value>>): (r: Result<EntryRequest>)
    ensures actionType.GetOr("note") !in Journal.ActionTypeNames ==> r == Err("Invalid action type.")
    ensures r.Ok? ==>
      && r.value.actionType == actionType.GetOr("note") && r.value.actionType in Journal.ActionTypeNames
      && AmountMl(amount) == Ok(r.value.amountMl)
      && !Filled(file.error)
    ensures actionType.GetOr("note") in Journal.ActionTypeNames && AmountMl(amount).Err? ==> r == Err(AmountMl(amount).message)
    ensures r.Ok? && !(file.isValid && file.hasBytes) ==> r.value.photos == PhotoHandler.NoPhotos
  {
    var t := actionType.GetOr("note");
    if t !in Journal.ActionTypeNames then Err("Invalid action type.")
    else match AmountMl(amount)
      case Err(e) => Err(e)
      case Ok(ml) =>
        match PhotoHandler.HandlePhotoUpload(file, store)
        case Err(e) => Err(e)
        case Ok(up) =>
          if Filled(file.error) then Err(file.error.value)
          else
            var n := Strip(notes.GetOr(""));
            Ok(EntryRequest(t, if n == "" then None else Some(n), ml, up.urls))
  }

  // ---------------------------------------------------------------------
  // saving the entry

  /** The keyword parameters `create_plant_action` declares. */
  const CreateParams: set<string> :=
    {"user_id", "plant_id", "action_type", "notes", "amount_ml", "photo_url", "photo_url_thumb", "action_at"}

  /** The keywords `add_entry` passes to it. */
  const AddEntryKeywords: set<string> :=
    {"user_id", "plant_id", "action_type", "notes", "amount_ml", "photo_url", "photo_url_original", "photo_url_thumb"}

  /** The keywords it would pass without the original-size URL. */
  const IntendedKeywords: set<string> := AddEntryKeywords - {"photo_url_original"}

  /** A Python call by keyword binds only when every keyword is a declared
      parameter; otherwise it raises `TypeError` before the body runs. */
  predicate Binds(passed: set<string>, params: set<string>) {
    passed <= params
  }

  /** The row a validated entry is inserted with, once the call has bound. */
  function EntryPayload(req: EntryRequest, configured: bool, userId: string, plantId: Value): Result<Journal.Row> {
    Journal.ActionPayload(configured, userId, plantId, Str(req.actionType),
                          if req.notes.Some? then Str(req.notes.value) else Null,
                          if req.amountMl.Some? then Int(req.amountMl.value) else Null,
                          req.photos.display, req.photos.thumbnail, None)
  }

  /** The service call a validated entry leads to, once the call has bound;
      `reply` is what the insert returned. */
  function Insert(req: EntryRequest, configured: bool, userId: string, plantId: Value, reply: WriteReply): Result<Journal.Row> {
    Journal.CreatePlantAction(configured, userId, plantId, Str(req.actionType),
                              if req.notes.Some? then Str(req.notes.value) else Null,
                              if req.amountMl.Some? then Int(req.amountMl.value) else Null,
                              req.photos.display, req.photos.thumbnail, None, reply)
  }

  /** Saving a validated entry as the route writes it: the call names
      `photo_url_original`, which the service does not declare. */
  function SaveEntryAsWritten(req: EntryRequest, configured: bool, userId: string, plantId: Value, reply: WriteReply)
    : (r: Result<Journal.Row>)
    ensures !Binds(AddEntryKeywords, CreateParams) ==> r.Err? && r.message == UnexpectedOriginal
    ensures Binds(AddEntryKeywords, CreateParams) ==> r == Insert(req, configured, userId, plantId, reply)
  {
    if !Binds(AddEntryKeywords, CreateParams) then Err(UnexpectedOriginal)
    else Insert(req, configured, userId, plantId, reply)
  }

  const UnexpectedOriginal: string := "TypeError: create_plant_action() got an unexpected keyword argument 'photo_url_original'"

  /** As written, no entry is ever saved: every validated request raises,
      with or without a photo, with the database configured and whatever the
      insert would have returned. */
  lemma SavingAlwaysRaises(req: EntryRequest, configured: bool, userId: string, plantId: Value, reply: WriteReply)
    ensures SaveEntryAsWritten(req, configured, userId, plantId, reply) == Err(UnexpectedOriginal)
  {
    assert "photo_url_original" in AddEntryKeywords && "photo_url_original" !in CreateParams;
  }

  /** Saving as intended: the call without the original-size URL binds. The
      result is the service's answer and the row handed to the insert (none
      when the service refused before inserting). A configured database is
      sent the entry with its type, display photo and thumbnail; the entry
      is saved only when the insert echoes a row back. */
  function SaveEntry(req: EntryRequest, configured: bool, userId: string, plantId: Value, reply: WriteReply)
    : (r: (Result<Journal.Row>, Option<Journal.Row>))
    requires req.actionType in Journal.ActionTypeNames
    ensures Binds(IntendedKeywords, CreateParams)
    ensures r.1.Some? <==> configured
    ensures r.1.Some? ==> r.1.value.Keys == Journal.ActionKeys
    ensures r.1.Some? ==> r.1.value["action_type"] == Str(req.actionType) && r.1.value["plant_id"] == plantId
    ensures r.1.Some? ==> r.1.value["photo_url"] == req.photos.display && r.1.value["photo_url_thumb"] == req.photos.thumbnail
    ensures r.0.Ok? <==> configured && reply.Stored? && |reply.rows| > 0
    ensures r.0.Ok? ==> r.0.value == reply.rows[0]
    ensures !configured ==> r.0 == Err("Database not configured")
    ensures configured && reply.WriteRaised? ==> r.0 == Err("Error creating action: " + reply.message)
    ensures configured && reply == Stored([]) ==> r.0 == Err("Failed to create action")
  {
    Journal.ActionTablesAgree();
    var sent := EntryPayload(req, configured, userId, plantId);
    (Insert(req, configured, userId, plantId, reply), if sent.Ok? then Some(sent.value) else None)
  }

  // ---------------------------------------------------------------------
  // recent_activity

  /** The `days` query argument: an integer from 1 to 90, 7 otherwise
      (including when it is missing or not an integer). */
  function RecentDays(raw: Option<string>): (days: int)
    ensures 1 <= days <= 90
    ensures raw.Some? && ParseInt(raw.value).Some? && 1 <= ParseInt(raw.value).value <= 90 ==>
      days == ParseInt(raw.value).value
    ensures raw.None? || ParseInt(raw.value).None? || !(1 <= ParseInt(raw.value).value <= 90) ==> days == 7
  {
    var d := if raw.Some? && ParseInt(raw.value).Some? then ParseInt(raw.value).value else 7;
    if d < 1 || d > 90 then 7 else d
  }

  /** A window chosen in range comes back unchanged. */
  lemma RecentDaysRoundTrip(n: int)
    requires 1 <= n <= 90
    ensures RecentDays(Some(IntToString(n))) == n
  {
    ParseIntToString(n);
  }

  // ---------------------------------------------------------------------
  // delete_entry

  datatype Effect = DeletePhoto(url: Value) | DeleteAction

  function DeletePhotos(urls: seq<Value>): (r: seq<Effect>)
    ensures |r| == |urls| && forall i :: 0 <= i < |r| ==> r[i] == DeletePhoto(urls[i])
  {
    if |urls| == 0 then [] else [DeletePhoto(urls[0])] + DeletePhotos(urls[1..])
  }

  /** `delete_entry`: nothing for a missing entry; otherwise every stored
      photo version, then the entry itself. */
  function DeleteEntry(action: Option<Journal.Row>): (effects: seq<Effect>)
    ensures action.None? || action.value == map[] ==> effects == []
    ensures action.Some? && action.value != map[] ==>
      && |effects| == |PhotoHandler.PhotoDeletions(action.value)| + 1
      && effects[|effects| - 1] == DeleteAction
      && forall i :: 0 <= i < |effects| - 1 ==> effects[i] == DeletePhoto(PhotoHandler.PhotoDeletions(action.value)[i])
  {
    if action.None? || action.value == map[] then []
    else DeletePhotos(PhotoHandler.PhotoDeletions(action.value)) + [DeleteAction]
  }

  /** The entry is removed only after all its photos. */
  lemma PhotosGoFirst(action: Journal.Row)
    requires action != map[]
    ensures var e := DeleteEntry(Some(action));
      forall i, j :: 0 <= i < j < |e| && e[j].DeletePhoto? ==> e[i].DeletePhoto?
  {
  }

  // ---------------------------------------------------------------------
  // api_quick_log

  datatype Call = LookupPlant(plantId: Value) | InsertAction(row: Journal.Row)

  datatype Reply = Reply(status: int, error: Option<string>, message: Option<string>)

  /** A quick-log body that passes the route's own checks: a non-empty
      object with a truthy plant id and action type, for a plant the user
      owns. */
  predicate QuickReady(data: Value, owned: Value -> bool) {
    && data.Obj? && data.fields != map[]
    && Truthy(Get(data.fields, "plant_id", Null)) && Truthy(Get(data.fields, "action_type", Null))
    && owned(Get(data.fields, "plant_id", Null))
  }

  /** The row a quick log inserts: no photo and no explicit time. */
  function QuickPayload(userId: string, data: Value, configured: bool): Result<Journal.Row>
    requires data.Obj?
  {
    Journal.ActionPayload(configured, userId, Get(data.fields, "plant_id", Null), Get(data.fields, "action_type", Null),
                          Get(data.fields, "notes", Null), Get(data.fields, "amount_ml", Null), Null, Null, None)
  }

  /** The service call a quick log makes; `reply` is what the insert
      returned. */
  function QuickCreate(userId: string, data: Value, configured: bool, reply: WriteReply): Result<Journal.Row>
    requires data.Obj?
  {
    Journal.CreatePlantAction(configured, userId, Get(data.fields, "plant_id", Null), Get(data.fields, "action_type", Null),
                              Get(data.fields, "notes", Null), Get(data.fields, "amount_ml", Null), Null, Null, None, reply)
  }

  /** `api_quick_log`: no body is a 400, missing fields a 400 before the
      plant is looked up, a plant the user does not own a 404, then the
      service decides. A body that is not a JSON object makes `.get` raise,
      which the handler turns into a 500. */
  function QuickLog(userId: string, data: Value, owned: Value -> bool, configured: bool, reply: WriteReply): (r: (Reply, seq<Call>))
    ensures !Truthy(data) ==> r == (Reply(400, Some("Invalid request"), None), [])
    ensures Truthy(data) && !data.Obj? ==> r.0.status == 500 && r.1 == []
    ensures (&& data.Obj? && data.fields != map[]
             && (!Truthy(Get(data.fields, "plant_id", Null)) || !Truthy(Get(data.fields, "action_type", Null)))) ==>
      r == (Reply(400, Some("Missing required fields"), None), [])
    ensures |r.1| > 0 ==>
      && data.Obj? && r.1[0] == LookupPlant(Get(data.fields, "plant_id", Null))
      && Truthy(Get(data.fields, "plant_id", Null)) && Truthy(Get(data.fields, "action_type", Null))
    ensures r.0.status == 404 <==>
      && data.Obj? && data.fields != map[]
      && Truthy(Get(data.fields, "plant_id", Null)) && Truthy(Get(data.fields, "action_type", Null))
      && !owned(Get(data.fields, "plant_id", Null))
    ensures r.0.status == 200 ==>
      && data.Obj? && owned(Get(data.fields, "plant_id", Null))
      && Get(data.fields, "action_type", Null).Str?
      && Get(data.fields, "action_type", Null).s in Journal.ActionTypes
      && QuickCreate(userId, data, configured, reply).Ok?
      && r.0.message == Some(Journal.ActionTypeNames[Get(data.fields, "action_type", Null).s] + " logged")
    ensures QuickReady(data, owned) ==>
      r.1 == [LookupPlant(Get(data.fields, "plant_id", Null))]
             + (if QuickPayload(userId, data, configured).Ok? then [InsertAction(QuickPayload(userId, data, configured).value)] else [])
    ensures QuickReady(data, owned) ==> (r.0.status == 200 <==> QuickCreate(userId, data, configured, reply).Ok?)
    ensures QuickReady(data, owned) && QuickCreate(userId, data, configured, reply).Err? ==>
      r.0 == Reply(400, Some(QuickCreate(userId, data, configured, reply).message), None)
    ensures QuickReady(data, owned) && QuickPayload(userId, data, configured).Ok? && reply.WriteRaised? ==>
      r.0 == Reply(400, Some("Error creating action: " + reply.message), None)
  {
    if !Truthy(data) then (Reply(400, Some("Invalid request"), None), [])
    else if !data.Obj? then (Reply(500, Some("API quick-log failed"), None), [])
    else
      var plantId := Get(data.fields, "plant_id", Null);
      var actionType := Get(data.fields, "action_type", Null);
      if !Truthy(plantId) || !Truthy(actionType) then (Reply(400, Some("Missing required fields"), None), [])
      else if !owned(plantId) then (Reply(404, Some("Plant not found"), None), [LookupPlant(plantId)])
      else
        match QuickPayload(userId, data, configured)
        case Err(e) => (Reply(400, Some(e), None), [LookupPlant(plantId)])
        case Ok(row) =>
          var calls := [LookupPlant(plantId), InsertAction(row)];
          match QuickCreate(userId, data, configured, reply)
          case Err(e) => (Reply(400, Some(e), None), calls)
          case Ok(_) =>
            Journal.ActionTablesAgree();
            assert actionType.s in Journal.ActionTypeNames;
            (Reply(200, None, Some(Journal.ActionTypeNames[actionType.s] + " logged")), calls)
  }
}
