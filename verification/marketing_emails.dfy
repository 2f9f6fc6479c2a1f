/** The welcome email series (app/services/marketing_emails.py): which of the
    day-0, day-3 and day-7 emails each opted-in user still needs, the order
    in which sending decides, the queue's counters and the audience sync
    verdict. The database, the clock, timestamp parsing and the email API
    are parameters. */
module MarketingEmails {
  import opened Common

  type Row = map<string, Value>

  const Day0: string := "welcome_day0"
  const Day3: string := "welcome_day3"
  const Day7: string := "welcome_day7"

  /** The series in sending order. */
  const Series: seq<string> := [Day0, Day3, Day7]

  /** Position of an email in the series. */
  function Rank(t: string): nat {
    if t == Day0 then 0 else if t == Day3 then 1 else 2
  }

  /** Whether an email of the series is due `days` whole days after signup:
      the day-0 email at once (whatever the account's age), the others after
      three and seven days. */
  predicate Due(t: string, days: int) {
    || t == Day0
    || (t == Day3 && days >= 3)
    || (t == Day7 && days >= 7)
  }

  /** One queued email. */
  datatype Item = Item(userId: Value, email: Value, emailType: string)

  /** The (user, email type) pairs already recorded as sent. */
  type SentSet = set<(Value, Value)>

  function PairOf(it: Item): (Value, Value) {
    (it.userId, Str(it.emailType))
  }

  /** A parsed `created_at`: its time in seconds, and whether it carried a
      UTC offset (a naive time cannot be subtracted from the aware clock). */
  datatype Stamp = Stamp(seconds: int, aware: bool)

  /** What one profile contributes: nothing, the end of the scan (an error
      the outer handler catches), or the user with the age of the account. */
  datatype Signup = Skip | Abort | Eligible(id: Value, email: Value, days: int)

  /** The checks on one profile, in source order: a missing `id` raises; a
      falsy email or creation time skips; a creation time that is not text
      raises; one that does not parse skips; a naive one raises when the age
      is computed. */
  function SignupOf(user: Row, now: int, parse: string -> Option<Stamp>): (s: Signup)
    ensures s.Eligible? ==> Truthy(s.email) && "id" in user && s.id == user["id"]
    ensures "id" !in user ==> s == Abort
  {
    if "id" !in user then Abort
    else
      var email := Get(user, "email", Null);
      var created := Get(user, "created_at", Null);
      if !Truthy(email) || !Truthy(created) then Skip
      else if !created.Str? then Abort
      else match parse(created.s)
        case None => Skip
        case Some(stamp) =>
          if !stamp.aware then Abort
          else Eligible(user["id"], email, WholeDays(now - stamp.seconds))
  }

  /** The emails one eligible user still needs, in series order. */
  function UserItems(id: Value, email: Value, days: int, sent: SentSet): (r: seq<Item>)
    ensures |r| <= |Series|
    ensures forall it <- r :: it.userId == id && it.email == email && it.emailType in Series
    ensures forall t <- Series :: Item(id, email, t) in r <==> Due(t, days) && (id, Str(t)) !in sent
    ensures forall it <- r :: PairOf(it) !in sent
    ensures forall i, j :: 0 <= i < j < |r| ==> Rank(r[i].emailType) < Rank(r[j].emailType)
  {
    (if (id, Str(Day0)) !in sent then [Item(id, email, Day0)] else [])
    + (if days >= 3 && (id, Str(Day3)) !in sent then [Item(id, email, Day3)] else [])
    + (if days >= 7 && (id, Str(Day7)) !in sent then [Item(id, email, Day7)] else [])
  }

  /** The scan over the opted-in profiles; an error ends it and keeps what was
      found before. */
  function Pending(users: seq<Row>, sent: SentSet, now: int, parse: string -> Option<Stamp>): (r: seq<Item>)
    ensures forall it <- r :: PairOf(it) !in sent
    ensures forall it <- r :: it.emailType in Series && Truthy(it.email)
    ensures |r| <= |Series| * |users|
  {
    if |users| == 0 then []
    else match SignupOf(users[0], now, parse)
      case Abort => []
      case Skip => Pending(users[1..], sent, now, parse)
      case Eligible(id, email, days) => UserItems(id, email, days, sent) + Pending(users[1..], sent, now, parse)
  }

  /** The pairs recorded in the `welcome_emails_sent` rows; a row missing a
      column raises, which leaves the queue empty. */
  function SentPairs(rows: seq<Row>): (r: Result<SentSet>)
    ensures r.Ok? <==> forall row <- rows :: "user_id" in row && "email_type" in row
    ensures r.Ok? ==> forall row <- rows :: (row["user_id"], row["email_type"]) in r.value
    ensures r.Ok? ==> |r.value| <= |rows|
  {
    if |rows| == 0 then Ok({})
    else
      var row := rows[0];
      if "user_id" !in row || "email_type" !in row then Err("KeyError")
      else match SentPairs(rows[1..])
        case Err(e) => Err(e)
        case Ok(rest) => Ok(rest + {(row["user_id"], row["email_type"])})
  }

  /** `get_pending_welcome_emails`: empty without a database, without
      opted-in profiles or when the sent list is malformed. */
  function GetPending(configured: bool, users: seq<Row>, sentRows: seq<Row>, now: int,
                      parse: string -> Option<Stamp>): (r: seq<Item>)
    ensures !configured || users == [] || SentPairs(sentRows).Err? ==> r == []
    ensures configured && SentPairs(sentRows).Ok? ==> forall it <- r :: PairOf(it) !in SentPairs(sentRows).value
  {
    if !configured || users == [] then []
    else match SentPairs(sentRows)
      case Err(_) => []
      case Ok(sent) => Pending(users, sent, now, parse)
  }

  /** Duplicate suppression: once every pending email is recorded as sent,
      nothing is pending any more. */
  lemma {:induction false} RecordingDrainsQueue(users: seq<Row>, sent: SentSet, extra: SentSet, now: int,
                                                parse: string -> Option<Stamp>)
    requires forall it <- Pending(users, sent, now, parse) :: PairOf(it) in extra
    ensures Pending(users, sent + extra, now, parse) == []
  {
    if |users| > 0 {
      match SignupOf(users[0], now, parse)
      case Abort =>
      case Skip =>
        RecordingDrainsQueue(users[1..], sent, extra, now, parse);
      case Eligible(id, email, days) =>
        var mine := UserItems(id, email, days, sent);
        assert Pending(users, sent, now, parse) == mine + Pending(users[1..], sent, now, parse);
        RecordingDrainsQueue(users[1..], sent, extra, now, parse);
        assert UserItems(id, email, days, sent + extra) == [];
    }
  }

  // ---------------------------------------------------------------------
  // send_welcome_email

  /** What the email API did: answered with a status, timed out, or raised. */
  datatype Reply = Status(code: int) | Timeout | Raised(message: string)

  /** The dictionary `send_welcome_email` returns, and whether the API was
      called. */
  datatype Outcome = Outcome(success: bool, message: Option<string>, error: Option<string>, posted: bool)

  function Failure(error: string): Outcome { Outcome(false, None, Some(error), false) }

  /** `send_welcome_email`. `recorded` is the duplicate lookup: `Some(found)`,
      or `None` when it raised (the source then carries on). */
  function SendWelcomeEmail(configured: bool, recorded: Option<bool>, apiKey: bool, emailType: string,
                            reply: Reply): (o: Outcome)
    ensures !configured ==> o == Failure("database_not_configured")
    ensures configured && recorded == Some(true) ==> o == Outcome(true, Some("already_sent"), None, false)
    ensures configured && recorded != Some(true) && !apiKey ==> o == Failure("email_not_configured")
    ensures configured && recorded != Some(true) && apiKey && emailType !in Series ==>
      o == Failure("unknown_email_type: " + emailType)
    ensures o.posted <==> configured && recorded != Some(true) && apiKey && emailType in Series
    ensures o.success && o.posted <==> o.posted && reply == Status(200)
    ensures o.success ==> (o.message == Some("already_sent") <==> !o.posted)
  {
    if !configured then Failure("database_not_configured")
    else if recorded == Some(true) then Outcome(true, Some("already_sent"), None, false)
    else if !apiKey then Failure("email_not_configured")
    else if emailType !in Series then Failure("unknown_email_type: " + emailType)
    else match reply
      case Status(c) =>
        if c == 200 then Outcome(true, Some("sent"), None, true)
        else Outcome(false, None, Some("email_send_failed"), true)
      case Timeout => Outcome(false, None, Some("timeout"), true)
      case Raised(m) => Outcome(false, None, Some(m), true)
  }

  // ---------------------------------------------------------------------
  // process_welcome_email_queue

  datatype QueueStats = QueueStats(sent: nat, failed: nat, skipped: nat)

  predicate Skipped(o: Outcome) { o.success && o.message == Some("already_sent") }

  /** How many of `items` the sender reports as `pred`. */
  function CountWhere(items: seq<Item>, send: Item -> Outcome, pred: Outcome -> bool): (n: nat)
    ensures n <= |items|
  {
    if |items| == 0 then 0
    else CountWhere(items[..|items| - 1], send, pred) + (if pred(send(items[|items| - 1])) then 1 else 0)
  }

  /** Every pending email is counted once: sent, failed, or skipped because
      it was already recorded. */
  method ProcessQueue(pending: seq<Item>, send: Item -> Outcome) returns (s: QueueStats)
    ensures s.sent + s.failed + s.skipped == |pending|
    ensures s.skipped == CountWhere(pending, send, Skipped)
    ensures s.failed == CountWhere(pending, send, (o: Outcome) => !o.success)
  {
    s := QueueStats(0, 0, 0);
    for i := 0 to |pending|
      invariant s.sent + s.failed + s.skipped == i
      invariant s.skipped == CountWhere(pending[..i], send, Skipped)
      invariant s.failed == CountWhere(pending[..i], send, (o: Outcome) => !o.success)
    {
      assert pending[..i + 1][..i] == pending[..i];
      var o := send(pending[i]);
      if o.success {
        if o.message == Some("already_sent") {
          s := s.(skipped := s.skipped + 1);
        } else {
          s := s.(sent := s.sent + 1);
        }
      } else {
        s := s.(failed := s.failed + 1);
      }
    }
    assert pending[..|pending|] == pending;
  }

  // ---------------------------------------------------------------------
  // sync_to_resend_audience

  /** The audience sync succeeds when it is not configured (nothing to do)
      and otherwise exactly on a 200, 201 or 204 answer. */
  function SyncToAudience(apiKey: bool, audienceId: bool, reply: Reply): (ok: bool)
    ensures !apiKey || !audienceId ==> ok
    ensures apiKey && audienceId ==> (ok <==> reply.Status? && reply.code in {200, 201, 204})
  {
    if !apiKey || !audienceId then true
    else reply.Status? && (reply.code == 200 || reply.code == 201 || reply.code == 204)
  }
}
