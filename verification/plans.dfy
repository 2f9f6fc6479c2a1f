/** Plans, trials and the plant limit (app/services/supabase_client.py). A
    profile is the row the database returned, `None` when there is none; the
    clock is a parameter (seconds) and a trial end date is read as a
    timestamp when it parses. */
module Plans {
  import opened Common
  import opened Text

  type Row = map<string, Value>

  const TrialDays: int := 14
  const PlantLimit: int := 10

  /** `if not profile`: no row, or an empty one. */
  predicate HasProfile(profile: Option<Row>) {
    profile.Some? && profile.value != map[]
  }

  /** `is_premium`. */
  predicate IsPremium(profile: Option<Row>) {
    HasProfile(profile) && Get(profile.value, "plan", Null) == Str("premium")
  }

  /** The end of the trial when the profile has one that parses (a parsed
      timestamp is an `Int`); a missing, empty or unparsable date counts as
      none, as the source's handlers turn the error into "no trial". */
  function TrialEnd(profile: Option<Row>): (t: Option<int>)
    ensures t.Some? <==> HasProfile(profile) && Get(profile.value, "trial_ends_at", Null).Int?
    ensures t.Some? ==> profile.value["trial_ends_at"] == Int(t.value)
  {
    if !HasProfile(profile) then None
    else match Get(profile.value, "trial_ends_at", Null)
      case Int(t) => Some(t)
      case _ => None
  }

  /** `is_in_trial`: strictly before the end. */
  predicate IsInTrial(profile: Option<Row>, now: int) {
    TrialEnd(profile).Some? && now < TrialEnd(profile).value
  }

  /** `trial_days_remaining`: the whole days left (floored), never negative,
      and 0 without a trial. */
  function TrialDaysRemaining(profile: Option<Row>, now: int): (days: nat)
    ensures TrialEnd(profile).None? ==> days == 0
    ensures TrialEnd(profile).Some? && now <= TrialEnd(profile).value ==>
      days * SecondsPerDay <= TrialEnd(profile).value - now < (days + 1) * SecondsPerDay
    ensures TrialEnd(profile).Some? && TrialEnd(profile).value < now ==> days == 0
  {
    match TrialEnd(profile)
    case None => 0
    case Some(t) =>
      WholeDaysBounds(t - now);
      if WholeDays(t - now) < 0 then 0 else WholeDays(t - now)
  }

  /** Days left means the trial is running; the converse fails in the last
      day, which counts as 0 days left while the trial still runs. */
  lemma DaysLeftMeansInTrial(profile: Option<Row>, now: int)
    ensures TrialDaysRemaining(profile, now) > 0 ==> IsInTrial(profile, now)
    ensures !IsInTrial(profile, now) ==> TrialDaysRemaining(profile, now) == 0
  {
  }

  /** `has_premium_access`: paid or in trial. */
  predicate HasPremiumAccess(profile: Option<Row>, now: int) {
    IsPremium(profile) || IsInTrial(profile, now)
  }

  /** The message `can_add_plant` returns with its verdict. */
  datatype Allowance = Unlimited | LimitReached | Remaining(count: int)

  /** `can_add_plant`: premium access is unlimited; otherwise a user below
      ten plants may add the rest. `count` is what `get_plant_count`
      returned (0 when the lookup failed). */
  function CanAddPlant(profile: Option<Row>, now: int, count: int): (r: (bool, Allowance))
    ensures HasPremiumAccess(profile, now) ==> r == (true, Unlimited)
    ensures !HasPremiumAccess(profile, now) ==> (r.0 <==> count < PlantLimit)
    ensures !HasPremiumAccess(profile, now) && r.0 ==> r.1.Remaining? && r.1.count + count == PlantLimit && r.1.count > 0
    ensures !r.0 ==> r.1 == LimitReached
  {
    if HasPremiumAccess(profile, now) then (true, Unlimited)
    else if count >= PlantLimit then (false, LimitReached)
    else (true, Remaining(PlantLimit - count))
  }

  /** A user who may not add a plant cannot add one after adding more. */
  lemma LimitIsMonotone(profile: Option<Row>, now: int, count: int, more: nat)
    requires !CanAddPlant(profile, now, count).0
    ensures !CanAddPlant(profile, now, count + more).0
  {
  }

  /** The row `create_user_profile` inserts: the free plan, onboarding not
      done, and a trial of fourteen days from now. */
  function NewProfile(userId: Value, email: Value, now: int): (p: Row)
    ensures p.Keys == {"id", "email", "plan", "trial_ends_at", "onboarding_completed"}
    ensures p["plan"] == Str("free") && p["onboarding_completed"] == Bool(false)
  {
    map["id" := userId, "email" := email, "plan" := Str("free"),
        "trial_ends_at" := Int(now + TrialDays * SecondsPerDay), "onboarding_completed" := Bool(false)]
  }

  /** A new profile is not premium but has premium access, with all fourteen
      trial days left. */
  lemma NewProfileHasFullTrial(userId: Value, email: Value, now: int)
    ensures var p := Some(NewProfile(userId, email, now));
      && !IsPremium(p) && IsInTrial(p, now) && HasPremiumAccess(p, now)
      && TrialDaysRemaining(p, now) == TrialDays
  {
    var p := Some(NewProfile(userId, email, now));
    assert TrialEnd(p) == Some(now + TrialDays * SecondsPerDay);
  }

  /** `create_user_profile`: nothing without the admin client; the stored
      row; on a duplicate-key error the existing profile (`existing`, the
      answer `get_user_profile` would give); nothing otherwise. */
  function CreateUserProfile(adminClient: bool, reply: WriteReply, existing: Option<Row>): (r: Option<Row>)
    ensures !adminClient ==> r.None?
    ensures adminClient && reply.Stored? ==> (r.Some? <==> |reply.rows| > 0)
    ensures adminClient && reply.Stored? && |reply.rows| > 0 ==> r == Some(reply.rows[0])
    ensures adminClient && reply.WriteRaised? ==>
      r == (if Contains(reply.message, "duplicate key") || Contains(reply.message, "23505") then existing else None)
  {
    if !adminClient then None
    else match reply
      case Stored(rows) => if |rows| > 0 then Some(rows[0]) else None
      case WriteRaised(m) =>
        if Contains(m, "duplicate key") || Contains(m, "23505") then existing else None
  }
}
