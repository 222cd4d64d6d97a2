/**
 * The credits hook: the balance view computed from a store record (fetched
 * or pushed by the realtime channel), its eligibility rule, the day counters,
 * and the translation of the two server procedures' answers.
 *
 * Times are integer milliseconds; the current time is a parameter.
 */
module Credits {
  import opened Optional

  /** Milliseconds in a day, `1000 * 60 * 60 * 24`. */
  const MsPerDay: int := 86400000

  const LoadErrorMessage := "Erro ao carregar créditos"
  const StoreNotFound := "STORE_NOT_FOUND"
  const RpcErrorReason := "ERROR"

  /** Why generation is blocked; `None` in an `Option<BlockReason>` is the source's `null`. */
  datatype BlockReason = TrialExpired | NoCredits

  /** The store columns read by the hook; an absent column is `None`. */
  datatype StoreRecord = StoreRecord(
    planCredits: Option<int>,
    extraCredits: Option<int>,
    plan: Option<string>,
    trialEndsAt: Option<int>,
    planRenewsAt: Option<int>)

  /** The balance view the hook exposes. */
  datatype CreditsView = CreditsView(
    planCredits: int,
    extraCredits: int,
    totalCredits: int,
    plan: string,
    planName: string,
    trialEndsAt: Option<int>,
    planRenewsAt: Option<int>,
    isBlocked: bool,
    blockReason: Option<BlockReason>,
    daysToRenew: nat,
    daysToTrialEnd: nat)

  /** The four plans that have a display name. */
  predicate KnownPlan(plan: string) {
    plan == "trial" || plan == "starter" || plan == "growth" || plan == "pro"
  }

  /** The view before the first fetch completes. */
  const InitialView: CreditsView :=
    CreditsView(0, 0, 0, "trial", "Trial Grátis", None, None, false, None, 0, 0)

  /** The `planNames` table entry for a known plan, the raw plan string otherwise. */
  function PlanName(plan: string): (name: string)
    ensures plan == "trial" ==> name == "Trial Grátis"
    ensures plan == "starter" ==> name == "Starter"
    ensures plan == "growth" ==> name == "Growth"
    ensures plan == "pro" ==> name == "Pro"
    ensures !KnownPlan(plan) ==> name == plan
  {
    if plan == "trial" then "Trial Grátis"
    else if plan == "starter" then "Starter"
    else if plan == "growth" then "Growth"
    else if plan == "pro" then "Pro"
    else plan
  }

  /** The display name equals the raw plan string exactly when the plan is not one of the four known ones. */
  lemma PlanNameIsRawOnlyForUnknownPlans(plan: string)
    ensures PlanName(plan) == plan <==> !KnownPlan(plan)
  {
    if plan == "trial" {
      assert PlanName(plan)[0] == 'T' != plan[0];
    } else if plan == "starter" {
      assert PlanName(plan)[0] == 'S' != plan[0];
    } else if plan == "growth" {
      assert PlanName(plan)[0] == 'G' != plan[0];
    } else if plan == "pro" {
      assert PlanName(plan)[0] == 'P' != plan[0];
    }
  }

  /**
   * `calculateDaysRemaining`: whole days from `now` to `date`, rounded up,
   * and never negative.
   */
  function DaysRemaining(date: Option<int>, now: int): (days: nat)
    ensures date.None? ==> days == 0
    ensures date.Some? && date.value <= now ==> days == 0
    ensures date.Some? && date.value > now ==>
      days >= 1 && (days - 1) * MsPerDay < date.value - now <= days * MsPerDay
  {
    if date.None? then 0
    else
      var diff := date.value - now;
      if diff <= 0 then 0 else (diff + MsPerDay - 1) / MsPerDay
  }

  /** The trial of a trial plan has ended strictly before `now`. */
  predicate TrialOver(plan: string, trialEndsAt: Option<int>, now: int) {
    plan == "trial" && trialEndsAt.Some? && trialEndsAt.value < now
  }

  /** The block rule: an ended trial first, then a balance of zero or less. */
  function Evaluate(plan: string, trialEndsAt: Option<int>, totalCredits: int, now: int): (reason: Option<BlockReason>)
    ensures reason == Some(TrialExpired) <==> TrialOver(plan, trialEndsAt, now)
    ensures reason == Some(NoCredits) <==> !TrialOver(plan, trialEndsAt, now) && totalCredits <= 0
    ensures reason == None <==> !TrialOver(plan, trialEndsAt, now) && totalCredits > 0
  {
    if TrialOver(plan, trialEndsAt, now) then Some(TrialExpired)
    else if totalCredits <= 0 then Some(NoCredits)
    else None
  }

  /** The view the hook derives from a store record. */
  function ViewOf(rec: StoreRecord, now: int): (v: CreditsView)
    ensures v.planCredits == rec.planCredits.GetOr(0) && v.extraCredits == rec.extraCredits.GetOr(0)
    ensures v.totalCredits == v.planCredits + v.extraCredits
    ensures v.plan == rec.plan.GetOr("trial") && v.planName == PlanName(v.plan)
    ensures v.isBlocked <==> v.blockReason.Some?
    ensures v.blockReason == Evaluate(v.plan, rec.trialEndsAt, v.totalCredits, now)
    ensures v.daysToRenew == DaysRemaining(rec.planRenewsAt, now)
    ensures v.daysToTrialEnd == DaysRemaining(rec.trialEndsAt, now)
    ensures v.trialEndsAt == rec.trialEndsAt && v.planRenewsAt == rec.planRenewsAt
  {
    var planCredits := rec.planCredits.GetOr(0);
    var extraCredits := rec.extraCredits.GetOr(0);
    var total := planCredits + extraCredits;
    var plan := rec.plan.GetOr("trial");
    var reason := Evaluate(plan, rec.trialEndsAt, total, now);
    CreditsView(planCredits, extraCredits, total, plan, PlanName(plan), rec.trialEndsAt, rec.planRenewsAt,
                reason.Some?, reason, DaysRemaining(rec.planRenewsAt, now), DaysRemaining(rec.trialEndsAt, now))
  }

  /** What every view the hook holds satisfies. */
  predicate Consistent(v: CreditsView) {
    v.totalCredits == v.planCredits + v.extraCredits
    && (v.isBlocked <==> v.blockReason.Some?)
    && v.planName == PlanName(v.plan)
  }

  /**
   * The block evaluation as both handlers write it: start unblocked, then
   * set the flag and the reason in the branch that applies.
   */
  method EvaluateBlock(plan: string, trialEndsAt: Option<int>, totalCredits: int, now: int)
    returns (isBlocked: bool, blockReason: Option<BlockReason>)
    ensures blockReason == Evaluate(plan, trialEndsAt, totalCredits, now)
    ensures isBlocked <==> blockReason.Some?
  {
    isBlocked := false;
    blockReason := None;
    if plan == "trial" && trialEndsAt.Some? && trialEndsAt.value < now {
      isBlocked := true;
      blockReason := Some(TrialExpired);
    } else if totalCredits <= 0 {
      isBlocked := true;
      blockReason := Some(NoCredits);
    }
  }

  /** Builds the view from a record, defaulting absent columns as the handlers do. */
  method BuildView(rec: StoreRecord, now: int) returns (v: CreditsView)
    ensures v == ViewOf(rec, now) && Consistent(v)
  {
    var planCredits := rec.planCredits.GetOr(0);
    var extraCredits := rec.extraCredits.GetOr(0);
    var totalCredits := planCredits + extraCredits;
    var plan := rec.plan.GetOr("trial");
    var isBlocked, blockReason := EvaluateBlock(plan, rec.trialEndsAt, totalCredits, now);
    v := CreditsView(planCredits, extraCredits, totalCredits, plan, PlanName(plan), rec.trialEndsAt, rec.planRenewsAt,
                     isBlocked, blockReason, DaysRemaining(rec.planRenewsAt, now), DaysRemaining(rec.trialEndsAt, now));
  }

  /** The answer of the store query: an error, or the row (which may be `null`). */
  datatype StoreQuery = QueryFailed | QueryRow(row: Option<StoreRecord>)

  /** A record with every column absent: what a `null` row reads as. */
  const AbsentRecord := StoreRecord(None, None, None, None, None)

  /** The hook's state: the view, the loading flag and the error text. */
  class CreditsHook {
    var data: CreditsView
    var loading: bool
    var error: Option<string>

    ghost predicate Valid()
      reads this
    {
      Consistent(data)
    }

    constructor ()
      ensures Valid() && data == InitialView && loading && error == None
    {
      assert PlanName("trial") == "Trial Grátis";
      data := InitialView;
      loading := true;
      error := None;
    }

    /**
     * `fetchCreditsData`: without a store nothing is read and loading stops;
     * a failed query sets the error and keeps the old view; otherwise the
     * view is recomputed from the row. Loading is off afterwards in every case.
     */
    method FetchCreditsData(storeId: Option<string>, query: StoreQuery, now: int)
      requires Valid()
      modifies this
      ensures Valid() && !loading
      ensures !Truthy(storeId) ==> data == old(data) && error == old(error)
      ensures Truthy(storeId) && query.QueryFailed? ==> data == old(data) && error == Some(LoadErrorMessage)
      ensures Truthy(storeId) && query.QueryRow? ==>
        data == ViewOf(query.row.GetOr(AbsentRecord), now) && error == None
    {
      if !Truthy(storeId) {
        loading := false;
        return;
      }
      loading := true;
      error := None;
      match query {
        case QueryFailed =>
          error := Some(LoadErrorMessage);
        case QueryRow(row) =>
          var v := BuildView(row.GetOr(AbsentRecord), now);
          data := v;
      }
      loading := false;
    }

    /** The realtime UPDATE handler: the view is recomputed from the pushed row alone. */
    method OnRealtimeUpdate(pushed: StoreRecord, now: int)
      requires Valid()
      modifies this
      ensures Valid()
      ensures data == ViewOf(pushed, now)
      ensures loading == old(loading) && error == old(error)
    {
      var v := BuildView(pushed, now);
      data := v;
    }
  }

  /** An ended trial blocks with `TRIAL_EXPIRED` whatever the balance. */
  lemma TrialExpiryDominates(rec: StoreRecord, now: int)
    requires rec.plan.GetOr("trial") == "trial" && rec.trialEndsAt.Some? && rec.trialEndsAt.value < now
    ensures ViewOf(rec, now).isBlocked && ViewOf(rec, now).blockReason == Some(TrialExpired)
  {
  }

  /** A trial that ended a day ago with 50 extra credits is blocked as expired. */
  lemma ExpiredTrialWithExtraCredits(now: int)
    ensures var v := ViewOf(StoreRecord(Some(0), Some(50), Some("trial"), Some(now - MsPerDay), None), now);
      v.totalCredits == 50 && v.blockReason == Some(TrialExpired) && v.daysToTrialEnd == 0
  {
  }

  /** A starter plan with no credits of either kind is blocked for lack of credits. */
  lemma EmptyStarterHasNoCredits(now: int)
    ensures ViewOf(StoreRecord(Some(0), Some(0), Some("starter"), None, None), now).blockReason == Some(NoCredits)
  {
  }

  // ------------------------------------------------------ server procedures

  /** A procedure call: it failed (error returned or thrown), or it returned data, possibly `null`. */
  datatype RpcReply<T> = RpcFailed | RpcData(result: Option<T>)

  /** The JSON of `can_generate_tryon`. */
  datatype EligibilityJson = EligibilityJson(allowed: Option<bool>, reason: Option<string>)

  /** The JSON of `consume_credit`. */
  datatype ConsumeJson = ConsumeJson(success: Option<bool>, creditsRemaining: Option<int>, error: Option<string>)

  datatype Permission = Permission(allowed: bool, reason: Option<string>)

  datatype Consumption = Consumption(success: bool, creditsRemaining: Option<int>, error: Option<string>)

  /** `canGenerateTryOn`: the server's verdict, or the client's own refusal. */
  function CanGenerateTryOn(storeId: Option<string>, reply: RpcReply<EligibilityJson>): (p: Permission)
    ensures p.allowed <==>
      Truthy(storeId) && reply.RpcData? && reply.result.Some? && reply.result.value.allowed == Some(true)
    ensures !Truthy(storeId) ==> p.reason == Some(StoreNotFound)
    ensures Truthy(storeId) && reply.RpcFailed? ==> p.reason == Some(RpcErrorReason)
    ensures Truthy(storeId) && reply.RpcData? ==>
      p.reason == (if reply.result.Some? then reply.result.value.reason else None)
  {
    if !Truthy(storeId) then Permission(false, Some(StoreNotFound))
    else match reply
      case RpcFailed => Permission(false, Some(RpcErrorReason))
      case RpcData(result) =>
        match result
        case None => Permission(false, None)
        case Some(json) => Permission(json.allowed.GetOr(false), json.reason)
  }

  /** `consumeCredit`: success and the remaining balance only when the server reports success. */
  function ConsumeCredit(storeId: Option<string>, reply: RpcReply<ConsumeJson>): (c: Consumption)
    ensures c.success <==>
      Truthy(storeId) && reply.RpcData? && reply.result.Some? && reply.result.value.success == Some(true)
    ensures c.success ==> c.creditsRemaining == reply.result.value.creditsRemaining && c.error == None
    ensures !c.success ==> c.creditsRemaining == None
    ensures !Truthy(storeId) ==> c.error == Some(StoreNotFound)
    ensures Truthy(storeId) && reply.RpcFailed? ==> c.error == Some(RpcErrorReason)
    ensures Truthy(storeId) && reply.RpcData? && !c.success ==>
      c.error == (if reply.result.Some? then reply.result.value.error else None)
  {
    if !Truthy(storeId) then Consumption(false, None, Some(StoreNotFound))
    else match reply
      case RpcFailed => Consumption(false, None, Some(RpcErrorReason))
      case RpcData(result) =>
        if result.Some? && result.value.success == Some(true) then
          Consumption(true, result.value.creditsRemaining, None)
        else
          Consumption(false, None, if result.Some? then result.value.error else None)
  }
}
