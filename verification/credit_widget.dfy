/**
 * The credit widget: the plan cap, the usage bar, the low-balance and
 * blocked messages, the countdown line and the buy button, chosen from the
 * credits view. Percentages are real numbers.
 */
module CreditWidget {
  import opened Optional
  import opened Credits

  /** `maxCredits`: the monthly allowance drawn as the full bar. */
  function MaxCredits(plan: string): (cap: int)
    ensures plan == "trial" ==> cap == 50
    ensures plan == "starter" ==> cap == 100
    ensures plan == "growth" ==> cap == 300
    ensures plan != "trial" && plan != "starter" && plan != "growth" ==> cap == 800
    ensures cap > 0
  {
    if plan == "trial" then 50 else if plan == "starter" then 100 else if plan == "growth" then 300 else 800
  }

  /**
   * `usagePercent`: the used share of the plan allowance, capped above at
   * 100 and not capped below.
   */
  function UsagePercent(plan: string, planCredits: int): (used: real)
    ensures used <= 100.0
    ensures planCredits <= 0 ==> used == 100.0
    ensures 0 <= planCredits <= MaxCredits(plan) ==> 0.0 <= used
    ensures planCredits > MaxCredits(plan) ==> used < 0.0
    ensures planCredits >= 0 ==>
      used * (MaxCredits(plan) as real) == ((MaxCredits(plan) - planCredits) as real) * 100.0
  {
    var cap := MaxCredits(plan) as real;
    var share := ((cap - planCredits as real) / cap) * 100.0;
    if share < 100.0 then share else 100.0
  }

  /** `isLowCredits`: some credits left, but twenty or fewer. */
  predicate IsLowCredits(totalCredits: int): (low: bool)
    ensures low ==> totalCredits > 0
    ensures totalCredits > 20 ==> !low
    ensures 1 <= totalCredits <= 20 ==> low
  {
    totalCredits <= 20 && totalCredits > 0
  }

  /** The countdown line: days to the end of the trial, or days to renewal. */
  datatype Countdown = TrialEndsIn(days: nat) | RenewsIn(days: nat)

  /** The blocked alert's title and hint. */
  datatype Alert = Alert(title: string, hint: string)

  /** The buy button: its label, and whether it is drawn as the primary (filled) variant. */
  datatype BuyButton = BuyButton(text: string, primary: bool)

  /** What the widget renders. */
  datatype Widget =
    | Skeleton
    | CompactBadge(credits: int)
    | Panel(credits: int, planName: string, planCredits: int, extraCredits: int, remainingBar: real, cap: int,
            countdown: Countdown, lowWarning: bool, blockedAlert: Option<Alert>, buyButton: Option<BuyButton>)

  const TrialExpiredTitle := "Trial expirado"
  const NoCreditsTitle := "Sem créditos"
  const TrialExpiredHint := "Escolha um plano para continuar."
  const NoCreditsHint := "Compre créditos extras ou aguarde a renovação."
  const ViewPlansLabel := "Ver Planos"
  const BuyCreditsLabel := "Comprar Créditos"

  /** The blocked alert's text, chosen by whether the reason is an ended trial. */
  function BlockedAlert(reason: Option<BlockReason>): (a: Alert)
    ensures a.title == TrialExpiredTitle <==> reason == Some(TrialExpired)
    ensures a.title == NoCreditsTitle <==> reason != Some(TrialExpired)
    ensures a.hint == (if reason == Some(TrialExpired) then TrialExpiredHint else NoCreditsHint)
  {
    if reason == Some(TrialExpired) then Alert(TrialExpiredTitle, TrialExpiredHint)
    else Alert(NoCreditsTitle, NoCreditsHint)
  }

  /**
   * `CreditWidget`: the skeleton while loading, the badge in compact mode,
   * otherwise the full panel. `hasBuyHandler` says whether `onBuyCredits`
   * was given.
   */
  function Render(v: CreditsView, loading: bool, compact: bool, hasBuyHandler: bool): (w: Widget)
    ensures loading <==> w.Skeleton?
    ensures !loading && compact ==> w == CompactBadge(v.totalCredits)
    ensures !loading && !compact ==> w.Panel?
    ensures w.Panel? ==>
      && w.credits == v.totalCredits && w.planName == v.planName && w.cap == MaxCredits(v.plan)
      && w.remainingBar == 100.0 - UsagePercent(v.plan, v.planCredits)
      && w.countdown == (if v.plan == "trial" then TrialEndsIn(v.daysToTrialEnd) else RenewsIn(v.daysToRenew))
      && (w.lowWarning <==> IsLowCredits(v.totalCredits) && !v.isBlocked)
      && w.planCredits == v.planCredits && w.extraCredits == v.extraCredits
      && (w.blockedAlert.Some? <==> v.isBlocked)
      && (w.blockedAlert.Some? ==> w.blockedAlert.value == BlockedAlert(v.blockReason))
      && (w.blockedAlert.Some? ==> (w.blockedAlert.value.title == TrialExpiredTitle <==> v.blockReason == Some(TrialExpired)))
      && (w.buyButton.Some? <==> hasBuyHandler && (IsLowCredits(v.totalCredits) || v.isBlocked))
      && (w.buyButton.Some? ==> (w.buyButton.value.text == ViewPlansLabel <==> v.blockReason == Some(TrialExpired)))
      && (w.buyButton.Some? ==> (w.buyButton.value.text == BuyCreditsLabel <==> v.blockReason != Some(TrialExpired)))
      && (w.buyButton.Some? ==> (w.buyButton.value.primary <==> v.isBlocked))
  {
    if loading then Skeleton
    else if compact then CompactBadge(v.totalCredits)
    else
      var low := IsLowCredits(v.totalCredits);
      var countdown := if v.plan == "trial" then TrialEndsIn(v.daysToTrialEnd) else RenewsIn(v.daysToRenew);
      var alert := if v.isBlocked then Some(BlockedAlert(v.blockReason)) else None;
      var button :=
        if hasBuyHandler && (low || v.isBlocked) then
          Some(BuyButton(if v.blockReason == Some(TrialExpired) then ViewPlansLabel else BuyCreditsLabel, v.isBlocked))
        else None;
      Panel(v.totalCredits, v.planName, v.planCredits, v.extraCredits, 100.0 - UsagePercent(v.plan, v.planCredits),
            MaxCredits(v.plan), countdown, low && !v.isBlocked, alert, button)
  }

  /**
   * For a view computed from a store record, the low-balance warning shows
   * exactly when 1 to 20 credits are left and the trial has not ended, and
   * it never shows together with the blocked alert.
   */
  lemma LowWarningForStoredView(rec: StoreRecord, now: int, hasBuyHandler: bool)
    ensures var v := ViewOf(rec, now);
      var w := Render(v, false, false, hasBuyHandler);
      && (w.lowWarning <==> IsLowCredits(v.totalCredits) && !TrialOver(v.plan, rec.trialEndsAt, now))
      && !(w.lowWarning && w.blockedAlert.Some?)
  {
  }

  /**
   * For a view computed from a store record, an ended trial shows the
   * "Trial expirado" alert and a "Ver Planos" button (when a handler is
   * given); a store out of credits shows "Sem créditos" and "Comprar Créditos".
   */
  lemma MessagesForStoredView(rec: StoreRecord, now: int)
    ensures var v := ViewOf(rec, now);
      var w := Render(v, false, false, true);
      && (TrialOver(v.plan, rec.trialEndsAt, now) ==>
            w.blockedAlert == Some(Alert(TrialExpiredTitle, TrialExpiredHint))
            && w.buyButton == Some(BuyButton(ViewPlansLabel, true)))
      && (!TrialOver(v.plan, rec.trialEndsAt, now) && v.totalCredits <= 0 ==>
            w.blockedAlert == Some(Alert(NoCreditsTitle, NoCreditsHint))
            && w.buyButton == Some(BuyButton(BuyCreditsLabel, true)))
  {
  }
}
