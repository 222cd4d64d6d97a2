/**
 * The screen shown in place of the studio when generation is blocked: one
 * screen per block reason, each with its own actions, and nothing when
 * there is no reason.
 */
module BlockedScreen {
  import opened Optional
  import opened Credits

  /** The two callbacks a button may invoke. */
  datatype Handler = OnViewPlans | OnBuyCredits

  datatype Action = Action(caption: string, handler: Handler)

  /** A rendered blocked screen; `renewalDays` is the renewal sentence, when shown. */
  datatype Screen = Screen(title: string, renewalDays: Option<nat>, actions: seq<Action>)

  const TrialScreenTitle := "Trial Expirado"
  const NoCreditsScreenTitle := "Sem Créditos"
  const ViewPlans := Action("Ver Planos", OnViewPlans)
  const BuyExtraCredits := Action("Comprar Créditos Extras", OnBuyCredits)
  const Upgrade := Action("Fazer Upgrade", OnViewPlans)

  /** `BlockedScreen`: chosen by the reason, with `daysToRenew` from the credits view. */
  function Render(reason: Option<BlockReason>, daysToRenew: nat): (screen: Option<Screen>)
    ensures reason == None <==> screen == None
    ensures reason == Some(TrialExpired) ==>
      screen == Some(Screen(TrialScreenTitle, None, [ViewPlans]))
    ensures reason == Some(NoCredits) ==>
      && screen.Some? && screen.value.title == NoCreditsScreenTitle
      && screen.value.actions == [BuyExtraCredits, Upgrade]
      && (screen.value.renewalDays.Some? <==> daysToRenew > 0)
      && (screen.value.renewalDays.Some? ==> screen.value.renewalDays.value == daysToRenew)
    ensures screen.Some? && screen.value.renewalDays.Some? ==> reason == Some(NoCredits)
  {
    match reason
    case None => None
    case Some(TrialExpired) => Some(Screen(TrialScreenTitle, None, [ViewPlans]))
    case Some(NoCredits) =>
      Some(Screen(NoCreditsScreenTitle, if daysToRenew > 0 then Some(daysToRenew) else None, [BuyExtraCredits, Upgrade]))
  }

  /** Every button of the trial screen leads to the plans; the buy handler is never reachable from it. */
  lemma TrialScreenOnlyViewsPlans(daysToRenew: nat)
    ensures var s := Render(Some(TrialExpired), daysToRenew);
      s.Some? && forall a :: a in s.value.actions ==> a.handler == OnViewPlans
  {
  }

  /**
   * For a store out of credits, the renewal sentence appears exactly when
   * the store has a renewal date still in the future.
   */
  lemma RenewalSentenceForStoredView(rec: StoreRecord, now: int)
    requires ViewOf(rec, now).blockReason == Some(NoCredits)
    ensures var v := ViewOf(rec, now);
      var s := Render(v.blockReason, v.daysToRenew);
      s.Some? && (s.value.renewalDays.Some? <==> rec.planRenewsAt.Some? && rec.planRenewsAt.value > now)
  {
  }
}
