/** The plan cards of the billing page (src/pages/Billing.tsx) and the choice of each card's
    button. */
module Billing {
  import opened Types
  import Catalog

  /** One entry of the page's `plans` array; only the free card has no price id. */
  datatype PlanCard = PlanCard(name: string, plan: Plan, popular: bool, priceId: Option<string>)

  const FreeCard: PlanCard := PlanCard("Gratuito", Free, false, None)
  const ProCard: PlanCard := PlanCard("Pro", Pro, true, Some(Catalog.StripePlans[Pro].priceId))
  const PremiumCard: PlanCard := PlanCard("Premium", Premium, false, Some(Catalog.StripePlans[Premium].priceId))

  const PlanCards: seq<PlanCard> := [FreeCard, ProCard, PremiumCard]

  /** Each card takes its price id from the catalog entry of its plan. */
  lemma PlanCardsShape()
    ensures |PlanCards| == 3
    ensures forall card :: card in PlanCards ==>
              (card.priceId.None? <==> card.plan == Free)
              && (card.priceId.Some? ==>
                    card.plan in Catalog.StripePlans && card.priceId.value == Catalog.PriceIdOf(card.plan))
    ensures forall i, j :: 0 <= i < j < |PlanCards| ==> PlanCards[i].plan != PlanCards[j].plan
  {
  }

  /** `user?.user_plan || 'free'`: a plan name is never the empty string, so a signed-in user's
      own plan is used. */
  function CurrentPlan(user: Option<User>): (p: Plan)
    ensures user.None? ==> p == Free
    ensures user.Some? ==> p == user.value.userPlan
  {
    if user.Some? then user.value.userPlan else Free
  }

  predicate IsCurrentPlan(card: PlanCard, current: Plan)
  {
    current == card.plan
  }

  predicate CanUpgrade(card: PlanCard, current: Plan)
  {
    card.plan != Free && current == Free
  }

  predicate IsDowngrade(card: PlanCard, current: Plan)
  {
    (card.plan == Free && current != Free) || (card.plan == Pro && current == Premium)
  }

  /** The four buttons: "Plano Atual" (disabled), "Fazer Upgrade" (checkout with the card's
      price id), "Alterar Plano" (the billing portal) and "Plano Inferior" (disabled). */
  datatype Action = CurrentPlanButton | Upgrade(priceId: Option<string>) | ChangePlan | Disabled

  /** The nested conditional choosing a card's button. */
  function ChooseAction(card: PlanCard, current: Plan): (a: Action)
    ensures a == CurrentPlanButton <==> IsCurrentPlan(card, current)
    ensures a.Upgrade? <==> !IsCurrentPlan(card, current) && CanUpgrade(card, current)
    ensures a.Upgrade? ==> a.priceId == card.priceId
    ensures a == ChangePlan <==>
              !IsCurrentPlan(card, current) && !CanUpgrade(card, current) && IsDowngrade(card, current)
    ensures a == Disabled <==>
              !IsCurrentPlan(card, current) && !CanUpgrade(card, current) && !IsDowngrade(card, current)
  {
    if IsCurrentPlan(card, current) then CurrentPlanButton
    else if CanUpgrade(card, current) then Upgrade(card.priceId)
    else if IsDowngrade(card, current) then ChangePlan
    else Disabled
  }

  /** The "Plano Atual" panel with "Gerenciar Assinatura" appears for paid plans only. */
  function ShowManagePanel(current: Plan): (show: bool)
    ensures show <==> current in {Pro, Premium}
  {
    current != Free
  }

  /** Plans in price order. */
  function Rank(p: Plan): nat
  {
    match p
    case Free => 0
    case Pro => 1
    case Premium => 2
  }

  /** The button of every listed card, stated by plan order: the own plan, an upgrade with
      the catalog price from the free plan, the portal towards a cheaper plan, and the
      disabled fallback otherwise. */
  lemma ActionByRank(card: PlanCard, current: Plan)
    requires card in PlanCards
    ensures ChooseAction(card, current) ==
              if card.plan == current then CurrentPlanButton
              else if current == Free then Upgrade(Some(Catalog.PriceIdOf(card.plan)))
              else if Rank(card.plan) < Rank(current) then ChangePlan
              else Disabled
  {
  }

  /** No listed card offers an upgrade without a price id. */
  lemma UpgradeAlwaysHasPrice(card: PlanCard, current: Plan)
    requires card in PlanCards
    ensures ChooseAction(card, current).Upgrade? ==>
              ChooseAction(card, current).priceId.Some? && card.plan in Catalog.StripePlans
  {
  }

  /** The disabled fallback is reached only by a pro user looking at the premium card. */
  lemma DisabledOnlyProToPremium(card: PlanCard, current: Plan)
    requires card in PlanCards
    ensures ChooseAction(card, current) == Disabled <==> card.plan == Premium && current == Pro
  {
  }

  /** A pro user sees the disabled fallback, not an upgrade, on the premium card. */
  lemma ProUserOnPremiumCard()
    ensures ChooseAction(PremiumCard, Pro) == Disabled
  {
  }
}
