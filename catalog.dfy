/** The paid-plan catalog exported by src/lib/stripe.ts (price ids only). */
module Catalog {
  import opened Types

  const ProPriceId: string := "price_pro_monthly"
  const PremiumPriceId: string := "price_premium_monthly"

  datatype CatalogEntry = CatalogEntry(priceId: string)

  /** `STRIPE_PLANS`: one entry per paid plan. */
  const StripePlans: map<Plan, CatalogEntry> :=
    map[Pro := CatalogEntry(ProPriceId), Premium := CatalogEntry(PremiumPriceId)]

  function PriceIdOf(p: Plan): (id: string)
    requires p in StripePlans
    ensures p == Pro ==> id == "price_pro_monthly"
    ensures p == Premium ==> id == "price_premium_monthly"
  {
    StripePlans[p].priceId
  }

  /** The catalog lists exactly the two paid plans, under two distinct price ids. */
  lemma CatalogShape()
    ensures StripePlans.Keys == {Pro, Premium}
    ensures Free !in StripePlans
    ensures StripePlans[Pro].priceId != StripePlans[Premium].priceId
  {
  }
}
