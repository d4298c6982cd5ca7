/**
 * The credit packages on sale (`pricingPlans` in src/constants/constats.tsx),
 * with every amount of money in euro cents so that the arithmetic between
 * the columns is exact.
 */
module Pricing {

  /**
   * One package. `productEnv` names the environment variable that holds the
   * Stripe product id; its value is configuration and is not modelled.
   */
  datatype Plan = Plan(
    id: string, packageName: string, credits: int, priceCents: int, currency: string,
    centsPerCredit: int, savingsCents: int, savingsPercentage: int,
    productEnv: string, popular: bool)

  /** The rate of the single-credit package, against which savings are measured. */
  const StarterCentsPerCredit := 500

  const Plans: seq<Plan> := [
    Plan("starter", "Starter", 1, 500, "EUR", 500, 0, 0, "NEXT_PUBLIC_STRIPE_STARTER_ID", false),
    Plan("small-bundle", "Small Bundle", 2, 800, "EUR", 400, 200, 20, "NEXT_PUBLIC_STRIPE_SMALL_BUNDLE_ID", false),
    Plan("popular-choice", "Popular Choice", 5, 1800, "EUR", 360, 700, 28, "NEXT_PUBLIC_STRIPE_POPULAR_CHOICE_ID", true),
    Plan("pro-bundle", "Pro Bundle", 10, 3400, "EUR", 340, 1600, 32, "NEXT_PUBLIC_STRIPE_PRO_BUNDLE_ID", false),
    Plan("power-seller", "Power Seller", 20, 6500, "EUR", 325, 3500, 35, "NEXT_PUBLIC_STRIPE_POWER_SELLER_ID", false),
    Plan("ultimate-plan", "Ultimate Plan", 50, 15000, "EUR", 300, 10000, 40, "NEXT_PUBLIC_STRIPE_ULTIMATE_PLAN_ID", false)
  ]

  /** The columns of one package agree with each other. */
  predicate Consistent(p: Plan)
  {
    && p.credits > 0
    && p.priceCents == p.centsPerCredit * p.credits
    && p.savingsCents == StarterCentsPerCredit * p.credits - p.priceCents
    && p.savingsPercentage * StarterCentsPerCredit * p.credits == 100 * p.savingsCents
  }

  /** The packages that carry the "popular" mark. */
  function PopularCount(plans: seq<Plan>): (n: nat)
    ensures n <= |plans|
  {
    if plans == [] then 0 else (if plans[0].popular then 1 else 0) + PopularCount(plans[1..])
  }

  /** Six packages, all priced in euros, one of them marked popular. */
  lemma TableShape()
    ensures |Plans| == 6
    ensures forall i :: 0 <= i < |Plans| ==> Plans[i].currency == "EUR"
    ensures PopularCount(Plans) == 1 && Plans[2].popular && Plans[2].id == "popular-choice"
  {
    assert Plans[1..][1..][1..][1..][1..][1..] == [];
  }

  /** No two packages share an id. */
  lemma PlanIdsDistinct()
    ensures forall i, j :: 0 <= i < j < |Plans| ==> Plans[i].id != Plans[j].id
  {
    forall i, j | 0 <= i < j < |Plans| ensures Plans[i].id != Plans[j].id {
      assert |Plans[i].id| != |Plans[j].id| || Plans[i].id[0] != Plans[j].id[0];
    }
  }

  /** Every package's price, rate, savings and saving percentage agree exactly. */
  lemma TableConsistent()
    ensures forall i :: 0 <= i < |Plans| ==> Consistent(Plans[i])
  {
  }

  /** Bigger packages cost more in all, less per credit, and save a larger share. */
  lemma MoreCreditsSaveMore()
    ensures forall i :: 0 <= i < |Plans| - 1 ==>
      && Plans[i].credits < Plans[i + 1].credits
      && Plans[i].priceCents < Plans[i + 1].priceCents
      && Plans[i].centsPerCredit > Plans[i + 1].centsPerCredit
      && Plans[i].savingsPercentage < Plans[i + 1].savingsPercentage
  {
  }

  /** A consistent package saves exactly what its lower rate saves on each credit. */
  lemma SavingsFromRate(p: Plan)
    requires Consistent(p)
    ensures p.savingsCents == (StarterCentsPerCredit - p.centsPerCredit) * p.credits
    ensures p.centsPerCredit < StarterCentsPerCredit <==> p.savingsCents > 0
  {
  }
}
