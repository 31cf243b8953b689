/** The plan catalog of the pricing section: the plan record, the billing
    cycle, the yearly discount constant and the six plans in display order.
    Money is held in integer US cents. */
module PlanCatalog {

  datatype Option<T> = None | Some(value: T)

  /** An amount of money in US cents; every catalog price is non-negative. */
  type Cents = nat

  /** The two values the billing toggle can take. */
  datatype Billing = Monthly | Yearly

  /** The support tiers a plan can grant (a plan may grant none). */
  datatype Support = Limited | Standard | Enterprise

  datatype Overage = Overage(labelText: string, tooltip: Option<string>)

  /** One catalog entry. `isPopular` and `annualEligible` are optional
      booleans: `None` stands for a field the entry leaves out. */
  datatype Plan = Plan(
    name: string,
    priceMonthly: Cents,
    description: string,
    included: string,
    overage: Overage,
    support: Option<Support>,
    isPopular: Option<bool>,
    annualEligible: Option<bool>)

  const YEARLY_DISCOUNT_PERCENT: nat := 10

  /** The entry plan's name, spelled with non-breaking hyphens (U+2011). */
  const PAYG_NAME: string := "Pay\U{2011}as\U{2011}you\U{2011}go"
  const ENTERPRISE_NAME: string := "Enterprise"

  /** Truthiness of an optional boolean: a missing field is falsy. */
  predicate Truthy(flag: Option<bool>) {
    flag == Some(true)
  }

  /** A plan may be offered on annual billing unless it says explicitly that
      it may not (`annualEligible !== false`). */
  predicate Eligible(p: Plan): (eligible: bool)
    ensures eligible <==> p.annualEligible.None? || p.annualEligible.value
  {
    p.annualEligible != Some(false)
  }

  const Plans: seq<Plan> := [
    Plan(PAYG_NAME, 0,
         "No monthly fee. Pay per request as you go",
         "Included: 0 requests",
         Overage("$14 per 1K requests", None),
         None, None, Some(false)),
    Plan("Basic", 6250,
         "For getting started with modest traffic.",
         "Included: 5K requests / month",
         Overage("Overage: $14 per 1K requests", None),
         Some(Limited), None, None),
    Plan("Starter", 23000,
         "For steady workloads that need room to grow.",
         "Included: 20K requests / month",
         Overage("Overage: $14 per 1K requests", None),
         Some(Limited), None, None),
    Plan("Pro", 55000,
         "For production apps with higher demand.",
         "Included: 50K requests / month",
         Overage("Overage: $55 per 5K requests (\U{2248} $11 / 1K)",
                 Some("Pro overage is sold in 5K\U{2011}request bundles at $55 each. Effective rate \U{2248} $11 per 1K.")),
         Some(Standard), Some(true), None),
    Plan("Scale", 150000,
         "For teams scaling traffic and throughput.",
         "Included: 150K requests / month",
         Overage("Overage: $150 per 15K requests (\U{2248} $10 / 1K)",
                 Some("Scale overage is sold in 15K\U{2011}request bundles at $150 each. Effective rate \U{2248} $10 per 1K.")),
         Some(Standard), None, None),
    Plan(ENTERPRISE_NAME, 270000,
         "For mission\U{2011}critical workloads and custom needs.",
         "Included: 300K requests / month",
         Overage("Overage: $270 per 30K requests (\U{2248} $9 / 1K)",
                 Some("Enterprise overage is sold in 30K\U{2011}request bundles at $270 each. Effective rate \U{2248} $9 per 1K.")),
         Some(Enterprise), None, None)
  ]

  predicate UniqueNames(ps: seq<Plan>) {
    forall i, j :: 0 <= i < j < |ps| ==> ps[i].name != ps[j].name
  }

  function Names(ps: seq<Plan>): (r: seq<string>)
    ensures |r| == |ps|
    ensures forall i :: 0 <= i < |ps| ==> r[i] == ps[i].name
  {
    if ps == [] then [] else [ps[0].name] + Names(ps[1..])
  }

  /** The catalog lists six plans in this order: the entry plan first and
      the top-tier plan last. */
  lemma CatalogNames()
    ensures Names(Plans) == [PAYG_NAME, "Basic", "Starter", "Pro", "Scale", ENTERPRISE_NAME]
  {
  }

  /** No two catalog plans share a name. */
  lemma CatalogUniqueNames()
    ensures UniqueNames(Plans)
  {
    // The first two characters tell the six names apart.
    var prefixes := ["Pa", "Ba", "St", "Pr", "Sc", "En"];
    forall i | 0 <= i < |Plans|
      ensures |Plans[i].name| >= 2 && Plans[i].name[..2] == prefixes[i]
    {
    }
  }

  /** Only the first (entry) plan is excluded from annual billing, only Pro is
      marked popular (Pro is the fourth plan), the entry plan is free and grants no support, and every
      price is a whole multiple of ten cents. */
  lemma CatalogFlags()
    ensures forall i :: 0 <= i < |Plans| ==> (Eligible(Plans[i]) <==> i != 0)
    ensures forall i :: 0 <= i < |Plans| ==> (Truthy(Plans[i].isPopular) <==> i == 3)
    ensures Plans[0].priceMonthly == 0 && Plans[0].support == None
    ensures forall i :: 0 <= i < |Plans| ==> Plans[i].priceMonthly % 10 == 0
  {
  }
}
