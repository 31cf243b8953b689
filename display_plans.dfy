/** `useDisplayPlans`: the catalog projected through the billing cycle. Each
    plan is carried through unchanged except that `annualEligible` is made
    explicit, and it gains the price to show for the selected cycle. */
module DisplayPlans {
  import opened PlanCatalog

  /** A catalog plan as the pricing cards see it. */
  datatype DisplayPlan = DisplayPlan(plan: Plan, displayPrice: Cents)

  /** The yearly price of a monthly list price of `c` cents: the discount
      taken off and the result rounded to whole cents, halves upward. */
  function DiscountedPrice(c: Cents): (r: Cents)
    ensures r <= c
    ensures 100 * r - 50 <= (100 - YEARLY_DISCOUNT_PERCENT) * c < 100 * r + 50
  {
    ((100 - YEARLY_DISCOUNT_PERCENT) * c + 50) / 100
  }

  /** The plan record after normalisation: only `annualEligible` changes,
      and it becomes true unless it was explicitly false. */
  function Normalized(p: Plan): (q: Plan)
    ensures q.(annualEligible := p.annualEligible) == p
    ensures q.annualEligible.Some?
    ensures Truthy(q.annualEligible) <==> Eligible(p)
    ensures Eligible(q) == Eligible(p)
  {
    p.(annualEligible := Some(Eligible(p)))
  }

  /** One catalog plan as shown under `billing`. */
  function ToDisplayPlan(p: Plan, billing: Billing): (d: DisplayPlan)
    ensures d.plan == Normalized(p)
    ensures d.displayPrice <= p.priceMonthly
    ensures billing == Monthly || !Eligible(p) ==> d.displayPrice == p.priceMonthly
    ensures billing == Yearly && Eligible(p) ==>
      100 * d.displayPrice - 50 <= (100 - YEARLY_DISCOUNT_PERCENT) * p.priceMonthly < 100 * d.displayPrice + 50
  {
    var price :=
      if billing == Monthly then p.priceMonthly
      else if Eligible(p) then DiscountedPrice(p.priceMonthly)
      else p.priceMonthly;
    DisplayPlan(Normalized(p), price)
  }

  /** The whole catalog projected for one billing cycle, in catalog order. */
  function DisplayPlansOf(ps: seq<Plan>, billing: Billing): (r: seq<DisplayPlan>)
    ensures |r| == |ps|
    ensures forall i :: 0 <= i < |ps| ==> r[i].plan == Normalized(ps[i])
    ensures forall i :: 0 <= i < |ps| ==> r[i].displayPrice <= ps[i].priceMonthly
    ensures forall i :: 0 <= i < |ps| && (billing == Monthly || !Eligible(ps[i])) ==>
      r[i].displayPrice == ps[i].priceMonthly
    ensures forall i :: 0 <= i < |ps| && billing == Yearly && Eligible(ps[i]) ==>
      100 * r[i].displayPrice - 50 <= (100 - YEARLY_DISCOUNT_PERCENT) * ps[i].priceMonthly < 100 * r[i].displayPrice + 50
  {
    seq(|ps|, i requires 0 <= i < |ps| => ToDisplayPlan(ps[i], billing))
  }

  /** Normalising twice is normalising once: the flag it writes already
      says what it means. */
  lemma NormalizeIdempotent(p: Plan)
    ensures Normalized(Normalized(p)) == Normalized(p)
  {
  }

  /** Where the list price is a whole multiple of ten cents (as every catalog
      price is), the 10% discount is exact: nothing is rounded away. */
  lemma DiscountIsExact(c: Cents)
    requires c % 10 == 0
    ensures 10 * DiscountedPrice(c) == 9 * c
  {
  }

  /** The derived list keeps the catalog's names in catalog order. */
  lemma {:induction false} DisplayKeepsNames(ps: seq<Plan>, billing: Billing)
    ensures Names(PlansOf(DisplayPlansOf(ps, billing))) == Names(ps)
  {
    var r := DisplayPlansOf(ps, billing);
    assert |Names(PlansOf(r))| == |Names(ps)|;
    forall i | 0 <= i < |ps| ensures Names(PlansOf(r))[i] == Names(ps)[i] {
    }
  }

  /** Unique names in the catalog stay unique in the derived list. */
  lemma {:induction false} DisplayKeepsUniqueNames(ps: seq<Plan>, billing: Billing)
    requires UniqueNames(ps)
    ensures UniqueNames(PlansOf(DisplayPlansOf(ps, billing)))
  {
    var qs := PlansOf(DisplayPlansOf(ps, billing));
    assert forall i :: 0 <= i < |ps| ==> qs[i].name == ps[i].name;
  }

  function PlansOf(ds: seq<DisplayPlan>): (r: seq<Plan>)
    ensures |r| == |ds|
    ensures forall i :: 0 <= i < |ds| ==> r[i] == ds[i].plan
  {
    seq(|ds|, i requires 0 <= i < |ds| => ds[i].plan)
  }

  /** The yearly prices of the catalog: Basic 62.50 becomes 56.25, Starter
      207, Pro 495, Scale 1350, Enterprise 2430, and the entry plan stays at 0. */
  lemma CatalogYearlyPrices()
    ensures |DisplayPlansOf(Plans, Yearly)| == 6
    ensures DisplayPlansOf(Plans, Yearly)[0].displayPrice == 0
    ensures DisplayPlansOf(Plans, Yearly)[1].displayPrice == 5625
    ensures DisplayPlansOf(Plans, Yearly)[2].displayPrice == 20700
    ensures DisplayPlansOf(Plans, Yearly)[3].displayPrice == 49500
    ensures DisplayPlansOf(Plans, Yearly)[4].displayPrice == 135000
    ensures DisplayPlansOf(Plans, Yearly)[5].displayPrice == 243000
  {
    CatalogFlags();
    var r := DisplayPlansOf(Plans, Yearly);
    forall i | 1 <= i < 6 ensures 10 * r[i].displayPrice == 9 * Plans[i].priceMonthly {
      DiscountIsExact(Plans[i].priceMonthly);
    }
  }
}
