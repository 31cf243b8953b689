/** `PlanCard`: the decisions one pricing card makes, without its markup —
    which price texts appear, whether the discount is advertised and by how
    much, whether the call-to-action button is enabled and what it says. */
module PlanCard {
  import opened PlanCatalog
  import opened PriceFormat
  import opened DisplayPlans

  /** The content of one card. `highlighted` covers the "Most Popular"
      badge, the heavier border and the solid button; `strikePrice`, the
      "(Billed annually)" note and `savingsBadge` ("Save $X", whole dollars)
      form the discount display. */
  datatype Card = Card(
    highlighted: bool,
    priceText: string,
    strikePrice: Option<string>,
    billedAnnuallyNote: bool,
    savingsBadge: Option<nat>,
    buttonDisabled: bool,
    buttonLabel: string,
    overageTooltip: Option<string>,
    supportLine: Option<string>)

  /** The card advertises a discount only under yearly billing, and only for
      a plan whose (normalised) flag says it may be billed annually. */
  predicate ShowsDiscount(d: DisplayPlan, billing: Billing): (shown: bool)
    ensures shown ==> billing == Yearly && Eligible(d.plan)
    ensures billing == Yearly && d.plan.annualEligible.Some? ==> (shown <==> Eligible(d.plan))
  {
    billing == Yearly && Truthy(d.plan.annualEligible)
  }

  /** The yearly saving on a monthly list price of `c` cents, in whole
      dollars: twelve months of the discount, rounded to the nearest dollar,
      halves upward. */
  function YearlySavings(c: Cents): (dollars: nat)
    ensures 10000 * dollars - 5000 <= 12 * YEARLY_DISCOUNT_PERCENT * c < 10000 * dollars + 5000
  {
    (12 * YEARLY_DISCOUNT_PERCENT * c + 5000) / 10000
  }

  /** The button is disabled for a plan that has no annual offer while
      yearly billing is selected. */
  predicate ButtonDisabled(d: DisplayPlan, billing: Billing): (disabled: bool)
    ensures billing == Monthly ==> !disabled
    ensures billing == Yearly ==> (disabled <==> !ShowsDiscount(d, billing))
  {
    billing == Yearly && !Truthy(d.plan.annualEligible)
  }

  /** The button text: every plan but the entry plan says "Choose <name>";
      the entry plan says whether it can be started. */
  function ButtonLabel(name: string, billing: Billing): (text: string)
    ensures name != PAYG_NAME ==> |text| == 7 + |name| && text[..7] == "Choose " && text[7..] == name
    ensures name == PAYG_NAME && billing == Monthly ==> text == "Start with PAYG"
    ensures name == PAYG_NAME && billing == Yearly ==> text == "No annual plan"
  {
    if name != PAYG_NAME then "Choose " + name
    else if billing == Monthly then "Start with PAYG"
    else "No annual plan"
  }

  function SupportName(s: Support): string {
    match s
    case Limited => "Limited"
    case Standard => "Standard"
    case Enterprise => "Enterprise"
  }

  /** An optional text is rendered only when it is present and non-empty
      (an empty string is falsy). */
  function Rendered(text: Option<string>): (r: Option<string>)
    ensures r.Some? <==> text.Some? && text.value != ""
    ensures r.Some? ==> r == text
  {
    if text.Some? && text.value != "" then text else None
  }

  function RenderCard(d: DisplayPlan, billing: Billing): (c: Card)
    ensures ParsePrice(c.priceText) == Some(d.displayPrice)
    ensures c.strikePrice.Some? <==> ShowsDiscount(d, billing)
    ensures c.strikePrice.Some? ==> ParsePrice(c.strikePrice.value) == Some(d.plan.priceMonthly)
    ensures c.billedAnnuallyNote <==> ShowsDiscount(d, billing)
    ensures c.savingsBadge.Some? <==> ShowsDiscount(d, billing)
    ensures c.buttonDisabled ==> !ShowsDiscount(d, billing)
    ensures c.overageTooltip.Some? <==> d.plan.overage.tooltip.Some? && d.plan.overage.tooltip.value != ""
    ensures c.overageTooltip.Some? ==> c.overageTooltip == d.plan.overage.tooltip
    ensures c.supportLine.Some? <==> d.plan.support.Some?
    ensures c.supportLine.Some? ==> c.supportLine == Some(SupportName(d.plan.support.value) + " Support")
  {
    ParseFormatPrice(d.displayPrice);
    ParseFormatPrice(d.plan.priceMonthly);
    var discount := ShowsDiscount(d, billing);
    Card(
      highlighted := Truthy(d.plan.isPopular),
      priceText := FormatPrice(d.displayPrice),
      strikePrice := if discount then Some(FormatPrice(d.plan.priceMonthly)) else None,
      billedAnnuallyNote := discount,
      savingsBadge := if discount then Some(YearlySavings(d.plan.priceMonthly)) else None,
      buttonDisabled := ButtonDisabled(d, billing),
      buttonLabel := ButtonLabel(d.plan.name, billing),
      overageTooltip := Rendered(d.plan.overage.tooltip),
      supportLine := if d.plan.support.Some? then Some(SupportName(d.plan.support.value) + " Support") else None)
  }

  /** The card of the i-th derived plan, stated against the catalog entry
      it came from: the discount display appears exactly under yearly
      billing for an eligible plan, shows the list price and the yearly
      saving; the button is disabled exactly under yearly billing for an
      ineligible plan; the label depends on the cycle only for the entry plan. */
  lemma {:induction false} CardOfDerivedPlan(ps: seq<Plan>, billing: Billing, i: nat)
    requires i < |ps|
    ensures var c := RenderCard(DisplayPlansOf(ps, billing)[i], billing);
      && c.highlighted == Truthy(ps[i].isPopular)
      && (c.strikePrice.Some? <==> billing == Yearly && Eligible(ps[i]))
      && (c.billedAnnuallyNote <==> billing == Yearly && Eligible(ps[i]))
      && (c.savingsBadge.Some? <==> billing == Yearly && Eligible(ps[i]))
      && (c.strikePrice.Some? ==> c.strikePrice == Some(FormatPrice(ps[i].priceMonthly)))
      && (c.savingsBadge.Some? ==> c.savingsBadge == Some(YearlySavings(ps[i].priceMonthly)))
      && (c.buttonDisabled <==> billing == Yearly && !Eligible(ps[i]))
      && (ps[i].name != PAYG_NAME ==> c.buttonLabel == "Choose " + ps[i].name)
      && (ps[i].name == PAYG_NAME ==>
            c.buttonLabel == if billing == Monthly then "Start with PAYG" else "No annual plan")
  {
    var d := DisplayPlansOf(ps, billing)[i];
    assert d.plan == Normalized(ps[i]);
  }

  /** The "Save $X" badge agrees with the price cut shown on the card: for a
      list price in whole tens of cents, X is twelve months of the monthly
      difference, rounded to the nearest dollar. */
  lemma SavingsMatchPriceCut(c: Cents)
    requires c % 10 == 0
    ensures 100 * YearlySavings(c) - 50 <= 12 * (c - DiscountedPrice(c)) < 100 * YearlySavings(c) + 50
  {
    DiscountIsExact(c);
  }

  /** Among the catalog's cards, the entry plan's button is the only one
      ever disabled, and only under yearly billing. */
  lemma CatalogButtons(billing: Billing)
    ensures |DisplayPlansOf(Plans, billing)| == 6
    ensures forall i :: 0 <= i < 6 ==>
      (RenderCard(DisplayPlansOf(Plans, billing)[i], billing).buttonDisabled <==> billing == Yearly && i == 0)
  {
    CatalogFlags();
    forall i | 0 <= i < 6
      ensures RenderCard(DisplayPlansOf(Plans, billing)[i], billing).buttonDisabled <==> billing == Yearly && i == 0
    {
      CardOfDerivedPlan(Plans, billing, i);
    }
  }

  /** The entry plan's card: "Start with PAYG" under monthly billing, "No
      annual plan" under yearly billing, and never a savings badge. */
  lemma EntryPlanCard(billing: Billing)
    ensures |DisplayPlansOf(Plans, billing)| == 6
    ensures var c := RenderCard(DisplayPlansOf(Plans, billing)[0], billing);
      && c.buttonLabel == (if billing == Monthly then "Start with PAYG" else "No annual plan")
      && c.savingsBadge == None
      && c.strikePrice == None
  {
    CatalogFlags();
    CardOfDerivedPlan(Plans, billing, 0);
  }

  /** Under yearly billing every catalog plan but the entry plan carries a
      savings badge for its own list price. */
  lemma CatalogBadge(i: nat)
    requires 1 <= i < 6
    ensures |DisplayPlansOf(Plans, Yearly)| == 6
    ensures RenderCard(DisplayPlansOf(Plans, Yearly)[i], Yearly).savingsBadge == Some(YearlySavings(Plans[i].priceMonthly))
  {
    CatalogFlags();
    CardOfDerivedPlan(Plans, Yearly, i);
  }

  /** Under yearly billing the savings badges read 75 (Basic), 660 (Pro)
      and 3240 (Enterprise). */
  lemma CatalogSavings()
    ensures |DisplayPlansOf(Plans, Yearly)| == 6
    ensures RenderCard(DisplayPlansOf(Plans, Yearly)[1], Yearly).savingsBadge == Some(75)
    ensures RenderCard(DisplayPlansOf(Plans, Yearly)[3], Yearly).savingsBadge == Some(660)
    ensures RenderCard(DisplayPlansOf(Plans, Yearly)[5], Yearly).savingsBadge == Some(3240)
  {
    assert YearlySavings(6250) == 75 && YearlySavings(55000) == 660 && YearlySavings(270000) == 3240;
    assert Plans[1].priceMonthly == 6250 && Plans[3].priceMonthly == 55000 && Plans[5].priceMonthly == 270000;
    CatalogBadge(1);
    CatalogBadge(3);
    CatalogBadge(5);
  }
}
