/** `Pricing`: the section that holds the billing selection, derives the
    display plans from it and splits them into the entry plan, the
    top-tier plan and the grid of cards in between, by name. */
module PricingSection {
  import opened PlanCatalog
  import opened DisplayPlans
  import opened PlanCard

  /** The first plan carrying `name`, if there is one (`Array.prototype.find`). */
  function FindByName(ds: seq<DisplayPlan>, name: string): (r: Option<DisplayPlan>)
    ensures r.None? <==> forall i :: 0 <= i < |ds| ==> ds[i].plan.name != name
    ensures r.Some? ==> exists i :: 0 <= i < |ds| && ds[i] == r.value && ds[i].plan.name == name &&
                                    (forall j :: 0 <= j < i ==> ds[j].plan.name != name)
  {
    if ds == [] then None
    else if ds[0].plan.name == name then Some(ds[0])
    else FindByName(ds[1..], name)
  }

  /** A plan goes to the grid unless it is the entry or the top-tier plan. */
  predicate InGrid(d: DisplayPlan) {
    d.plan.name != PAYG_NAME && d.plan.name != ENTERPRISE_NAME
  }

  /** The grid plans, in list order (`Array.prototype.filter`). */
  function MiddlePlans(ds: seq<DisplayPlan>): (r: seq<DisplayPlan>)
    ensures |r| <= |ds|
    ensures forall d :: d in r <==> d in ds && InGrid(d)
  {
    if ds == [] then []
    else (if InGrid(ds[0]) then [ds[0]] else []) + MiddlePlans(ds[1..])
  }

  /** The three groups the section lays out. A lookup that finds nothing
      leaves its group empty. */
  datatype Sections = Sections(payg: Option<DisplayPlan>, enterprise: Option<DisplayPlan>, middle: seq<DisplayPlan>)

  function Split(ds: seq<DisplayPlan>): (s: Sections)
    ensures s.payg.None? <==> forall i :: 0 <= i < |ds| ==> ds[i].plan.name != PAYG_NAME
    ensures s.payg.Some? ==> s.payg.value in ds && s.payg.value.plan.name == PAYG_NAME
    ensures s.enterprise.None? <==> forall i :: 0 <= i < |ds| ==> ds[i].plan.name != ENTERPRISE_NAME
    ensures s.enterprise.Some? ==> s.enterprise.value in ds && s.enterprise.value.plan.name == ENTERPRISE_NAME
    ensures forall d :: d in s.middle <==> d in ds && InGrid(d)
  {
    Sections(FindByName(ds, PAYG_NAME), FindByName(ds, ENTERPRISE_NAME), MiddlePlans(ds))
  }

  lemma {:induction false} FindFirst(ds: seq<DisplayPlan>, name: string, k: nat)
    requires k < |ds| && ds[k].plan.name == name
    requires forall j :: 0 <= j < k ==> ds[j].plan.name != name
    ensures FindByName(ds, name) == Some(ds[k])
  {
    if k > 0 {
      FindFirst(ds[1..], name, k - 1);
    }
  }

  lemma {:induction false} MiddleOfConcat(a: seq<DisplayPlan>, b: seq<DisplayPlan>)
    ensures MiddlePlans(a + b) == MiddlePlans(a) + MiddlePlans(b)
  {
    if a == [] {
      assert a + b == b;
    } else {
      assert (a + b)[1..] == a[1..] + b;
      MiddleOfConcat(a[1..], b);
    }
  }

  lemma {:induction false} MiddleKeepsGrid(ds: seq<DisplayPlan>)
    requires forall i :: 0 <= i < |ds| ==> InGrid(ds[i])
    ensures MiddlePlans(ds) == ds
  {
    if ds != [] {
      MiddleKeepsGrid(ds[1..]);
    }
  }

  /** In a list with unique names, the plans between the first and the last
      carry neither the first's name nor the last's. */
  lemma {:induction false} InnerNamesDiffer(ds: seq<DisplayPlan>, k: nat)
    requires UniqueNames(PlansOf(ds)) && 0 < k < |ds| - 1
    ensures ds[k].plan.name != ds[0].plan.name && ds[k].plan.name != ds[|ds| - 1].plan.name
  {
    var ps := PlansOf(ds);
    assert ps[0].name != ps[k].name && ps[k].name != ps[|ds| - 1].name;
  }

  lemma {:induction false} MiddleOfWellShapedList(ds: seq<DisplayPlan>)
    requires |ds| >= 2 && UniqueNames(PlansOf(ds))
    requires ds[0].plan.name == PAYG_NAME && ds[|ds| - 1].plan.name == ENTERPRISE_NAME
    ensures MiddlePlans(ds) == ds[1..|ds| - 1]
  {
    var n := |ds|;
    var inner := ds[1..n - 1];
    forall i | 0 <= i < |inner| ensures InGrid(inner[i]) {
      InnerNamesDiffer(ds, i + 1);
    }
    MiddleKeepsGrid(inner);
    assert ds[1..] == inner + [ds[n - 1]];
    MiddleOfConcat(inner, [ds[n - 1]]);
    assert MiddlePlans([ds[n - 1]]) == [] by { assert [ds[n - 1]][1..] == []; }
  }

  /** For a list with unique names that starts with the entry plan and ends
      with the top-tier plan, both lookups succeed, the grid is everything in
      between in list order, and the three groups put back together give the
      list. */
  lemma {:induction false} SplitOfWellShapedList(ds: seq<DisplayPlan>)
    requires |ds| >= 2 && UniqueNames(PlansOf(ds))
    requires ds[0].plan.name == PAYG_NAME && ds[|ds| - 1].plan.name == ENTERPRISE_NAME
    ensures Split(ds) == Sections(Some(ds[0]), Some(ds[|ds| - 1]), ds[1..|ds| - 1])
    ensures [ds[0]] + Split(ds).middle + [ds[|ds| - 1]] == ds
  {
    var n := |ds|;
    forall j | 0 <= j < n - 1 ensures ds[j].plan.name != ENTERPRISE_NAME {
      if j > 0 {
        InnerNamesDiffer(ds, j);
      } else {
        assert PlansOf(ds)[0].name != PlansOf(ds)[n - 1].name;
      }
    }
    FindFirst(ds, ENTERPRISE_NAME, n - 1);
    MiddleOfWellShapedList(ds);
    assert [ds[0]] + ds[1..n - 1] + [ds[n - 1]] == ds;
  }

  /** A catalog with unique names, the entry plan first and the top-tier
      plan last splits, under either billing cycle, into its first plan, its
      last plan and the plans in between, whose names keep catalog order. */
  lemma {:induction false} SplitOfDerivedList(ps: seq<Plan>, billing: Billing)
    requires |ps| >= 2 && UniqueNames(ps)
    requires ps[0].name == PAYG_NAME && ps[|ps| - 1].name == ENTERPRISE_NAME
    ensures var ds := DisplayPlansOf(ps, billing);
      && Split(ds) == Sections(Some(ds[0]), Some(ds[|ps| - 1]), ds[1..|ps| - 1])
      && Names(PlansOf(Split(ds).middle)) == Names(ps)[1..|ps| - 1]
  {
    var n := |ps|;
    var ds := DisplayPlansOf(ps, billing);
    DisplayKeepsUniqueNames(ps, billing);
    assert ds[0].plan.name == PAYG_NAME;
    assert ds[n - 1].plan.name == ENTERPRISE_NAME;
    SplitOfWellShapedList(ds);
    var got := Names(PlansOf(ds[1..n - 1]));
    var want := Names(ps)[1..n - 1];
    assert |got| == |want| == n - 2;
    forall i | 0 <= i < n - 2 ensures got[i] == want[i] {
      assert got[i] == ds[i + 1].plan.name;
    }
  }

  /** The catalog splits the same way under both billing cycles: the entry
      plan, the Enterprise plan, and Basic, Starter, Pro and Scale in the grid. */
  lemma CatalogSections(billing: Billing)
    ensures var ds := DisplayPlansOf(Plans, billing);
      && |ds| == 6
      && Split(ds) == Sections(Some(ds[0]), Some(ds[5]), ds[1..5])
      && Names(PlansOf(Split(ds).middle)) == ["Basic", "Starter", "Pro", "Scale"]
  {
    var names := Names(Plans);
    CatalogNames();
    CatalogUniqueNames();
    assert Plans[0].name == names[0] == PAYG_NAME;
    assert Plans[5].name == names[5] == ENTERPRISE_NAME;
    assert names[1..5] == ["Basic", "Starter", "Pro", "Scale"];
    SplitOfDerivedList(Plans, billing);
  }

  /** The cards of a list of display plans, in order. */
  function CardsOf(ds: seq<DisplayPlan>, billing: Billing): (r: seq<Card>)
    ensures |r| == |ds|
    ensures forall i :: 0 <= i < |ds| ==> r[i] == RenderCard(ds[i], billing)
  {
    seq(|ds|, i requires 0 <= i < |ds| => RenderCard(ds[i], billing))
  }

  /** The section's one piece of state: the selected billing cycle. */
  class Pricing {
    var billing: Billing

    /** A freshly shown section starts on monthly billing. */
    constructor ()
      ensures billing == Monthly
    {
      billing := Monthly;
    }

    /** The billing tabs replace the selection with the chosen value. */
    method SetBilling(next: Billing)
      modifies this
      ensures billing == next
    {
      billing := next;
    }

    /** The annual-billing switch is on exactly under yearly billing. */
    predicate SwitchChecked(): (on: bool)
      reads this
      ensures !on <==> billing == Monthly
    {
      billing == Yearly
    }

    /** Flipping the switch selects yearly billing when it is turned on and
        monthly billing when it is turned off. */
    method OnSwitchChange(checked: bool)
      modifies this
      ensures billing == (if checked then Yearly else Monthly)
      ensures SwitchChecked() == checked
    {
      SetBilling(if checked then Yearly else Monthly);
    }

    /** The groups the section shows for the current selection, recomputed
        from the catalog on every read. */
    function Layout(): (s: Sections)
      reads this
      ensures s.payg.Some? && s.payg.value.plan.name == PAYG_NAME
      ensures s.enterprise.Some? && s.enterprise.value.plan.name == ENTERPRISE_NAME
      ensures Names(PlansOf(s.middle)) == ["Basic", "Starter", "Pro", "Scale"]
    {
      CatalogSections(billing);
      CatalogNames();
      Split(DisplayPlansOf(Plans, billing))
    }

    /** The tooltip beside "Start Now" quotes the entry plan's overage
        text; the lookup behind it always succeeds on the catalog. */
    function StartNowTooltip(): (t: string)
      reads this
      ensures t == Plans[0].overage.labelText
    {
      CatalogSections(billing);
      Layout().payg.value.plan.overage.labelText
    }

    /** The grid of cards: four of them, none ever disabled, and only the
        third (Pro) highlighted. */
    function GridCards(): (cards: seq<Card>)
      reads this
      ensures |cards| == 4
      ensures forall i :: 0 <= i < 4 ==> !cards[i].buttonDisabled
      ensures forall i :: 0 <= i < 4 ==> (cards[i].highlighted <==> i == 2)
    {
      GridCardFacts(billing);
      CardsOf(Layout().middle, billing)
    }
  }

  /** The grid's cards, under either billing cycle: four of them, none
      disabled, and only the third (Pro) highlighted. */
  lemma GridCardFacts(billing: Billing)
    ensures var cards := CardsOf(Split(DisplayPlansOf(Plans, billing)).middle, billing);
      && |cards| == 4
      && forall i :: 0 <= i < 4 ==> !cards[i].buttonDisabled && (cards[i].highlighted <==> i == 2)
  {
    var ds := DisplayPlansOf(Plans, billing);
    CatalogSections(billing);
    CatalogFlags();
    var cards := CardsOf(ds[1..5], billing);
    forall i | 0 <= i < 4 ensures !cards[i].buttonDisabled && (cards[i].highlighted <==> i == 2) {
      CardOfDerivedPlan(Plans, billing, i + 1);
    }
  }
}
