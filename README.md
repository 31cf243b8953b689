# Pricing section model

A Dafny model of the pricing section of a landing page
(`components/pricing.tsx`). The section holds a fixed catalog of six plans
(Pay‑as‑you‑go, Basic, Starter, Pro, Scale, Enterprise) and one piece of
state, the selected billing cycle (monthly or yearly). From the two it
derives:

- the price each plan shows, with a 10% discount under yearly billing for
  plans that may be billed annually;
- the decisions each plan card makes: which price texts it shows, whether
  it advertises the discount and the yearly saving, whether its button is
  enabled and what the button says;
- the split of the derived list, by plan name, into the entry plan
  (Pay‑as‑you‑go), the Enterprise plan and the grid of plans in between.

Money is integer US cents (`Cents = nat`), so the catalog's 62.5 dollars is
6250. Both roundings in the section are half-up on non-negative amounts:
the yearly price is rounded to the cent, the "Save $X" badge to the dollar.
Optional booleans of the plan record are `Option<bool>`; a missing field is
falsy. The entry plan's name is spelled with non-breaking hyphens (U+2011),
as in the source.

Modules, one per file:

- `PlanCatalog` (`catalog.dfy`): the plan record, the billing cycle, the
  discount constant and the catalog, with its shape (order, unique names,
  flags).
- `PriceFormat` (`price_format.dfy`): `formatPrice` and its inverse
  `ParsePrice`, which reads a price text back; the round trip is proved.
- `DisplayPlans` (`display_plans.dfy`): `useDisplayPlans`, the catalog
  projected through the billing cycle.
- `PlanCard` (`plan_card.dfy`): what one card shows.
- `PricingSection` (`pricing_section.dfy`): the split by name and the
  `Pricing` class holding the billing selection.

The section's billing state is a class with one field, replaced wholesale by
the tab handler and by the annual-billing switch. Everything derived from it
is recomputed from the catalog on each read. Memoisation only saves work and
changes no result.

The section identifies the entry plan and the top-tier plan by comparing
names. It does not tag them with a role, and it does not validate the catalog
when the catalog is built. The model follows the code: it splits by name, and
it proves the catalog's invariants (unique names, one popular plan, only the
first plan ineligible for annual billing) as lemmas about the fixed catalog.

## Model

| member | source | states |
|---|---|---|
| PlanCatalog.Eligible | components/pricing.tsx:108 | A plan is eligible for annual billing when its flag is missing or true. |
| PlanCatalog.CatalogNames | components/pricing.tsx:34-97 | The catalog lists six plans in the order Pay‑as‑you‑go, Basic, Starter, Pro, Scale, Enterprise. |
| PlanCatalog.CatalogUniqueNames | components/pricing.tsx:34-97 | No two catalog plans share a name. |
| PlanCatalog.CatalogFlags | components/pricing.tsx:34-97 | Only the first plan has annual billing turned off. Pro is the only popular plan. The entry plan is free and grants no support. Every price is a whole multiple of ten cents. |
| PriceFormat.NatToString | components/pricing.tsx:102 | The text of a whole number is a non-empty run of decimal digits with no leading zero. |
| PriceFormat.ParseNatToString | components/pricing.tsx:102 | Reading the digits of a whole number back gives the number. |
| PriceFormat.TwoDigits | components/pricing.tsx:102 | The fractional part is exactly two digits, zero-padded, denoting the cents. |
| PriceFormat.FormatPrice | components/pricing.tsx:101-103 | A whole-dollar amount renders as digits with no decimal point. Any other amount renders as digits, a point and exactly two digits. |
| PriceFormat.ParseFormatPrice | components/pricing.tsx:101-103 | Every price text reads back to exactly the amount it was made from. |
| PriceFormat.WholeDollarExample | components/pricing.tsx:101-103 | 230 dollars renders as "230". |
| PriceFormat.CentsExample | components/pricing.tsx:101-103 | 62.5 dollars renders as "62.50". |
| PriceFormat.DiscountedCentsExample | components/pricing.tsx:101-103 | 56.25 dollars renders as "56.25". |
| DisplayPlans.DiscountedPrice | components/pricing.tsx:99-115 | The yearly price never exceeds the list price. It is the discounted amount rounded to the nearest cent, with halves rounded up. |
| DisplayPlans.DisplayPlansOf | components/pricing.tsx:105-122 | The derived list has the catalog's length and order. Each plan is the normalised catalog plan. Under monthly billing, or for an ineligible plan, the price is the list price. Otherwise it is the rounded discounted price. It never exceeds the list price. |
| DisplayPlans.Normalized | components/pricing.tsx:107-119 | Normalisation changes no field except `annualEligible`. That field becomes an explicit boolean, true exactly when the plan is eligible. |
| DisplayPlans.NormalizeIdempotent | components/pricing.tsx:107-119 | Normalising an already normalised plan changes nothing. |
| DisplayPlans.ToDisplayPlan | components/pricing.tsx:107-119 | One plan as shown: the normalised record, with the list price under monthly billing or for an ineligible plan, and otherwise the discounted price rounded half-up to the cent. The shown price never exceeds the list price. |
| DisplayPlans.DiscountIsExact | components/pricing.tsx:114 | For a list price in whole tens of cents, the 10% discount loses nothing to rounding. |
| DisplayPlans.DisplayKeepsNames | components/pricing.tsx:107-120 | The derived list carries the catalog's names in catalog order, under either billing cycle. |
| DisplayPlans.DisplayKeepsUniqueNames | components/pricing.tsx:107-120 | Names that are unique in the catalog stay unique in the derived list. |
| DisplayPlans.CatalogYearlyPrices | components/pricing.tsx:99-115 | Under yearly billing the six plans show 0, 56.25, 207, 495, 1350 and 2430. |
| PlanCard.YearlySavings | components/pricing.tsx:172-174 | The badge amount is twelve months of the discount on the list price, rounded to the nearest dollar with halves up. |
| PlanCard.ShowsDiscount | components/pricing.tsx:149-168 | The discount display needs yearly billing and an eligible plan. For a plan whose flag is explicit, as every normalised plan's is, yearly billing shows it exactly when the plan is eligible. |
| PlanCard.ButtonDisabled | components/pricing.tsx:192 | Under monthly billing no button is disabled. Under yearly billing a button is disabled exactly when its card shows no discount. |
| PlanCard.ButtonLabel | components/pricing.tsx:194-198 | Every plan except Pay‑as‑you‑go is labelled "Choose " followed by its name. Pay‑as‑you‑go says "Start with PAYG" under monthly billing and "No annual plan" under yearly billing. |
| PlanCard.Rendered | components/pricing.tsx:210-219 | An optional text is shown exactly when it is present and non-empty, and then unchanged. |
| PlanCard.RenderCard | components/pricing.tsx:136-227 | The price text reads back to the display price. The struck list price, the "(Billed annually)" note and the savings badge each appear exactly when billing is yearly and the plan is eligible. The struck price reads back to the list price. A disabled button never comes with the discount display. The tooltip appears exactly when the plan has a non-empty one. The support line appears exactly when the plan has a support tier, and then names that tier followed by " Support". |
| PlanCard.CardOfDerivedPlan | components/pricing.tsx:136-198 | For each catalog plan's card: the highlight follows the popular flag. The discount display appears exactly under yearly billing for an eligible plan, and shows that plan's list price and yearly saving. The button is disabled exactly under yearly billing for an ineligible plan. Every plan except Pay‑as‑you‑go is labelled "Choose " followed by its name. Pay‑as‑you‑go is labelled "Start with PAYG" under monthly billing and "No annual plan" under yearly billing. |
| PlanCard.SavingsMatchPriceCut | components/pricing.tsx:110-174 | For a list price in whole tens of cents, the badge equals twelve months of the difference between the struck price and the shown price, rounded to the dollar. |
| PlanCard.CatalogButtons | components/pricing.tsx:192 | Among catalog cards, only the Pay‑as‑you‑go button is ever disabled, and only under yearly billing. The section renders cards only for the grid plans, so on the page this disabled button is never shown (`GridCards`: no grid button is disabled). |
| PlanCard.EntryPlanCard | components/pricing.tsx:194-198 | The Pay‑as‑you‑go card says "Start with PAYG" under monthly billing and "No annual plan" under yearly billing. It never shows a struck price or a savings badge. The section never renders a card for Pay‑as‑you‑go (only the grid plans get cards), so these labels are what the card rule gives, not text shown on the page. |
| PlanCard.CatalogBadge | components/pricing.tsx:168-177 | Under yearly billing, every catalog plan after the first carries a badge for its own list price. |
| PlanCard.CatalogSavings | components/pricing.tsx:168-177 | Under yearly billing the badges read 75 (Basic), 660 (Pro) and 3240 (Enterprise). |
| PricingSection.FindByName | components/pricing.tsx:395-396 | The lookup finds nothing exactly when no plan has the name. Otherwise it returns the first plan with that name. |
| PricingSection.MiddlePlans | components/pricing.tsx:397-399 | The grid holds exactly the plans named neither Pay‑as‑you‑go nor Enterprise. |
| PricingSection.Split | components/pricing.tsx:395-399 | Each lookup comes back empty exactly when no plan carries its name, and otherwise returns a plan of the list with that name. The grid holds exactly the list's plans named neither Pay‑as‑you‑go nor Enterprise. |
| PricingSection.FindFirst | components/pricing.tsx:395-396 | The lookup returns the first plan carrying the name. |
| PricingSection.MiddleOfConcat | components/pricing.tsx:397-399 | Filtering two lists joined together gives the two filtered lists joined together. |
| PricingSection.MiddleKeepsGrid | components/pricing.tsx:397-399 | Filtering leaves a list of grid plans unchanged, order included. |
| PricingSection.InnerNamesDiffer | components/pricing.tsx:395-399 | In a list with unique names, no inner plan shares its name with the first or the last plan. |
| PricingSection.MiddleOfWellShapedList | components/pricing.tsx:397-399 | For a uniquely named list that runs from Pay‑as‑you‑go to Enterprise, the grid is exactly the plans in between, in order. |
| PricingSection.SplitOfWellShapedList | components/pricing.tsx:395-399 | For such a list, both lookups succeed and return the first and the last plan. The grid is everything in between. The three groups put back together give the list. |
| PricingSection.SplitOfDerivedList | components/pricing.tsx:393-399 | For any such catalog, under either billing cycle, the derived list splits into its first plan, its last plan and the plans in between. The grid's names keep catalog order. |
| PricingSection.CatalogSections | components/pricing.tsx:395-399 | Under either cycle the catalog splits into Pay‑as‑you‑go, Enterprise, and a grid of Basic, Starter, Pro and Scale. |
| PricingSection.CardsOf | components/pricing.tsx:495-497 | There is one card per grid plan, in grid order. |
| PricingSection.Pricing.constructor | components/pricing.tsx:392 | A fresh section starts on monthly billing. |
| PricingSection.Pricing.SetBilling | components/pricing.tsx:456 | The tabs replace the selection with the chosen cycle. |
| PricingSection.Pricing.SwitchChecked | components/pricing.tsx:478 | The annual-billing switch is off exactly under monthly billing. |
| PricingSection.Pricing.OnSwitchChange | components/pricing.tsx:478-481 | Turning the switch on selects yearly billing, and turning it off selects monthly billing. Afterwards the switch shows the position it was set to. |
| PricingSection.Pricing.Layout | components/pricing.tsx:393-399 | Under the current selection, both lookups succeed with the right names, and the grid holds Basic, Starter, Pro and Scale. |
| PricingSection.Pricing.StartNowTooltip | components/pricing.tsx:425 | The "Start Now" tooltip quotes the entry plan's overage text. |
| PricingSection.Pricing.GridCards | components/pricing.tsx:493-498 | The grid shows four cards. None has a disabled button, and only the third (Pro) is highlighted. |
| PricingSection.GridCardFacts | components/pricing.tsx:493-498 | Under either cycle the grid's four cards all have enabled buttons, and only the third is highlighted. |

## Left out

- Markup and styling are left out: class composition, badges, buttons, separators, tooltips, tabs and the switch widget, the "Annualy" label text and the animated background. The card model keeps only the decisions that the markup displays.
- `CTAEnterpriseBanner` is left out. It renders fixed text and an always-disabled button, and has no logic.
- The commented-out banner and tab variants are left out, because they are dead code.
- The `alert` handler on "Start Now" is left out, because it is a browser side effect.
- React's `useState` and `useMemo` are left out. The state is the `Pricing` class's one field, and memoisation is plain recomputation.
- DisplayPlans.DiscountedPrice: does not model IEEE-754 doubles in `toFixed(2)`, `% 1` and `Math.round`. It uses exact integer cents with half-up rounding, so a price whose binary value lies just below a half cent may round differently in the source.
- PriceFormat.NatToString: does not model the exponent notation that `toString` uses for amounts of 10^21 or more.
- PricingSection.FindByName: a failed lookup is `None`. In the source, the `!` only silences the type checker, and a failed lookup would throw when `payg.overage.label` is read. On the catalog the lookups always succeed (`CatalogSections`).
- The Enterprise lookup is modelled and proved to succeed, but the source never uses its result.
- The plan description and the "Included" text are carried through unchanged. No card decision depends on them.

