/** The cost-simulation tab of a lead (pages/LeadDetailPage.tsx) around the waterfall:
    seeding the office items from the settings catalogue, keeping monthly items in step
    with the project duration, the edit handlers of the office, variable and complexity
    lists, saving the simulation onto the lead, loading it back, and converting the lead
    into a project. `stamp` stands for the `Date.now()` text of new ids, `now` for the
    ISO time stamps and `today` for the current day number. */
module LeadSimulation {
  import opened Wrappers
  import opened Domain
  import opened Collections
  import opened PricingWaterfall
  import Text
  import Constants

  // ---------------------------------------------------------------- list plumbing

  function CostItemId(item: CostItem): Id { item.id }

  function FactorId(factor: ComplexityFactor): Id { factor.id }

  predicate UniqueCostItemIds(items: seq<CostItem>) {
    UniqueKeys(items, CostItemId)
  }

  predicate UniqueFactorIds(factors: seq<ComplexityFactor>) {
    UniqueKeys(factors, FactorId)
  }

  /** `items.filter(item => item.id !== itemId)`. */
  function WithoutCostItem(items: seq<CostItem>, itemId: Id): (r: seq<CostItem>)
    ensures |r| <= |items|
    ensures forall i :: 0 <= i < |r| ==> r[i].id != itemId
  {
    if items == [] then []
    else if items[0].id == itemId then WithoutCostItem(items[1..], itemId)
    else [items[0]] + WithoutCostItem(items[1..], itemId)
  }

  /** The filter keeps exactly the elements without that id. */
  lemma {:induction false} WithoutCostItemMembers(items: seq<CostItem>, itemId: Id)
    ensures forall x :: x in WithoutCostItem(items, itemId) <==> x in items && x.id != itemId
    decreases |items|
  {
    if items != [] {
      WithoutCostItemMembers(items[1..], itemId);
      assert items == [items[0]] + items[1..];
    }
  }

  lemma {:induction false} WithoutCostItemMissing(items: seq<CostItem>, itemId: Id)
    requires forall i :: 0 <= i < |items| ==> items[i].id != itemId
    ensures WithoutCostItem(items, itemId) == items
  {
    if items != [] {
      WithoutCostItemMissing(items[1..], itemId);
    }
  }

  lemma {:induction false} WithoutCostItemConcat(a: seq<CostItem>, b: seq<CostItem>, itemId: Id)
    ensures WithoutCostItem(a + b, itemId) == WithoutCostItem(a, itemId) + WithoutCostItem(b, itemId)
    decreases |a|
  {
    if a == [] {
      assert a + b == b;
    } else {
      assert (a + b)[0] == a[0];
      assert (a + b)[1..] == a[1..] + b;
      WithoutCostItemConcat(a[1..], b, itemId);
    }
  }

  lemma {:induction false} WithoutCostItemAt(items: seq<CostItem>, itemId: Id, k: nat)
    requires k < |items| && items[k].id == itemId
    requires forall i :: 0 <= i < |items| && i != k ==> items[i].id != itemId
    ensures WithoutCostItem(items, itemId) == items[..k] + items[k + 1..]
  {
    var a, b := items[..k], items[k + 1..];
    assert items == a + [items[k]] + b;
    forall i | 0 <= i < |a|
      ensures a[i].id != itemId
    {
      assert a[i] == items[i];
    }
    forall i | 0 <= i < |b|
      ensures b[i].id != itemId
    {
      assert b[i] == items[k + 1 + i];
    }
    WithoutCostItemAround(a, items[k], b, itemId);
  }

  lemma {:induction false} WithoutCostItemAround(a: seq<CostItem>, x: CostItem, b: seq<CostItem>, itemId: Id)
    requires x.id == itemId
    requires forall i :: 0 <= i < |a| ==> a[i].id != itemId
    requires forall i :: 0 <= i < |b| ==> b[i].id != itemId
    ensures WithoutCostItem(a + [x] + b, itemId) == a + b
  {
    WithoutCostItemConcat(a + [x], b, itemId);
    WithoutCostItemConcat(a, [x], itemId);
    WithoutCostItemMissing(a, itemId);
    WithoutCostItemMissing(b, itemId);
    WithoutCostItemSingle(x, itemId);
  }

  lemma WithoutCostItemSingle(x: CostItem, itemId: Id)
    requires x.id == itemId
    ensures WithoutCostItem([x], itemId) == []
  {
    assert [x][1..] == [];
  }

  // ---------------------------------------------------------------- seeding from the catalogue

  /** An item whose `calculatedCost` is its `baseValue` times its `quantity`. */
  predicate Priced(item: CostItem) {
    item.calculatedCost == item.baseValue * item.quantity
  }

  /** Every item is priced at base value times quantity. */
  predicate CostsConsistent(items: seq<CostItem>) {
    forall i :: 0 <= i < |items| ==> Priced(items[i])
  }

  predicate IsActiveConfig(config: OfficeCostConfig) {
    !config.isArchived
  }

  function MonthlyBaseValue(config: OfficeCostConfig): real {
    config.monthlyBaseValue
  }

  /** The office item the catalogue entry maps to (the `mapFn` of the seeding call). */
  function SeedOfficeItem(config: OfficeCostConfig, isApplied: bool, quantity: real, stamp: string): CostItem {
    CostItem("fixed-" + config.id + "-" + stamp, Some(config.id), config.name, OfficeFixed, Monthly,
             config.monthlyBaseValue, quantity, config.monthlyBaseValue * quantity, isApplied, true, false)
  }

  lemma {:induction false} SeedOfficeItemPriced(config: OfficeCostConfig, isApplied: bool, quantity: real, stamp: string)
    ensures Priced(SeedOfficeItem(config, isApplied, quantity, stamp))
    ensures AppliedCost(SeedOfficeItem(config, true, quantity, stamp)) == quantity * MonthlyBaseValue(config)
  {
  }

  /** `simulatedItems.find(sim => sim.configItemId === configId)`. */
  function FindByConfigId(items: seq<CostItem>, configId: Id): (r: Option<CostItem>)
    ensures r.Some? ==> r.value in items && r.value.configItemId == Some(configId)
    ensures r.None? ==> forall x :: x in items ==> x.configItemId != Some(configId)
  {
    if items == [] then None
    else if items[0].configItemId == Some(configId) then Some(items[0])
    else FindByConfigId(items[1..], configId)
  }

  /** One catalogue entry seeded: an item already simulated for it keeps its applied flag
      and quantity; otherwise the item is applied with the default quantity. */
  function SeedFromConfig(config: OfficeCostConfig, simulated: seq<CostItem>, defaultQuantity: real, stamp: string): CostItem {
    var existing := FindByConfigId(simulated, config.id);
    SeedOfficeItem(config,
                   if existing.Some? then existing.value.isApplied else true,
                   if existing.Some? then existing.value.quantity else defaultQuantity,
                   stamp)
  }

  function SeedAll(configs: seq<OfficeCostConfig>, simulated: seq<CostItem>, defaultQuantity: real, stamp: string): (r: seq<CostItem>)
    ensures |r| == |configs|
    ensures forall i :: 0 <= i < |configs| ==> r[i] == SeedFromConfig(configs[i], simulated, defaultQuantity, stamp)
  {
    if configs == [] then []
    else [SeedFromConfig(configs[0], simulated, defaultQuantity, stamp)] + SeedAll(configs[1..], simulated, defaultQuantity, stamp)
  }

  /** `getAppliedConfigItems` with the office `mapFn`: the non-archived entries, in
      catalogue order, each seeded. */
  function GetAppliedConfigItems(configs: seq<OfficeCostConfig>, simulated: seq<CostItem>, defaultQuantity: real, stamp: string): seq<CostItem> {
    SeedAll(Filter(configs, IsActiveConfig), simulated, defaultQuantity, stamp)
  }

  /** Without a saved simulation, seeding gives one applied monthly item per active
      catalogue entry, in catalogue order, with quantity `duration`. */
  lemma {:induction false} SeedingWithoutSimulation(configs: seq<OfficeCostConfig>, duration: real, stamp: string)
    ensures var (active, r) := (Filter(configs, IsActiveConfig), GetAppliedConfigItems(configs, [], duration, stamp));
      |r| == |active| &&
      forall i :: 0 <= i < |r| ==>
        r[i].configItemId == Some(active[i].id) && r[i].name == active[i].name &&
        r[i].baseValue == active[i].monthlyBaseValue && r[i].unit == Monthly &&
        r[i].isApplied && r[i].quantity == duration
  {
  }

  /** Seeded items are priced at base value times quantity, whatever was simulated. */
  lemma {:induction false} SeedingPricesConsistently(configs: seq<OfficeCostConfig>, simulated: seq<CostItem>, duration: real, stamp: string)
    ensures CostsConsistent(GetAppliedConfigItems(configs, simulated, duration, stamp))
  {
    var active := Filter(configs, IsActiveConfig);
    var r := GetAppliedConfigItems(configs, simulated, duration, stamp);
    forall i | 0 <= i < |r|
      ensures Priced(r[i])
    {
      var existing := FindByConfigId(simulated, active[i].id);
      SeedOfficeItemPriced(active[i], if existing.Some? then existing.value.isApplied else true,
                           if existing.Some? then existing.value.quantity else duration, stamp);
    }
  }

  lemma {:induction false} SeededCostsScale(active: seq<OfficeCostConfig>, duration: real, stamp: string)
    ensures forall i :: 0 <= i < |active| ==>
      AppliedCost(SeedAll(active, [], duration, stamp)[i]) == duration * MonthlyBaseValue(active[i])
  {
    var r := SeedAll(active, [], duration, stamp);
    forall i | 0 <= i < |active|
      ensures AppliedCost(r[i]) == duration * MonthlyBaseValue(active[i])
    {
      assert r[i] == SeedOfficeItem(active[i], true, duration, stamp);
      SeedOfficeItemPriced(active[i], true, duration, stamp);
    }
  }

  /** Without a saved simulation, the office subtotal of the seeded entries is `duration`
      times their monthly values. */
  lemma {:induction false} SeedingWithoutSimulationSubtotal(active: seq<OfficeCostConfig>, duration: real, stamp: string)
    ensures OfficeSubtotal(SeedAll(active, [], duration, stamp)) == duration * Sum(active, MonthlyBaseValue)
  {
    SeededCostsScale(active, duration, stamp);
    SumScaledPointwise(SeedAll(active, [], duration, stamp), AppliedCost, active, MonthlyBaseValue, duration);
  }

  /** A catalogue entry already simulated keeps the applied flag and quantity of the first
      simulated item made from it. */
  lemma {:induction false} SeedingKeepsSimulatedChoices(configs: seq<OfficeCostConfig>, simulated: seq<CostItem>, duration: real, stamp: string, i: nat)
    requires i < |Filter(configs, IsActiveConfig)|
    requires FindByConfigId(simulated, Filter(configs, IsActiveConfig)[i].id).Some?
    ensures var (c, x) := (Filter(configs, IsActiveConfig)[i], GetAppliedConfigItems(configs, simulated, duration, stamp)[i]);
      var sim := FindByConfigId(simulated, c.id).value;
      sim in simulated && sim.configItemId == Some(c.id) &&
      x.configItemId == Some(c.id) && x.isApplied == sim.isApplied && x.quantity == sim.quantity
  {
  }

  lemma {:induction false} SumStep<T>(s: seq<T>, k: nat, f: T -> real)
    requires k < |s|
    ensures Sum(s[..k + 1], f) == Sum(s[..k], f) + f(s[k])
  {
    assert s[..k + 1][..k] == s[..k];
  }

  /** The monthly values of the office template add up to 7310. */
  lemma {:induction false} OfficeTemplateMonthlyTotal()
    ensures Sum(Constants.OfficeCostConfigsTemplate(), MonthlyBaseValue) == 7310.0
  {
    var t := Constants.OfficeCostConfigsTemplate();
    assert t[..0] == [];
    SumStep(t, 0, MonthlyBaseValue);
    SumStep(t, 1, MonthlyBaseValue);
    SumStep(t, 2, MonthlyBaseValue);
    SumStep(t, 3, MonthlyBaseValue);
    SumStep(t, 4, MonthlyBaseValue);
    SumStep(t, 5, MonthlyBaseValue);
    SumStep(t, 6, MonthlyBaseValue);
    SumStep(t, 7, MonthlyBaseValue);
    assert Sum(t[..8], MonthlyBaseValue) == 2630.0;
    SumStep(t, 8, MonthlyBaseValue);
    SumStep(t, 9, MonthlyBaseValue);
    SumStep(t, 10, MonthlyBaseValue);
    SumStep(t, 11, MonthlyBaseValue);
    SumStep(t, 12, MonthlyBaseValue);
    SumStep(t, 13, MonthlyBaseValue);
    SumStep(t, 14, MonthlyBaseValue);
    SumStep(t, 15, MonthlyBaseValue);
    assert t[..16] == t;
  }

  /** A catalogue with no archived entry is seeded whole. */
  lemma {:induction false} SeedingUnarchivedCatalogue(configs: seq<OfficeCostConfig>, duration: real, stamp: string)
    requires forall i :: 0 <= i < |configs| ==> !configs[i].isArchived
    ensures OfficeSubtotal(GetAppliedConfigItems(configs, [], duration, stamp)) == duration * Sum(configs, MonthlyBaseValue)
  {
    FilterAll(configs, IsActiveConfig);
    SeedingWithoutSimulationSubtotal(configs, duration, stamp);
  }

  /** An unarchived catalogue worth 7310 a month, seeded for one month, prices the office
      at 7310, of which a simulation carries 1096.5. */
  lemma {:induction false} SeedingCatalogueWorth7310(configs: seq<OfficeCostConfig>, stamp: string)
    requires forall i :: 0 <= i < |configs| ==> !configs[i].isArchived
    requires Sum(configs, MonthlyBaseValue) == 7310.0
    ensures OfficeSubtotal(GetAppliedConfigItems(configs, [], 1.0, stamp)) == 7310.0
    ensures OfficeSubtotal(GetAppliedConfigItems(configs, [], 1.0, stamp)) * OfficeShare == 1096.5
  {
    SeedingUnarchivedCatalogue(configs, 1.0, stamp);
  }

  /** Seeding the office template for one month prices the office at 7310 a month, of which
      a simulation carries 1096.5. */
  lemma {:induction false} OfficeTemplateSeeded(stamp: string)
    ensures OfficeSubtotal(GetAppliedConfigItems(Constants.OfficeCostConfigsTemplate(), [], 1.0, stamp)) == 7310.0
    ensures OfficeSubtotal(GetAppliedConfigItems(Constants.OfficeCostConfigsTemplate(), [], 1.0, stamp)) * OfficeShare == 1096.5
  {
    var t := Constants.OfficeCostConfigsTemplate();
    assert forall i :: 0 <= i < |t| ==> !t[i].isArchived;
    OfficeTemplateMonthlyTotal();
    SeedingCatalogueWorth7310(t, stamp);
  }

  /** The complexity factors of a fresh simulation: the template with ids made from the
      name (`complex-<name with whitespace runs as '-'>-<stamp>`). */
  function SeedComplexityFactors(template: seq<ComplexityFactor>, stamp: string): (r: seq<ComplexityFactor>)
    ensures |r| == |template|
    ensures forall i :: 0 <= i < |template| ==>
      r[i] == template[i].(id := "complex-" + Text.ReplaceSpaceRuns(template[i].name, '-') + "-" + stamp)
  {
    if template == [] then []
    else [template[0].(id := "complex-" + Text.ReplaceSpaceRuns(template[0].name, '-') + "-" + stamp)]
         + SeedComplexityFactors(template[1..], stamp)
  }

  /** Seeding renames the factors and changes nothing else, so the summed rate is the
      template's. */
  lemma {:induction false} SeedComplexityKeepsRate(template: seq<ComplexityFactor>, stamp: string)
    ensures ComplexityRate(SeedComplexityFactors(template, stamp)) == ComplexityRate(template)
  {
    var fs := SeedComplexityFactors(template, stamp);
    SumPointwise(fs, AppliedRate, template, AppliedRate);
  }

  /** No factor of the template is applied, so its summed rate is 0. */
  lemma {:induction false} ComplexityTemplateRateIsZero()
    ensures ComplexityRate(Constants.ComplexityFactorsTemplate()) == 0.0
  {
    var t := Constants.ComplexityFactorsTemplate();
    Constants.ComplexityTemplateInert();
    forall i | 0 <= i < |t|
      ensures AppliedRate(t[i]) == 0.0 * AppliedRate(t[i])
    {
      assert t[i] in t;
    }
    SumScaled(t, AppliedRate, AppliedRate, 0.0);
  }

  /** A freshly seeded simulation adds nothing for complexity, whatever the direct cost. */
  lemma {:induction false} SeededComplexityIsZero(direct: real, stamp: string)
    ensures ComplexityValue(direct, SeedComplexityFactors(Constants.ComplexityFactorsTemplate(), stamp)) == 0.0
  {
    var t := Constants.ComplexityFactorsTemplate();
    var fs := SeedComplexityFactors(t, stamp);
    ComplexityTemplateRateIsZero();
    SeedComplexityKeepsRate(t, stamp);
    ComplexityIsLinear(direct, fs);
  }

  // ---------------------------------------------------------------- duration

  /** The duration field: `Math.max(1, parseInt(value)) || 1`, for an input that parsed. */
  function DurationFromInput(n: int): (r: int)
    ensures r >= 1
    ensures n >= 1 ==> r == n
  {
    if n > 1 then n else 1
  }

  function SyncItem(item: CostItem, duration: int): CostItem {
    if item.unit == Monthly then item.(quantity := duration as real, calculatedCost := item.baseValue * duration as real)
    else item
  }

  /** The duration effect: every monthly item gets `quantity = duration` and is repriced;
      other items are left alone. */
  function SyncDuration(items: seq<CostItem>, duration: int): (r: seq<CostItem>)
    ensures |r| == |items|
    ensures forall i :: 0 <= i < |items| ==> r[i] == SyncItem(items[i], duration)
  {
    if items == [] then [] else [SyncItem(items[0], duration)] + SyncDuration(items[1..], duration)
  }

  /** Only the last duration counts: syncing twice is syncing once with the later value
      (in particular, syncing is idempotent). */
  lemma {:induction false} SyncDurationLastWins(items: seq<CostItem>, first: int, second: int)
    ensures SyncDuration(SyncDuration(items, first), second) == SyncDuration(items, second)
  {
    var a := SyncDuration(SyncDuration(items, first), second);
    var b := SyncDuration(items, second);
    forall i | 0 <= i < |items|
      ensures a[i] == b[i]
    {
      SyncItemLastWins(items[i], first, second);
    }
  }

  lemma {:induction false} SyncItemLastWins(item: CostItem, first: int, second: int)
    ensures SyncItem(SyncItem(item, first), second) == SyncItem(item, second)
  {
  }

  /** After a sync, every monthly item is priced at base value times the duration and every
      other item is as it was. */
  lemma {:induction false} SyncDurationReprices(items: seq<CostItem>, duration: int)
    ensures var r := SyncDuration(items, duration);
      (forall i :: 0 <= i < |items| && items[i].unit == Monthly ==>
        r[i].quantity == duration as real && r[i].calculatedCost == items[i].baseValue * duration as real &&
        r[i].isApplied == items[i].isApplied && r[i].id == items[i].id) &&
      (forall i :: 0 <= i < |items| && items[i].unit != Monthly ==> r[i] == items[i])
  {
  }

  /** Syncing keeps consistently priced items consistent. */
  lemma {:induction false} SyncDurationKeepsPricesConsistent(items: seq<CostItem>, duration: int)
    requires CostsConsistent(items)
    ensures CostsConsistent(SyncDuration(items, duration))
  {
    var r := SyncDuration(items, duration);
    forall i | 0 <= i < |r|
      ensures Priced(r[i])
    {
      assert r[i] == SyncItem(items[i], duration);
      if items[i].unit != Monthly {
        assert Priced(items[i]);
      }
    }
  }

  /** The monthly base value an item adds to the office subtotal when applied. */
  function AppliedBaseValue(item: CostItem): real {
    if item.isApplied then item.baseValue else 0.0
  }

  lemma {:induction false} SyncItemCost(item: CostItem, duration: int)
    requires item.unit == Monthly
    ensures AppliedCost(SyncItem(item, duration)) == duration as real * AppliedBaseValue(item)
  {
  }

  /** Each item of `r` costs `c` times the applied base value of the same position of
      `items`. */
  predicate ScaledCosts(r: seq<CostItem>, items: seq<CostItem>, c: real) {
    |r| == |items| && forall i :: 0 <= i < |r| ==> AppliedCost(r[i]) == c * AppliedBaseValue(items[i])
  }

  lemma {:induction false} SyncedCostsScale(items: seq<CostItem>, duration: int)
    requires forall i :: 0 <= i < |items| ==> items[i].unit == Monthly
    ensures ScaledCosts(SyncDuration(items, duration), items, duration as real)
  {
    var r := SyncDuration(items, duration);
    forall i | 0 <= i < |items|
      ensures AppliedCost(r[i]) == duration as real * AppliedBaseValue(items[i])
    {
      SyncItemCost(items[i], duration);
    }
  }

  /** Items each costing `c` times another list's applied base values sum to `c` times
      their sum. */
  lemma {:induction false} ScaledOfficeSubtotal(r: seq<CostItem>, items: seq<CostItem>, c: real)
    requires ScaledCosts(r, items, c)
    ensures OfficeSubtotal(r) == c * Sum(items, AppliedBaseValue)
  {
    SumScaledPointwise(r, AppliedCost, items, AppliedBaseValue, c);
  }

  /** For items that are all monthly, the synced office subtotal is the duration times the
      applied base values. */
  lemma {:induction false} SyncDurationScalesOffice(items: seq<CostItem>, duration: int)
    requires forall i :: 0 <= i < |items| ==> items[i].unit == Monthly
    ensures OfficeSubtotal(SyncDuration(items, duration)) == duration as real * Sum(items, AppliedBaseValue)
  {
    SyncedCostsScale(items, duration);
    ScaledOfficeSubtotal(SyncDuration(items, duration), items, duration as real);
  }

  // ---------------------------------------------------------------- office handlers

  /** `handleToggleApplySimOfficeItem`. */
  function ToggleOfficeItem(items: seq<CostItem>, itemId: Id): (r: seq<CostItem>)
    ensures |r| == |items|
    ensures forall i :: 0 <= i < |items| ==>
      r[i] == if items[i].id == itemId then items[i].(isApplied := !items[i].isApplied) else items[i]
  {
    MapWhereId(items, CostItemId, itemId, (x: CostItem) => x.(isApplied := !x.isApplied))
  }

  /** With unique ids, toggling flips the item with that id and leaves the others alone. */
  lemma {:induction false} ToggleOfficeItemAt(items: seq<CostItem>, k: nat)
    requires k < |items| && UniqueCostItemIds(items)
    ensures ToggleOfficeItem(items, items[k].id) == items[k := items[k].(isApplied := !items[k].isApplied)]
  {
    MapWhereIdAt(items, CostItemId, k, (y: CostItem) => y.(isApplied := !y.isApplied));
  }

  /** Toggling moves the office subtotal by exactly the item's cost: down when it was
      applied, up when it was not. */
  lemma {:induction false} ToggleOfficeItemShiftsSubtotal(items: seq<CostItem>, k: nat)
    requires k < |items| && UniqueCostItemIds(items)
    ensures OfficeSubtotal(ToggleOfficeItem(items, items[k].id))
         == OfficeSubtotal(items) + (if items[k].isApplied then -items[k].calculatedCost else items[k].calculatedCost)
  {
    ToggleOfficeItemAt(items, k);
    SumReplace(items, k, items[k].(isApplied := !items[k].isApplied), AppliedCost);
  }

  /** Toggling the same item twice restores the list. */
  lemma {:induction false} ToggleOfficeItemTwice(items: seq<CostItem>, itemId: Id)
    ensures ToggleOfficeItem(ToggleOfficeItem(items, itemId), itemId) == items
  {
    var twice := ToggleOfficeItem(ToggleOfficeItem(items, itemId), itemId);
    assert forall i :: 0 <= i < |items| ==> twice[i] == items[i];
  }

  /** The one field `handleSimOfficeItemChange` writes. */
  datatype OfficeEdit = SetOfficeName(name: string) | SetOfficeBaseValue(baseValue: real) | SetOfficeQuantity(quantity: int)

  /** One office item after an edit; `calculatedCost` is repriced from the new base value,
      the new (integer) quantity, or the unchanged ones. */
  function EditOfficeItem(item: CostItem, edit: OfficeEdit): CostItem {
    match edit
    case SetOfficeName(n) => item.(name := n, calculatedCost := item.baseValue * item.quantity)
    case SetOfficeBaseValue(v) => item.(baseValue := v, calculatedCost := v * item.quantity)
    case SetOfficeQuantity(q) => item.(quantity := q as real, calculatedCost := item.baseValue * q as real)
  }

  /** `handleSimOfficeItemChange`. */
  function UpdateOfficeItem(items: seq<CostItem>, itemId: Id, edit: OfficeEdit): seq<CostItem> {
    MapWhereId(items, CostItemId, itemId, (x: CostItem) => EditOfficeItem(x, edit))
  }

  /** An office edit leaves the other items alone and keeps the edited item's id and
      applied flag. */
  lemma {:induction false} UpdateOfficeItemFrame(items: seq<CostItem>, itemId: Id, edit: OfficeEdit)
    ensures var r := UpdateOfficeItem(items, itemId, edit);
      |r| == |items| &&
      (forall i :: 0 <= i < |items| && items[i].id != itemId ==> r[i] == items[i]) &&
      (forall i :: 0 <= i < |items| && items[i].id == itemId ==>
        r[i].id == itemId && r[i].isApplied == items[i].isApplied && r[i].unit == items[i].unit)
  {
  }

  /** Whatever field is edited, the edited item is repriced at its base value times its
      quantity, so a consistently priced list stays consistent. */
  lemma {:induction false} UpdateOfficeItemKeepsPricesConsistent(items: seq<CostItem>, itemId: Id, edit: OfficeEdit)
    requires CostsConsistent(items)
    ensures CostsConsistent(UpdateOfficeItem(items, itemId, edit))
  {
    var r := UpdateOfficeItem(items, itemId, edit);
    forall i | 0 <= i < |r|
      ensures Priced(r[i])
    {
      if items[i].id == itemId {
        assert r[i] == EditOfficeItem(items[i], edit);
      } else {
        assert r[i] == items[i] && Priced(items[i]);
      }
    }
  }

  // ---------------------------------------------------------------- variable handlers

  /** The one field `handleSimVariableItemChange` writes. */
  datatype VariableEdit = SetVariableName(name: string) | SetVariableBaseValue(baseValue: real) | SetVariableQuantity(quantity: int)

  function EditVariableItem(item: CostItem, edit: VariableEdit): CostItem {
    match edit
    case SetVariableName(n) => item.(name := n)
    case SetVariableBaseValue(v) => item.(baseValue := v)
    case SetVariableQuantity(q) => item.(quantity := q as real)
  }

  /** `handleSimVariableItemChange`: `calculatedCost` is left for the calculator. */
  function UpdateVariableItem(items: seq<CostItem>, itemId: Id, edit: VariableEdit): seq<CostItem> {
    MapWhereId(items, CostItemId, itemId, (x: CostItem) => EditVariableItem(x, edit))
  }

  /** With unique ids, an edit moves the variable subtotal by the change in that item's
      cost; a rename does not move it. */
  lemma {:induction false} UpdateVariableItemShiftsSubtotal(items: seq<CostItem>, k: nat, edit: VariableEdit)
    requires k < |items| && UniqueCostItemIds(items)
    ensures VariableSubtotal(UpdateVariableItem(items, items[k].id, edit))
         == VariableSubtotal(items) - VariableCost(items[k]) + VariableCost(EditVariableItem(items[k], edit))
  {
    MapWhereIdAt(items, CostItemId, k, (x: CostItem) => EditVariableItem(x, edit));
    SumReplace(items, k, EditVariableItem(items[k], edit), VariableCost);
  }

  /** A rename does not move the variable subtotal, even when ids repeat. */
  lemma {:induction false} RenameVariableItemKeepsSubtotal(items: seq<CostItem>, itemId: Id, name: string)
    ensures VariableSubtotal(UpdateVariableItem(items, itemId, SetVariableName(name))) == VariableSubtotal(items)
  {
    var r := UpdateVariableItem(items, itemId, SetVariableName(name));
    forall i | 0 <= i < |r|
      ensures VariableCost(r[i]) == VariableCost(items[i])
    {
      assert r[i].baseValue == items[i].baseValue && r[i].quantity == items[i].quantity;
    }
    SumPointwise(r, VariableCost, items, VariableCost);
  }

  /** The item `addCustomSimCostItem` appends. */
  function CustomVariableItem(stamp: string): CostItem {
    CostItem("custom-var-" + stamp, None, "Novo Custo Variável", ProjectVariable, PerUnit, 0.0, 1.0, 0.0, true, false, true)
  }

  /** `addCustomSimCostItem`. */
  function AddCustomVariableItem(items: seq<CostItem>, stamp: string): seq<CostItem> {
    items + [CustomVariableItem(stamp)]
  }

  /** A new custom item is one more editable row that costs nothing yet. */
  lemma {:induction false} AddCustomVariableItemKeepsSubtotal(items: seq<CostItem>, stamp: string)
    ensures |AddCustomVariableItem(items, stamp)| == |items| + 1
    ensures AddCustomVariableItem(items, stamp)[|items|].editable
    ensures VariableSubtotal(AddCustomVariableItem(items, stamp)) == VariableSubtotal(items)
  {
    var r := AddCustomVariableItem(items, stamp);
    assert r[..|r| - 1] == items;
  }

  /** `removeCustomSimCostItem`: nothing happens unless the user confirms. */
  function RemoveCustomVariableItem(items: seq<CostItem>, confirmed: bool, itemId: Id): (r: Option<seq<CostItem>>)
    ensures r.None? <==> !confirmed
    ensures r.Some? ==> forall x :: x in r.value <==> x in items && x.id != itemId
  {
    WithoutCostItemMembers(items, itemId);
    if confirmed then Some(WithoutCostItem(items, itemId)) else None
  }

  /** Removing an item takes exactly its cost out of the variable subtotal; removing an
      absent id changes nothing. */
  lemma {:induction false} RemoveCustomVariableItemDropsCost(items: seq<CostItem>, k: nat)
    requires k < |items| && UniqueCostItemIds(items)
    ensures RemoveCustomVariableItem(items, true, items[k].id) == Some(items[..k] + items[k + 1..])
    ensures VariableSubtotal(RemoveCustomVariableItem(items, true, items[k].id).value)
         == VariableSubtotal(items) - VariableCost(items[k])
  {
    forall i | 0 <= i < |items| && i != k
      ensures items[i].id != items[k].id
    {
      if i < k {
        assert items[i].id != items[k].id;
      } else {
        assert items[k].id != items[i].id;
      }
    }
    WithoutCostItemAt(items, items[k].id, k);
    SumRemove(items, k, VariableCost);
  }

  lemma {:induction false} RemoveMissingVariableItemIsNoOp(items: seq<CostItem>, itemId: Id)
    requires forall i :: 0 <= i < |items| ==> items[i].id != itemId
    ensures RemoveCustomVariableItem(items, true, itemId) == Some(items)
  {
    WithoutCostItemMissing(items, itemId);
  }

  // ---------------------------------------------------------------- complexity handlers

  /** `handleToggleApplySimComplexity`. */
  function ToggleFactor(factors: seq<ComplexityFactor>, factorId: Id): seq<ComplexityFactor> {
    MapWhereId(factors, FactorId, factorId, (f: ComplexityFactor) => f.(isApplied := !f.isApplied))
  }

  /** `handleSimComplexityChange` on the percentage field. */
  function SetFactorPercentage(factors: seq<ComplexityFactor>, factorId: Id, percentage: real): seq<ComplexityFactor> {
    MapWhereId(factors, FactorId, factorId, (f: ComplexityFactor) => f.(percentage := percentage))
  }

  /** Toggling a factor moves the summed complexity rate by its rate: down when it was
      applied, up when it was not. */
  lemma {:induction false} ToggleFactorShiftsRate(factors: seq<ComplexityFactor>, k: nat)
    requires k < |factors| && UniqueFactorIds(factors)
    ensures ComplexityRate(ToggleFactor(factors, factors[k].id))
         == ComplexityRate(factors) + (if factors[k].isApplied then -factors[k].percentage / 100.0 else factors[k].percentage / 100.0)
  {
    var g := factors[k].(isApplied := !factors[k].isApplied);
    MapWhereIdAt(factors, FactorId, k, (f: ComplexityFactor) => f.(isApplied := !f.isApplied));
    SumReplace(factors, k, g, AppliedRate);
  }

  /** Changing a percentage moves the summed rate by the change, when the factor is
      applied, and not at all otherwise. */
  lemma {:induction false} SetFactorPercentageShiftsRate(factors: seq<ComplexityFactor>, k: nat, percentage: real)
    requires k < |factors| && UniqueFactorIds(factors)
    ensures ComplexityRate(SetFactorPercentage(factors, factors[k].id, percentage))
         == ComplexityRate(factors) + (if factors[k].isApplied then (percentage - factors[k].percentage) / 100.0 else 0.0)
  {
    var g := factors[k].(percentage := percentage);
    MapWhereIdAt(factors, FactorId, k, (f: ComplexityFactor) => f.(percentage := percentage));
    SumReplace(factors, k, g, AppliedRate);
  }

  // ---------------------------------------------------------------- loading, saving

  /** `costSimulations.find(cs => cs.id === lead.costSimulationId)`; a lead without a
      simulation id finds nothing. */
  function FindSimulation(sims: seq<CostSimulation>, id: Option<Id>): (r: Option<CostSimulation>)
    ensures r.Some? ==> id.Some? && r.value in sims && r.value.id == id.value
    ensures r.None? ==> id.None? || forall s :: s in sims ==> s.id != id.value
  {
    if id.None? || sims == [] then None
    else if sims[0].id == id.value then Some(sims[0])
    else FindSimulation(sims[1..], id)
  }

  /** The store's save by id: every stored simulation with that id is replaced, or the new
      one is appended. */
  function UpsertSimulation(sims: seq<CostSimulation>, sim: CostSimulation): (r: seq<CostSimulation>)
    ensures sim in r
    ensures forall s :: s in r ==> s == sim || (s in sims && s.id != sim.id)
  {
    if exists i :: 0 <= i < |sims| && sims[i].id == sim.id then ReplaceSimulation(sims, sim)
    else sims + [sim]
  }

  function ReplaceSimulation(sims: seq<CostSimulation>, sim: CostSimulation): (r: seq<CostSimulation>)
    requires exists i :: 0 <= i < |sims| && sims[i].id == sim.id
    ensures sim in r
    ensures forall s :: s in r ==> s == sim || (s in sims && s.id != sim.id)
  {
    if sims[0].id == sim.id then
      [sim] + (if exists i :: 0 <= i < |sims[1..]| && sims[1..][i].id == sim.id then ReplaceSimulation(sims[1..], sim) else sims[1..])
    else
      assert exists i :: 0 <= i < |sims[1..]| && sims[1..][i].id == sim.id by {
        var i :| 0 <= i < |sims| && sims[i].id == sim.id;
        assert sims[1..][i - 1] == sims[i];
      }
      [sims[0]] + ReplaceSimulation(sims[1..], sim)
  }

  /** After saving, looking the id up finds the saved simulation. */
  lemma {:induction false} FindAfterUpsert(sims: seq<CostSimulation>, sim: CostSimulation)
    ensures FindSimulation(UpsertSimulation(sims, sim), Some(sim.id)) == Some(sim)
  {
    var r := UpsertSimulation(sims, sim);
    var found := FindSimulation(r, Some(sim.id));
    assert found.Some? by {
      if found.None? {
        assert sim in r;
      }
    }
    assert found.value in r && found.value.id == sim.id;
  }

  /** The state the tab loads for a lead: its simulation, if any, and the form seeded from
      it or from the catalogue and templates. Every default uses `||`, so a stored 0 (or
      empty style) takes the default. */
  datatype Loaded = Loaded(current: Option<CostSimulation>, form: SimulationForm)

  /** The form of a lead without a simulation: the catalogue seeded for one month, no
      variable costs, the default style, the stage template, the seeded complexity factors,
      25% profit, no negotiation, 6% tax and no discount. */
  function FreshForm(configs: seq<OfficeCostConfig>, stamp: string): SimulationForm {
    SimulationForm(
      1,
      GetAppliedConfigItems(configs, [], 1.0, stamp),
      [],
      Constants.DefaultProjectStyle(),
      Constants.DetailedStagesTemplate(),
      SeedComplexityFactors(Constants.ComplexityFactorsTemplate(), stamp),
      25.0, 0.0, 6.0, 0.0)
  }

  /** The form a stored simulation loads into; a 0 or missing value falls back to its
      default (`sim.x || default`), as does a missing style or stage list. */
  function FormOfSimulation(s: CostSimulation): SimulationForm {
    SimulationForm(
      IntNonZeroOr(s.durationMonths, 1),
      s.officeCosts,
      s.variableCosts,
      OrElse(s.projectStyle, Constants.DefaultProjectStyle()),
      s.detailedStages.GetOr(Constants.DetailedStagesTemplate()),
      s.complexityFactors,
      NonZeroOr(s.profitPercentage, 25.0),
      s.negotiationPercentage,
      NonZeroOr(s.taxPercentage, 6.0),
      NumOr(s.discountPercentage, 0.0))
  }

  /** The load effect: the lead's simulation, if one is stored under its link, else a fresh
      form. */
  function LoadSimulationForm(lead: Lead, sims: seq<CostSimulation>, configs: seq<OfficeCostConfig>, stamp: string): Loaded {
    match FindSimulation(sims, lead.costSimulationId)
    case None => Loaded(None, FreshForm(configs, stamp))
    case Some(s) => Loaded(Some(s), FormOfSimulation(s))
  }

  /** A lead without a simulation starts from the catalogue for one month, no variable
      costs, the default style, the stage template, inert complexity, 25% profit and 6% tax. */
  lemma {:induction false} LoadWithoutSimulation(lead: Lead, sims: seq<CostSimulation>, configs: seq<OfficeCostConfig>, stamp: string)
    requires lead.costSimulationId.None?
    ensures LoadSimulationForm(lead, sims, configs, stamp) == Loaded(None, FreshForm(configs, stamp))
  {
  }

  lemma {:induction false} FreshFormDefaults(configs: seq<OfficeCostConfig>, stamp: string)
    ensures var f := FreshForm(configs, stamp);
      f.durationMonths == 1 && f.variable == [] &&
      f.style == "Padrão" && f.stages == Constants.DetailedStagesTemplate() &&
      ComplexityRate(f.factors) == 0.0 &&
      f.profit == 25.0 && f.negotiation == 0.0 && f.tax == 6.0 && f.discount == 0.0 &&
      (forall i :: 0 <= i < |f.office| ==> f.office[i].isApplied && f.office[i].quantity == 1.0)
  {
    var t := Constants.ComplexityFactorsTemplate();
    ComplexityTemplateRateIsZero();
    SeedComplexityKeepsRate(t, stamp);
    SeedingWithoutSimulation(configs, 1.0, stamp);
  }

  /** The stored form of the waterfall values; before the first calculation the totals are
      empty, so the required fields are stored as 0 and the optional ones are absent. */
  function StoreTotals(totals: Option<Totals>): StoredTotals {
    match totals
    case None =>
      StoredTotals(0.0, None, 0.0, 0.0, 0.0, 0.0, 0.0, 0.0, 0.0, 0.0, 0.0, None, None, 0.0, 0.0, None)
    case Some(t) =>
      StoredTotals(t.officeSubtotal, Some(t.officeContribution), t.variableSubtotal, t.teamSubtotal,
                   t.directSubtotal, t.complexityValue, t.costWithComplexity, t.profitValue, t.costPlusProfit,
                   t.negotiationValue, t.costPlusProfitAndNegotiation, Some(t.discountValue),
                   Some(t.valueBeforeTax), t.taxValue, t.finalProposedValue, Some(t.finalProposedValueWithDiscount))
  }

  /** `currentSimulation?.id || lead.costSimulationId || 'sim-<stamp>'`. */
  function SimulationId(current: Option<CostSimulation>, lead: Lead, stamp: string): Id {
    if current.Some? && current.value.id != "" then current.value.id
    else if IsTruthy(lead.costSimulationId) then lead.costSimulationId.value
    else "sim-" + stamp
  }

  datatype Saved = Saved(sim: CostSimulation, lead: Lead)

  /** `handleSaveSimulation`: the simulation record built from the form and the totals, and
      the lead linked to it with the proposal as its estimated value. */
  function SaveSimulation(lead: Lead, current: Option<CostSimulation>, form: SimulationForm,
                          totals: Option<Totals>, stamp: string, now: string): Saved
  {
    var stored := StoreTotals(totals);
    var sim := CostSimulation(
      SimulationId(current, lead, stamp), lead.id, form.durationMonths,
      form.office, form.variable, [], form.factors,
      form.profit, form.negotiation, form.tax, Some(form.discount), stored,
      if current.Some? && current.value.createdAt != "" then current.value.createdAt else now,
      now, Some(form.style), Some(form.stages));
    var leadValue := if stored.finalProposedValueWithDiscount.Some? then stored.finalProposedValueWithDiscount.value
                     else stored.finalProposedValue;
    Saved(sim, lead.(costSimulationId := Some(sim.id), estimatedValue := Some(leadValue)))
  }

  /** Saving links the lead to the saved simulation, keeps an existing simulation's id (else
      the lead's link, else a fresh id) and makes the proposal's final value the lead's
      estimated value; nothing else about the lead changes. */
  lemma {:induction false} SaveSimulationLinksLead(lead: Lead, current: Option<CostSimulation>, form: SimulationForm,
                                totals: Option<Totals>, stamp: string, now: string)
    ensures var s := SaveSimulation(lead, current, form, totals, stamp, now);
      s.sim.leadId == lead.id &&
      s.lead == lead.(costSimulationId := Some(s.sim.id), estimatedValue := s.lead.estimatedValue) &&
      s.lead.estimatedValue == Some(if totals.Some? then totals.value.finalProposedValueWithDiscount else 0.0) &&
      (current.Some? && current.value.id != "" ==> s.sim.id == current.value.id) &&
      ((current.None? || current.value.id == "") && IsTruthy(lead.costSimulationId) ==> s.sim.id == lead.costSimulationId.value) &&
      ((current.None? || current.value.id == "") && !IsTruthy(lead.costSimulationId) ==> s.sim.id == "sim-" + stamp)
  {
  }

  /** Saving and loading back restores the form, as long as none of the values the loader
      defaults with `||` is 0 or empty. */
  lemma {:induction false} SaveThenLoadRestoresForm(lead: Lead, current: Option<CostSimulation>, form: SimulationForm,
                                 totals: Option<Totals>, stamp: string, now: string,
                                 sims: seq<CostSimulation>, configs: seq<OfficeCostConfig>, stamp2: string)
    requires form.durationMonths != 0 && form.profit != 0.0 && form.tax != 0.0 && form.style != ""
    ensures var s := SaveSimulation(lead, current, form, totals, stamp, now);
      LoadSimulationForm(s.lead, UpsertSimulation(sims, s.sim), configs, stamp2) == Loaded(Some(s.sim), form)
  {
    var s := SaveSimulation(lead, current, form, totals, stamp, now);
    SavedSimulationIsFound(lead, current, form, totals, stamp, now, sims);
    SavedFormRestores(lead, current, form, totals, stamp, now);
  }

  /** The lead's new link finds the saved simulation among the upserted ones. */
  lemma {:induction false} SavedSimulationIsFound(lead: Lead, current: Option<CostSimulation>, form: SimulationForm,
                                 totals: Option<Totals>, stamp: string, now: string, sims: seq<CostSimulation>)
    ensures var s := SaveSimulation(lead, current, form, totals, stamp, now);
      FindSimulation(UpsertSimulation(sims, s.sim), s.lead.costSimulationId) == Some(s.sim)
  {
    var s := SaveSimulation(lead, current, form, totals, stamp, now);
    FindAfterUpsert(sims, s.sim);
  }

  /** The saved simulation loads back into the form it was saved from, as long as none of
      the values the loader defaults with `||` is 0 or empty. */
  lemma {:induction false} SavedFormRestores(lead: Lead, current: Option<CostSimulation>, form: SimulationForm,
                                 totals: Option<Totals>, stamp: string, now: string)
    requires form.durationMonths != 0 && form.profit != 0.0 && form.tax != 0.0 && form.style != ""
    ensures FormOfSimulation(SaveSimulation(lead, current, form, totals, stamp, now).sim) == form
  {
  }

  /** As written, a margin saved as 0 does not survive a reload: 0% profit comes back as
      25% and 0% tax as 6%. */
  lemma {:induction false} ZeroMarginsReloadAsDefaults(lead: Lead, current: Option<CostSimulation>, form: SimulationForm,
                                    totals: Option<Totals>, stamp: string, now: string,
                                    sims: seq<CostSimulation>, configs: seq<OfficeCostConfig>, stamp2: string)
    requires form.profit == 0.0 && form.tax == 0.0
    ensures var s := SaveSimulation(lead, current, form, totals, stamp, now);
      var l := LoadSimulationForm(s.lead, UpsertSimulation(sims, s.sim), configs, stamp2);
      l.form.profit == 25.0 && l.form.tax == 6.0
  {
    var s := SaveSimulation(lead, current, form, totals, stamp, now);
    SavedSimulationIsFound(lead, current, form, totals, stamp, now, sims);
    LoadFound(s.lead, UpsertSimulation(sims, s.sim), configs, stamp2, s.sim);
    ZeroMarginsLoadAsDefaults(s.sim);
  }

  /** A lead whose link finds a stored simulation loads that simulation's form. */
  lemma LoadFound(lead: Lead, sims: seq<CostSimulation>, configs: seq<OfficeCostConfig>, stamp: string, s: CostSimulation)
    requires FindSimulation(sims, lead.costSimulationId) == Some(s)
    ensures LoadSimulationForm(lead, sims, configs, stamp) == Loaded(Some(s), FormOfSimulation(s))
  {
  }

  lemma ZeroMarginsLoadAsDefaults(s: CostSimulation)
    requires s.profitPercentage == 0.0 && s.taxPercentage == 0.0
    ensures FormOfSimulation(s).profit == 25.0 && FormOfSimulation(s).tax == 6.0
  {
  }

  // ---------------------------------------------------------------- conversion

  datatype Conversion = Conversion(project: Project, lead: Lead)

  /** The value the new project takes: the proposal once calculated, else the lead's
      estimate, else 0. */
  function ConvertedValue(totals: Option<Totals>, lead: Lead): real {
    if totals.Some? then totals.value.finalProposedValueWithDiscount else NumOr(lead.estimatedValue, 0.0)
  }

  /** The project's name: the first 50 characters of the description, or
      `Projeto <client name>` when the description is empty. */
  function ConvertedName(description: string, clientName: string): (r: string)
    ensures description != "" ==> r == Text.Prefix(description, 50)
    ensures description == "" ==> r == "Projeto " + clientName
  {
    var prefix := Text.Prefix(description, 50);
    if prefix != "" then prefix else "Projeto " + clientName
  }

  /** `convertLeadToProject` on the lead page: a planned residential project for the client,
      priced at the simulation's proposal and due one 30-day month per month of duration
      (at least one), carrying the simulation's style and stages; the lead is won. */
  function ConvertLeadToProject(lead: Lead, client: Client, totals: Option<Totals>, form: SimulationForm,
                                today: int, stamp: string, now: string): Conversion
  {
    var project := Project(
      "proj-" + stamp, client.id, Some(client.name),
      ConvertedName(lead.projectDescription, client.name),
      Residential,
      if client.address != "" then client.address else "A definir",
      today, today + IntNonZeroOr(form.durationMonths, 1) * 30, Planning,
      Some("Convertido da Oportunidade CRM: " + lead.potentialClientName + " - " + lead.projectDescription
           + "\n\n" + OrElse(lead.notes, "")),
      now, now, Some(ConvertedValue(totals, lead)), Some(0.0), [], [], Some(form.style), form.stages);
    Conversion(project, lead.(status := Won))
  }

  /** The converted project is planned, unpaid, priced at the proposal (or the estimate),
      due `30 * (duration || 1)` days after it starts, named after the description (at
      most 50 characters of it) or the client, and carries the form's stages; the lead
      becomes won and nothing else about it changes. */
  lemma {:induction false} ConvertLeadToProjectSpec(lead: Lead, client: Client, totals: Option<Totals>, form: SimulationForm,
                                 today: int, stamp: string, now: string)
    ensures var c := ConvertLeadToProject(lead, client, totals, form, today, stamp, now);
      c.project.status == Planning && c.project.paidValue == Some(0.0) &&
      c.project.totalValue == Some(ConvertedValue(totals, lead)) &&
      c.project.startDate == today &&
      c.project.dueDate - c.project.startDate == 30 * (if form.durationMonths != 0 then form.durationMonths else 1) &&
      (lead.projectDescription != "" ==> |c.project.name| <= 50 && c.project.name <= lead.projectDescription) &&
      (lead.projectDescription == "" ==> c.project.name == "Projeto " + client.name) &&
      c.project.clientId == client.id && c.project.clientName == Some(client.name) &&
      (client.address != "" ==> c.project.address == client.address) &&
      (client.address == "" ==> c.project.address == "A definir") &&
      c.project.projectStyle == Some(form.style) && c.project.detailedStages == form.stages &&
      c.project.phases == [] && c.project.payments == [] &&
      c.lead == lead.(status := Won)
  {
  }

  /** Once the form has been priced, the lead's saved estimate and the converted project's
      value are both the waterfall's final value, in its closed form. */
  lemma {:induction false} PricedValueReachesLeadAndProject(lead: Lead, client: Client, current: Option<CostSimulation>,
                                                            form: SimulationForm, team: seq<TeamMember>,
                                                            today: int, stamp: string, now: string)
    ensures var t := Waterfall(form, team);
      var v := ClosedForm(t.directSubtotal, ComplexityRate(form.factors), form.profit, form.negotiation,
                          form.discount, form.tax);
      SaveSimulation(lead, current, form, Some(t), stamp, now).lead.estimatedValue == Some(v) &&
      ConvertLeadToProject(lead, client, Some(t), form, today, stamp, now).project.totalValue == Some(v)
  {
    WaterfallClosedForm(form, team);
  }
}
