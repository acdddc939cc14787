/** The stage/item pricing editor (components/projects/DetailedStagesPricingForm.tsx): an
    ordered list of stages, each an ordered list of work items priced at hours times the
    responsible member's hourly rate. Every handler builds a new stage list and hands it
    to `setStages`; here a handler returns `Some(newStages)`, and `None` when it returns
    early without calling `setStages` (read-only mode, or a confirmation the user declined).
    `stamp` stands for the `Date.now()` text the source puts into new ids. */
module StagePricing {
  import opened Wrappers
  import opened Domain
  import Text
  import Collections

  // ---------------------------------------------------------------- costs

  /** The sum of the item costs, as `items.reduce((acc, item) => acc + cost(item), 0)`. */
  function ItemsCost(team: seq<TeamMember>, items: seq<StageItem>): real
    decreases |items|
  {
    if items == [] then 0.0 else ItemsCost(team, items[..|items| - 1]) + ItemCost(team, items[|items| - 1])
  }

  /** The per-stage subtotal shown on each stage card (`stageTotalCost`). */
  function StageTotalCost(team: seq<TeamMember>, stage: Stage): real {
    ItemsCost(team, stage.items)
  }

  /** The sum of the stage subtotals over a stage list. */
  function StagesCost(team: seq<TeamMember>, stages: seq<Stage>): real
    decreases |stages|
  {
    if stages == [] then 0.0
    else StagesCost(team, stages[..|stages| - 1]) + StageTotalCost(team, stages[|stages| - 1])
  }

  lemma {:induction false} ItemsCostConcat(team: seq<TeamMember>, a: seq<StageItem>, b: seq<StageItem>)
    ensures ItemsCost(team, a + b) == ItemsCost(team, a) + ItemsCost(team, b)
    decreases |b|
  {
    if b == [] {
      assert a + b == a;
    } else {
      assert (a + b)[..|a + b| - 1] == a + b[..|b| - 1];
      ItemsCostConcat(team, a, b[..|b| - 1]);
    }
  }

  lemma {:induction false} StagesCostConcat(team: seq<TeamMember>, a: seq<Stage>, b: seq<Stage>)
    ensures StagesCost(team, a + b) == StagesCost(team, a) + StagesCost(team, b)
    decreases |b|
  {
    if b == [] {
      assert a + b == a;
    } else {
      assert (a + b)[..|a + b| - 1] == a + b[..|b| - 1];
      StagesCostConcat(team, a, b[..|b| - 1]);
    }
  }

  lemma {:induction false} StagesCostSingle(team: seq<TeamMember>, s: Stage)
    ensures StagesCost(team, [s]) == StageTotalCost(team, s)
  {
    assert [s][..0] == [];
  }

  lemma {:induction false} ItemsCostSingle(team: seq<TeamMember>, x: StageItem)
    ensures ItemsCost(team, [x]) == ItemCost(team, x)
  {
    assert [x][..0] == [];
  }

  /** Replacing the stage at position `k` changes the total by the change in that stage's cost. */
  lemma {:induction false} StagesCostReplace(team: seq<TeamMember>, stages: seq<Stage>, k: nat, s: Stage)
    requires k < |stages|
    ensures StagesCost(team, stages[k := s])
         == StagesCost(team, stages) - StageTotalCost(team, stages[k]) + StageTotalCost(team, s)
  {
    assert stages == stages[..k] + [stages[k]] + stages[k + 1..];
    assert stages[k := s] == stages[..k] + [s] + stages[k + 1..];
    StagesCostConcat(team, stages[..k] + [stages[k]], stages[k + 1..]);
    StagesCostConcat(team, stages[..k], [stages[k]]);
    StagesCostConcat(team, stages[..k] + [s], stages[k + 1..]);
    StagesCostConcat(team, stages[..k], [s]);
    StagesCostSingle(team, stages[k]);
    StagesCostSingle(team, s);
  }

  // ---------------------------------------------------------------- list plumbing

  function StageId(stage: Stage): Id { stage.id }

  function StageItemId(item: StageItem): Id { item.id }

  /** `stages.filter(stage => stage.id !== stageId)`. */
  function WithoutStage(stages: seq<Stage>, stageId: Id): (r: seq<Stage>)
    ensures |r| <= |stages|
    ensures forall i :: 0 <= i < |r| ==> r[i].id != stageId
  {
    if stages == [] then []
    else if stages[0].id == stageId then WithoutStage(stages[1..], stageId)
    else [stages[0]] + WithoutStage(stages[1..], stageId)
  }

  /** The filter keeps exactly the elements without that id. */
  lemma {:induction false} WithoutStageMembers(stages: seq<Stage>, stageId: Id)
    ensures forall s :: s in WithoutStage(stages, stageId) <==> s in stages && s.id != stageId
    decreases |stages|
  {
    if stages != [] {
      WithoutStageMembers(stages[1..], stageId);
      assert stages == [stages[0]] + stages[1..];
    }
  }

  /** `items.filter(item => item.id !== itemId)`. */
  function WithoutItem(items: seq<StageItem>, itemId: Id): (r: seq<StageItem>)
    ensures |r| <= |items|
    ensures forall i :: 0 <= i < |r| ==> r[i].id != itemId
  {
    if items == [] then []
    else if items[0].id == itemId then WithoutItem(items[1..], itemId)
    else [items[0]] + WithoutItem(items[1..], itemId)
  }

  /** The filter keeps exactly the elements without that id. */
  lemma {:induction false} WithoutItemMembers(items: seq<StageItem>, itemId: Id)
    ensures forall x :: x in WithoutItem(items, itemId) <==> x in items && x.id != itemId
    decreases |items|
  {
    if items != [] {
      WithoutItemMembers(items[1..], itemId);
      assert items == [items[0]] + items[1..];
    }
  }

  /** `items.findIndex(item => item.id === itemId)`, absent for -1. */
  function IndexOfItem(items: seq<StageItem>, itemId: Id): (r: Option<nat>)
    ensures r.Some? ==> r.value < |items| && items[r.value].id == itemId
    ensures r.Some? ==> forall k :: 0 <= k < r.value ==> items[k].id != itemId
    ensures r.None? ==> forall k :: 0 <= k < |items| ==> items[k].id != itemId
  {
    if items == [] then None
    else if items[0].id == itemId then Some(0)
    else match IndexOfItem(items[1..], itemId)
      case None => None
      case Some(k) => Some(k + 1)
  }

  /** The items of one stage after duplicating `itemId`: the copy, with id `newId`, goes
      directly after the first item with that id; without such an item nothing changes. */
  function DuplicateInItems(items: seq<StageItem>, itemId: Id, newId: Id): seq<StageItem> {
    match IndexOfItem(items, itemId)
    case None => items
    case Some(k) => items[..k + 1] + [items[k].(id := newId)] + items[k + 1..]
  }

  // ---------------------------------------------------------------- handlers

  function NewStage(count: nat, stamp: string): Stage {
    Stage("dstage-" + stamp, "Nova Etapa " + Text.NatToString(count + 1), [], false)
  }

  function NewItem(stamp: string): StageItem {
    StageItem("dsitem-" + stamp, "Novo Item de Projeto", None, Some(0.0))
  }

  /** `handleAddStage`: appends one empty, expanded stage named after the new stage count. */
  function AddStage(stages: seq<Stage>, readOnly: bool, stamp: string): (r: Option<seq<Stage>>)
    ensures readOnly <==> r.None?
    ensures r.Some? ==> |r.value| == |stages| + 1 && r.value[..|stages|] == stages
    ensures r.Some? ==> var s := r.value[|stages|];
      s.name == "Nova Etapa " + Text.NatToString(|stages| + 1) && s.items == [] && !s.isCollapsed
    ensures forall team :: r.Some? ==> StagesCost(team, r.value) == StagesCost(team, stages)
  {
    if readOnly then None
    else
      var r := stages + [NewStage(|stages|, stamp)];
      assert r[..|r| - 1] == stages;
      Some(r)
  }

  /** `handleToggleStageCollapse`: flips `isCollapsed` of the stages with that id; it has
      no read-only check. */
  function ToggleStageCollapse(stages: seq<Stage>, stageId: Id): (r: seq<Stage>)
    ensures |r| == |stages|
    ensures forall i :: 0 <= i < |stages| ==>
      r[i].id == stages[i].id && r[i].name == stages[i].name && r[i].items == stages[i].items
    ensures forall i :: 0 <= i < |stages| ==>
      r[i].isCollapsed == (if stages[i].id == stageId then !stages[i].isCollapsed else stages[i].isCollapsed)
  {
    Collections.MapWhereId(stages, StageId, stageId, (s: Stage) => s.(isCollapsed := !s.isCollapsed))
  }

  /** `handleUpdateStageName`. */
  function RenameStage(stages: seq<Stage>, readOnly: bool, stageId: Id, newName: string): (r: Option<seq<Stage>>)
    ensures readOnly <==> r.None?
    ensures r.Some? ==> |r.value| == |stages|
    ensures r.Some? ==> forall i :: 0 <= i < |stages| ==>
      r.value[i] == if stages[i].id == stageId then stages[i].(name := newName) else stages[i]
  {
    if readOnly then None
    else Some(Collections.MapWhereId(stages, StageId, stageId, (s: Stage) => s.(name := newName)))
  }

  /** `handleRemoveStage`: removes every stage with that id, items and all, once confirmed. */
  function RemoveStage(stages: seq<Stage>, readOnly: bool, confirmed: bool, stageId: Id): (r: Option<seq<Stage>>)
    ensures r.None? <==> readOnly || !confirmed
    ensures r.Some? ==> forall s :: s in r.value <==> s in stages && s.id != stageId
  {
    WithoutStageMembers(stages, stageId);
    if readOnly || !confirmed then None else Some(WithoutStage(stages, stageId))
  }

  /** `handleAddItem`: appends one new item (0 hours, no responsible) to the matching stage. */
  function AddItem(stages: seq<Stage>, readOnly: bool, stageId: Id, stamp: string): (r: Option<seq<Stage>>)
    ensures readOnly <==> r.None?
    ensures r.Some? ==> |r.value| == |stages|
    ensures r.Some? ==> forall i :: 0 <= i < |stages| ==>
      r.value[i] == if stages[i].id == stageId
                    then stages[i].(items := stages[i].items + [StageItem("dsitem-" + stamp, "Novo Item de Projeto", None, Some(0.0))])
                    else stages[i]
  {
    if readOnly then None
    else
      var item := NewItem(stamp);
      Some(Collections.MapWhereId(stages, StageId, stageId, (s: Stage) => s.(items := s.items + [item])))
  }

  /** `handleDuplicateItem`. */
  function DuplicateItem(stages: seq<Stage>, readOnly: bool, stageId: Id, itemId: Id, stamp: string): (r: Option<seq<Stage>>)
    ensures readOnly <==> r.None?
    ensures r.Some? ==> |r.value| == |stages|
    ensures r.Some? ==> forall i :: 0 <= i < |stages| ==>
      r.value[i].id == stages[i].id && r.value[i].name == stages[i].name &&
      r.value[i].isCollapsed == stages[i].isCollapsed
    ensures r.Some? ==> forall i :: 0 <= i < |stages| && stages[i].id != stageId ==> r.value[i] == stages[i]
    ensures r.Some? ==> forall i :: 0 <= i < |stages| && stages[i].id == stageId ==>
      r.value[i].items == DuplicateInItems(stages[i].items, itemId, "dsitem-" + stamp)
  {
    if readOnly then None
    else
      var newId := "dsitem-" + stamp;
      Some(Collections.MapWhereId(stages, StageId, stageId, (s: Stage) => s.(items := DuplicateInItems(s.items, itemId, newId))))
  }

  /** `handleRemoveItem`: removes the items with that id from the matching stage, once confirmed. */
  function RemoveItem(stages: seq<Stage>, readOnly: bool, confirmed: bool, stageId: Id, itemId: Id): (r: Option<seq<Stage>>)
    ensures r.None? <==> readOnly || !confirmed
    ensures r.Some? ==> |r.value| == |stages|
    ensures r.Some? ==> forall i :: 0 <= i < |stages| ==>
      r.value[i] == if stages[i].id == stageId then stages[i].(items := WithoutItem(stages[i].items, itemId)) else stages[i]
  {
    if readOnly || !confirmed then None
    else Some(Collections.MapWhereId(stages, StageId, stageId, (s: Stage) => s.(items := WithoutItem(s.items, itemId))))
  }

  /** The one field `handleUpdateItem` writes, with its new value. */
  datatype ItemEdit = SetName(name: string) | SetResponsible(responsibleId: Option<Id>) | SetHours(hours: Option<real>)

  function ApplyItemEdit(item: StageItem, edit: ItemEdit): StageItem {
    match edit
    case SetName(n) => item.(name := n)
    case SetResponsible(rid) => item.(responsibleId := rid)
    case SetHours(h) => item.(hours := h)
  }

  /** `handleUpdateItem`: writes one field of the matching items of the matching stages. */
  function UpdateItem(stages: seq<Stage>, readOnly: bool, stageId: Id, itemId: Id, edit: ItemEdit): (r: Option<seq<Stage>>)
    ensures readOnly <==> r.None?
  {
    if readOnly then None
    else Some(Collections.MapWhereId(stages, StageId, stageId, (s: Stage) => s.(items := Collections.MapWhereId(s.items, StageItemId, itemId, (x: StageItem) => ApplyItemEdit(x, edit)))))
  }

  // ---------------------------------------------------------------- properties

  lemma {:induction false} ItemsCostPointwise(team: seq<TeamMember>, a: seq<StageItem>, b: seq<StageItem>)
    requires |a| == |b|
    requires forall i :: 0 <= i < |a| ==> ItemCost(team, a[i]) == ItemCost(team, b[i])
    ensures ItemsCost(team, a) == ItemsCost(team, b)
    decreases |a|
  {
    if a != [] {
      ItemsCostPointwise(team, a[..|a| - 1], b[..|b| - 1]);
    }
  }

  lemma {:induction false} StagesCostPointwise(team: seq<TeamMember>, a: seq<Stage>, b: seq<Stage>)
    requires |a| == |b|
    requires forall i :: 0 <= i < |a| ==> StageTotalCost(team, a[i]) == StageTotalCost(team, b[i])
    ensures StagesCost(team, a) == StagesCost(team, b)
    decreases |a|
  {
    if a != [] {
      StagesCostPointwise(team, a[..|a| - 1], b[..|b| - 1]);
    }
  }

  /** Collapsing or expanding is view state only: no stage cost changes, and toggling
      twice restores the list. */
  lemma {:induction false} ToggleStageCollapseKeepsCosts(team: seq<TeamMember>, stages: seq<Stage>, stageId: Id)
    ensures forall i :: 0 <= i < |stages| ==>
      StageTotalCost(team, ToggleStageCollapse(stages, stageId)[i]) == StageTotalCost(team, stages[i])
    ensures StagesCost(team, ToggleStageCollapse(stages, stageId)) == StagesCost(team, stages)
    ensures ToggleStageCollapse(ToggleStageCollapse(stages, stageId), stageId) == stages
  {
    var r := ToggleStageCollapse(stages, stageId);
    StagesCostPointwise(team, r, stages);
    var rr := ToggleStageCollapse(r, stageId);
    assert forall i :: 0 <= i < |stages| ==> rr[i] == stages[i];
  }

  lemma {:induction false} WithoutStageMissing(stages: seq<Stage>, stageId: Id)
    requires forall i :: 0 <= i < |stages| ==> stages[i].id != stageId
    ensures WithoutStage(stages, stageId) == stages
  {
    if stages != [] {
      WithoutStageMissing(stages[1..], stageId);
    }
  }

  lemma {:induction false} WithoutStageConcat(a: seq<Stage>, b: seq<Stage>, stageId: Id)
    ensures WithoutStage(a + b, stageId) == WithoutStage(a, stageId) + WithoutStage(b, stageId)
    decreases |a|
  {
    if a == [] {
      assert a + b == b;
    } else {
      assert (a + b)[0] == a[0];
      assert (a + b)[1..] == a[1..] + b;
      WithoutStageConcat(a[1..], b, stageId);
    }
  }

  lemma {:induction false} WithoutStageAt(stages: seq<Stage>, stageId: Id, k: nat)
    requires k < |stages| && stages[k].id == stageId
    requires forall i :: 0 <= i < |stages| && i != k ==> stages[i].id != stageId
    ensures WithoutStage(stages, stageId) == stages[..k] + stages[k + 1..]
  {
    var a, b := stages[..k], stages[k + 1..];
    assert stages == a + [stages[k]] + b;
    forall i | 0 <= i < |a|
      ensures a[i].id != stageId
    {
      assert a[i] == stages[i];
    }
    forall i | 0 <= i < |b|
      ensures b[i].id != stageId
    {
      assert b[i] == stages[k + 1 + i];
    }
    WithoutStageAround(a, stages[k], b, stageId);
  }

  lemma {:induction false} WithoutStageAround(a: seq<Stage>, x: Stage, b: seq<Stage>, stageId: Id)
    requires x.id == stageId
    requires forall i :: 0 <= i < |a| ==> a[i].id != stageId
    requires forall i :: 0 <= i < |b| ==> b[i].id != stageId
    ensures WithoutStage(a + [x] + b, stageId) == a + b
  {
    WithoutStageConcat(a + [x], b, stageId);
    WithoutStageConcat(a, [x], stageId);
    WithoutStageMissing(a, stageId);
    WithoutStageMissing(b, stageId);
    WithoutStageSingle(x, stageId);
  }

  lemma WithoutStageSingle(x: Stage, stageId: Id)
    requires x.id == stageId
    ensures WithoutStage([x], stageId) == []
  {
    assert [x][1..] == [];
  }

  /** Removing a stage id that no stage has leaves the list as it was. */
  lemma {:induction false} RemoveMissingStageIsNoOp(stages: seq<Stage>, stageId: Id)
    requires forall i :: 0 <= i < |stages| ==> stages[i].id != stageId
    ensures RemoveStage(stages, false, true, stageId) == Some(stages)
  {
    WithoutStageMissing(stages, stageId);
  }

  /** With unique stage ids, removing the stage at `k` keeps the others in order and takes
      exactly its items out of the team cost. */
  lemma {:induction false} RemoveStageDropsItsCost(team: seq<TeamMember>, stages: seq<Stage>, k: nat)
    requires k < |stages|
    requires forall i, j :: 0 <= i < j < |stages| ==> stages[i].id != stages[j].id
    ensures RemoveStage(stages, false, true, stages[k].id) == Some(stages[..k] + stages[k + 1..])
    ensures StagesCost(team, RemoveStage(stages, false, true, stages[k].id).value)
         == StagesCost(team, stages) - StageTotalCost(team, stages[k])
  {
    WithoutStageAt(stages, stages[k].id, k);
    assert stages == stages[..k] + [stages[k]] + stages[k + 1..];
    StagesCostConcat(team, stages[..k] + [stages[k]], stages[k + 1..]);
    StagesCostConcat(team, stages[..k], [stages[k]]);
    StagesCostConcat(team, stages[..k], stages[k + 1..]);
    StagesCostSingle(team, stages[k]);
  }

  /** A new item has 0 hours, so adding it changes no stage cost. */
  lemma {:induction false} AddItemKeepsCosts(team: seq<TeamMember>, stages: seq<Stage>, stageId: Id, stamp: string)
    ensures StagesCost(team, AddItem(stages, false, stageId, stamp).value) == StagesCost(team, stages)
  {
    var r := AddItem(stages, false, stageId, stamp).value;
    forall i | 0 <= i < |stages|
      ensures StageTotalCost(team, r[i]) == StageTotalCost(team, stages[i])
    {
      if stages[i].id == stageId {
        ItemsCostConcat(team, stages[i].items, [NewItem(stamp)]);
        ItemsCostSingle(team, NewItem(stamp));
      }
    }
    StagesCostPointwise(team, r, stages);
  }

  /** Inserting an item anywhere adds exactly its cost. */
  lemma {:induction false} ItemsCostInsert(team: seq<TeamMember>, a: seq<StageItem>, x: StageItem, b: seq<StageItem>)
    ensures ItemsCost(team, a + [x] + b) == ItemsCost(team, a + b) + ItemCost(team, x)
  {
    ItemsCostConcat(team, a + [x], b);
    ItemsCostConcat(team, a, [x]);
    ItemsCostConcat(team, a, b);
    ItemsCostSingle(team, x);
  }

  /** An item's cost depends on its hours and its responsible alone. */
  lemma {:induction false} ItemCostOfSameWork(team: seq<TeamMember>, x: StageItem, y: StageItem)
    requires x.hours == y.hours && x.responsibleId == y.responsibleId
    ensures ItemCost(team, x) == ItemCost(team, y)
  {
  }

  /** Duplicating inserts a copy (new id, same name, responsible and hours) right after the
      first item with that id. Without such an item the items are unchanged. */
  lemma {:induction false} DuplicateInItemsInsertsCopy(items: seq<StageItem>, itemId: Id, newId: Id)
    ensures var r := DuplicateInItems(items, itemId, newId);
      match IndexOfItem(items, itemId)
      case None => r == items
      case Some(k) =>
        |r| == |items| + 1 && r[..k + 1] == items[..k + 1] && r[k + 2..] == items[k + 1..] &&
        r[k + 1].id == newId && r[k + 1].name == items[k].name &&
        r[k + 1].responsibleId == items[k].responsibleId && r[k + 1].hours == items[k].hours
  {
    match IndexOfItem(items, itemId)
    case None =>
    case Some(k) =>
      var r := DuplicateInItems(items, itemId, newId);
      assert r[..k + 1] == items[..k + 1];
      assert r[k + 2..] == items[k + 1..];
  }

  /** Duplicating adds the duplicated item's cost to the stage, once. */
  lemma {:induction false} DuplicateInItemsAddsItsCost(team: seq<TeamMember>, items: seq<StageItem>, itemId: Id, newId: Id)
    ensures ItemsCost(team, DuplicateInItems(items, itemId, newId))
         == ItemsCost(team, items) + match IndexOfItem(items, itemId)
                                     case None => 0.0
                                     case Some(k) => ItemCost(team, items[k])
  {
    match IndexOfItem(items, itemId)
    case None =>
    case Some(k) =>
      assert items == items[..k + 1] + items[k + 1..];
      ItemsCostInsert(team, items[..k + 1], items[k].(id := newId), items[k + 1..]);
      ItemCostOfSameWork(team, items[k].(id := newId), items[k]);
  }

  lemma {:induction false} WithoutItemMissing(items: seq<StageItem>, itemId: Id)
    requires forall i :: 0 <= i < |items| ==> items[i].id != itemId
    ensures WithoutItem(items, itemId) == items
  {
    if items != [] {
      WithoutItemMissing(items[1..], itemId);
    }
  }

  /** Removing an item id that the stage does not hold leaves every stage as it was. */
  lemma {:induction false} RemoveMissingItemIsNoOp(stages: seq<Stage>, stageId: Id, itemId: Id)
    requires forall i, j :: 0 <= i < |stages| && 0 <= j < |stages[i].items| ==> stages[i].items[j].id != itemId
    ensures RemoveItem(stages, false, true, stageId, itemId) == Some(stages)
  {
    var r := RemoveItem(stages, false, true, stageId, itemId).value;
    forall i | 0 <= i < |stages|
      ensures r[i] == stages[i]
    {
      WithoutItemMissing(stages[i].items, itemId);
    }
    assert r == stages;
  }

  /** An update writes only the edited field of the matching items of the matching
      stages; the stage list, the other stages and the other items are as they were. */
  lemma {:induction false} UpdateItemChangesOneField(stages: seq<Stage>, stageId: Id, itemId: Id, edit: ItemEdit)
    ensures var r := UpdateItem(stages, false, stageId, itemId, edit).value;
      |r| == |stages| &&
      forall i :: 0 <= i < |stages| ==>
        r[i].id == stages[i].id && r[i].name == stages[i].name && r[i].isCollapsed == stages[i].isCollapsed &&
        |r[i].items| == |stages[i].items| &&
        forall j :: 0 <= j < |stages[i].items| ==>
          var (was, now) := (stages[i].items[j], r[i].items[j]);
          (stages[i].id != stageId || was.id != itemId ==> now == was) &&
          (stages[i].id == stageId && was.id == itemId ==>
            now.id == was.id &&
            (if edit.SetName? then now.name == edit.name else now.name == was.name) &&
            (if edit.SetResponsible? then now.responsibleId == edit.responsibleId else now.responsibleId == was.responsibleId) &&
            (if edit.SetHours? then now.hours == edit.hours else now.hours == was.hours))
  {
  }

  /** Renaming the items with an id changes no item cost. */
  lemma {:induction false} RenameKeepsItemsCost(team: seq<TeamMember>, items: seq<StageItem>, itemId: Id, name: string)
    ensures ItemsCost(team, Collections.MapWhereId(items, StageItemId, itemId, (x: StageItem) => ApplyItemEdit(x, SetName(name)))) == ItemsCost(team, items)
  {
    var r := Collections.MapWhereId(items, StageItemId, itemId, (x: StageItem) => ApplyItemEdit(x, SetName(name)));
    forall j | 0 <= j < |items|
      ensures ItemCost(team, r[j]) == ItemCost(team, items[j])
    {
      ItemCostOfSameWork(team, r[j], items[j]);
    }
    ItemsCostPointwise(team, r, items);
  }

  /** Renaming an item changes no stage cost. */
  lemma {:induction false} RenameItemKeepsCosts(team: seq<TeamMember>, stages: seq<Stage>, stageId: Id, itemId: Id, name: string)
    ensures StagesCost(team, UpdateItem(stages, false, stageId, itemId, SetName(name)).value) == StagesCost(team, stages)
  {
    var r := UpdateItem(stages, false, stageId, itemId, SetName(name)).value;
    forall i | 0 <= i < |stages|
      ensures StageTotalCost(team, r[i]) == StageTotalCost(team, stages[i])
    {
      if stages[i].id == stageId {
        RenameKeepsItemsCost(team, stages[i].items, itemId, name);
      }
    }
    StagesCostPointwise(team, r, stages);
  }
}
