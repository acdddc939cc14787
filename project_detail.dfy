/** The project page (pages/ProjectDetailPage.tsx): the handlers that save, delete and toggle
    a project's payments, phases and sub-phases, the payment progress figures, and the two
    date-text formatters. Each handler returns the new list it hands to the project update;
    a handler behind a confirmation dialog returns `None` when the user declines. */
module ProjectDetail {
  import opened Wrappers
  import opened Domain
  import opened Collections
  import opened Sorting
  import Text

  // ---------------------------------------------------------------- by-id updates

  /** Replacing by id keeps every element with another id, with its multiplicity. */
  lemma {:induction false} ReplaceByIdCount<T>(s: seq<T>, key: T -> Id, x: T, y: T)
    requires key(y) != key(x)
    ensures multiset(MapWhereId(s, key, key(x), (z: T) => x))[y] == multiset(s)[y]
  {
    if s != [] {
      ReplaceByIdCount(s[1..], key, x, y);
      assert s == [s[0]] + s[1..];
      assert MapWhereId(s, key, key(x), (z: T) => x)
          == [MapWhereId(s, key, key(x), (z: T) => x)[0]] + MapWhereId(s[1..], key, key(x), (z: T) => x);
    }
  }

  /** Replacing by id keeps the length and every element with another id, with its
      multiplicity, puts the replacement in whenever some element had its id, and adds
      nothing else. */
  lemma {:induction false} ReplaceByIdSpec<T>(s: seq<T>, key: T -> Id, x: T)
    ensures var r := MapWhereId(s, key, key(x), (y: T) => x);
      |r| == |s| &&
      (forall y :: key(y) != key(x) ==> multiset(r)[y] == multiset(s)[y]) &&
      ((exists k :: 0 <= k < |s| && key(s[k]) == key(x)) ==> x in r) &&
      (forall y :: y in r ==> y == x || (y in s && key(y) != key(x)))
  {
    var r := MapWhereId(s, key, key(x), (y: T) => x);
    forall y | key(y) != key(x)
      ensures multiset(r)[y] == multiset(s)[y]
    {
      ReplaceByIdCount(s, key, x, y);
    }
    if exists k :: 0 <= k < |s| && key(s[k]) == key(x) {
      var k :| 0 <= k < |s| && key(s[k]) == key(x);
      assert r[k] == x;
    }
    forall y | y in r
      ensures y == x || (y in s && key(y) != key(x))
    {
      var i :| 0 <= i < |r| && r[i] == y;
    }
  }

  /** `list.filter(x => x.id !== id)`. */
  function WithoutId<T(!new)>(s: seq<T>, key: T -> Id, id: Id): seq<T> {
    Filter(s, (x: T) => key(x) != id)
  }

  /** Deleting by id drops every element with the id and keeps every other element with
      its multiplicity; a list without the id is unchanged. */
  lemma {:induction false} WithoutIdSpec<T(!new)>(s: seq<T>, key: T -> Id, id: Id)
    ensures var r := WithoutId(s, key, id);
      (forall i :: 0 <= i < |r| ==> key(r[i]) != id) &&
      (forall y :: multiset(r)[y] == if key(y) == id then 0 else multiset(s)[y]) &&
      ((forall i :: 0 <= i < |s| ==> key(s[i]) != id) ==> r == s)
  {
    var p := (x: T) => key(x) != id;
    forall y
      ensures multiset(WithoutId(s, key, id))[y] == if key(y) == id then 0 else multiset(s)[y]
    {
      FilterCount(s, p, y);
    }
    if forall i :: 0 <= i < |s| ==> key(s[i]) != id {
      FilterAll(s, p);
    }
  }

  // ---------------------------------------------------------------- payments

  function PaymentId(p: Payment): Id { p.id }

  /** The payment comparator: by due date. */
  function ByDueDate(): (Payment, Payment) -> bool {
    (a: Payment, b: Payment) => a.dueDate <= b.dueDate
  }

  /** `handleSavePayment`: an edited payment replaces the one with its id, a new one is
      appended, and the list is sorted by due date. */
  function SavePayment(payments: seq<Payment>, editing: bool, data: Payment): seq<Payment> {
    var updated := if editing then MapWhereId(payments, PaymentId, data.id, (p: Payment) => data)
                   else payments + [data];
    SortBy(updated, ByDueDate())
  }

  /** The payments after a save are in due-date order. */
  lemma {:induction false} SavePaymentSorted(payments: seq<Payment>, editing: bool, data: Payment)
    ensures var r := SavePayment(payments, editing, data);
      forall i, j :: 0 <= i < j < |r| ==> r[i].dueDate <= r[j].dueDate
  {
    var updated := if editing then MapWhereId(payments, PaymentId, data.id, (p: Payment) => data)
                   else payments + [data];
    var r := SortBy(updated, ByDueDate());
    SortBySorted(updated, ByDueDate());
    forall i, j | 0 <= i < j < |r|
      ensures r[i].dueDate <= r[j].dueDate
    {
      assert ByDueDate()(r[i], r[j]);
    }
  }

  /** Saving an edited payment keeps the count and every payment with another id, and the
      saved payment is listed whenever its id was. */
  lemma {:induction false} SaveEditedPaymentSpec(payments: seq<Payment>, data: Payment)
    ensures var r := SavePayment(payments, true, data);
      |r| == |payments| &&
      (forall p: Payment :: p.id != data.id ==> multiset(r)[p] == multiset(payments)[p]) &&
      ((exists k :: 0 <= k < |payments| && payments[k].id == data.id) ==> data in r) &&
      (forall p :: p in r ==> p == data || (p in payments && p.id != data.id))
  {
    var updated := MapWhereId(payments, PaymentId, data.id, (p: Payment) => data);
    ReplaceByIdSpec(payments, PaymentId, data);
    SortByIsPermutation(updated, ByDueDate());
    assert multiset(SavePayment(payments, true, data)) == multiset(updated);
  }

  /** Saving a new payment adds exactly that payment. */
  lemma {:induction false} SaveNewPaymentSpec(payments: seq<Payment>, data: Payment)
    ensures var r := SavePayment(payments, false, data);
      |r| == |payments| + 1 && multiset(r) == multiset(payments) + multiset{data}
  {
  }

  /** `handleDeletePayment`. */
  function DeletePayment(payments: seq<Payment>, paymentId: Id, confirmed: bool): Option<seq<Payment>> {
    if confirmed then Some(WithoutId(payments, PaymentId, paymentId)) else None
  }

  /** A confirmed delete removes exactly the payments with the id; a declined one changes
      nothing. */
  lemma {:induction false} DeletePaymentSpec(payments: seq<Payment>, paymentId: Id, confirmed: bool)
    ensures var r := DeletePayment(payments, paymentId, confirmed);
      (r.Some? <==> confirmed) &&
      (r.Some? ==>
         (forall p: Payment :: multiset(r.value)[p] == if p.id == paymentId then 0 else multiset(payments)[p]) &&
         ((forall i :: 0 <= i < |payments| ==> payments[i].id != paymentId) ==> r.value == payments))
  {
    WithoutIdSpec(payments, PaymentId, paymentId);
  }

  // ---------------------------------------------------------------- phases

  function PhaseId(p: Phase): Id { p.id }

  /** The phase comparator: by `order`. */
  function ByPhaseOrder(): (Phase, Phase) -> bool {
    (a: Phase, b: Phase) => a.order <= b.order
  }

  /** `handleSavePhase`: an edited phase replaces the one with its id, a new one is
      appended with `order` one past the phase count, and the list is sorted by order. */
  function SavePhase(phases: seq<Phase>, editing: bool, data: Phase): seq<Phase> {
    var updated := if editing then MapWhereId(phases, PhaseId, data.id, (p: Phase) => data)
                   else phases + [data.(order := |phases| + 1)];
    SortBy(updated, ByPhaseOrder())
  }

  /** The phases after a save are in `order` order. */
  lemma {:induction false} SavePhaseSorted(phases: seq<Phase>, editing: bool, data: Phase)
    ensures var r := SavePhase(phases, editing, data);
      forall i, j :: 0 <= i < j < |r| ==> r[i].order <= r[j].order
  {
    var updated := if editing then MapWhereId(phases, PhaseId, data.id, (p: Phase) => data)
                   else phases + [data.(order := |phases| + 1)];
    var r := SortBy(updated, ByPhaseOrder());
    SortBySorted(updated, ByPhaseOrder());
    forall i, j | 0 <= i < j < |r|
      ensures r[i].order <= r[j].order
    {
      assert ByPhaseOrder()(r[i], r[j]);
    }
  }

  /** A new phase is added, numbered one past the previous phase count. */
  lemma {:induction false} SaveNewPhaseSpec(phases: seq<Phase>, data: Phase)
    ensures var r := SavePhase(phases, false, data);
      |r| == |phases| + 1 &&
      multiset(r) == multiset(phases) + multiset{data.(order := |phases| + 1)}
  {
  }

  /** Saving an edited phase keeps the count and every phase with another id, lists the
      saved phase whenever its id was, and adds nothing else. */
  lemma {:induction false} SaveEditedPhaseSpec(phases: seq<Phase>, data: Phase)
    ensures var r := SavePhase(phases, true, data);
      |r| == |phases| &&
      (forall p: Phase :: p.id != data.id ==> multiset(r)[p] == multiset(phases)[p]) &&
      ((exists k :: 0 <= k < |phases| && phases[k].id == data.id) ==> data in r) &&
      (forall p :: p in r ==> p == data || (p in phases && p.id != data.id))
  {
    var updated := MapWhereId(phases, PhaseId, data.id, (p: Phase) => data);
    ReplaceByIdSpec(phases, PhaseId, data);
    SortByIsPermutation(updated, ByPhaseOrder());
    assert multiset(SavePhase(phases, true, data)) == multiset(updated);
  }

  /** `handleDeletePhase`: the phase goes, with the sub-phases it holds. */
  function DeletePhase(phases: seq<Phase>, phaseId: Id, confirmed: bool): Option<seq<Phase>> {
    if confirmed then Some(WithoutId(phases, PhaseId, phaseId)) else None
  }

  /** A confirmed delete removes exactly the phases with the id and keeps every other
      phase, sub-phases included, unchanged. */
  lemma {:induction false} DeletePhaseSpec(phases: seq<Phase>, phaseId: Id, confirmed: bool)
    ensures var r := DeletePhase(phases, phaseId, confirmed);
      (r.Some? <==> confirmed) &&
      (r.Some? ==>
         (forall i :: 0 <= i < |r.value| ==> r.value[i].id != phaseId) &&
         (forall p: Phase :: multiset(r.value)[p] == if p.id == phaseId then 0 else multiset(phases)[p]))
  {
    WithoutIdSpec(phases, PhaseId, phaseId);
  }

  function FlipPhase(p: Phase): Phase { p.(completed := !p.completed) }

  /** `handleTogglePhaseComplete`. */
  function TogglePhase(phases: seq<Phase>, phaseId: Id): seq<Phase> {
    MapWhereId(phases, PhaseId, phaseId, FlipPhase)
  }

  /** Toggling flips `completed` of the phases with the id only; every other field,
      sub-phases included, stays. */
  lemma {:induction false} TogglePhaseSpec(phases: seq<Phase>, phaseId: Id)
    ensures var r := TogglePhase(phases, phaseId);
      |r| == |phases| &&
      forall i :: 0 <= i < |phases| ==>
        r[i] == phases[i].(completed := r[i].completed) &&
        (r[i].completed <==> (phases[i].completed <==> phases[i].id != phaseId))
  {
  }

  /** Toggling twice restores the phases. */
  lemma {:induction false} TogglePhaseTwice(phases: seq<Phase>, phaseId: Id)
    ensures TogglePhase(TogglePhase(phases, phaseId), phaseId) == phases
  {
    var r := TogglePhase(TogglePhase(phases, phaseId), phaseId);
    assert |r| == |phases|;
    forall i | 0 <= i < |phases|
      ensures r[i] == phases[i]
    {
    }
  }

  // ---------------------------------------------------------------- sub-phases

  /** Only the `subPhases` of the phases with the parent's id may differ; every other phase
      is identical. */
  predicate OnlySubPhasesOf(r: seq<Phase>, phases: seq<Phase>, parentId: Id) {
    |r| == |phases| &&
    forall i :: 0 <= i < |phases| ==>
      r[i] == phases[i].(subPhases := r[i].subPhases) &&
      (phases[i].id != parentId ==> r[i] == phases[i])
  }

  function SubPhaseId(s: SubPhase): Id { s.id }

  function BySubPhaseOrder(): (SubPhase, SubPhase) -> bool {
    (a: SubPhase, b: SubPhase) => a.order <= b.order
  }

  /** The sub-phase list `handleSaveSubPhase` builds from the parent phase the dialog was
      opened for: replace by id or append one past the count, then sort by order. */
  function SavedSubPhases(parent: Phase, editing: bool, data: SubPhase): seq<SubPhase> {
    var updated := if editing then MapWhereId(parent.subPhases, SubPhaseId, data.id, (s: SubPhase) => data)
                   else parent.subPhases + [data.(order := |parent.subPhases| + 1)];
    SortBy(updated, BySubPhaseOrder())
  }

  /** `handleSaveSubPhase`: every phase with the parent's id gets the new sub-phase list. */
  function SaveSubPhase(phases: seq<Phase>, parent: Phase, editing: bool, data: SubPhase): seq<Phase> {
    var subs := SavedSubPhases(parent, editing, data);
    MapWhereId(phases, PhaseId, parent.id, (p: Phase) => p.(subPhases := subs))
  }

  /** An edited sub-phase list keeps the count and every sub-phase with another id, lists
      the saved sub-phase whenever its id was, and adds nothing else. */
  lemma {:induction false} SavedEditedSubPhasesSpec(parent: Phase, data: SubPhase)
    ensures var subs := SavedSubPhases(parent, true, data);
      |subs| == |parent.subPhases| &&
      (forall x: SubPhase :: x.id != data.id ==> multiset(subs)[x] == multiset(parent.subPhases)[x]) &&
      ((exists k :: 0 <= k < |parent.subPhases| && parent.subPhases[k].id == data.id) ==> data in subs) &&
      (forall x :: x in subs ==> x == data || (x in parent.subPhases && x.id != data.id))
  {
    var updated := MapWhereId(parent.subPhases, SubPhaseId, data.id, (s: SubPhase) => data);
    ReplaceByIdSpec(parent.subPhases, SubPhaseId, data);
    SortByIsPermutation(updated, BySubPhaseOrder());
    assert multiset(SavedSubPhases(parent, true, data)) == multiset(updated);
  }

  /** Saving a sub-phase changes only the parent's sub-phases, which become the saved list:
      in `order` order, with a new sub-phase added one past the count, or an edited one
      replacing the sub-phases with its id and nothing else changing. */
  lemma {:induction false} SaveSubPhaseSpec(phases: seq<Phase>, parent: Phase, editing: bool, data: SubPhase)
    ensures var r := SaveSubPhase(phases, parent, editing, data);
      var subs := SavedSubPhases(parent, editing, data);
      OnlySubPhasesOf(r, phases, parent.id) &&
      (forall i :: 0 <= i < |phases| && phases[i].id == parent.id ==> r[i].subPhases == subs) &&
      (forall i, j :: 0 <= i < j < |subs| ==> subs[i].order <= subs[j].order) &&
      (!editing ==> multiset(subs) == multiset(parent.subPhases) + multiset{data.(order := |parent.subPhases| + 1)}) &&
      (editing ==>
         |subs| == |parent.subPhases| &&
         (forall x: SubPhase :: x.id != data.id ==> multiset(subs)[x] == multiset(parent.subPhases)[x]) &&
         ((exists k :: 0 <= k < |parent.subPhases| && parent.subPhases[k].id == data.id) ==> data in subs) &&
         (forall x :: x in subs ==> x == data || (x in parent.subPhases && x.id != data.id)))
  {
    var updated := if editing then MapWhereId(parent.subPhases, SubPhaseId, data.id, (s: SubPhase) => data)
                   else parent.subPhases + [data.(order := |parent.subPhases| + 1)];
    var subs := SortBy(updated, BySubPhaseOrder());
    SortBySorted(updated, BySubPhaseOrder());
    if editing {
      SavedEditedSubPhasesSpec(parent, data);
    }
    forall i, j | 0 <= i < j < |subs|
      ensures subs[i].order <= subs[j].order
    {
      assert BySubPhaseOrder()(subs[i], subs[j]);
    }
  }

  function WithoutSubPhase(p: Phase, subPhaseId: Id): Phase {
    p.(subPhases := WithoutId(p.subPhases, SubPhaseId, subPhaseId))
  }

  /** `handleDeleteSubPhase`. */
  function DeleteSubPhase(phases: seq<Phase>, parentId: Id, subPhaseId: Id, confirmed: bool): Option<seq<Phase>> {
    if confirmed then Some(MapWhereId(phases, PhaseId, parentId, (p: Phase) => WithoutSubPhase(p, subPhaseId)))
    else None
  }

  /** A confirmed delete changes only the parent's sub-phases, from which exactly the
      sub-phases with the id are gone. */
  lemma {:induction false} DeleteSubPhaseSpec(phases: seq<Phase>, parentId: Id, subPhaseId: Id, confirmed: bool)
    ensures var r := DeleteSubPhase(phases, parentId, subPhaseId, confirmed);
      (r.Some? <==> confirmed) &&
      (r.Some? ==>
         OnlySubPhasesOf(r.value, phases, parentId) &&
         forall i :: 0 <= i < |phases| && phases[i].id == parentId ==>
           (forall j :: 0 <= j < |r.value[i].subPhases| ==> r.value[i].subPhases[j].id != subPhaseId) &&
           (forall s: SubPhase :: s.id != subPhaseId ==> multiset(r.value[i].subPhases)[s] == multiset(phases[i].subPhases)[s]))
  {
    if confirmed {
      var r := DeleteSubPhase(phases, parentId, subPhaseId, confirmed).value;
      forall i | 0 <= i < |phases| && phases[i].id == parentId
        ensures forall j :: 0 <= j < |r[i].subPhases| ==> r[i].subPhases[j].id != subPhaseId
        ensures forall s: SubPhase :: s.id != subPhaseId ==> multiset(r[i].subPhases)[s] == multiset(phases[i].subPhases)[s]
      {
        WithoutIdSpec(phases[i].subPhases, SubPhaseId, subPhaseId);
      }
    }
  }

  function FlipSubPhase(s: SubPhase): SubPhase { s.(completed := !s.completed) }

  function ToggleSubPhaseIn(p: Phase, subPhaseId: Id): Phase {
    p.(subPhases := MapWhereId(p.subPhases, SubPhaseId, subPhaseId, FlipSubPhase))
  }

  /** `handleToggleSubPhaseComplete`. */
  function ToggleSubPhase(phases: seq<Phase>, parentId: Id, subPhaseId: Id): seq<Phase> {
    MapWhereId(phases, PhaseId, parentId, (p: Phase) => ToggleSubPhaseIn(p, subPhaseId))
  }

  /** Toggling a sub-phase changes only the parent's sub-phases, and there only the
      `completed` flag of the sub-phases with the id. */
  lemma {:induction false} ToggleSubPhaseSpec(phases: seq<Phase>, parentId: Id, subPhaseId: Id)
    ensures var r := ToggleSubPhase(phases, parentId, subPhaseId);
      OnlySubPhasesOf(r, phases, parentId) &&
      forall i :: 0 <= i < |phases| && phases[i].id == parentId ==>
        |r[i].subPhases| == |phases[i].subPhases| &&
        forall j :: 0 <= j < |phases[i].subPhases| ==>
          r[i].subPhases[j] == phases[i].subPhases[j].(completed := r[i].subPhases[j].completed) &&
          (r[i].subPhases[j].completed <==>
             (phases[i].subPhases[j].completed <==> phases[i].subPhases[j].id != subPhaseId))
  {
  }

  /** Toggling a sub-phase twice restores the phases. */
  lemma {:induction false} ToggleSubPhaseTwice(phases: seq<Phase>, parentId: Id, subPhaseId: Id)
    ensures ToggleSubPhase(ToggleSubPhase(phases, parentId, subPhaseId), parentId, subPhaseId) == phases
  {
    var once := ToggleSubPhase(phases, parentId, subPhaseId);
    var r := ToggleSubPhase(once, parentId, subPhaseId);
    forall i | 0 <= i < |phases|
      ensures r[i] == phases[i]
    {
      if phases[i].id == parentId {
        var subs := phases[i].subPhases;
        assert r[i].subPhases == subs;
      }
    }
  }

  // ---------------------------------------------------------------- progress

  /** `Math.round`: to the nearest integer, halves upwards. */
  function Round(x: real): int {
    (x + 0.5).Floor
  }

  /** The paid percentage shown on the page: 0 unless the total is positive and a paid
      value is present. */
  function Progress(total: Option<real>, paid: Option<real>): int {
    if total.Some? && total.value > 0.0 && paid.Some? then Round(paid.value / total.value * 100.0) else 0
  }

  /** The amount still to be paid, a missing value counting as 0. */
  function Remaining(total: Option<real>, paid: Option<real>): real {
    NumOr(total, 0.0) - NumOr(paid, 0.0)
  }

  /** The progress is the paid share in percent, rounded: within half a point of it. */
  lemma {:induction false} ProgressIsRoundedShare(total: real, paid: real)
    requires total > 0.0
    ensures var x := paid / total * 100.0;
      x - 0.5 < Progress(Some(total), Some(paid)) as real <= x + 0.5
  {
  }

  /** Paying more never lowers the progress. */
  lemma {:induction false} ProgressMonotone(total: real, paid1: real, paid2: real)
    requires total > 0.0 && paid1 <= paid2
    ensures Progress(Some(total), Some(paid1)) <= Progress(Some(total), Some(paid2))
  {
    assert paid1 / total <= paid2 / total by {
      assert paid2 / total - paid1 / total == (paid2 - paid1) / total;
    }
  }

  /** Between nothing paid and everything paid, the progress runs from 0 to 100, and
      nothing remaining means 100. */
  lemma {:induction false} ProgressBounds(total: real, paid: real)
    requires total > 0.0 && 0.0 <= paid <= total
    ensures 0 <= Progress(Some(total), Some(paid)) <= 100
    ensures Remaining(Some(total), Some(paid)) == 0.0 ==> Progress(Some(total), Some(paid)) == 100
    ensures 0.0 <= Remaining(Some(total), Some(paid)) <= total
  {
    var x := paid / total * 100.0;
    ShareBounds(total, paid);
    RoundMonotone(0.0, x);
    RoundMonotone(x, 100.0);
    assert Round(0.0) == 0 && Round(100.0) == 100;
    if paid == total {
      assert paid / total == 1.0;
    }
  }

  /** A part of a positive whole is a share between 0 and 1. */
  lemma {:induction false} ShareBounds(total: real, paid: real)
    requires total > 0.0 && 0.0 <= paid <= total
    ensures 0.0 <= paid / total <= 1.0
  {
    var q := paid / total;
    assert q * total == paid;
  }

  lemma {:induction false} RoundMonotone(x: real, y: real)
    requires x <= y
    ensures Round(x) <= Round(y)
  {
  }

  // ---------------------------------------------------------------- date text

  predicate IsDigit(c: char) {
    '0' <= c <= '9'
  }

  /** The text matches `^\d{4}-\d{2}-\d{2}$`. */
  predicate IsIsoDate(s: string) {
    |s| == 10 && s[4] == '-' && s[7] == '-' &&
    forall i :: 0 <= i < 10 && i != 4 && i != 7 ==> IsDigit(s[i])
  }

  /** An ISO date splits at its dashes into year, month and day. */
  lemma {:induction false} IsoDateSplits(s: string)
    requires IsIsoDate(s)
    ensures Text.Split(s, '-') == [s[..4], s[5..7], s[8..]]
  {
    assert '-' !in s[..4] by {
      forall k | 0 <= k < 4 ensures s[..4][k] != '-' { assert IsDigit(s[k]); }
    }
    assert '-' !in s[5..7] by {
      forall k | 0 <= k < 2 ensures s[5..7][k] != '-' { assert IsDigit(s[k + 5]); }
    }
    assert '-' !in s[8..] by {
      forall k | 0 <= k < 2 ensures s[8..][k] != '-' { assert IsDigit(s[k + 8]); }
    }
    assert s == s[..4] + ['-'] + s[5..];
    assert s[5..] == s[5..7] + ['-'] + s[8..];
    Text.SplitAfterPiece(s[..4], '-', s[5..]);
    Text.SplitAfterPiece(s[5..7], '-', s[8..]);
    Text.SplitWithoutSeparator(s[8..], '-');
  }

  /** `formatDate`: no date gives "N/A"; an ISO date without time becomes day/month/year;
      any other text goes through the locale formatter, which is `None` here. */
  function FormatDate(s: Option<string>, includeTime: bool): Option<string> {
    if !IsTruthy(s) then Some("N/A")
    else if IsIsoDate(s.value) && !includeTime then
      IsoDateSplits(s.value);
      var parts := Text.Split(s.value, '-');
      Some(parts[2] + "/" + parts[1] + "/" + parts[0])
    else None
  }

  /** The day/month/year text back to an ISO date. */
  function IsoOfDisplayDate(d: string): string
    requires |d| == 10
  {
    d[6..] + "-" + d[3..5] + "-" + d[..2]
  }

  /** An ISO date is shown as DD/MM/YYYY, and nothing is lost: it reads back as the same
      ISO date. */
  lemma {:induction false} FormatDateOfIsoDate(s: string)
    requires IsIsoDate(s)
    ensures FormatDate(Some(s), false) == Some(s[8..] + "/" + s[5..7] + "/" + s[..4])
    ensures |FormatDate(Some(s), false).value| == 10
    ensures IsoOfDisplayDate(FormatDate(Some(s), false).value) == s
  {
    IsoDateSplits(s);
    var d := FormatDate(Some(s), false).value;
    assert d == s[8..] + "/" + s[5..7] + "/" + s[..4];
    assert d[6..] == s[..4] && d[3..5] == s[5..7] && d[..2] == s[8..];
    assert s == s[..4] + "-" + s[5..7] + "-" + s[8..];
  }

  /** `formatDateForInput`: no date gives the empty text, an ISO date is kept, and any
      other text goes through the Date parser, which is `None` here. */
  function FormatDateForInput(s: Option<string>): Option<string> {
    if !IsTruthy(s) then Some("")
    else if IsIsoDate(s.value) then s
    else None
  }

  /** The input formatter returns an ISO date unchanged, always gives the empty text or
      an ISO date, and formatting its result again changes nothing. */
  lemma {:induction false} FormatDateForInputSpec(s: Option<string>)
    ensures s.Some? && IsIsoDate(s.value) ==> FormatDateForInput(s) == s
    ensures FormatDateForInput(s).Some? ==>
      FormatDateForInput(s).value == "" || IsIsoDate(FormatDateForInput(s).value)
    ensures FormatDateForInput(s).Some? ==> FormatDateForInput(FormatDateForInput(s)) == FormatDateForInput(s)
  {
  }
}
