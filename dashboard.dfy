/** The dashboard (pages/DashboardPage.tsx): deadline classification on day numbers, the
    active-project count, the pending-payment total, and the list of important notices:
    collected item by item, put danger first in place, and cut to the first ten. */
module Dashboard {
  import opened Wrappers
  import opened Domain
  import opened Collections

  // ---------------------------------------------------------------- deadlines

  /** `overdue`, `upcoming` and `none`. */
  datatype Deadline = PastDue | Upcoming | NotDue

  /** `isDateUpcomingOrOverdue`: the kind of deadline and the day count reported with it. */
  datatype Classification = Classification(kind: Deadline, daysDiff: int)

  /** With both days at midnight the day difference is the whole number `due - today`:
      negative is overdue (by its absolute value), up to the threshold is upcoming. */
  function Classify(due: int, today: int, threshold: int): (r: Classification)
    ensures r.kind == PastDue <==> due < today
    ensures r.kind == Upcoming <==> today <= due <= today + threshold
    ensures r.kind == PastDue ==> r.daysDiff == today - due && r.daysDiff > 0
    ensures r.kind != PastDue ==> r.daysDiff == due - today && r.daysDiff >= 0
  {
    var diff := due - today;
    if diff < 0 then Classification(PastDue, -diff)
    else if diff <= threshold then Classification(Upcoming, diff)
    else Classification(NotDue, diff)
  }

  /** Only the distance between the days matters: moving both by the same number of days
      gives the same classification. */
  lemma {:induction false} ClassifyIsShiftInvariant(due: int, today: int, threshold: int, k: int)
    ensures Classify(due + k, today + k, threshold) == Classify(due, today, threshold)
  {
  }

  /** A longer threshold keeps every upcoming deadline upcoming and never changes an
      overdue one. */
  lemma {:induction false} ClassifyThresholdMonotone(due: int, today: int, t1: int, t2: int)
    requires t1 <= t2
    ensures Classify(due, today, t1).kind == Upcoming ==> Classify(due, today, t2).kind == Upcoming
    ensures Classify(due, today, t1).kind == PastDue <==> Classify(due, today, t2).kind == PastDue
    ensures Classify(due, today, t1).daysDiff == Classify(due, today, t2).daysDiff
  {
  }

  // ---------------------------------------------------------------- figures

  predicate IsActive(p: Project) {
    p.status == Ongoing || p.status == Planning
  }

  predicate IsNotActive(p: Project) {
    !IsActive(p)
  }

  /** The number of projects planned or under way. */
  function ActiveCount(projects: seq<Project>): nat {
    |Filter(projects, IsActive)|
  }

  /** The active and the other projects split the list, and the count adds up over joined
      lists. */
  lemma {:induction false} ActiveCountSplits(projects: seq<Project>, more: seq<Project>)
    ensures ActiveCount(projects) + |Filter(projects, IsNotActive)| == |projects|
    ensures ActiveCount(projects + more) == ActiveCount(projects) + ActiveCount(more)
    decreases |projects|
  {
    FilterConcat(projects, more, IsActive);
    if projects != [] {
      ActiveCountSplits(projects[1..], more);
    }
  }

  predicate IsPendingPayment(p: Payment) {
    p.status == Pending || p.status == Overdue
  }

  function PaymentValue(p: Payment): real { p.value }

  /** The total still to be received: the sum of the values of pending and overdue
      payments. */
  function PendingTotal(payments: seq<Payment>): real {
    Sum(Filter(payments, IsPendingPayment), PaymentValue)
  }

  /** The pending total counts every pending or overdue payment's value and nothing of a
      paid one; with non-negative values it lies between 0 and the total of all payments. */
  lemma {:induction false} PendingTotalSpec(payments: seq<Payment>)
    ensures PendingTotal(payments) == Sum(payments, Masked(IsPendingPayment, PaymentValue))
    ensures (forall i :: 0 <= i < |payments| ==> payments[i].value >= 0.0) ==>
      0.0 <= PendingTotal(payments) <= Sum(payments, PaymentValue)
  {
    SumFilter(payments, IsPendingPayment, PaymentValue);
    if forall i :: 0 <= i < |payments| ==> payments[i].value >= 0.0 {
      SumNonNegative(payments, Masked(IsPendingPayment, PaymentValue));
      MaskedBelow(payments);
    }
  }

  lemma {:induction false} MaskedBelow(payments: seq<Payment>)
    requires forall i :: 0 <= i < |payments| ==> payments[i].value >= 0.0
    ensures Sum(payments, Masked(IsPendingPayment, PaymentValue)) <= Sum(payments, PaymentValue)
    decreases |payments|
  {
    if payments != [] {
      MaskedBelow(payments[..|payments| - 1]);
    }
  }

  // ---------------------------------------------------------------- notices

  datatype NoticeKind = ProjectNotice | TaskNotice | InspectionNotice | PaymentNotice
  datatype Urgency = Danger | Warning | Info

  /** A notice: what it is about, which item, how urgent, and the day count it reports. */
  datatype Notice = Notice(kind: NoticeKind, itemId: Id, urgency: Urgency, daysDiff: int)

  /** Overdue is a danger notice, upcoming a warning, anything else no notice. */
  function DeadlineNotice(kind: NoticeKind, id: Id, c: Classification): (r: Option<Notice>)
    ensures r.Some? <==> c.kind != NotDue
    ensures r.Some? ==>
      (r.value.kind == kind && r.value.itemId == id && r.value.daysDiff == c.daysDiff &&
       (r.value.urgency == Danger <==> c.kind == PastDue) && r.value.urgency != Info)
  {
    match c.kind
    case PastDue => Some(Notice(kind, id, Danger, c.daysDiff))
    case Upcoming => Some(Notice(kind, id, Warning, c.daysDiff))
    case NotDue => None
  }

  /** A project that is neither completed nor canceled, against a 7-day threshold. */
  function NoticeForProject(today: int): Project -> Option<Notice> {
    (p: Project) =>
      if p.status != Completed && p.status != Canceled
      then DeadlineNotice(ProjectNotice, p.id, Classify(p.dueDate, today, 7))
      else None
  }

  /** A task that is not completed and has a due date, against a 3-day threshold. */
  function NoticeForTask(today: int): Task -> Option<Notice> {
    (t: Task) =>
      if t.status != TaskCompleted && t.dueDate.Some? then
        var c := Classify(t.dueDate.value, today, 3);
        if c.kind == PastDue || (c.kind == Upcoming && c.daysDiff <= 3)
        then DeadlineNotice(TaskNotice, t.id, c) else None
      else None
  }

  /** An inspection that is neither completed nor canceled and has a due date, against a
      7-day threshold. */
  function NoticeForInspection(today: int): Inspection -> Option<Notice> {
    (i: Inspection) =>
      if i.status != InspectionCompleted && i.status != InspectionCanceled && i.dueDate.Some?
      then DeadlineNotice(InspectionNotice, i.id, Classify(i.dueDate.value, today, 7))
      else None
  }

  /** A payment marked overdue is always a danger notice, with the day count of its due
      date whatever that date is. */
  function NoticeForPayment(today: int): Payment -> Option<Notice> {
    (p: Payment) =>
      if p.status == Overdue then Some(Notice(PaymentNotice, p.id, Danger, Classify(p.dueDate, today, 7).daysDiff))
      else None
  }

  /** The notices of the items that give one, in item order. */
  function Collect<T>(items: seq<T>, notice: T -> Option<Notice>): (r: seq<Notice>)
    ensures |r| <= |items|
    decreases |items|
  {
    if items == [] then []
    else
      var last := items[|items| - 1];
      Collect(items[..|items| - 1], notice) + (if notice(last).Some? then [notice(last).value] else [])
  }

  /** A collected notice is the notice of some item. */
  lemma {:induction false} CollectMembers<T>(items: seq<T>, notice: T -> Option<Notice>, n: Notice)
    requires n in Collect(items, notice)
    ensures exists i :: 0 <= i < |items| && notice(items[i]) == Some(n)
    decreases |items|
  {
    var init, last := items[..|items| - 1], items[|items| - 1];
    if n !in Collect(init, notice) {
      assert notice(last) == Some(n);
      assert items[|items| - 1] == last;
    } else {
      CollectMembers(init, notice, n);
      var i :| 0 <= i < |init| && notice(init[i]) == Some(n);
      assert items[i] == init[i];
    }
  }

  /** Every notice of the dashboard, in the order the source pushes them: projects, tasks,
      inspections, overdue payments. */
  function AllNotices(projects: seq<Project>, tasks: seq<Task>, inspections: seq<Inspection>,
                      payments: seq<Payment>, today: int): seq<Notice>
  {
    Collect(projects, NoticeForProject(today)) + Collect(tasks, NoticeForTask(today)) +
    Collect(inspections, NoticeForInspection(today)) + Collect(payments, NoticeForPayment(today))
  }

  /** One `forEach` of the notice collection: push the notice of every item that has one. */
  method PushNotices<T>(notices: seq<Notice>, items: seq<T>, notice: T -> Option<Notice>)
    returns (r: seq<Notice>)
    ensures r == notices + Collect(items, notice)
  {
    r := notices;
    var i := 0;
    while i < |items|
      invariant 0 <= i <= |items|
      invariant r == notices + Collect(items[..i], notice)
    {
      assert items[..i + 1][..i] == items[..i];
      var n := notice(items[i]);
      if n.Some? {
        r := r + [n.value];
      }
      i := i + 1;
    }
    assert items[..|items|] == items;
  }

  /** The notice collection of the page, loop by loop. */
  method CollectNotices(projects: seq<Project>, tasks: seq<Task>, inspections: seq<Inspection>,
                        payments: seq<Payment>, today: int) returns (notices: seq<Notice>)
    ensures notices == AllNotices(projects, tasks, inspections, payments, today)
  {
    notices := PushNotices([], projects, NoticeForProject(today));
    notices := PushNotices(notices, tasks, NoticeForTask(today));
    notices := PushNotices(notices, inspections, NoticeForInspection(today));
    notices := PushNotices(notices, payments, NoticeForPayment(today));
  }

  /** Project notices come only from projects that are neither completed nor canceled; a
      danger notice means the project is overdue by that many days, a warning that it is
      due within 7 days. */
  lemma {:induction false} ProjectNoticesAreForOpenProjects(projects: seq<Project>, today: int, n: Notice)
    requires n in Collect(projects, NoticeForProject(today))
    ensures exists p :: (p in projects && p.id == n.itemId && p.status != Completed && p.status != Canceled &&
      (n.urgency == Danger ==> p.dueDate < today && n.daysDiff == today - p.dueDate) &&
      (n.urgency != Danger ==> n.urgency == Warning && today <= p.dueDate <= today + 7 && n.daysDiff == p.dueDate - today))
  {
    CollectMembers(projects, NoticeForProject(today), n);
    var i :| 0 <= i < |projects| && NoticeForProject(today)(projects[i]) == Some(n);
    assert projects[i] in projects;
  }

  /** Task notices come only from unfinished tasks with a due date; a warning is at most 3
      days ahead. */
  lemma {:induction false} TaskNoticesUseThreeDays(tasks: seq<Task>, today: int, n: Notice)
    requires n in Collect(tasks, NoticeForTask(today))
    ensures exists t :: (t in tasks && t.id == n.itemId && t.status != TaskCompleted && t.dueDate.Some? &&
      (n.urgency == Danger ==> t.dueDate.value < today) &&
      (n.urgency != Danger ==> n.urgency == Warning && today <= t.dueDate.value <= today + 3 && 0 <= n.daysDiff <= 3))
  {
    CollectMembers(tasks, NoticeForTask(today), n);
    var i :| 0 <= i < |tasks| && NoticeForTask(today)(tasks[i]) == Some(n);
    assert tasks[i] in tasks;
  }

  // ---------------------------------------------------------------- danger first

  predicate IsDanger(n: Notice) {
    n.urgency == Danger
  }

  /** No danger notice comes after a notice that is not one. */
  predicate DangerFirst(s: seq<Notice>) {
    forall i, j :: 0 <= i < j < |s| && IsDanger(s[j]) ==> IsDanger(s[i])
  }

  /** The sort of the notices, as far as its order is consistent: danger notices are moved
      in front of all others, in place. */
  method PartitionDangerFirst(a: array<Notice>)
    modifies a
    ensures multiset(a[..]) == old(multiset(a[..]))
    ensures DangerFirst(a[..])
  {
    var k := 0;
    var i := 0;
    while i < a.Length
      invariant 0 <= k <= i <= a.Length
      invariant forall m :: 0 <= m < k ==> IsDanger(a[m])
      invariant forall m :: k <= m < i ==> !IsDanger(a[m])
      invariant multiset(a[..]) == old(multiset(a[..]))
    {
      if IsDanger(a[i]) {
        a[k], a[i] := a[i], a[k];
        k := k + 1;
      }
      i := i + 1;
    }
  }

  function Min(a: int, b: int): int {
    if a <= b then a else b
  }

  /** In a danger-first list, the first `m` notices hold as many danger notices as fit:
      `m` of them, or all there are. */
  lemma {:induction false} DangerFirstPrefixCount(s: seq<Notice>, m: nat)
    requires DangerFirst(s) && m <= |s|
    ensures |Filter(s[..m], IsDanger)| == Min(m, |Filter(s, IsDanger)|)
  {
    var k := FirstSafe(s);
    DangerCountIsFirstSafe(s);
    if m <= k {
      FilterAll(s[..m], IsDanger);
    } else {
      DangerFirstPrefix(s, m);
      DangerCountIsFirstSafe(s[..m]);
      PrefixFirstSafe(s, m);
    }
  }

  /** A danger-first list holds exactly `FirstSafe` danger notices. */
  lemma {:induction false} DangerCountIsFirstSafe(s: seq<Notice>)
    requires DangerFirst(s)
    ensures |Filter(s, IsDanger)| == FirstSafe(s)
  {
    var k := FirstSafe(s);
    assert s == s[..k] + s[k..];
    FilterAll(s[..k], IsDanger);
    FilterNone(s[k..], IsDanger);
    FilterConcat(s[..k], s[k..], IsDanger);
  }

  /** A prefix of a danger-first list is danger first. */
  lemma {:induction false} DangerFirstPrefix(s: seq<Notice>, m: nat)
    requires DangerFirst(s) && m <= |s|
    ensures DangerFirst(s[..m])
  {
  }

  /** A prefix reaching past the first safe notice has its first safe notice there too. */
  lemma {:induction false} PrefixFirstSafe(s: seq<Notice>, m: nat)
    requires DangerFirst(s) && FirstSafe(s) < m <= |s|
    ensures FirstSafe(s[..m]) == FirstSafe(s)
    decreases m
  {
    if IsDanger(s[0]) {
      assert s[..m][1..] == s[1..][..m - 1];
      PrefixFirstSafe(s[1..], m - 1);
    }
  }

  /** The position of the first notice that is not a danger notice, or the length. */
  function FirstSafe(s: seq<Notice>): (k: nat)
    ensures k <= |s|
    ensures forall i :: 0 <= i < k ==> IsDanger(s[i])
    ensures DangerFirst(s) ==> forall i :: k <= i < |s| ==> !IsDanger(s[i])
  {
    if s == [] || !IsDanger(s[0]) then 0 else 1 + FirstSafe(s[1..])
  }

  /** What the dashboard shows of the notices `all`: at most ten, danger first, nothing the
      collection did not produce, and as many of the danger notices as fit. */
  predicate ShowsFirstTen(shown: seq<Notice>, all: seq<Notice>) {
    |shown| == Min(10, |all|) &&
    DangerFirst(shown) &&
    multiset(shown) <= multiset(all) &&
    |Filter(shown, IsDanger)| == Min(|shown|, |Filter(all, IsDanger)|)
  }

  /** The first ten of a danger-first arrangement of the notices is what the dashboard
      shows. */
  lemma {:induction false} FirstTenOfArrangement(sorted: seq<Notice>, all: seq<Notice>)
    requires multiset(sorted) == multiset(all) && DangerFirst(sorted)
    ensures ShowsFirstTen(sorted[..Min(10, |sorted|)], all)
  {
    var m := Min(10, |sorted|);
    var shown := sorted[..m];
    assert sorted == shown + sorted[m..];
    assert multiset(sorted) == multiset(shown) + multiset(sorted[m..]);
    DangerFirstPrefixCount(sorted, m);
    FilterSameMultiset(sorted, all, IsDanger);
    assert |all| == |multiset(all)| == |sorted|;
  }

  /** The notices the dashboard shows: the collected notices, put danger first in place,
      cut to the first ten. */
  method ImportantNotices(projects: seq<Project>, tasks: seq<Task>, inspections: seq<Inspection>,
                          payments: seq<Payment>, today: int) returns (shown: seq<Notice>)
    ensures ShowsFirstTen(shown, AllNotices(projects, tasks, inspections, payments, today))
  {
    var notices := CollectNotices(projects, tasks, inspections, payments, today);
    var a := new Notice[|notices|](i requires 0 <= i < |notices| => notices[i]);
    assert a[..] == notices;
    PartitionDangerFirst(a);
    FirstTenOfArrangement(a[..], notices);
    shown := a[..Min(10, a.Length)];
  }
}
