/** Batch scan plans: create, confirm and queue, with the chain of cost bounds between them. */
module Batches {
  import opened Wrappers
  import opened Reviews

  type Money = int        // ten-thousandths of a dollar
  type BatchId = nat
  type ScanId = nat
  type TemplateId = nat

  datatype Profile = Testing | Full
  datatype ScanStatus = ScanQueued | ScanRunning | ScanEnded
  datatype Scan = Scan(opportunity: OpportunityId, status: ScanStatus, planned: Money)

  datatype Template = Template(owner: string, service: nat, active: bool, budget: Money)

  // What the planner says about one opportunity: its estimated uncached cost, or that policy blocks it.
  datatype Plan = Plan(cost: Money, blocked: bool)

  datatype Item = Item(opportunity: OpportunityId, cost: Money, scan: Option<ScanId>)

  datatype BatchStatus = Planned | Confirmed | Queued

  datatype Batch = Batch(
    profile: Profile, status: BatchStatus, budget: Money, estimate: Money, approvedMax: Option<Money>,
    items: seq<Item>)

  datatype BatchError =
    | TemplateNotFound | TemplateAccessDenied | TemplateArchived | BudgetExceedsTemplate | BatchOpportunityNotFound
    | ServiceMismatch | NotEligible | ItemBlocked | CostExceedsBudget | NotFound | NotAwaitingConfirmation
    | ApprovedBelowEstimate | ApprovedAboveBudget | RequiresConfirmation | ExceedsConfirmedCost
    | AlreadyHasActiveScan | Refused(reason: ReviewError)

  datatype QueueResult = QueueResult(scans: seq<ScanId>, planned: Money, approvedMax: Money)

  function Total(items: seq<Item>): Money {
    if items == [] then 0 else Total(items[..|items| - 1]) + items[|items| - 1].cost
  }

  /** Costs add up: one item costs what it says, and two lists cost what both cost. */
  lemma {:induction false} TotalAdds(a: seq<Item>, b: seq<Item>)
    ensures Total(a + b) == Total(a) + Total(b)
    ensures |b| == 1 ==> Total(b) == b[0].cost
  {
    if b == [] {
      assert a + b == a;
    } else {
      assert (a + b)[..|a + b| - 1] == a + b[..|b| - 1];
      TotalAdds(a, b[..|b| - 1]);
    }
  }

  function Eligible(profile: Profile): set<State> {
    match profile
    case Testing => {Discovered, PrefilterReview, PreliminaryReview, NeedsMoreEvidence}
    case Full => {PreliminaryReview, NeedsMoreEvidence}
  }

  /** Every state a batch may be planned from admits the move the batch will ask for. */
  lemma EligibleAdmits(profile: Profile, s: State)
    requires s in Eligible(profile)
    ensures (if profile == Testing then TestingPlanned else FullScanApproved) in AllowedTransitions(s)
    ensures profile == Testing ==> s != TestingPlanned
  {
  }

  predicate IsActive(scan: Scan) { scan.status == ScanQueued || scan.status == ScanRunning }

  function ActiveScans(scans: map<ScanId, Scan>, id: OpportunityId): set<ScanId> {
    set n | n in scans && IsActive(scans[n]) && scans[n].opportunity == id
  }

  ghost predicate HasActive(scans: map<ScanId, Scan>, id: OpportunityId) {
    exists n :: n in scans && IsActive(scans[n]) && scans[n].opportunity == id
  }

  ghost predicate DistinctItems(items: seq<Item>) {
    forall i, j :: 0 <= i < j < |items| ==> items[i].opportunity != items[j].opportunity
  }

  /** Sum of item estimates = stored estimate <= approved maximum <= budget. */
  ghost predicate BatchInv(b: Batch) {
    && DistinctItems(b.items)
    && b.estimate == Total(b.items)
    && b.estimate <= b.budget
    && (b.approvedMax.Some? <==> b.status != Planned)
    && (b.approvedMax.Some? ==> b.estimate <= b.approvedMax.value <= b.budget)
    && forall i :: 0 <= i < |b.items| ==> (b.items[i].scan.Some? <==> b.status == Queued)
  }

  ghost predicate KnownItems(l: Ledger, b: Batch) {
    forall i :: 0 <= i < |b.items| ==> b.items[i].opportunity in l.opportunities
  }

  ghost predicate BatchesInv(l: Ledger, batches: map<BatchId, Batch>) {
    forall id :: id in batches ==> BatchInv(batches[id]) && KnownItems(l, batches[id])
  }

  lemma StoredBatch(l: Ledger, batches: map<BatchId, Batch>, id: BatchId)
    requires BatchesInv(l, batches) && id in batches
    ensures BatchInv(batches[id]) && KnownItems(l, batches[id])
  {
  }

  lemma StoreBatch(l: Ledger, l': Ledger, batches: map<BatchId, Batch>, id: BatchId, b: Batch)
    requires BatchesInv(l, batches) && BatchInv(b) && KnownItems(l, b) && l'.opportunities.Keys == l.opportunities.Keys
    ensures BatchesInv(l', batches[id := b])
  {
    hide BatchInv;
  }

  ghost predicate Distinct(ids: seq<OpportunityId>) {
    forall i, j :: 0 <= i < j < |ids| ==> ids[i] != ids[j]
  }

  function ItemsFor(ids: seq<OpportunityId>, plans: map<OpportunityId, Plan>): seq<Item>
    requires forall i :: 0 <= i < |ids| ==> ids[i] in plans
  {
    seq(|ids|, i requires 0 <= i < |ids| => Item(ids[i], plans[ids[i]].cost, None))
  }

  ghost predicate CanPlan(l: Ledger, id: OpportunityId, profile: Profile) {
    && id in l.opportunities && CanonicalState(l.opportunities[id].status).Ok?
    && CanonicalState(l.opportunities[id].status).value in Eligible(profile)
  }

  /** Where an opportunity must stand, in what is stored for it, to go into a batch. */
  lemma PlannableStates(l: Ledger, id: OpportunityId, profile: Profile)
    requires id in l.opportunities
    ensures var stored := l.opportunities[id].status;
            CanPlan(l, id, profile) <==>
              || stored in {Named(PreliminaryReview), Named(NeedsMoreEvidence), Old(EvidenceRejected), Old(ScanFailed), Old(PartialReview), Old(UnusableReview)}
              || (profile == Testing && stored in {Named(Discovered), Named(PrefilterReview)})
  {
  }

  /** The opportunity as planning it for a testing scan leaves it: one version on, same owner. */
  function PlannedTesting(o: Opportunity, at: Time): Opportunity {
    match CanonicalState(o.status)
    case Ok(current) => Transitioned(o, current, Request(TestingPlanned, o.owner, None, false, at))
    case Err(_) => o
  }

  /** The two ledgers hold the same opportunities, and only the listed ones have moved. */
  ghost predicate PlansOnly(l: Ledger, l': Ledger, ids: seq<OpportunityId>, at: Time) {
    && l'.opportunities.Keys == l.opportunities.Keys
    && forall id :: id in l.opportunities ==>
         l'.opportunities[id] == (if id in ids then PlannedTesting(l.opportunities[id], at) else l.opportunities[id])
  }

  /** Approval for the full scan, asked for by the person confirming the batch. */
  function FullScan(at: Time): Request { Request(FullScanApproved, None, None, false, at) }

  ghost predicate CanApprove(l: Ledger, id: OpportunityId) {
    && id in l.opportunities && CanonicalState(l.opportunities[id].status).Ok?
    && FullScanApproved in AllowedTransitions(CanonicalState(l.opportunities[id].status).value)
  }

  function ApprovedForFull(o: Opportunity, at: Time): Opportunity {
    match CanonicalState(o.status)
    case Ok(current) => Transitioned(o, current, FullScan(at))
    case Err(_) => o
  }

  ghost predicate ApprovesOnly(l: Ledger, l': Ledger, items: seq<Item>, at: Time) {
    && l'.opportunities.Keys == l.opportunities.Keys
    && forall id :: id in l.opportunities ==>
         l'.opportunities[id] == (if Includes(items, id) then ApprovedForFull(l.opportunities[id], at) else l.opportunities[id])
  }

  predicate Includes(items: seq<Item>, id: OpportunityId) {
    exists i :: 0 <= i < |items| && items[i].opportunity == id
  }

  lemma ApproveOne(l: Ledger, id: OpportunityId, actor: Actor, at: Time)
    requires LedgerInv(l) && id in l.opportunities
    ensures var r := Transition(l, id, FullScan(at), actor);
            && (r.Ok? <==> CanApprove(l, id))
            && (r.Ok? ==> LedgerInv(r.value)
                          && r.value.opportunities == l.opportunities[id := ApprovedForFull(l.opportunities[id], at)])
  {
    hide LedgerInv, AllowedTransitions;
    TransitionKeeps(l, id, FullScan(at), actor);
  }

  lemma PlanOne(l: Ledger, id: OpportunityId, at: Time)
    requires LedgerInv(l) && CanPlan(l, id, Testing)
    ensures var r := TransitionSystem(l, id, TestingPlanned, at);
            && r.Ok? && LedgerInv(r.value)
            && r.value.opportunities == l.opportunities[id := PlannedTesting(l.opportunities[id], at)]
  {
    hide LedgerInv, AllowedTransitions;
    var o := l.opportunities[id];
    EligibleAdmits(Testing, CanonicalState(o.status).value);
    TransitionKeeps(l, id, Request(TestingPlanned, o.owner, None, false, at), PIPELINE);
  }

  /** A planned opportunity is in testing_planned and one version on; nothing else about it has changed. */
  lemma PlannedIs(l: Ledger, id: OpportunityId, at: Time)
    requires LedgerInv(l) && CanPlan(l, id, Testing)
    ensures PlannedTesting(l.opportunities[id], at) ==
            l.opportunities[id].(status := Named(TestingPlanned), version := l.opportunities[id].version + 1)
  {
    hide AllowedTransitions, RowsOf, Replay, Chained;
    assert Faithful(l.opportunities[id], RowsOf(l.reviews, id));
  }

  /** An approved opportunity is in full_scan_approved and one version on; nothing else about it has changed. */
  lemma ApprovedIs(l: Ledger, id: OpportunityId, at: Time)
    requires LedgerInv(l) && CanApprove(l, id)
    ensures ApprovedForFull(l.opportunities[id], at) ==
            l.opportunities[id].(status := Named(FullScanApproved), version := l.opportunities[id].version + 1)
  {
    hide RowsOf, Replay, Chained;
    assert Faithful(l.opportunities[id], RowsOf(l.reviews, id));
  }

  lemma NewBatch(b: Batch, ids: seq<OpportunityId>, plans: map<OpportunityId, Plan>)
    requires Distinct(ids) && forall i :: 0 <= i < |ids| ==> ids[i] in plans
    requires b.items == ItemsFor(ids, plans) && b.status == Planned && b.approvedMax == None
    requires b.estimate == Total(b.items) <= b.budget
    ensures BatchInv(b)
  {
  }

  lemma OneMoreItem(items: seq<Item>, i: nat)
    requires i < |items|
    ensures forall id :: Includes(items[..i + 1], id) <==> Includes(items[..i], id) || id == items[i].opportunity
  {
    forall id
      ensures Includes(items[..i + 1], id) <==> Includes(items[..i], id) || id == items[i].opportunity
    {
      if Includes(items[..i], id) {
        var n :| 0 <= n < i && items[n].opportunity == id;
        assert items[..i + 1][n].opportunity == id;
      }
      assert items[..i + 1][i] == items[i];
      if Includes(items[..i + 1], id) && id != items[i].opportunity {
        var n :| 0 <= n < i + 1 && items[..i + 1][n].opportunity == id;
        assert items[..i][n].opportunity == id;
      }
    }
  }

  lemma {:induction false} SameCostsSameTotal(items: seq<Item>, items': seq<Item>)
    requires |items| == |items'| && forall i :: 0 <= i < |items| ==> items'[i].cost == items[i].cost
    ensures Total(items') == Total(items)
  {
    if items != [] {
      SameCostsSameTotal(items[..|items| - 1], items'[..|items| - 1]);
    }
  }

  lemma QueuedBatch(b: Batch, first: ScanId)
    requires BatchInv(b) && b.status == Confirmed
    ensures BatchInv(Queue(b, first))
  {
    SameCostsSameTotal(b.items, Queue(b, first).items);
  }

  lemma QueueableItems(b: Batch, scans: map<ScanId, Scan>)
    requires Queueable(b, scans)
    ensures b.status == Confirmed && forall i :: 0 <= i < |b.items| ==> !HasActive(scans, b.items[i].opportunity)
  {
  }

  lemma QueuedKnown(l: Ledger, b: Batch, first: ScanId)
    requires KnownItems(l, b)
    ensures KnownItems(l, Queue(b, first))
  {
  }

  ghost predicate Queueable(b: Batch, scans: map<ScanId, Scan>) {
    b.status == Confirmed && forall i :: 0 <= i < |b.items| ==> !HasActive(scans, b.items[i].opportunity)
  }

  function ScanIds(first: ScanId, count: nat): (ids: seq<ScanId>)
    ensures |ids| == count && forall i :: 0 <= i < count ==> ids[i] == first + i
  {
    seq(count, i requires 0 <= i < count => first + i)
  }

  function Queue(b: Batch, first: ScanId): Batch {
    b.(status := Queued,
       items := seq(|b.items|, i requires 0 <= i < |b.items| => b.items[i].(scan := Some(first + i))))
  }

  /** One new queued scan for every item, at the item's cost, numbered from `first` on. */
  function NewScans(items: seq<Item>, first: ScanId): map<ScanId, Scan> {
    map n | n in ScanIds(first, |items|) :: Scan(items[n - first].opportunity, ScanQueued, items[n - first].cost)
  }

  lemma NoScans(first: ScanId)
    ensures NewScans([], first) == map[]
  {
  }

  lemma OneMoreScan(items: seq<Item>, i: nat, first: ScanId)
    requires i < |items|
    ensures NewScans(items[..i + 1], first) ==
            NewScans(items[..i], first)[first + i := Scan(items[i].opportunity, ScanQueued, items[i].cost)]
  {
    assert ScanIds(first, i + 1) == ScanIds(first, i) + [first + i];
  }

  // ---------- The three operations on the whole state ----------

  datatype World = World(
    ledger: Ledger, services: map<OpportunityId, nat>, templates: map<TemplateId, Template>,
    batches: map<BatchId, Batch>, scans: map<ScanId, Scan>, nextScan: ScanId)

  ghost predicate WorldInv(w: World) {
    && LedgerInv(w.ledger)
    && w.services.Keys == w.ledger.opportunities.Keys
    && (forall n :: n in w.scans ==> n < w.nextScan)
    && BatchesInv(w.ledger, w.batches)
  }

  /** A plan may be stored: every check comes before the first write. */
  ghost predicate CanCreate(w: World, ids: seq<OpportunityId>, profile: Profile, budget: Money, template: Option<TemplateId>,
                            plans: map<OpportunityId, Plan>, actor: Actor)
    requires forall i :: 0 <= i < |ids| ==> ids[i] in plans
  {
    && (template.Some? ==>
          && template.value in w.templates && w.templates[template.value].active
          && (w.templates[template.value].owner == actor.id || actor.role == Admin)
          && budget <= w.templates[template.value].budget)
    && (forall i :: 0 <= i < |ids| ==>
          CanPlan(w.ledger, ids[i], profile) && !plans[ids[i]].blocked
          && (template.Some? && template.value in w.templates ==>
                ids[i] in w.services && w.services[ids[i]] == w.templates[template.value].service))
    && Total(ItemsFor(ids, plans)) <= budget
  }

  function NewPlan(ids: seq<OpportunityId>, profile: Profile, budget: Money, plans: map<OpportunityId, Plan>): Batch
    requires forall i :: 0 <= i < |ids| ==> ids[i] in plans
  {
    Batch(profile, Planned, budget, Total(ItemsFor(ids, plans)), None, ItemsFor(ids, plans))
  }

  ghost function Created(w: World, batch: BatchId, ids: seq<OpportunityId>, profile: Profile, budget: Money,
                         plans: map<OpportunityId, Plan>, at: Time): World
    requires forall i :: 0 <= i < |ids| ==> ids[i] in plans
  {
    w.(batches := w.batches[batch := NewPlan(ids, profile, budget, plans)],
       ledger := if profile == Testing then PlanAll(w.ledger, ids, at) else w.ledger)
  }

  ghost predicate CanConfirm(w: World, batch: BatchId, approved: Money) {
    && batch in w.batches && w.batches[batch].status == Planned
    && w.batches[batch].estimate <= approved <= w.batches[batch].budget
    && (w.batches[batch].profile == Full ==>
          forall i :: 0 <= i < |w.batches[batch].items| ==> CanApprove(w.ledger, w.batches[batch].items[i].opportunity))
  }

  ghost function ConfirmedIn(w: World, batch: BatchId, approved: Money, actor: Actor, at: Time): World
    requires batch in w.batches
  {
    var b := w.batches[batch];
    w.(batches := w.batches[batch := b.(status := Confirmed, approvedMax := Some(approved))],
       ledger := if b.profile == Full then ApproveAll(w.ledger, b.items, actor, at) else w.ledger)
  }

  ghost predicate CanQueue(w: World, batch: BatchId) {
    batch in w.batches && Queueable(w.batches[batch], w.scans)
  }

  ghost function QueuedIn(w: World, batch: BatchId): World
    requires batch in w.batches
  {
    var b := w.batches[batch];
    w.(batches := w.batches[batch := Queue(b, w.nextScan)],
       scans := w.scans + NewScans(b.items, w.nextScan),
       nextScan := w.nextScan + |b.items|)
  }

  /** Every item of the batch names a new scan of its own, queued at the item's cost; no opportunity of the batch had a
      queued or running scan before, and no old scan has changed. */
  ghost predicate HasQueued(w: World, w': World, batch: BatchId, ids: seq<ScanId>) {
    && batch in w.batches && batch in w'.batches && w'.batches[batch].status == Queued
    && |ids| == |w.batches[batch].items| == |w'.batches[batch].items|
    && (forall i :: 0 <= i < |ids| ==>
          && ids[i] !in w.scans && ids[i] in w'.scans
          && w'.scans[ids[i]] == Scan(w.batches[batch].items[i].opportunity, ScanQueued, w.batches[batch].items[i].cost)
          && w'.batches[batch].items[i] == w.batches[batch].items[i].(scan := Some(ids[i])))
    && (forall n :: n in w.scans ==> n in w'.scans && w'.scans[n] == w.scans[n])
    && (forall n, i :: n in w.scans && w.scans[n].status in {ScanQueued, ScanRunning} && 0 <= i < |ids| ==>
          w.scans[n].opportunity != w.batches[batch].items[i].opportunity)
  }

  lemma NewScanAt(scans: map<ScanId, Scan>, items: seq<Item>, first: ScanId, i: nat)
    requires i < |items|
    ensures var all := scans + NewScans(items, first);
            first + i in all && all[first + i] == Scan(items[i].opportunity, ScanQueued, items[i].cost)
  {
    assert first + i in ScanIds(first, |items|) by { assert ScanIds(first, |items|)[i] == first + i; }
  }

  lemma OldScanAt(scans: map<ScanId, Scan>, items: seq<Item>, first: ScanId, n: ScanId)
    requires n in scans && n < first
    ensures n in scans + NewScans(items, first) && (scans + NewScans(items, first))[n] == scans[n]
  {
  }

  lemma QueuedHas(w: World, batch: BatchId)
    requires WorldInv(w) && CanQueue(w, batch)
    ensures HasQueued(w, QueuedIn(w, batch), batch, ScanIds(w.nextScan, |w.batches[batch].items|))
  {
    hide LedgerInv, BatchesInv, NewScans, HasActive;
    var items, ids := w.batches[batch].items, ScanIds(w.nextScan, |w.batches[batch].items|);
    forall n, i | n in w.scans && w.scans[n].status in {ScanQueued, ScanRunning} && 0 <= i < |ids|
      ensures w.scans[n].opportunity != items[i].opportunity
    {
      assert !HasActive(w.scans, items[i].opportunity);
      ActiveHas(w.scans, n);
    }
    forall i: nat | i < |ids|
      ensures var all := w.scans + NewScans(items, w.nextScan);
              ids[i] in all && all[ids[i]] == Scan(items[i].opportunity, ScanQueued, items[i].cost) && ids[i] !in w.scans
    {
      NewScanAt(w.scans, items, w.nextScan, i);
    }
    forall n | n in w.scans
      ensures var all := w.scans + NewScans(items, w.nextScan); n in all && all[n] == w.scans[n]
    {
      OldScanAt(w.scans, items, w.nextScan, n);
    }
  }

  lemma ActiveHas(scans: map<ScanId, Scan>, n: ScanId)
    requires n in scans && scans[n].status in {ScanQueued, ScanRunning}
    ensures HasActive(scans, scans[n].opportunity)
  {
  }

  function PlanAll(l: Ledger, ids: seq<OpportunityId>, at: Time): Ledger {
    if ids == [] then l
    else
      var before := PlanAll(l, ids[..|ids| - 1], at);
      match TransitionSystem(before, ids[|ids| - 1], TestingPlanned, at)
      case Ok(l') => l'
      case Err(_) => before
  }

  function ApproveAll(l: Ledger, items: seq<Item>, actor: Actor, at: Time): Ledger {
    if items == [] then l
    else
      var before := ApproveAll(l, items[..|items| - 1], actor, at);
      match Transition(before, items[|items| - 1].opportunity, FullScan(at), actor)
      case Ok(l') => l'
      case Err(_) => before
  }

  // ---------- Each keeps the invariant ----------

  /** From eligible states no move of a testing plan is refused, and nothing else moves. */
  lemma {:induction false} PlanAllKeeps(l: Ledger, ids: seq<OpportunityId>, at: Time)
    requires LedgerInv(l) && Distinct(ids) && forall i :: 0 <= i < |ids| ==> CanPlan(l, ids[i], Testing)
    ensures LedgerInv(PlanAll(l, ids, at)) && PlansOnly(l, PlanAll(l, ids, at), ids, at)
    ensures ids != [] ==> TransitionSystem(PlanAll(l, ids[..|ids| - 1], at), ids[|ids| - 1], TestingPlanned, at).Ok?
  {
    hide LedgerInv, TransitionSystem, PlannedTesting;
    if ids != [] {
      var rest, id := ids[..|ids| - 1], ids[|ids| - 1];
      PlanAllKeeps(l, rest, at);
      assert id !in rest;
      PlanOne(PlanAll(l, rest, at), id, at);
      assert ids == rest + [id];
    }
  }

  lemma {:induction false} ApproveAllKeeps(l: Ledger, items: seq<Item>, actor: Actor, at: Time)
    requires LedgerInv(l) && DistinctItems(items)
    requires forall i :: 0 <= i < |items| ==> CanApprove(l, items[i].opportunity)
    ensures LedgerInv(ApproveAll(l, items, actor, at)) && ApprovesOnly(l, ApproveAll(l, items, actor, at), items, at)
  {
    hide LedgerInv, Transition, ApprovedForFull;
    if items != [] {
      var n := |items| - 1;
      ApproveAllKeeps(l, items[..n], actor, at);
      assert !Includes(items[..n], items[n].opportunity);
      ApproveOne(ApproveAll(l, items[..n], actor, at), items[n].opportunity, actor, at);
      OneMoreItem(items, n);
      assert items[..n + 1] == items;
    }
  }

  lemma ApproveNext(l: Ledger, l': Ledger, items: seq<Item>, i: nat, actor: Actor, at: Time)
    requires i < |items| && DistinctItems(items) && LedgerInv(l') && ApprovesOnly(l, l', items[..i], at)
    ensures Transition(l', items[i].opportunity, FullScan(at), actor).Ok? <==> CanApprove(l, items[i].opportunity)
  {
    var id := items[i].opportunity;
    assert !Includes(items[..i], id);
    if id in l'.opportunities {
      ApproveOne(l', id, actor, at);
    }
  }

  lemma CreatedKeeps(w: World, batch: BatchId, ids: seq<OpportunityId>, profile: Profile, budget: Money,
                     template: Option<TemplateId>, plans: map<OpportunityId, Plan>, actor: Actor, at: Time)
    requires WorldInv(w) && Distinct(ids) && forall i :: 0 <= i < |ids| ==> ids[i] in plans
    requires CanCreate(w, ids, profile, budget, template, plans, actor)
    ensures WorldInv(Created(w, batch, ids, profile, budget, plans, at))
    ensures PlansOnly(w.ledger, Created(w, batch, ids, profile, budget, plans, at).ledger, if profile == Testing then ids else [], at)
  {
    hide LedgerInv, BatchInv, BatchesInv;
    var w' := Created(w, batch, ids, profile, budget, plans, at);
    NewBatch(NewPlan(ids, profile, budget, plans), ids, plans);
    if profile == Testing {
      PlanAllKeeps(w.ledger, ids, at);
    }
    StoreBatch(w.ledger, w'.ledger, w.batches, batch, NewPlan(ids, profile, budget, plans));
  }

  lemma ConfirmedKeeps(w: World, batch: BatchId, approved: Money, actor: Actor, at: Time)
    requires WorldInv(w) && CanConfirm(w, batch, approved)
    ensures var b := w.batches[batch];
            var w' := ConfirmedIn(w, batch, approved, actor, at);
            WorldInv(w') && ApprovesOnly(w.ledger, w'.ledger, if b.profile == Full then b.items else [], at)
  {
    hide LedgerInv, BatchesInv;
    var b, w' := w.batches[batch], ConfirmedIn(w, batch, approved, actor, at);
    StoredBatch(w.ledger, w.batches, batch);
    if b.profile == Full {
      ApproveAllKeeps(w.ledger, b.items, actor, at);
    }
    StoreBatch(w.ledger, w'.ledger, w.batches, batch, w'.batches[batch]);
  }

  /** Whatever else is on file, queueing gives each item's opportunity its only active scan, and leaves the active
      scans of every other opportunity as they were. */
  lemma QueuedScans(scans: map<ScanId, Scan>, items: seq<Item>, first: ScanId, id: OpportunityId)
    requires DistinctItems(items) && forall n :: n in scans ==> n < first
    requires forall i :: 0 <= i < |items| ==> !HasActive(scans, items[i].opportunity)
    ensures !Includes(items, id) ==> ActiveScans(scans + NewScans(items, first), id) == ActiveScans(scans, id)
    ensures forall i :: 0 <= i < |items| && items[i].opportunity == id ==>
              ActiveScans(scans, id) == {} && ActiveScans(scans + NewScans(items, first), id) == {first + i}
  {
    hide NewScans, ActiveScans, HasActive;
    var before, after := ActiveScans(scans, id), ActiveScans(scans + NewScans(items, first), id);
    forall n: ScanId
      ensures n in after <==> n in before || (first <= n < first + |items| && items[n - first].opportunity == id)
    {
      QueuedScan(scans, items, first, id, n);
    }
    forall i | 0 <= i < |items| && items[i].opportunity == id
      ensures before == {} && after == {first + i}
    {
      NoneActive(scans, id);
      assert first + i in after;
    }
    if !Includes(items, id) {
      assert after == before;
    }
  }

  lemma NoneActive(scans: map<ScanId, Scan>, id: OpportunityId)
    ensures HasActive(scans, id) <==> ActiveScans(scans, id) != {}
  {
    if n :| n in scans && IsActive(scans[n]) && scans[n].opportunity == id {
      assert n in ActiveScans(scans, id);
    }
  }

  lemma QueuedScan(scans: map<ScanId, Scan>, items: seq<Item>, first: ScanId, id: OpportunityId, n: ScanId)
    requires forall k :: k in scans ==> k < first
    ensures n in ActiveScans(scans + NewScans(items, first), id) <==>
              n in ActiveScans(scans, id) || (first <= n < first + |items| && items[n - first].opportunity == id)
  {
    assert n in ScanIds(first, |items|) <==> first <= n < first + |items| by {
      if first <= n < first + |items| {
        assert ScanIds(first, |items|)[n - first] == n;
      }
    }
  }

  lemma QueuedKeeps(w: World, batch: BatchId)
    requires WorldInv(w) && CanQueue(w, batch)
    ensures WorldInv(QueuedIn(w, batch))
  {
    hide LedgerInv, BatchInv, KnownItems, BatchesInv, HasActive;
    var b := w.batches[batch];
    StoredBatch(w.ledger, w.batches, batch);
    QueuedBatch(b, w.nextScan);
    QueuedKnown(w.ledger, b, w.nextScan);
    StoreBatch(w.ledger, w.ledger, w.batches, batch, Queue(b, w.nextScan));
  }

  class BatchPlanner {
    var ledger: Ledger
    var services: map<OpportunityId, nat>
    var templates: map<TemplateId, Template>
    var batches: map<BatchId, Batch>
    var scans: map<ScanId, Scan>
    var nextScan: ScanId

    ghost function View(): World
      reads this
    {
      World(ledger, services, templates, batches, scans, nextScan)
    }

    ghost predicate Valid()
      reads this
    {
      WorldInv(View())
    }

    // ---------- Create ----------

    method OwnedTemplate(id: TemplateId, actor: Actor) returns (r: Result<Template, BatchError>)
      ensures r.Ok? <==> id in templates && templates[id].active && (templates[id].owner == actor.id || actor.role == Admin)
      ensures r.Ok? ==> r.value == templates[id]
    {
      if id !in templates {
        return Err(TemplateNotFound);
      }
      if templates[id].owner != actor.id && actor.role != Admin {
        return Err(TemplateAccessDenied);
      }
      if !templates[id].active {
        return Err(TemplateArchived);
      }
      return Ok(templates[id]);
    }

    ghost predicate Plannable(id: OpportunityId, profile: Profile, service: Option<nat>, plans: map<OpportunityId, Plan>)
      requires id in plans
      reads this
    {
      CanPlan(ledger, id, profile) && (service.Some? ==> id in services && services[id] == service.value) && !plans[id].blocked
    }

    method CheckPlannable(id: OpportunityId, profile: Profile, service: Option<nat>, plans: map<OpportunityId, Plan>)
      returns (error: Option<BatchError>)
      requires id in plans && id in ledger.opportunities && id in services
      ensures error.None? <==> Plannable(id, profile, service, plans)
    {
      if service.Some? && services[id] != service.value {
        return Some(ServiceMismatch);
      }
      var state := CanonicalState(ledger.opportunities[id].status);
      if state.Err? {
        return Some(Refused(state.error));
      }
      if state.value !in Eligible(profile) {
        return Some(NotEligible);
      }
      if plans[id].blocked {
        return Some(ItemBlocked);
      }
      return None;
    }

    /** Check every opportunity and collect the items. */
    method Estimate(ids: seq<OpportunityId>, profile: Profile, service: Option<nat>, plans: map<OpportunityId, Plan>)
      returns (r: Result<seq<Item>, BatchError>)
      requires services.Keys == ledger.opportunities.Keys
      requires forall i :: 0 <= i < |ids| ==> ids[i] in plans && ids[i] in ledger.opportunities
      ensures r.Ok? <==> forall i :: 0 <= i < |ids| ==> Plannable(ids[i], profile, service, plans)
      ensures r.Ok? ==> r.value == ItemsFor(ids, plans)
    {
      hide Plannable;
      var items: seq<Item> := [];
      for i := 0 to |ids|
        invariant |items| == i
        invariant forall n :: 0 <= n < i ==>
          Plannable(ids[n], profile, service, plans) && items[n] == Item(ids[n], plans[ids[n]].cost, None)
      {
        var error := CheckPlannable(ids[i], profile, service, plans);
        if error.Some? {
          return Err(error.value);
        }
        items := items + [Item(ids[i], plans[ids[i]].cost, None)];
      }
      return Ok(items);
    }

    method Sum(items: seq<Item>) returns (total: Money)
      ensures total == Total(items)
    {
      total := 0;
      for i := 0 to |items|
        invariant total == Total(items[..i])
      {
        assert items[..i + 1][..i] == items[..i];
        total := total + items[i].cost;
      }
      assert items[..|items|] == items;
    }

    /** Move every listed opportunity to testing_planned. From an eligible state none can object. */
    method PlanTesting(ids: seq<OpportunityId>, at: Time)
      requires LedgerInv(ledger) && Distinct(ids)
      requires forall i :: 0 <= i < |ids| ==> CanPlan(ledger, ids[i], Testing)
      modifies this`ledger
      ensures ledger == PlanAll(old(ledger), ids, at)
    {
      hide LedgerInv, CanPlan, TransitionSystem, PlansOnly;
      for i := 0 to |ids|
        invariant ledger == PlanAll(old(ledger), ids[..i], at)
      {
        PlanAllKeeps(old(ledger), ids[..i + 1], at);
        assert ids[..i + 1][..i] == ids[..i];
        ledger := TransitionSystem(ledger, ids[i], TestingPlanned, at).value;
      }
      assert ids[..|ids|] == ids;
    }

    /** Plan a batch over distinct opportunities, taken in id order. */
    method CreateBatchPlan(batch: BatchId, ids: seq<OpportunityId>, profile: Profile, budget: Money,
                           template: Option<TemplateId>, plans: map<OpportunityId, Plan>, actor: Actor, at: Time)
      returns (r: Result<Batch, BatchError>)
      requires Valid() && batch !in batches
      requires forall i, j :: 0 <= i < j < |ids| ==> ids[i] < ids[j]
      requires forall i :: 0 <= i < |ids| ==> ids[i] in plans
      modifies this
      ensures Valid()
      ensures r.Ok? <==> CanCreate(old(View()), ids, profile, budget, template, plans, actor)
      ensures r.Ok? ==> View() == Created(old(View()), batch, ids, profile, budget, plans, at) && r.value == batches[batch]
      ensures r.Ok? ==> PlansOnly(old(ledger), ledger, if profile == Testing then ids else [], at)
      ensures r.Ok? ==> r.value.profile == profile && r.value.status == Planned && r.value.budget == budget
                        && r.value.approvedMax == None && |r.value.items| == |ids|
      ensures r.Ok? ==> forall i :: 0 <= i < |ids| ==> r.value.items[i] == Item(ids[i], plans[ids[i]].cost, None)
      ensures r.Err? ==> View() == old(View())
    {
      hide LedgerInv, BatchInv, BatchesInv, AllowedTransitions;
      var service: Option<nat> := None;
      if template.Some? {
        var owned := OwnedTemplate(template.value, actor);
        if owned.Err? {
          return Err(owned.error);
        }
        if owned.value.budget < budget {
          return Err(BudgetExceedsTemplate);
        }
        service := Some(owned.value.service);
      }
      if exists i :: 0 <= i < |ids| && ids[i] !in ledger.opportunities {
        return Err(BatchOpportunityNotFound);
      }
      var items := Estimate(ids, profile, service, plans);
      if items.Err? {
        return Err(items.error);
      }
      var total := Sum(items.value);
      if total > budget {
        return Err(CostExceedsBudget);
      }
      CreatedKeeps(View(), batch, ids, profile, budget, template, plans, actor, at);
      var b := Batch(profile, Planned, budget, total, None, items.value);
      batches := batches[batch := b];
      if profile == Testing {
        PlanTesting(ids, at);
      }
      return Ok(b);
    }

    // ---------- Confirm ----------

    /** Approve every item for its full scan; at the first refusal stop, the caller rolls back. */
    method ApproveItems(items: seq<Item>, actor: Actor, at: Time) returns (refusal: Option<ReviewError>)
      requires LedgerInv(ledger) && DistinctItems(items)
      modifies this`ledger
      ensures refusal.None? <==> forall i :: 0 <= i < |items| ==> CanApprove(old(ledger), items[i].opportunity)
      ensures refusal.None? ==> ledger == ApproveAll(old(ledger), items, actor, at)
    {
      hide LedgerInv, CanApprove, Transition;
      for i := 0 to |items|
        invariant ledger == ApproveAll(old(ledger), items[..i], actor, at)
        invariant forall n :: 0 <= n < i ==> CanApprove(old(ledger), items[n].opportunity)
      {
        var id := items[i].opportunity;
        ApproveAllKeeps(old(ledger), items[..i], actor, at);
        ApproveNext(old(ledger), ledger, items, i, actor, at);
        var r := Transition(ledger, id, FullScan(at), actor);
        if r.Err? {
          return Some(r.error);
        }
        assert items[..i + 1][..i] == items[..i];
        ledger := r.value;
      }
      assert items[..|items|] == items;
      return None;
    }

    method ConfirmBatch(batch: BatchId, approved: Money, actor: Actor, at: Time) returns (r: Result<Batch, BatchError>)
      requires Valid()
      modifies this
      ensures Valid()
      ensures r.Ok? <==> CanConfirm(old(View()), batch, approved)
      ensures r.Ok? ==> View() == ConfirmedIn(old(View()), batch, approved, actor, at) && r.value == batches[batch]
      ensures r.Ok? ==> r.value == old(batches)[batch].(status := Confirmed, approvedMax := Some(approved))
      ensures r.Ok? ==> ApprovesOnly(old(ledger), ledger, if r.value.profile == Full then r.value.items else [], at)
      ensures r.Err? ==> View() == old(View())
    {
      hide LedgerInv, KnownItems, AllowedTransitions, CanApprove;
      if batch !in batches {
        return Err(NotFound);
      }
      var b := batches[batch];
      if b.status != Planned {
        return Err(NotAwaitingConfirmation);
      }
      if approved < b.estimate {
        return Err(ApprovedBelowEstimate);
      }
      if approved > b.budget {
        return Err(ApprovedAboveBudget);
      }
      StoredBatch(ledger, batches, batch);
      ghost var w := View();
      var before := ledger;
      if b.profile == Full {
        var refusal := ApproveItems(b.items, actor, at);
        if refusal.Some? {
          ledger := before;
          return Err(Refused(refusal.value));
        }
      }
      ConfirmedKeeps(w, batch, approved, actor, at);
      b := b.(status := Confirmed, approvedMax := Some(approved));
      batches := batches[batch := b];
      return Ok(b);
    }

    // ---------- Queue ----------

    method AnyActive(items: seq<Item>) returns (found: bool)
      ensures found <==> exists i :: 0 <= i < |items| && HasActive(scans, items[i].opportunity)
    {
      for i := 0 to |items|
        invariant forall n :: 0 <= n < i ==> !HasActive(scans, items[n].opportunity)
      {
        if exists n :: n in scans && IsActive(scans[n]) && scans[n].opportunity == items[i].opportunity {
          return true;
        }
      }
      return false;
    }

    /** The checks made before the first write; the planned cost when all of them pass. */
    method CheckQueueable(b: Batch) returns (r: Result<Money, BatchError>)
      requires BatchInv(b)
      ensures r.Ok? <==> Queueable(b, scans)
      ensures r.Ok? ==> b.approvedMax.Some? && r.value == b.estimate <= b.approvedMax.value
      ensures r.Err? ==> r.error != ExceedsConfirmedCost
    {
      hide HasActive, DistinctItems;
      if b.status != Confirmed || b.approvedMax.None? {
        return Err(RequiresConfirmation);
      }
      var planned := Sum(b.items);
      if planned > b.approvedMax.value {
        return Err(ExceedsConfirmedCost);
      }
      var active := AnyActive(b.items);
      return if active then Err(AlreadyHasActiveScan) else Ok(planned);
    }

    /** One new queued scan for every item, numbered from `nextScan` on. */
    method QueueItems(items: seq<Item>) returns (queued: seq<Item>, ids: seq<ScanId>)
      requires forall n :: n in scans ==> n < nextScan
      modifies this`scans, this`nextScan
      ensures scans == old(scans) + NewScans(items, old(nextScan)) && nextScan == old(nextScan) + |items|
      ensures ids == ScanIds(old(nextScan), |items|)
      ensures |queued| == |items| && forall i :: 0 <= i < |items| ==> queued[i] == items[i].(scan := Some(ids[i]))
    {
      hide NewScans;
      NoScans(nextScan);
      queued, ids := [], [];
      for i := 0 to |items|
        invariant nextScan == old(nextScan) + i && ids == ScanIds(old(nextScan), i) && |queued| == i
        invariant scans == old(scans) + NewScans(items[..i], old(nextScan))
        invariant forall n :: 0 <= n < i ==> queued[n] == items[n].(scan := Some(ids[n]))
      {
        var item := items[i];
        OneMoreScan(items, i, old(nextScan));
        scans := scans[nextScan := Scan(item.opportunity, ScanQueued, item.cost)];
        queued := queued + [item.(scan := Some(nextScan))];
        ids := ids + [nextScan];
        nextScan := nextScan + 1;
      }
      assert items[..|items|] == items;
    }

    method QueueBatch(batch: BatchId) returns (r: Result<QueueResult, BatchError>)
      requires Valid()
      modifies this
      ensures Valid()
      ensures r.Ok? <==> CanQueue(old(View()), batch)
      ensures r.Ok? ==> View() == QueuedIn(old(View()), batch)
      ensures r.Err? ==> View() == old(View())
      // The cost check at queue time can never be the reason for a refusal.
      ensures r.Err? ==> r.error != ExceedsConfirmedCost
      // Nor can the result fail its own validator.
      ensures r.Ok? ==> r.value.planned == old(batches)[batch].estimate <= r.value.approvedMax
      ensures r.Ok? ==> old(batches)[batch].approvedMax == Some(r.value.approvedMax)
      ensures r.Ok? ==> HasQueued(old(View()), View(), batch, r.value.scans)
    {
      hide LedgerInv, HasActive, BatchInv, KnownItems, BatchesInv, DistinctItems, Queueable, Total, HasQueued;
      if batch !in batches {
        return Err(NotFound);
      }
      var b := batches[batch];
      StoredBatch(ledger, batches, batch);
      var planned := CheckQueueable(b);
      if planned.Err? {
        return Err(planned.error);
      }
      QueueableItems(b, scans);
      QueuedKeeps(View(), batch);
      QueuedHas(View(), batch);
      ghost var first := nextScan;
      var items, ids := QueueItems(b.items);
      assert b.(status := Queued, items := items) == Queue(b, first);
      batches := batches[batch := b.(status := Queued, items := items)];
      return Ok(QueueResult(ids, planned.value, b.approvedMax.value));
    }
  }
}
