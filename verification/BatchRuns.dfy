/** Batches over whole runs, while opportunities move, scans come and go and templates are edited. */
module BatchRuns {
  import opened Wrappers
  import opened Reviews
  import opened Batches

  datatype BatchOp =
    | CreatePlan(batch: BatchId, ids: seq<OpportunityId>, profile: Profile, budget: Money, template: Option<TemplateId>,
                 plans: map<OpportunityId, Plan>, actor: Actor, at: Time)
    | ConfirmPlan(batch: BatchId, approved: Money, actor: Actor, at: Time)
    | QueuePlan(batch: BatchId)
    | MoveOpportunity(move: Op, service: nat)
    | EditTemplates(templates: map<TemplateId, Template>)
    // A single scan, asked for elsewhere: a promotion looks for an active scan first, a scan request and a retry do not.
    | StartScan(opportunity: OpportunityId, planned: Money, looksFirst: bool)
    // The scan workers: claims, ends, cancellations, and failed scans set back to queued.
    | ScanMoves(scan: ScanId, status: ScanStatus)

  /** What the callers of each operation see to. */
  ghost predicate Asked(w: World, op: BatchOp) {
    match op
    case CreatePlan(batch, ids, _, _, _, plans, _, _) =>
      batch !in w.batches && (forall i, j :: 0 <= i < j < |ids| ==> ids[i] < ids[j]) && forall i :: 0 <= i < |ids| ==> ids[i] in plans
    case ScanMoves(scan, _) => scan in w.scans
    case _ => true
  }

  /** A refused operation changes nothing. */
  ghost function Performed(w: World, op: BatchOp): World
    requires Asked(w, op)
  {
    match op
    case CreatePlan(batch, ids, profile, budget, template, plans, actor, at) =>
      if CanCreate(w, ids, profile, budget, template, plans, actor) then Created(w, batch, ids, profile, budget, plans, at) else w
    case ConfirmPlan(batch, approved, actor, at) =>
      if CanConfirm(w, batch, approved) then ConfirmedIn(w, batch, approved, actor, at) else w
    case QueuePlan(batch) => if CanQueue(w, batch) then QueuedIn(w, batch) else w
    case MoveOpportunity(move, service) =>
      w.(ledger := Applied(w.ledger, move),
         services := if move.Discover? && move.id !in w.services then w.services[move.id := service] else w.services)
    case EditTemplates(templates) => w.(templates := templates)
    case StartScan(opportunity, planned, looksFirst) =>
      if looksFirst && HasActive(w.scans, opportunity) then w
      else w.(scans := w.scans[w.nextScan := Scan(opportunity, ScanQueued, planned)], nextScan := w.nextScan + 1)
    case ScanMoves(scan, status) => w.(scans := w.scans[scan := w.scans[scan].(status := status)])
  }

  lemma MoveKeeps(w: World, move: Op, service: nat)
    requires WorldInv(w)
    ensures WorldInv(Performed(w, MoveOpportunity(move, service)))
  {
    hide LedgerInv, BatchInv, Objection;
    AppliedKeeps(w.ledger, move);
    assert forall id :: id in w.ledger.opportunities ==> id in Applied(w.ledger, move).opportunities;
  }

  lemma ScansKeep(w: World, op: BatchOp)
    requires WorldInv(w) && Asked(w, op) && (op.StartScan? || op.ScanMoves?)
    ensures WorldInv(Performed(w, op))
  {
    hide LedgerInv, BatchesInv;
  }

  lemma PerformedKeeps(w: World, op: BatchOp)
    requires WorldInv(w) && Asked(w, op)
    ensures WorldInv(Performed(w, op))
  {
    hide WorldInv, Created, ConfirmedIn, QueuedIn, CanCreate, CanConfirm, CanQueue;
    match op
    case CreatePlan(batch, ids, profile, budget, template, plans, actor, at) =>
      if CanCreate(w, ids, profile, budget, template, plans, actor) {
        CreatedKeeps(w, batch, ids, profile, budget, template, plans, actor, at);
      }
    case ConfirmPlan(batch, approved, actor, at) =>
      if CanConfirm(w, batch, approved) {
        ConfirmedKeeps(w, batch, approved, actor, at);
      }
    case QueuePlan(batch) =>
      if CanQueue(w, batch) {
        QueuedKeeps(w, batch);
      }
    case MoveOpportunity(move, service) => MoveKeeps(w, move, service);
    case EditTemplates(templates) => EditKeeps(w, templates);
    case StartScan(_, _, _) => ScansKeep(w, op);
    case ScanMoves(_, _) => ScansKeep(w, op);
  }

  lemma EditKeeps(w: World, templates: map<TemplateId, Template>)
    requires WorldInv(w)
    ensures WorldInv(w.(templates := templates))
  {
  }

  // ---------- Runs ----------

  ghost predicate Next(w: World, op: BatchOp, w': World) {
    Asked(w, op) && w' == Performed(w, op)
  }

  ghost predicate IsRun(ws: seq<World>, ops: seq<BatchOp>) {
    && |ws| == |ops| + 1
    && ws[0].ledger == Ledger(map[], []) && ws[0].services == map[] && ws[0].batches == map[] && ws[0].scans == map[]
    && forall i :: 0 <= i < |ops| ==> Next(ws[i], ops[i], ws[i + 1])
  }

  lemma StartInv(w: World)
    requires w.ledger == Ledger(map[], []) && w.services == map[] && w.batches == map[] && w.scans == map[]
    ensures WorldInv(w)
  {
  }

  /** In every run: faithful histories and consistent batches. */
  lemma {:induction false} RunInv(ws: seq<World>, ops: seq<BatchOp>, n: nat)
    requires IsRun(ws, ops) && n < |ws|
    ensures WorldInv(ws[n])
  {
    hide WorldInv, Asked, Performed;
    if n == 0 {
      StartInv(ws[0]);
    } else {
      RunInv(ws, ops, n - 1);
      assert Next(ws[n - 1], ops[n - 1], ws[n]);
      PerformedKeeps(ws[n - 1], ops[n - 1]);
    }
  }

  // ---------- One batch ----------

  /** What may happen to a stored batch: it is confirmed, then queued, and its costs are settled for good. */
  ghost predicate BatchMoves(b: Batch, b': Batch) {
    && b'.profile == b.profile && b'.budget == b.budget && b'.estimate == b.estimate && |b'.items| == |b.items|
    && (forall i :: 0 <= i < |b.items| ==> b'.items[i].opportunity == b.items[i].opportunity && b'.items[i].cost == b.items[i].cost)
    && (b.approvedMax.Some? ==> b'.approvedMax == b.approvedMax)
    && (b.status == Queued ==> b' == b)
    && (b.status == Confirmed ==> b'.status != Planned)
  }

  lemma PerformedMoves(w: World, op: BatchOp, batch: BatchId)
    requires WorldInv(w) && Asked(w, op) && batch in w.batches
    ensures batch in Performed(w, op).batches && BatchMoves(w.batches[batch], Performed(w, op).batches[batch])
  {
    hide LedgerInv, CanCreate, PlanAll, ApproveAll, NewPlan, NewScans, Applied, HasActive, KnownItems;
    StoredBatch(w.ledger, w.batches, batch);
    assert BatchInv(w.batches[batch]);
    hide BatchesInv, Total, DistinctItems;
  }

  lemma {:induction false} BatchStays(ws: seq<World>, ops: seq<BatchOp>, i: nat, j: nat, batch: BatchId)
    requires IsRun(ws, ops) && i <= j < |ws| && batch in ws[i].batches
    ensures batch in ws[j].batches && BatchMoves(ws[i].batches[batch], ws[j].batches[batch])
    decreases j - i
  {
    hide WorldInv, Asked, Performed;
    if i < j {
      BatchStays(ws, ops, i, j - 1, batch);
      RunInv(ws, ops, j - 1);
      assert Next(ws[j - 1], ops[j - 1], ws[j]);
      PerformedMoves(ws[j - 1], ops[j - 1], batch);
    }
  }

  /** A batch queues at most once in a run. */
  lemma QueuesOnce(ws: seq<World>, ops: seq<BatchOp>, i: nat, j: nat, batch: BatchId)
    requires IsRun(ws, ops) && i < j < |ops| && ops[i] == QueuePlan(batch) && CanQueue(ws[i], batch)
    ensures !CanQueue(ws[j], batch)
  {
    hide NewScans;
    assert Next(ws[i], ops[i], ws[i + 1]);
    assert ws[i + 1].batches[batch].status == Queued;
    BatchStays(ws, ops, i + 1, j, batch);
  }

  lemma {:induction false} BatchBorn(ws: seq<World>, ops: seq<BatchOp>, n: nat, batch: BatchId) returns (m: nat)
    requires IsRun(ws, ops) && n < |ws| && batch in ws[n].batches
    ensures m < n && ops[m].CreatePlan? && ops[m].batch == batch && Asked(ws[m], ops[m])
    ensures CanCreate(ws[m], ops[m].ids, ops[m].profile, ops[m].budget, ops[m].template, ops[m].plans, ops[m].actor)
    ensures ws[m + 1] == Created(ws[m], batch, ops[m].ids, ops[m].profile, ops[m].budget, ops[m].plans, ops[m].at)
    decreases n
  {
    assert Next(ws[n - 1], ops[n - 1], ws[n]);
    if batch in ws[n - 1].batches {
      m := BatchBorn(ws, ops, n - 1, batch);
    } else {
      hide CanCreate, PlanAll, ApproveAll, NewPlan, NewScans, Applied;
      m := n - 1;
    }
  }

  /** The approved maximum is the amount that some confirmation in the run approved. */
  lemma {:induction false} ApprovedAsAsked(ws: seq<World>, ops: seq<BatchOp>, n: nat, batch: BatchId) returns (c: nat)
    requires IsRun(ws, ops) && n < |ws| && batch in ws[n].batches && ws[n].batches[batch].approvedMax.Some?
    ensures c < n && ops[c].ConfirmPlan? && ops[c].batch == batch
    ensures batch in ws[c].batches && ws[c].batches[batch].status == Planned
    ensures ws[n].batches[batch].approvedMax == Some(ops[c].approved)
    decreases n
  {
    hide WorldInv, Performed, Asked;
    assert Next(ws[n - 1], ops[n - 1], ws[n]);
    RunInv(ws, ops, n - 1);
    if batch in ws[n - 1].batches && ws[n - 1].batches[batch].approvedMax.Some? {
      c := ApprovedAsAsked(ws, ops, n - 1, batch);
      PerformedMoves(ws[n - 1], ops[n - 1], batch);
    } else {
      c := n - 1;
      ApprovedHere(ws[c], ops[c], batch);
    }
  }

  lemma ApprovedHere(w: World, op: BatchOp, batch: BatchId)
    requires WorldInv(w) && Asked(w, op)
    requires batch in Performed(w, op).batches && Performed(w, op).batches[batch].approvedMax.Some?
    requires batch in w.batches ==> w.batches[batch].approvedMax.None?
    ensures op.ConfirmPlan? && op.batch == batch && batch in w.batches && w.batches[batch].status == Planned
    ensures Performed(w, op).batches[batch].approvedMax == Some(op.approved)
  {
    hide LedgerInv, KnownItems, CanCreate, PlanAll, ApproveAll, NewScans, Applied, CanApprove, HasActive, Total, DistinctItems;
    assert batch in w.batches ==> BatchInv(w.batches[batch]);
  }

  /** In every run and for every batch, from its creation on: the items' costs as planned add up to the stored
      estimate, which is at most the approved maximum, at most the budget, at most what its template's budget
      was when the batch was created. */
  lemma CostChain(ws: seq<World>, ops: seq<BatchOp>, n: nat, batch: BatchId) returns (m: nat)
    requires IsRun(ws, ops) && n < |ws| && batch in ws[n].batches
    ensures m < n && ops[m].CreatePlan? && ops[m].batch == batch
    ensures var b := ws[n].batches[batch];
            && Total(b.items) == b.estimate <= b.budget == ops[m].budget && b.profile == ops[m].profile
            && |b.items| == |ops[m].ids|
            && (forall i :: 0 <= i < |b.items| ==>
                  ops[m].ids[i] in ops[m].plans && b.items[i].opportunity == ops[m].ids[i]
                  && b.items[i].cost == ops[m].plans[ops[m].ids[i]].cost)
            && (b.approvedMax.None? <==> b.status == Planned)
            && (b.approvedMax.Some? ==> b.estimate <= b.approvedMax.value <= b.budget)
            && (ops[m].template.Some? ==>
                  ops[m].template.value in ws[m].templates && b.budget <= ws[m].templates[ops[m].template.value].budget)
  {
    m := BatchBorn(ws, ops, n, batch);
    hide IsRun, PlanAll, Total;
    RunInv(ws, ops, n);
    BatchStays(ws, ops, m + 1, n, batch);
    assert BatchInv(ws[n].batches[batch]);
    hide WorldInv, CanPlan;
  }

  // ---------- Active scans ----------

  ghost predicate OneActivePerOpportunity(scans: map<ScanId, Scan>) {
    forall a, b ::
      (a in scans && b in scans && IsActive(scans[a]) && IsActive(scans[b])
       && scans[a].opportunity == scans[b].opportunity) ==> a == b
  }

  /** In every run, whatever scans are about: queueing a batch never gives any opportunity a second active scan. */
  lemma QueueAddsNoSecond(ws: seq<World>, ops: seq<BatchOp>, n: nat, id: OpportunityId)
    requires IsRun(ws, ops) && n < |ops| && ops[n].QueuePlan?
    ensures ActiveScans(ws[n + 1].scans, id) == ActiveScans(ws[n].scans, id)
            || (ActiveScans(ws[n].scans, id) == {} && exists k :: ActiveScans(ws[n + 1].scans, id) == {k})
  {
    RunInv(ws, ops, n);
    assert Next(ws[n], ops[n], ws[n + 1]);
    if CanQueue(ws[n], ops[n].batch) {
      QueueAddsOne(ws[n], ops[n].batch, id);
    }
  }

  lemma QueueAddsOne(w: World, batch: BatchId, id: OpportunityId)
    requires WorldInv(w) && CanQueue(w, batch)
    ensures var scans' := QueuedIn(w, batch).scans;
            ActiveScans(scans', id) == ActiveScans(w.scans, id)
            || (ActiveScans(w.scans, id) == {} && exists k :: ActiveScans(scans', id) == {k})
  {
    hide LedgerInv, NewScans, HasActive, ActiveScans;
    StoredBatch(w.ledger, w.batches, batch);
    QueuedScans(w.scans, w.batches[batch].items, w.nextScan, id);
  }

  /** The guards: a scan is started, or an ended scan made active again, only where no scan of the opportunity is active. */
  ghost predicate KeepsOneActive(w: World, op: BatchOp) {
    match op
    case StartScan(opportunity, _, looksFirst) => looksFirst || !HasActive(w.scans, opportunity)
    case ScanMoves(scan, status) =>
      (scan in w.scans && !IsActive(w.scans[scan]) && (status == ScanQueued || status == ScanRunning)) ==>
        !HasActive(w.scans, w.scans[scan].opportunity)
    case _ => true
  }

  /** Putting an active scan in place of an inactive one, or of none, keeps one active scan per opportunity exactly
      when the opportunity had none. */
  lemma PutActive(scans: map<ScanId, Scan>, k: ScanId, scan: Scan)
    requires OneActivePerOpportunity(scans) && (k in scans ==> !IsActive(scans[k])) && IsActive(scan)
    ensures OneActivePerOpportunity(scans[k := scan]) <==> !HasActive(scans, scan.opportunity)
  {
    var scans' := scans[k := scan];
    if n :| n in scans && IsActive(scans[n]) && scans[n].opportunity == scan.opportunity {
      assert n in scans' && k in scans' && IsActive(scans'[n]) && IsActive(scans'[k]) && n != k;
    }
  }

  lemma StartKeepsOne(w: World, op: BatchOp)
    requires WorldInv(w) && op.StartScan? && OneActivePerOpportunity(w.scans)
    ensures OneActivePerOpportunity(Performed(w, op).scans) <==> KeepsOneActive(w, op)
  {
    hide LedgerInv, BatchesInv, HasActive, OneActivePerOpportunity;
    PutActive(w.scans, w.nextScan, Scan(op.opportunity, ScanQueued, op.planned));
  }

  lemma MoveKeepsOne(w: World, op: BatchOp)
    requires op.ScanMoves? && Asked(w, op) && OneActivePerOpportunity(w.scans)
    ensures OneActivePerOpportunity(Performed(w, op).scans) <==> KeepsOneActive(w, op)
  {
    var scan := w.scans[op.scan].(status := op.status);
    if IsActive(scan) && !IsActive(w.scans[op.scan]) {
      hide HasActive, OneActivePerOpportunity;
      PutActive(w.scans, op.scan, scan);
    }
  }

  lemma QueueKeepsOne(w: World, batch: BatchId)
    requires WorldInv(w) && CanQueue(w, batch) && OneActivePerOpportunity(w.scans)
    ensures OneActivePerOpportunity(QueuedIn(w, batch).scans)
  {
    hide WorldInv, Queueable, QueuedIn;
    var scans' := QueuedIn(w, batch).scans;
    forall a, b | a in scans' && b in scans' && IsActive(scans'[a]) && IsActive(scans'[b])
                  && scans'[a].opportunity == scans'[b].opportunity
      ensures a == b
    {
      var id := scans'[a].opportunity;
      QueueAddsOne(w, batch, id);
      assert a in ActiveScans(scans', id) && b in ActiveScans(scans', id);
    }
  }

  /** One step keeps at most one active scan per opportunity exactly when it respects the guards. */
  lemma StepKeepsOne(w: World, op: BatchOp)
    requires WorldInv(w) && Asked(w, op) && OneActivePerOpportunity(w.scans)
    ensures OneActivePerOpportunity(Performed(w, op).scans) <==> KeepsOneActive(w, op)
  {
    hide WorldInv, OneActivePerOpportunity, HasActive, CanCreate, CanConfirm, CanQueue, NewScans, PlanAll, ApproveAll, NewPlan;
    match op
    case QueuePlan(batch) =>
      if CanQueue(w, batch) {
        QueueKeepsOne(w, batch);
      }
    case StartScan(_, _, _) => StartKeepsOne(w, op);
    case ScanMoves(_, _) => MoveKeepsOne(w, op);
    case _ =>
  }

  /** Up to any point of a run no opportunity has had two active scans exactly when every step respected the guards. */
  lemma {:induction false} OneActiveExactly(ws: seq<World>, ops: seq<BatchOp>, n: nat)
    requires IsRun(ws, ops) && n < |ws|
    ensures (forall m :: 0 <= m <= n ==> OneActivePerOpportunity(ws[m].scans)) <==>
            (forall m :: 0 <= m < n ==> KeepsOneActive(ws[m], ops[m]))
  {
    hide WorldInv, Asked, Performed, KeepsOneActive, OneActivePerOpportunity;
    if n == 0 {
      assert OneActivePerOpportunity(ws[0].scans) by { NoScansAtAll(ws[0].scans); }
    } else {
      OneActiveExactly(ws, ops, n - 1);
      assert Next(ws[n - 1], ops[n - 1], ws[n]);
      RunInv(ws, ops, n - 1);
      if OneActivePerOpportunity(ws[n - 1].scans) {
        StepKeepsOne(ws[n - 1], ops[n - 1]);
      }
    }
  }

  lemma NoScansAtAll(scans: map<ScanId, Scan>)
    requires scans == map[]
    ensures OneActivePerOpportunity(scans)
  {
  }

  // ---------- Runs with two active scans ----------

  const EMPTY := World(Ledger(map[], []), map[], map[], map[], map[], 0)

  lemma Discovers(id: OpportunityId)
    ensures Next(EMPTY, MoveOpportunity(Discover(id), 0), EMPTY.(ledger := Ledger(map[id := FRESH], []), services := map[id := 0]))
  {
  }

  lemma Starts(w: World, id: OpportunityId, looksFirst: bool)
    requires looksFirst ==> !HasActive(w.scans, id)
    ensures Next(w, StartScan(id, 5, looksFirst),
                 w.(scans := w.scans[w.nextScan := Scan(id, ScanQueued, 5)], nextScan := w.nextScan + 1))
  {
  }

  lemma Turns(w: World, k: ScanId, status: ScanStatus)
    requires k in w.scans
    ensures Next(w, ScanMoves(k, status), w.(scans := w.scans[k := w.scans[k].(status := status)]))
  {
  }

  /** Two scan requests for one opportunity, neither of which looks for the other. */
  lemma TwoRequestsTwoScans() returns (ws: seq<World>, ops: seq<BatchOp>)
    ensures IsRun(ws, ops) && !OneActivePerOpportunity(ws[|ops|].scans)
  {
    hide Next;
    var w1 := EMPTY.(ledger := Ledger(map[1 := FRESH], []), services := map[1 := 0]);
    var w2 := w1.(scans := w1.scans[0 := Scan(1, ScanQueued, 5)], nextScan := 1);
    var w3 := w2.(scans := w2.scans[1 := Scan(1, ScanQueued, 5)], nextScan := 2);
    Discovers(1);
    Starts(w1, 1, false);
    Starts(w2, 1, false);
    ws, ops := [EMPTY, w1, w2, w3], [MoveOpportunity(Discover(1), 0), StartScan(1, 5, false), StartScan(1, 5, false)];
    assert IsActive(w3.scans[0]) && IsActive(w3.scans[1]);
  }

  /** A scan fails, another is started after looking for active ones, and the worker sets the failed one back to queued. */
  lemma FailedScanReturns() returns (ws: seq<World>, ops: seq<BatchOp>)
    ensures IsRun(ws, ops) && !OneActivePerOpportunity(ws[|ops|].scans)
    ensures forall i :: 0 <= i < |ops| && ops[i].StartScan? ==> ops[i].looksFirst
  {
    hide Next;
    var w1 := EMPTY.(ledger := Ledger(map[1 := FRESH], []), services := map[1 := 0]);
    var w2 := w1.(scans := w1.scans[0 := Scan(1, ScanQueued, 5)], nextScan := 1);
    var w3 := w2.(scans := w2.scans[0 := Scan(1, ScanRunning, 5)]);
    var w4 := w3.(scans := w3.scans[0 := Scan(1, ScanEnded, 5)]);
    var w5 := w4.(scans := w4.scans[1 := Scan(1, ScanQueued, 5)], nextScan := 2);
    var w6 := w5.(scans := w5.scans[0 := Scan(1, ScanQueued, 5)]);
    Discovers(1);
    Starts(w1, 1, true);
    Turns(w2, 0, ScanRunning);
    Turns(w3, 0, ScanEnded);
    Starts(w4, 1, true);
    Turns(w5, 0, ScanQueued);
    ws := [EMPTY, w1, w2, w3, w4, w5, w6];
    ops := [MoveOpportunity(Discover(1), 0), StartScan(1, 5, true), ScanMoves(0, ScanRunning), ScanMoves(0, ScanEnded),
            StartScan(1, 5, true), ScanMoves(0, ScanQueued)];
    assert IsActive(w6.scans[0]) && IsActive(w6.scans[1]);
  }
}
