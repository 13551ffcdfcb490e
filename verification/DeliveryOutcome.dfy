/** The worker loop together with an adapter that fails its first attempts, undisturbed to the end. */
module DeliveryOutcome {
  import opened Wrappers
  import opened DeliveryTypes
  import opened DeliveryProtocol
  import opened DeliveryInvariant
  import opened DeliverySafety
  import opened DeliveryWorker

  /** In-memory adapter: raises a transient error on the first `failFirst` attempts for a key, then accepts,
      and answers a repeated key with the stored result. */
  class FixtureDeliveryAdapter {
    const failFirst: nat
    var attempts: map<DeliveryKey, nat>
    var deliveries: map<DeliveryKey, Reply>

    constructor (failFirst: nat)
      ensures this.failFirst == failFirst && attempts == map[] && deliveries == map[]
    {
      this.failFirst := failFirst;
      attempts, deliveries := map[], map[];
    }

    function Tried(k: DeliveryKey): nat
      reads this
    {
      if k in attempts then attempts[k] else 0
    }

    method Deliver(k: DeliveryKey, message: string) returns (reply: Reply)
      modifies this
      ensures k in old(deliveries) ==>
                reply == old(deliveries)[k] && attempts == old(attempts) && deliveries == old(deliveries)
      ensures k !in old(deliveries) ==>
                && attempts == old(attempts)[k := old(Tried(k)) + 1]
                && reply == (if old(Tried(k)) < failFirst then Raised(true) else Answer(true, false, message))
                && deliveries == (if old(Tried(k)) < failFirst then old(deliveries) else old(deliveries)[k := reply])
    {
      if k in deliveries {
        return deliveries[k];
      }
      attempts := attempts[k := Tried(k) + 1];
      if attempts[k] <= failFirst {
        return Raised(true);
      }
      reply := Answer(true, false, message);
      deliveries := deliveries[k := reply];
    }
  }

  /** Everything the checks before provider contact look at. */
  datatype Route = Route(
    cfg: Config, assignments: map<AssignmentId, Assignment>, leadAssignment: Option<AssignmentId>, lead: LeadId,
    assignment: AssignmentId, channel: Channel, destination: string, adapter: string, maxAttempts: nat)

  ghost predicate Stored(s: System, k: DeliveryKey) { k in s.jobs && s.jobs[k].row.lead in s.leads }

  ghost function RouteOf(s: System, k: DeliveryKey): Route
    requires Stored(s, k)
  {
    var d := s.jobs[k].row;
    Route(s.cfg, s.assignments, s.leads[d.lead].row.assignment, d.lead, d.assignment, d.channel,
          d.destinationReference, d.adapterName, d.maxAttempts)
  }

  lemma SameRouteSameError(s: System, t: System, k: DeliveryKey)
    requires Stored(s, k) && Stored(t, k) && RouteOf(t, k) == RouteOf(s, k)
    ensures StartError(t, t.jobs[k].row) == StartError(s, s.jobs[k].row)
  {
  }

  /** `t` comes after `s` in one worker's round on `k`: only that worker and that delivery have moved on. */
  ghost predicate Follows(s: System, t: System, w: WorkerId, k: DeliveryKey) {
    && Stored(s, k) && Stored(t, k) && RouteOf(t, k) == RouteOf(s, k)
    && t.now == s.now && t.slots - {w} == s.slots - {w} && t.jobs.Keys == s.jobs.Keys
  }

  /** Delivery `k` is waiting and would pass every check, and worker `w` is free to take it. */
  ghost predicate Waiting(s: System, w: WorkerId, k: DeliveryKey) {
    w !in s.slots && Stored(s, k) && Claimable(s.jobs[k].row, s.now) && StartError(s, s.jobs[k].row) == None
  }

  ghost predicate Held(s: System, w: WorkerId, k: DeliveryKey, attempts: nat) {
    && w in s.slots && s.slots[w].lease.key == k && Stored(s, k) && Owns(s.jobs[k].row, s.slots[w].lease)
    && s.jobs[k].row.attemptCount == attempts
  }

  lemma ClaimHolds(s: System, w: WorkerId, k: DeliveryKey)
    requires Waiting(s, w, k)
    ensures var t := ClaimStep(s, w, k, s.now);
            && Follows(s, t, w, k) && Held(t, w, k, s.jobs[k].row.attemptCount) && t.slots[w].Holding?
            && StartError(t, t.jobs[k].row) == None
  {
    hide StartError;
    SameRouteSameError(s, ClaimStep(s, w, k, s.now), k);
  }

  lemma StartHolds(s: System, w: WorkerId, k: DeliveryKey, n: nat)
    requires Linked(s) && Held(s, w, k, n) && s.slots[w].Holding? && StartError(s, s.jobs[k].row) == None
    ensures var t := StartStep(s, w, s.now); Follows(s, t, w, k) && Held(t, w, k, n + 1) && t.slots[w].Ready?
  {
    hide StartError, SettledFailure;
  }

  lemma CallHolds(s: System, w: WorkerId, k: DeliveryKey, n: nat)
    requires Linked(s) && Held(s, w, k, n) && s.slots[w].Ready?
    ensures var t := BeginCallStep(s, w); Follows(s, t, w, k) && Held(t, w, k, n) && t.slots[w].Calling?
  {
  }

  lemma ReturnHolds(s: System, w: WorkerId, k: DeliveryKey, n: nat, reply: Reply)
    requires Linked(s) && Held(s, w, k, n) && s.slots[w].Calling?
    ensures var t := ReturnStep(s, w, reply);
            && Follows(s, t, w, k) && Held(t, w, k, n) && t.slots[w].Returned? && t.slots[w].reply == reply
  {
  }

  lemma FinishCloses(s: System, w: WorkerId, k: DeliveryKey, n: nat)
    requires Linked(s) && Held(s, w, k, n) && s.slots[w].Returned?
    requires JobInv(s.jobs[k]) && SlotInv(s.jobs[k], s.slots[w])
    ensures var t := FinishStep(s, w, s.now);
            && Follows(s, t, w, k) && w !in t.slots
            && t.jobs[k].row == ClosedRow(s.cfg, s.jobs[k].row, s.slots[w].reply, s.now)
  {
    hide DerivedStatus, EventsAfter, RetryDelay, MarkLast, JobInv, SlotInv, ClosedRow, FindAttempt;
    AttemptThere(s.jobs[k], s.slots[w]);
    ClosedRoute(s.cfg, s.jobs[k].row, s.slots[w].reply, s.now);
  }

  lemma ClosedRoute(cfg: Config, d: Delivery, reply: Reply, at: Time)
    ensures var r := ClosedRow(cfg, d, reply, at);
            && r.lead == d.lead && r.assignment == d.assignment && r.channel == d.channel && r.adapterName == d.adapterName
            && r.destinationReference == d.destinationReference && r.maxAttempts == d.maxAttempts
  {
  }

  lemma AttemptThere(j: Job, slot: Slot)
    requires JobInv(j) && SlotInv(j, slot) && slot.Returned?
    ensures FindAttempt(j.attempts, slot.attempt).Some?
  {
    FindLastAttempt(j);
  }

  lemma InvOf(s: System, w: WorkerId, k: DeliveryKey)
    requires Inv(s) && w in s.slots && s.slots[w].lease.key == k
    ensures k in s.jobs && JobInv(s.jobs[k]) && SlotInv(s.jobs[k], s.slots[w])
  {
    hide JobInv, SlotInv, TokenInv, Leads, Alerts;
    assert WorkerInv(s, w);
  }

  lemma FollowsOn(s: System, t: System, u: System, w: WorkerId, k: DeliveryKey)
    requires Follows(s, t, w, k) && Follows(t, u, w, k)
    ensures Follows(s, u, w, k)
  {
  }

  /** The state of delivery `k` after a round that was its attempt number `n`. */
  ghost predicate RoundEnds(s: System, k: DeliveryKey, n: nat, accepted: bool)
    requires k in s.jobs
  {
    var d := s.jobs[k].row;
    && d.attemptCount == n
    && (if accepted then d.status == Delivered
        else if n >= d.maxAttempts then d.status == Failed && d.lastError == Some(DeliveryAttemptsExhausted)
        else d.status == Retrying && d.nextAttemptAt == Some(s.now + RetryDelay(s.cfg, n)))
  }

  method ClaimAndStart(store: DeliveryStore, w: WorkerId, k: DeliveryKey)
    requires Inv(store.View()) && Waiting(store.View(), w, k)
    modifies store
    ensures Inv(store.View()) && Follows(old(store.View()), store.View(), w, k)
    ensures Held(store.View(), w, k, old(store.jobs)[k].row.attemptCount + 1) && store.slots[w].Ready?
  {
    hide Inv, StartError, StartStep, ClaimStep, RouteOf, IsSelection, ClaimedRow;
    ghost var s := store.View();
    var ids := [k];
    ClaimHolds(s, w, k);
    assert k in ids;
    var lease := store.ClaimNextDelivery(w, ids, store.now);
    ghost var t := store.View();
    InvLinked(t);
    StartHolds(t, w, k, s.jobs[k].row.attemptCount);
    var _ := store.StartDelivery(w, store.now);
    FollowsOn(s, t, store.View(), w, k);
  }

  method CallProvider(store: DeliveryStore, adapter: FixtureDeliveryAdapter, w: WorkerId, k: DeliveryKey)
    returns (reply: Reply)
    requires Inv(store.View()) && w in store.slots && store.slots[w].Ready? && k in store.jobs
    requires k !in adapter.deliveries
    requires Held(store.View(), w, k, store.jobs[k].row.attemptCount)
    modifies store, adapter
    ensures Inv(store.View()) && Follows(old(store.View()), store.View(), w, k)
    ensures Held(store.View(), w, k, old(store.jobs)[k].row.attemptCount)
    ensures store.slots[w].Returned? && store.slots[w].reply == reply
    ensures adapter.Tried(k) == old(adapter.Tried(k)) + 1
    ensures if old(adapter.Tried(k)) < adapter.failFirst then reply == Raised(true) else IsAccepted(reply)
    ensures k in adapter.deliveries <==> IsAccepted(reply)
  {
    hide Jobs, Workers, Leads, Alerts, RouteOf;
    ghost var s := store.View();
    var n := store.jobs[k].row.attemptCount;
    CallHolds(s, w, k, n);
    store.BeginProviderCall(w);
    ghost var t := store.View();
    reply := adapter.Deliver(k, "");
    ReturnHolds(t, w, k, n, reply);
    store.ProviderReturns(w, reply);
    FollowsOn(s, t, store.View(), w, k);
  }

  method Conclude(store: DeliveryStore, w: WorkerId, k: DeliveryKey)
    requires Inv(store.View()) && w in store.slots && store.slots[w].Returned? && k in store.jobs
    requires Held(store.View(), w, k, store.jobs[k].row.attemptCount)
    requires IsAccepted(store.slots[w].reply) || store.slots[w].reply == Raised(true)
    modifies store
    ensures Inv(store.View()) && Follows(old(store.View()), store.View(), w, k) && w !in store.slots
    ensures RoundEnds(store.View(), k, old(store.jobs)[k].row.attemptCount, IsAccepted(old(store.slots)[w].reply))
  {
    hide Jobs, Workers, Leads, Alerts, FinishStep, RouteOf, ClosedRow, Owns, RoundEnds, JobInv, SlotInv;
    ghost var s := store.View();
    InvOf(s, w, k);
    FinishCloses(s, w, k, s.jobs[k].row.attemptCount);
    var _ := store.FinishDelivery(w, store.now);
    ClosedEnds(s, store.View(), k, s.slots[w].reply);
  }

  /** One undisturbed round of the worker loop: claim, start, call, finish. */
  method RunRound(store: DeliveryStore, adapter: FixtureDeliveryAdapter, w: WorkerId, k: DeliveryKey)
    requires Inv(store.View()) && Waiting(store.View(), w, k) && k !in adapter.deliveries
    modifies store, adapter
    ensures Inv(store.View()) && Follows(old(store.View()), store.View(), w, k) && w !in store.slots
    ensures adapter.Tried(k) == old(adapter.Tried(k)) + 1
    ensures k in adapter.deliveries <==> old(adapter.Tried(k)) >= adapter.failFirst
    ensures RoundEnds(store.View(), k, old(store.jobs)[k].row.attemptCount + 1, k in adapter.deliveries)
  {
    hide Jobs, Workers, Leads, Alerts, StartError, RouteOf, Owns, Claimable, RoundEnds;
    ghost var s := store.View();
    ClaimAndStart(store, w, k);
    ghost var t := store.View();
    var reply := CallProvider(store, adapter, w, k);
    ghost var u := store.View();
    FollowsOn(s, t, u, w, k);
    Conclude(store, w, k);
    FollowsOn(s, u, store.View(), w, k);
  }

  lemma ClosedEnds(s: System, t: System, k: DeliveryKey, reply: Reply)
    requires k in s.jobs && k in t.jobs && t.now == s.now && t.cfg == s.cfg
    requires t.jobs[k].row == ClosedRow(s.cfg, s.jobs[k].row, reply, s.now)
    requires IsAccepted(reply) || reply == Raised(true)
    ensures RoundEnds(t, k, s.jobs[k].row.attemptCount, IsAccepted(reply))
  {
  }

  /** The worker loop on one delivery nobody else disturbs: wait until it is due, run a round, repeat.
      It ends delivered after one attempt more than the adapter fails, or failed once its attempts run out. */
  method RunToCompletion(store: DeliveryStore, adapter: FixtureDeliveryAdapter, w: WorkerId, k: DeliveryKey)
    requires Inv(store.View()) && w !in store.slots && Stored(store.View(), k)
    requires store.jobs[k].row.status == Pending && StartError(store.View(), store.jobs[k].row) == None
    requires k !in adapter.deliveries && adapter.Tried(k) == 0
    modifies store, adapter
    ensures Inv(store.View()) && k in store.jobs
    ensures var m := old(store.jobs)[k].row.maxAttempts;
            var d := store.jobs[k].row;
            if adapter.failFirst < m then d.status == Delivered && d.attemptCount == adapter.failFirst + 1
            else d.status == Failed && d.attemptCount == m && d.lastError == Some(DeliveryAttemptsExhausted)
    ensures adapter.Tried(k) == store.jobs[k].row.attemptCount
  {
    hide Jobs, Workers, Leads, Alerts, StartError, RetryDelay, JobInv;
    var m := store.jobs[k].row.maxAttempts;
    JobOf(store.View(), k);
    PendingIsFresh(store.jobs[k]);
    while IsClaimable(store.jobs[k].row.status)
      invariant Inv(store.View()) && w !in store.slots && Stored(store.View(), k)
      invariant RouteOf(store.View(), k) == RouteOf(old(store.View()), k)
      invariant JobInv(store.jobs[k]) && adapter.Tried(k) == store.jobs[k].row.attemptCount
      invariant k !in adapter.deliveries ==> store.jobs[k].row.attemptCount <= adapter.failFirst
      invariant IsClaimable(store.jobs[k].row.status) ==> k !in adapter.deliveries
      invariant !IsClaimable(store.jobs[k].row.status) ==>
        (if adapter.failFirst < m then
           store.jobs[k].row.status == Delivered && store.jobs[k].row.attemptCount == adapter.failFirst + 1
         else
           store.jobs[k].row.status == Failed && store.jobs[k].row.attemptCount == m
           && store.jobs[k].row.lastError == Some(DeliveryAttemptsExhausted))
      decreases m - store.jobs[k].row.attemptCount
    {
      DueSometime(store.jobs[k]);
      var due := store.jobs[k].row.nextAttemptAt.value;
      ghost var before := store.View();
      store.AdvanceClock(if due <= store.now then store.now else due);
      SameRouteSameError(old(store.View()), store.View(), k);
      RunRound(store, adapter, w, k);
      JobOf(store.View(), k);
    }
  }

  /** From an empty database: one lead, one delivery to an active assignment, one worker. */
  method DeliverOne(cfg: Config, destination: string, maxAttempts: nat, failFirst: nat, at: Time)
    returns (status: DeliveryStatus, attempts: nat)
    requires maxAttempts >= 1 && Email in cfg.adapters
    ensures if failFirst < maxAttempts then status == Delivered && attempts == failFirst + 1
            else status == Failed && attempts == maxAttempts
  {
    hide Inv;
    var store := new DeliveryStore(cfg, at);
    InitialInv(store.View());
    store.StoreAssignments(map[1 := Assignment(Active, Some(destination), None)]);
    var row := Delivery(1, 1, Email, MaskedDestination(destination), cfg.adapters[Email], None, Pending, 0, maxAttempts, Some(at),
                        None, None, None, None, None, None, None, None);
    store.StoreSubmission(1, Lead(Routing, Some(1), None, at), map[1 := row]);
    var adapter := new FixtureDeliveryAdapter(failFirst);
    RunToCompletion(store, adapter, 1, 1);
    return store.jobs[1].row.status, store.jobs[1].row.attemptCount;
  }

  lemma PendingIsFresh(j: Job)
    requires JobInv(j) && j.row.status == Pending
    ensures j.row.attemptCount == 0
  {
  }

  lemma DueSometime(j: Job)
    requires JobInv(j) && IsClaimable(j.row.status)
    ensures j.row.nextAttemptAt.Some? && j.row.attemptCount < j.row.maxAttempts
  {
  }

  lemma JobOf(s: System, k: DeliveryKey)
    requires Inv(s) && k in s.jobs
    ensures JobInv(s.jobs[k])
  {
    hide JobInv, TokenInv, Workers, Leads, Alerts;
  }
}
