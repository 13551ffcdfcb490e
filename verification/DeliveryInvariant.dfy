/** The inductive invariant of the delivery protocol. */
module DeliveryInvariant {
  import opened Wrappers
  import opened DeliveryTypes
  import opened DeliveryProtocol

  // ---------- One delivery with its attempts and its provider calls ----------

  ghost predicate AllRetryable(rows: seq<Attempt>, n: nat)
    requires n <= |rows|
  {
    forall i :: 0 <= i < n ==> rows[i].status == RetryableFailure
  }

  ghost predicate RecordedRetryable(c: Call) { c.phase.Recorded? && IsRetryable(c.phase.reply) }

  ghost predicate AllFollowable(calls: seq<Call>, n: nat)
    requires n <= |calls|
  {
    forall i :: 0 <= i < n ==> RecordedRetryable(calls[i])
  }

  ghost predicate Numbered(j: Job) {
    && |j.attempts| == j.row.attemptCount <= j.row.maxAttempts
    && j.row.attemptCount - 1 <= |j.calls| <= j.row.attemptCount
    && (forall i :: 0 <= i < |j.attempts| ==> j.attempts[i].number == i + 1)
    && (forall i :: 0 <= i < |j.calls| ==> j.calls[i].attempt == i + 1)
  }

  ghost predicate LeaseFields(d: Delivery) {
    if IsActive(d.status) then
      && d.worker.Some? && d.token.Some? && d.claimedAt.Some? && d.heartbeatAt.Some? && d.leaseExpiresAt.Some?
      && d.nextAttemptAt == None
    else
      && d == WithoutLease(d)
      && (IsClaimable(d.status) ==> d.nextAttemptAt.Some?)
  }

  /** All attempts and all calls ended in a recorded transient failure. */
  ghost predicate Quiet(j: Job) {
    && |j.attempts| == |j.calls| == j.row.attemptCount
    && AllRetryable(j.attempts, |j.attempts|)
    && AllFollowable(j.calls, |j.calls|)
  }

  /** All but the last attempt did, and the last one ended (or is) as `last`. */
  ghost predicate LastIs(j: Job, last: AttemptStatus) {
    && |j.attempts| == j.row.attemptCount >= 1
    && j.row.attemptCount - 1 <= |j.calls|
    && AllRetryable(j.attempts, |j.attempts| - 1)
    && AllFollowable(j.calls, j.row.attemptCount - 1)
    && j.attempts[|j.attempts| - 1].status == last
  }

  ghost predicate LastRecorded(j: Job, last: AttemptStatus) {
    && LastIs(j, last)
    && |j.calls| == j.row.attemptCount
    && j.calls[|j.calls| - 1].phase.Recorded?
    && last == ClosedAttempt(j.attempts[|j.attempts| - 1], j.calls[|j.calls| - 1].phase.reply, 0).status
  }

  /** The stored error tells the four ways to fail apart. */
  ghost predicate FailedInv(j: Job) {
    match j.row.lastError
    case Some(AdapterFailure) => LastRecorded(j, PermanentFailure)
    case Some(ProviderRejectedDelivery) => LastRecorded(j, Rejected)
    case Some(DeliveryAttemptsExhausted) => Quiet(j) && j.row.attemptCount == j.row.maxAttempts
    case _ => Quiet(j) && j.row.attemptCount < j.row.maxAttempts
  }

  /** The attempt ledger and the call history agree with the row's status. */
  ghost predicate JobInv(j: Job) {
    && Numbered(j)
    && LeaseFields(j.row)
    && match j.row.status
       case Pending => j.row.attemptCount == 0 < j.row.maxAttempts
       case Retrying => j.row.attemptCount < j.row.maxAttempts && Quiet(j)
       case Leased => j.row.attemptCount < j.row.maxAttempts && Quiet(j)
       case Delivering => LastIs(j, Running) && j.attempts[|j.attempts| - 1].token == j.row.token.value
       case Delivered => LastRecorded(j, Succeeded)
       case Failed => FailedInv(j)
       case OutcomeUnknown => LastIs(j, AttemptUnknown)
       case Cancelled => Quiet(j) || LastIs(j, Running)
  }

  // ---------- One worker ----------

  /** The lease on the row, and the leases its attempts ran under, were really granted. */
  ghost predicate TokenInv(issued: seq<Lease>, k: DeliveryKey, j: Job) {
    && (j.row.token.Some? ==>
          && j.row.token.value < |issued| && j.row.worker.Some?
          && issued[j.row.token.value] == Lease(k, j.row.worker.value, j.row.token.value))
    && (forall i :: 0 <= i < |j.attempts| ==> j.attempts[i].token < |issued|)
  }

  /** A worker past its first transaction: its attempt is the row's last one. */
  ghost predicate Engaged(j: Job, lease: Lease, n: nat) {
    && n == j.row.attemptCount == |j.attempts| >= 1
    && j.attempts[n - 1].token == lease.token
    && (j.row.status == Delivering || j.row.status == OutcomeUnknown || j.row.status == Cancelled)
    && (j.row.status == Delivering ==> Owns(j.row, lease))
  }

  ghost predicate SlotInv(j: Job, slot: Slot) {
    match slot
    case Holding(lease) =>
      && (j.row.token == Some(lease.token) ==> j.row.status == Leased)
      && (forall i :: 0 <= i < |j.attempts| ==> j.attempts[i].token != lease.token)
    case Ready(lease, n) => Engaged(j, lease, n) && |j.calls| == n - 1
    case Calling(lease, n) => Engaged(j, lease, n) && |j.calls| == n && j.calls[n - 1].phase == InFlight
    case Returned(lease, n, reply) =>
      Engaged(j, lease, n) && |j.calls| == n && j.calls[n - 1].phase == Answered(reply)
  }

  ghost predicate WorkerInv(s: System, w: WorkerId)
    requires Linked(s) && w in s.slots
  {
    var lease := s.slots[w].lease;
    && lease.worker == w && lease.token < |s.issued| && s.issued[lease.token] == lease
    && SlotInv(s.jobs[lease.key], s.slots[w])
  }

  // ---------- One lead ----------

  ghost predicate EventsInv(es: seq<Event>, status: LeadStatus, hasDelivery: bool) {
    && (forall i, j :: 0 <= i < j < |es| ==> es[i].kind != es[j].kind)
    && (status != Deleted ==>
          && (forall i :: 0 <= i < |es| ==> !es[i].anonymised)
          && (HasLiveEvent(es, ProviderDelivery) <==> status == LeadDelivered)
          && (HasLiveEvent(es, DeliveryFailedEvent) <==> status == DeliveryFailed && hasDelivery))
  }

  ghost predicate NoneCancelled(jobs: map<DeliveryKey, Job>, l: LeadId) {
    forall k :: k in jobs && jobs[k].row.lead == l ==> jobs[k].row.status != Cancelled
  }

  ghost predicate LeadInv(jobs: map<DeliveryKey, Job>, l: LeadId, file: LeadFile) {
    && (file.row.status == Deleted <==> file.row.piiDeletedAt.Some?)
    && EventsInv(file.events, file.row.status, HasDelivery(jobs, l))
    && match file.row.status
       case Deleted => !HasOpen(jobs, l)
       case Spam => !HasDelivery(jobs, l)
       case _ => file.row.status == DerivedStatus(jobs, l) && NoneCancelled(jobs, l)
  }

  // ---------- The whole system ----------

  ghost predicate Jobs(s: System) {
    forall k :: k in s.jobs ==> JobInv(s.jobs[k]) && TokenInv(s.issued, k, s.jobs[k])
  }

  ghost predicate Workers(s: System)
    requires Linked(s)
  {
    forall w :: w in s.slots ==> WorkerInv(s, w)
  }

  ghost predicate Leads(s: System) {
    forall l :: l in s.leads ==> LeadInv(s.jobs, l, s.leads[l])
  }

  ghost predicate Alerted(jobs: map<DeliveryKey, Job>, l: LeadId) {
    HasDelivery(jobs, l) && !HasOpen(jobs, l) && !HasDelivered(jobs, l)
  }

  ghost predicate Alerts(s: System) {
    && (forall i, j :: 0 <= i < j < |s.alerts| ==> s.alerts[i] != s.alerts[j])
    && (forall i :: 0 <= i < |s.alerts| ==> s.alerts[i] in s.leads && Alerted(s.jobs, s.alerts[i]))
  }

  ghost predicate Inv(s: System) {
    Linked(s) && Jobs(s) && Workers(s) && Leads(s) && Alerts(s)
  }

  lemma InvLinked(s: System)
    requires Inv(s)
    ensures Linked(s)
  {
  }

  ghost predicate Initial(s: System) {
    s.leads == map[] && s.jobs == map[] && s.slots == map[] && s.issued == [] && s.alerts == []
  }

  // ---------- Jobs: each transaction keeps the ledger of the row it touches ----------

  lemma ClaimJob(j: Job, k: DeliveryKey, w: WorkerId, at: Time, leaseFor: int, issued: seq<Lease>)
    requires JobInv(j) && TokenInv(issued, k, j) && Claimable(j.row, at)
    ensures var j' := j.(row := ClaimedRow(j.row, w, |issued|, at, leaseFor));
            var lease := Lease(k, w, |issued|);
            JobInv(j') && TokenInv(issued + [lease], k, j') && SlotInv(j', Holding(lease))
  {
  }

  lemma StartJob(j: Job, k: DeliveryKey, lease: Lease, issued: seq<Lease>)
    requires JobInv(j) && TokenInv(issued, k, j) && j.row.status == Leased && Owns(j.row, lease)
    ensures var j' := StartedJob(j, lease.token);
            JobInv(j') && TokenInv(issued, k, j') && SlotInv(j', Ready(lease, j.row.attemptCount + 1))
  {
  }

  lemma RejectJob(j: Job, k: DeliveryKey, code: ErrorCode, at: Time, issued: seq<Lease>)
    requires JobInv(j) && TokenInv(issued, k, j) && j.row.status == Leased
    requires code !in {DeliveryAttemptsExhausted, AdapterFailure, ProviderRejectedDelivery}
    ensures var j' := j.(row := FailedRow(j.row, code, at)); JobInv(j') && TokenInv(issued, k, j')
  {
  }

  lemma RecoverJob(j: Job, k: DeliveryKey, at: Time, issued: seq<Lease>)
    requires JobInv(j) && TokenInv(issued, k, j) && IsActive(j.row.status)
    ensures JobInv(RecoveredJob(j, at)) && TokenInv(issued, k, RecoveredJob(j, at))
  {
  }

  lemma CancelJob(j: Job, k: DeliveryKey, at: Time, issued: seq<Lease>)
    requires JobInv(j) && TokenInv(issued, k, j)
    ensures var j' := j.(row := CancelledRow(j.row, at)); JobInv(j') && TokenInv(issued, k, j')
  {
    var j' := j.(row := CancelledRow(j.row, at));
    assert TokenInv(issued, k, j') && Numbered(j') && LeaseFields(j'.row);
    hide TokenInv, Numbered, LeaseFields;
  }

  lemma CallJob(j: Job, k: DeliveryKey, lease: Lease, n: nat, issued: seq<Lease>)
    requires JobInv(j) && TokenInv(issued, k, j) && SlotInv(j, Ready(lease, n))
    ensures var j' := j.(calls := j.calls + [Call(n, InFlight)]);
            JobInv(j') && TokenInv(issued, k, j') && SlotInv(j', Calling(lease, n))
  {
  }

  lemma AnswerJob(j: Job, k: DeliveryKey, lease: Lease, n: nat, reply: Reply, issued: seq<Lease>)
    requires JobInv(j) && TokenInv(issued, k, j) && SlotInv(j, Calling(lease, n))
    ensures var j' := j.(calls := MarkLast(j.calls, Answered(reply)));
            JobInv(j') && TokenInv(issued, k, j') && SlotInv(j', Returned(lease, n, reply))
  {
  }

  /** The attempt row the last transaction looks for is always there: it is the last one. */
  lemma FindLastAttempt(j: Job)
    requires Numbered(j) && j.row.attemptCount >= 1
    ensures FindAttempt(j.attempts, j.row.attemptCount) == Some(|j.attempts| - 1)
  {
  }

  lemma CloseJob(cfg: Config, j: Job, k: DeliveryKey, lease: Lease, n: nat, reply: Reply, at: Time, issued: seq<Lease>)
    requires JobInv(j) && TokenInv(issued, k, j) && SlotInv(j, Returned(lease, n, reply)) && Owns(j.row, lease)
    ensures FindAttempt(j.attempts, n) == Some(n - 1)
    ensures var j' := ClosedJob(cfg, j, n - 1, reply, at); JobInv(j') && TokenInv(issued, k, j')
  {
    hide RetryDelay, FindAttempt;
    FindLastAttempt(j);
    var j' := ClosedJob(cfg, j, n - 1, reply, at);
    assert TokenInv(issued, k, j');
    hide TokenInv;
    ClosedLedger(cfg, j, n, reply, at);
  }

  /** A running attempt and its answered call are closed together, and the row with them. */
  lemma ClosedLedger(cfg: Config, j: Job, n: nat, reply: Reply, at: Time)
    requires JobInv(j) && j.row.status == Delivering && n == |j.attempts| == |j.calls| >= 1
    requires j.calls[n - 1].phase == Answered(reply)
    ensures JobInv(ClosedJob(cfg, j, n - 1, reply, at))
  {
    hide RetryDelay;
    var j' := ClosedJob(cfg, j, n - 1, reply, at);
    assert Numbered(j') && LeaseFields(j'.row);
    hide Numbered, LeaseFields;
  }

  lemma BeatJob(j: Job, k: DeliveryKey, lease: Lease, at: Time, leaseFor: int, issued: seq<Lease>)
    requires JobInv(j) && TokenInv(issued, k, j) && Owns(j.row, lease)
    ensures var j' := j.(row := j.row.(heartbeatAt := Some(at), leaseExpiresAt := Some(at + leaseFor)));
            JobInv(j') && TokenInv(issued, k, j')
  {
  }
}
