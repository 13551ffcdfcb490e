/** When deliveries are taken up again, and how long a heartbeat protects, over whole runs. */
module DeliveryTiming {
  import opened Wrappers
  import opened DeliveryTypes
  import opened DeliveryProtocol
  import opened DeliveryInvariant
  import opened DeliverySafety
  import opened DeliveryRuns
  import opened DeliveryLeads

  // ---------- One row over one step ----------

  /** The row a step leaves under a key. */
  ghost function RowLeft(s: System, a: Action, k: DeliveryKey): Delivery
    requires Linked(s) && Enabled(s, a) && k in s.jobs
  {
    var d := s.jobs[k].row;
    match a
    case Claim(w, key, at) => if key == k && Claimable(d, at) then ClaimedRow(d, w, |s.issued|, at, s.cfg.leaseFor) else d
    case Start(w, at) => if s.slots[w].lease.key == k then StartOutcome(s, s.jobs[k], s.slots[w].lease, at).row else d
    case Finish(w, at) =>
      var Returned(lease, n, reply) := s.slots[w];
      if lease.key == k then FinishOutcome(s.cfg, s.jobs[k], lease, n, reply, at).row else d
    case Heartbeat(w, at) =>
      if s.slots[w].lease.key == k && Owns(d, s.slots[w].lease) then
        d.(heartbeatAt := Some(at), leaseExpiresAt := Some(at + s.cfg.leaseFor))
      else d
    case Recover(keys, at) => if k in keys then RecoveredRow(d, at) else d
    case Delete(l, at) => if d.lead == l then CancelledRow(d, at) else d
    case _ => d
  }

  lemma RowAfter(s: System, a: Action, k: DeliveryKey)
    requires Linked(s) && Enabled(s, a) && k in s.jobs
    ensures k in Step(s, a).jobs && Step(s, a).jobs[k].row == RowLeft(s, a, k)
  {
    hide StartStep, FinishStep, RecoverStep, DeleteStep, ClaimedRow, StartOutcome, FinishOutcome, RecoveredRow, CancelledRow;
    if a.Start? {
      StartLeaves(s, a.worker, a.at);
    } else if a.Finish? {
      FinishLeaves(s, a.worker, a.at);
    } else if a.Recover? || a.Delete? {
      BulkRowAfter(s, a, k);
    }
  }

  lemma BulkRowAfter(s: System, a: Action, k: DeliveryKey)
    requires Linked(s) && Enabled(s, a) && k in s.jobs && (a.Recover? || a.Delete?)
    ensures k in Step(s, a).jobs && Step(s, a).jobs[k].row == RowLeft(s, a, k)
  {
    hide RecoveredRow, CancelledRow, DerivedStatus, Touches, DeletedFile, RecoveredAttempts;
  }

  // ---------- Backoff ----------

  /** A step that may take a requeued row up: a claim once it is due, or the deletion of its lead. */
  ghost predicate EndsWait(s: System, a: Action, k: DeliveryKey, due: Time) {
    match a
    case Claim(_, key, at) => key == k && at >= due
    case Delete(l, _) => k in s.jobs && s.jobs[k].row.lead == l
    case _ => false
  }

  /** No other step touches a row that waits for its time. */
  lemma WaitingStays(s: System, a: Action, k: DeliveryKey, due: Time)
    requires Inv(s) && Enabled(s, a) && k in s.jobs
    requires s.jobs[k].row.status == Retrying && s.jobs[k].row.nextAttemptAt == Some(due)
    requires !EndsWait(s, a, k, due)
    ensures k in Step(s, a).jobs && Step(s, a).jobs[k].row == s.jobs[k].row
  {
    hide Inv, Step;
    InvLinked(s);
    RowAfter(s, a, k);
  }

  lemma {:induction false} WaitingStaysOverRun(ss: seq<System>, steps: seq<Action>, i: nat, j: nat, k: DeliveryKey, due: Time)
    requires IsRun(ss, steps) && i <= j < |ss| && k in ss[i].jobs
    requires ss[i].jobs[k].row.status == Retrying && ss[i].jobs[k].row.nextAttemptAt == Some(due)
    requires forall m :: i <= m < j ==> !EndsWait(ss[m], steps[m], k, due)
    ensures k in ss[j].jobs && ss[j].jobs[k].row == ss[i].jobs[k].row
    decreases j - i
  {
    hide Inv, Initial, Enabled, Step, EndsWait;
    if i < j {
      WaitingStaysOverRun(ss, steps, i, j - 1, k, due);
      RunInv(ss, steps, j - 1);
      assert Next(ss[j - 1], steps[j - 1], ss[j]);
      WaitingStays(ss[j - 1], steps[j - 1], k, due);
    }
  }

  /** The last transaction of a worker after a transient failure with attempts left. */
  ghost predicate Requeues(s: System, a: Action, k: DeliveryKey) {
    && a.Finish? && a.worker in s.slots && s.slots[a.worker].Returned? && s.slots[a.worker].lease.key == k && k in s.jobs
    && (s.slots[a.worker].reply == Raised(true)
        || (s.slots[a.worker].reply.Answer? && !s.slots[a.worker].reply.accepted && s.slots[a.worker].reply.retryable))
    && s.jobs[k].row.token == Some(s.slots[a.worker].lease.token)
    && s.jobs[k].row.attemptCount < s.jobs[k].row.maxAttempts
  }

  lemma HolderIsCurrent(s: System, w: WorkerId)
    requires Inv(s) && w in s.slots && s.jobs[s.slots[w].lease.key].row.token == Some(s.slots[w].lease.token)
    ensures Owns(s.jobs[s.slots[w].lease.key].row, s.slots[w].lease)
  {
    hide SlotInv, Leads, Alerts;
    var k := s.slots[w].lease.key;
    assert WorkerInv(s, w) && TokenInv(s.issued, k, s.jobs[k]) && JobInv(s.jobs[k]);
  }

  /** A requeued delivery is due after the delay that its number of attempts asks for. */
  lemma RequeueSetsTime(s: System, a: Action, k: DeliveryKey)
    requires Inv(s) && Enabled(s, a) && Requeues(s, a, k)
    ensures k in Step(s, a).jobs && Step(s, a).jobs[k].row.status == Retrying
    ensures Step(s, a).jobs[k].row.nextAttemptAt == Some(a.at + RetryDelay(s.cfg, s.jobs[k].row.attemptCount))
  {
    hide Inv, Step, RetryDelay, MarkLast, FindAttempt;
    HolderIsCurrent(s, a.worker);
    InvLinked(s);
    RowAfter(s, a, k);
    HeldAttempt(s, a.worker);
  }

  lemma HeldAttempt(s: System, w: WorkerId)
    requires Inv(s) && w in s.slots && s.slots[w].Returned?
    ensures var Returned(lease, n, _) := s.slots[w];
            lease.key in s.jobs && 1 <= n <= |s.jobs[lease.key].attempts| && FindAttempt(s.jobs[lease.key].attempts, n) == Some(n - 1)
  {
    hide JobInv, SlotInv, TokenInv, Leads, Alerts, FindAttempt;
    assert WorkerInv(s, w);
    FoundAttempt(s.jobs[s.slots[w].lease.key], s.slots[w]);
  }

  lemma FoundAttempt(j: Job, slot: Slot)
    requires JobInv(j) && SlotInv(j, slot) && slot.Returned?
    ensures 1 <= slot.attempt <= |j.attempts| && FindAttempt(j.attempts, slot.attempt) == Some(slot.attempt - 1)
  {
    FindLastAttempt(j);
  }

  /** Once a transient failure is recorded at time t as the n-th attempt, the row stays as it was written until a claim
      at t plus the n-th delay or later, or the deletion of its lead: an earlier claim does nothing to it. */
  lemma NotBeforeDue(ss: seq<System>, steps: seq<Action>, i: nat, j: nat, k: DeliveryKey)
    requires IsRun(ss, steps) && i < j < |ss| && Requeues(ss[i], steps[i], k)
    requires forall m :: i < m < j ==>
               !EndsWait(ss[m], steps[m], k, steps[i].at + RetryDelay(ss[i].cfg, ss[i].jobs[k].row.attemptCount))
    ensures k in ss[i + 1].jobs && k in ss[j].jobs && ss[j].jobs[k].row == ss[i + 1].jobs[k].row
    ensures ss[j].jobs[k].row.status == Retrying
    ensures ss[j].jobs[k].row.nextAttemptAt == Some(steps[i].at + RetryDelay(ss[i].cfg, ss[i].jobs[k].row.attemptCount))
  {
    hide Inv, Initial, Enabled, Step, EndsWait, RetryDelay;
    RunInv(ss, steps, i);
    assert Next(ss[i], steps[i], ss[i + 1]);
    RequeueSetsTime(ss[i], steps[i], k);
    WaitingStaysOverRun(ss, steps, i + 1, j, k, steps[i].at + RetryDelay(ss[i].cfg, ss[i].jobs[k].row.attemptCount));
  }

  /** The provider is not contacted again before then. */
  lemma NoContactBeforeDue(ss: seq<System>, steps: seq<Action>, i: nat, j: nat, k: DeliveryKey, w: WorkerId)
    requires IsRun(ss, steps) && i < j < |steps| && Requeues(ss[i], steps[i], k)
    requires steps[j] == BeginCall(w) && w in ss[j].slots && ss[j].slots[w].lease.key == k
    ensures exists m :: i < m < j
                        && EndsWait(ss[m], steps[m], k, steps[i].at + RetryDelay(ss[i].cfg, ss[i].jobs[k].row.attemptCount))
  {
    hide EndsWait, RetryDelay, Inv, Step;
    if forall m :: i < m < j ==>
         !EndsWait(ss[m], steps[m], k, steps[i].at + RetryDelay(ss[i].cfg, ss[i].jobs[k].row.attemptCount))
    {
      NotBeforeDue(ss, steps, i, j, k);
      RunInv(ss, steps, j);
      assert Next(ss[j], steps[j], ss[j + 1]);
      CallerIsEngaged(ss[j], w);
    }
  }

  lemma CallerIsEngaged(s: System, w: WorkerId)
    requires Inv(s) && Enabled(s, BeginCall(w))
    ensures s.jobs[s.slots[w].lease.key].row.status != Retrying
  {
    hide JobInv, TokenInv, Leads, Alerts;
    assert WorkerInv(s, w);
  }

  /** The first delay is the base, each further one twice the one before, until the maximum. */
  lemma DelaysDouble(cfg: Config, n: nat)
    requires n >= 1 && cfg.retryBase > 0 && cfg.retryMax > 0
    ensures RetryDelay(cfg, 1) == if cfg.retryBase <= cfg.retryMax then cfg.retryBase else cfg.retryMax
    ensures RetryDelay(cfg, n + 1) ==
            if 2 * RetryDelay(cfg, n) <= cfg.retryMax then 2 * RetryDelay(cfg, n) else cfg.retryMax
  {
    assert cfg.retryBase * Pow2(n) == 2 * (cfg.retryBase * Pow2(n - 1));
  }

  // ---------- Heartbeats ----------

  /** The row is held under this lease and its clocks stand no earlier than this heartbeat. */
  ghost predicate BeatSince(s: System, lease: Lease, at: Time) {
    && lease.key in s.jobs
    && s.jobs[lease.key].row.heartbeatAt.Some? && s.jobs[lease.key].row.heartbeatAt.value >= at
    && s.jobs[lease.key].row.leaseExpiresAt.Some? && s.jobs[lease.key].row.leaseExpiresAt.value >= at + s.cfg.leaseFor
  }

  lemma BeatStays(s: System, a: Action, lease: Lease, at: Time)
    requires Inv(s) && Enabled(s, a) && BeatSince(s, lease, at) && Owns(s.jobs[lease.key].row, lease)
    requires forall at' :: a == Heartbeat(lease.worker, at') ==> at <= at'
    ensures lease.key in Step(s, a).jobs
    ensures Owns(Step(s, a).jobs[lease.key].row, lease) ==> BeatSince(Step(s, a), lease, at)
  {
    hide Inv, Step;
    InvLinked(s);
    RowAfter(s, a, lease.key);
    ConfigStays(s, a);
    if a.Heartbeat? && s.slots[a.worker].lease.key == lease.key && Owns(s.jobs[lease.key].row, s.slots[a.worker].lease) {
      SlotIsOwn(s, a.worker);
    }
  }

  lemma SlotIsOwn(s: System, w: WorkerId)
    requires Inv(s) && w in s.slots
    ensures s.slots[w].lease.worker == w
  {
    hide SlotInv, Jobs, Leads, Alerts;
    assert WorkerInv(s, w);
  }

  lemma ConfigStays(s: System, a: Action)
    requires Linked(s) && Enabled(s, a)
    ensures Step(s, a).cfg == s.cfg
  {
    hide StartError, DerivedStatus, EventsAfter, Touches, RecoveredJob, CancelledRow, Anonymised;
  }

  lemma {:induction false} BeatStaysOverRun(ss: seq<System>, steps: seq<Action>, i: nat, j: nat, lease: Lease, at: Time)
    requires IsRun(ss, steps) && i <= j < |ss| && BeatSince(ss[i], lease, at)
    requires forall m :: i <= m <= j ==> lease.key in ss[m].jobs && Owns(ss[m].jobs[lease.key].row, lease)
    requires forall m, at' :: i <= m < j && steps[m] == Heartbeat(lease.worker, at') ==> at <= at'
    ensures BeatSince(ss[j], lease, at)
    decreases j - i
  {
    hide Inv, Initial, Enabled, Step, BeatSince, Owns;
    if i < j {
      BeatStaysOverRun(ss, steps, i, j - 1, lease, at);
      RunInv(ss, steps, j - 1);
      assert Next(ss[j - 1], steps[j - 1], ss[j]);
      BeatStays(ss[j - 1], steps[j - 1], lease, at);
    }
  }

  lemma BeatSets(s: System, w: WorkerId, at: Time)
    requires Inv(s) && Enabled(s, Heartbeat(w, at)) && Owns(s.jobs[s.slots[w].lease.key].row, s.slots[w].lease)
    ensures BeatSince(HeartbeatStep(s, w, at), s.slots[w].lease, at)
    ensures Owns(HeartbeatStep(s, w, at).jobs[s.slots[w].lease.key].row, s.slots[w].lease)
    ensures s.slots[w].lease.token < |s.issued| && s.slots[w].lease.worker == w
  {
    hide JobInv, SlotInv, TokenInv, Leads, Alerts;
    assert WorkerInv(s, w);
  }

  /** A heartbeat that finds the lease in place protects it: while the lease still holds and the worker's clock does not
      go back, no recovery within both allowances of the heartbeat takes the row. */
  lemma HeartbeatProtects(ss: seq<System>, steps: seq<Action>, i: nat, j: nat, w: WorkerId, at: Time,
                          keys: set<DeliveryKey>, at': Time)
    requires IsRun(ss, steps) && i < j < |steps| && steps[i] == Heartbeat(w, at) && steps[j] == Recover(keys, at')
    requires w in ss[i].slots && ss[i].slots[w].lease.key in ss[i].jobs && ss[i].slots[w].lease.key in ss[j].jobs
    requires Owns(ss[i].jobs[ss[i].slots[w].lease.key].row, ss[i].slots[w].lease)
    requires Owns(ss[j].jobs[ss[i].slots[w].lease.key].row, ss[i].slots[w].lease)
    requires forall m, beat :: i < m < j && steps[m] == Heartbeat(w, beat) ==> at <= beat
    requires at' - at <= ss[j].cfg.staleAfter && at' - at <= ss[j].cfg.leaseFor
    ensures ss[i].slots[w].lease.key !in keys
  {
    hide Inv, Initial, Step, Owns, BeatSince;
    var lease := ss[i].slots[w].lease;
    RunInv(ss, steps, i);
    assert Next(ss[i], steps[i], ss[i + 1]) && Next(ss[j], steps[j], ss[j + 1]);
    BeatIsStep(ss[i], w, at);
    BeatSets(ss[i], w, at);
    forall m: nat | i + 1 <= m <= j
      ensures lease.key in ss[m].jobs && Owns(ss[m].jobs[lease.key].row, lease)
    {
      HeldBetween(ss, steps, i, m, j, lease);
    }
    BeatStaysOverRun(ss, steps, i + 1, j, lease, at);
    BeatIsFresh(ss[j], lease, at, at');
  }

  lemma BeatIsStep(s: System, w: WorkerId, at: Time)
    requires Inv(s) && Enabled(s, Heartbeat(w, at))
    ensures Linked(s) && Step(s, Heartbeat(w, at)) == HeartbeatStep(s, w, at)
  {
  }

  lemma BeatIsFresh(s: System, lease: Lease, at: Time, at': Time)
    requires BeatSince(s, lease, at) && at' - at <= s.cfg.staleAfter && at' - at <= s.cfg.leaseFor
    ensures !Stale(s.jobs[lease.key].row, at', s.cfg.staleAfter)
  {
  }

  /** A lease that holds at the end has held all along. */
  lemma HeldBetween(ss: seq<System>, steps: seq<Action>, i: nat, m: nat, j: nat, lease: Lease)
    requires IsRun(ss, steps) && i <= m <= j < |ss| && lease.key in ss[i].jobs && lease.token < |ss[i].issued|
    requires lease.key in ss[j].jobs && Owns(ss[j].jobs[lease.key].row, lease)
    ensures lease.key in ss[m].jobs && Owns(ss[m].jobs[lease.key].row, lease)
  {
    hide Inv, Initial, Enabled, Step, Owns;
    RunExtends(ss, steps, i, m, lease.key);
    IssuedStays(ss, steps, i, m);
    if !Owns(ss[m].jobs[lease.key].row, lease) {
      LostLeaseStaysLost(ss, steps, m, j, lease);
    }
  }

  lemma {:induction false} IssuedStays(ss: seq<System>, steps: seq<Action>, i: nat, j: nat)
    requires IsRun(ss, steps) && i <= j < |ss|
    ensures |ss[i].issued| <= |ss[j].issued|
    decreases j - i
  {
    hide Inv, Initial, Enabled, Step;
    if i < j {
      IssuedStays(ss, steps, i, j - 1);
      RunInv(ss, steps, j - 1);
      assert Next(ss[j - 1], steps[j - 1], ss[j]);
      InvLinked(ss[j - 1]);
      IssuedGrows(ss[j - 1], steps[j - 1]);
    }
  }

  // ---------- Ownership in one column ----------

  /** Whether a worker's lease still holds can be read off the token alone. */
  lemma TokenDecides(ss: seq<System>, steps: seq<Action>, i: nat, w: WorkerId)
    requires IsRun(ss, steps) && i < |ss| && w in ss[i].slots
    ensures ss[i].slots[w].lease.key in ss[i].jobs
    ensures Owns(ss[i].jobs[ss[i].slots[w].lease.key].row, ss[i].slots[w].lease) <==>
            ss[i].jobs[ss[i].slots[w].lease.key].row.token == Some(ss[i].slots[w].lease.token)
  {
    hide Inv, Initial;
    RunInv(ss, steps, i);
    LeaseKeyStored(ss[i], w);
    if ss[i].jobs[ss[i].slots[w].lease.key].row.token == Some(ss[i].slots[w].lease.token) {
      HolderIsCurrent(ss[i], w);
    }
  }

  lemma LeaseKeyStored(s: System, w: WorkerId)
    requires Inv(s) && w in s.slots
    ensures s.slots[w].lease.key in s.jobs
  {
  }
}
