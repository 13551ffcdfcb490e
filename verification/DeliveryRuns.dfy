/** What the delivery protocol guarantees over whole runs, whatever the interleaving. */
module DeliveryRuns {
  import opened Wrappers
  import opened DeliveryTypes
  import opened DeliveryProtocol
  import opened DeliveryInvariant
  import opened DeliverySafety

  ghost predicate Next(s: System, a: Action, t: System) {
    Linked(s) && Enabled(s, a) && t == Step(s, a)
  }

  ghost predicate IsRun(ss: seq<System>, steps: seq<Action>) {
    && |ss| == |steps| + 1
    && Initial(ss[0])
    && forall i :: 0 <= i < |steps| ==> Next(ss[i], steps[i], ss[i + 1])
  }

  lemma {:induction false} RunInv(ss: seq<System>, steps: seq<Action>, i: nat)
    requires IsRun(ss, steps) && i < |ss|
    ensures Inv(ss[i])
  {
    hide Inv, Initial, Enabled, Step;
    if i == 0 {
      InitialInv(ss[0]);
    } else {
      RunInv(ss, steps, i - 1);
      assert Next(ss[i - 1], steps[i - 1], ss[i]);
      StepKeeps(ss[i - 1], steps[i - 1]);
    }
  }

  // ---------- How one delivery moves ----------

  /** Steps left to a delivery that never loses a lease: claim, start and finish for every attempt. */
  function Rank(d: Delivery): int {
    var left := 3 * (d.maxAttempts - d.attemptCount);
    match d.status
    case Pending => left
    case Retrying => left
    case Leased => left - 1
    case Delivering => left + 1
    case _ => 0
  }

  /** A lease taken back before the provider was contacted. */
  predicate LosesLease(d: Delivery, d': Delivery) { d.status == Leased && d'.status == Retrying }

  ghost predicate CallsExtend(cs: seq<Call>, cs': seq<Call>) {
    && |cs| <= |cs'|
    && forall i :: 0 <= i < |cs| ==>
         cs'[i].attempt == cs[i].attempt && (cs[i].phase.Recorded? ==> cs'[i] == cs[i])
  }

  ghost predicate RankMoves(d: Delivery, d': Delivery) {
    if d'.status == d.status then Rank(d') == Rank(d)
    else if LosesLease(d, d') then Rank(d') == Rank(d) + 1
    else Rank(d') < Rank(d)
  }

  /** A row's lease is dropped, kept, or replaced by one issued just now. */
  ghost predicate LeaseMoves(d: Delivery, d': Delivery, next: Token) {
    d'.token == None || (d'.token == d.token && d'.worker == d.worker) || d'.token == Some(next)
  }

  /** A lease runs out a fixed time after its last heartbeat. */
  ghost predicate ClockedRow(cfg: Config, d: Delivery) {
    d.heartbeatAt.Some? && d.leaseExpiresAt == Some(d.heartbeatAt.value + cfg.leaseFor)
  }

  ghost predicate ClockMoves(cfg: Config, d: Delivery, d': Delivery) {
    IsActive(d'.status) && (IsActive(d.status) ==> ClockedRow(cfg, d)) ==> ClockedRow(cfg, d')
  }

  ghost predicate JobMoves(cfg: Config, next: Token, j: Job, j': Job) {
    && LeaseMoves(j.row, j'.row, next)
    && ClockMoves(cfg, j.row, j'.row)
    && j'.row.lead == j.row.lead && j'.row.maxAttempts == j.row.maxAttempts
    && CallsExtend(j.calls, j'.calls)
    && RankMoves(j.row, j'.row)
    && (!IsOpen(j.row.status) ==>
          j'.row.status == j.row.status && j'.row.attemptCount == j.row.attemptCount && j'.attempts == j.attempts)
  }

  lemma StillMoves(cfg: Config, next: Token, j: Job)
    ensures JobMoves(cfg, next, j, j)
  {
  }

  lemma ClaimMoves(cfg: Config, next: Token, j: Job, w: WorkerId, at: Time)
    requires JobInv(j) && Claimable(j.row, at)
    ensures JobMoves(cfg, next, j, j.(row := ClaimedRow(j.row, w, next, at, cfg.leaseFor)))
  {
  }

  lemma StartMoves(cfg: Config, next: Token, j: Job, t: Token)
    requires JobInv(j) && j.row.status == Leased
    ensures JobMoves(cfg, next, j, StartedJob(j, t))
  {
  }

  lemma FailMoves(cfg: Config, next: Token, j: Job, code: ErrorCode, at: Time)
    requires JobInv(j) && IsActive(j.row.status)
    ensures JobMoves(cfg, next, j, j.(row := FailedRow(j.row, code, at)))
  {
  }

  lemma CallMoves(cfg: Config, next: Token, j: Job, lease: Lease, n: nat)
    requires JobInv(j) && SlotInv(j, Ready(lease, n))
    ensures JobMoves(cfg, next, j, j.(calls := j.calls + [Call(n, InFlight)]))
  {
  }

  lemma AnswerMoves(cfg: Config, next: Token, j: Job, lease: Lease, n: nat, reply: Reply)
    requires JobInv(j) && SlotInv(j, Calling(lease, n))
    ensures JobMoves(cfg, next, j, j.(calls := MarkLast(j.calls, Answered(reply))))
  {
  }

  lemma CloseMoves(cfg: Config, next: Token, j: Job, lease: Lease, n: nat, reply: Reply, at: Time)
    requires JobInv(j) && SlotInv(j, Returned(lease, n, reply)) && Owns(j.row, lease)
    ensures JobMoves(cfg, next, j, ClosedJob(cfg, j, n - 1, reply, at))
  {
  }

  lemma RecoverMoves(cfg: Config, next: Token, j: Job, at: Time)
    requires JobInv(j) && IsActive(j.row.status)
    ensures JobMoves(cfg, next, j, RecoveredJob(j, at))
  {
  }

  lemma CancelMoves(cfg: Config, next: Token, j: Job, at: Time)
    requires JobInv(j)
    ensures JobMoves(cfg, next, j, j.(row := CancelledRow(j.row, at)))
  {
  }

  lemma StartStepMoves(s: System, w: WorkerId, at: Time, k: DeliveryKey)
    requires Inv(s) && Enabled(s, Start(w, at)) && k in s.jobs
    ensures k in StartStep(s, w, at).jobs && JobMoves(s.cfg, |s.issued|, s.jobs[k], StartStep(s, w, at).jobs[k])
  {
    hide JobInv, SlotInv, Leads, Alerts, JobMoves, StartError, TokenInv, StartStep;
    var j := s.jobs[k];
    var lease := s.slots[w].lease;
    assert WorkerInv(s, w);
    StartLeaves(s, w, at);
    StillMoves(s.cfg, |s.issued|, j);
    HeldIsLeased(j, s.slots[w]);
    if lease.key == k && Owns(j.row, lease) {
      StartMoves(s.cfg, |s.issued|, j, lease.token);
      if StartError(s, j.row).Some? {
        FailMoves(s.cfg, |s.issued|, j, StartError(s, j.row).value, at);
      }
    }
  }

  lemma FinishStepMoves(s: System, w: WorkerId, at: Time, k: DeliveryKey)
    requires Inv(s) && Enabled(s, Finish(w, at)) && k in s.jobs
    ensures k in FinishStep(s, w, at).jobs && JobMoves(s.cfg, |s.issued|, s.jobs[k], FinishStep(s, w, at).jobs[k])
  {
    hide JobInv, SlotInv, Leads, Alerts, JobMoves, TokenInv, FinishStep;
    var j := s.jobs[k];
    var Returned(lease, n, reply) := s.slots[w];
    assert WorkerInv(s, w);
    FinishLeaves(s, w, at);
    StillMoves(s.cfg, |s.issued|, j);
    if lease.key == k && Owns(j.row, lease) {
      CloseMoves(s.cfg, |s.issued|, j, lease, n, reply, at);
      CloseJob(s.cfg, j, k, lease, n, reply, at, s.issued);
    }
  }

  lemma ContactStepMoves(s: System, a: Action, k: DeliveryKey)
    requires Inv(s) && Enabled(s, a) && (a.BeginCall? || a.Return?) && k in s.jobs
    ensures k in Step(s, a).jobs && JobMoves(s.cfg, |s.issued|, s.jobs[k], Step(s, a).jobs[k])
  {
    hide JobInv, SlotInv, Leads, Alerts, JobMoves, TokenInv;
    var j := s.jobs[k];
    var slot := s.slots[a.worker];
    assert WorkerInv(s, a.worker);
    StillMoves(s.cfg, |s.issued|, j);
    if slot.lease.key == k {
      if a.BeginCall? {
        CallMoves(s.cfg, |s.issued|, j, slot.lease, slot.attempt);
      } else {
        AnswerMoves(s.cfg, |s.issued|, j, slot.lease, slot.attempt, a.reply);
      }
    }
  }

  lemma LeaseStepMoves(s: System, a: Action, k: DeliveryKey)
    requires Inv(s) && Enabled(s, a) && (a.Claim? || a.Heartbeat?) && k in s.jobs
    ensures k in Step(s, a).jobs && JobMoves(s.cfg, |s.issued|, s.jobs[k], Step(s, a).jobs[k])
  {
    hide JobInv, Workers, Leads, Alerts, JobMoves, TokenInv;
    var j := s.jobs[k];
    StillMoves(s.cfg, |s.issued|, j);
    if a.Heartbeat? {
      BeatMoves(s.cfg, |s.issued|, j, a.at);
    } else if a.key == k && Claimable(j.row, a.at) {
      ClaimMoves(s.cfg, |s.issued|, j, a.worker, a.at);
    }
  }

  lemma BulkStepMoves(s: System, a: Action, k: DeliveryKey)
    requires Inv(s) && Enabled(s, a) && (a.Recover? || a.Delete?) && k in s.jobs
    ensures k in Step(s, a).jobs && JobMoves(s.cfg, |s.issued|, s.jobs[k], Step(s, a).jobs[k])
  {
    hide JobInv, Workers, Leads, Alerts, JobMoves, TokenInv, DerivedStatus, Touches, RecoveredJob, CancelledRow, DeletedFile;
    var j := s.jobs[k];
    StillMoves(s.cfg, |s.issued|, j);
    if a.Delete? {
      CancelMoves(s.cfg, |s.issued|, j, a.at);
    } else if k in a.keys {
      RecoverMoves(s.cfg, |s.issued|, j, a.at);
    }
  }

  /** Every transaction moves every stored delivery in one of these ways. */
  lemma StepMoves(s: System, a: Action, k: DeliveryKey)
    requires Inv(s) && Enabled(s, a) && k in s.jobs
    ensures k in Step(s, a).jobs && JobMoves(s.cfg, |s.issued|, s.jobs[k], Step(s, a).jobs[k])
  {
    hide JobInv, Workers, Leads, Alerts, JobMoves, TokenInv, StartStep, FinishStep, BeginCallStep, ReturnStep,
         DeleteStep, RecoverStep, ClaimStep, HeartbeatStep, WellFormedSubmission;
    var j := s.jobs[k];
    StillMoves(s.cfg, |s.issued|, j);
    match a
    case Claim(_, _, _) => LeaseStepMoves(s, a, k);
    case Start(w, at) => StartStepMoves(s, w, at, k);
    case BeginCall(_) => ContactStepMoves(s, a, k);
    case Return(_, _) => ContactStepMoves(s, a, k);
    case Finish(w, at) => FinishStepMoves(s, w, at, k);
    case Heartbeat(_, _) => LeaseStepMoves(s, a, k);
    case Recover(_, _) => BulkStepMoves(s, a, k);
    case Delete(_, _) => BulkStepMoves(s, a, k);
    case _ =>
  }

  lemma HeldIsLeased(j: Job, slot: Slot)
    requires slot.Holding?
    ensures SlotInv(j, slot) && Owns(j.row, slot.lease) ==> j.row.status == Leased
  {
  }

  lemma BeatMoves(cfg: Config, next: Token, j: Job, at: Time)
    ensures JobMoves(cfg, next, j, j.(row := j.row.(heartbeatAt := Some(at), leaseExpiresAt := Some(at + cfg.leaseFor))))
  {
  }

  // ---------- Contact with the provider ----------

  /** No worker can be inside, about to enter, or back from a call for `k` except `w`. */
  ghost predicate SoleContact(s: System, k: DeliveryKey, w: WorkerId) {
    forall w' :: w' in s.slots && !s.slots[w'].Holding? && s.slots[w'].lease.key == k ==> w' == w
  }

  /** When a provider call begins, every earlier call for the same delivery came back with a known
      transient failure that its owner recorded, and no other worker is in contact for it. */
  lemma ContactAtMostOnce(ss: seq<System>, steps: seq<Action>, i: nat, w: WorkerId)
    requires IsRun(ss, steps) && i < |steps| && steps[i] == BeginCall(w)
    requires w in ss[i].slots && ss[i].slots[w].lease.key in ss[i].jobs
    ensures var k := ss[i].slots[w].lease.key;
            var calls := ss[i].jobs[k].calls;
            && SoleContact(ss[i], k, w)
            && AllFollowable(calls, |calls|)
            && k in ss[i + 1].jobs && ss[i + 1].jobs[k].calls == calls + [Call(|calls| + 1, InFlight)]
            && |calls| < ss[i].jobs[k].row.maxAttempts
  {
    hide Inv, Initial, SoleContact, AllFollowable;
    RunInv(ss, steps, i);
    assert Next(ss[i], steps[i], ss[i + 1]);
    ContactBegins(ss[i], w);
  }

  lemma ContactBegins(s: System, w: WorkerId)
    requires Inv(s) && Enabled(s, BeginCall(w))
    ensures var k := s.slots[w].lease.key;
            && k in s.jobs && SoleContact(s, k, w) && AllFollowable(s.jobs[k].calls, |s.jobs[k].calls|)
            && |s.jobs[k].calls| < s.jobs[k].row.maxAttempts
            && s.slots[w].attempt == |s.jobs[k].calls| + 1
  {
    hide JobInv, SlotInv, TokenInv, Leads, Alerts, AllFollowable;
    var k := s.slots[w].lease.key;
    assert WorkerInv(s, w);
    forall w' | w' in s.slots && !s.slots[w'].Holding? && s.slots[w'].lease.key == k
      ensures w' == w
    {
      EngagedAlone(s, w, w');
    }
    ReadyFollows(s.jobs[k], s.slots[w]);
  }

  lemma ReadyFollows(j: Job, slot: Slot)
    requires JobInv(j) && slot.Ready? && SlotInv(j, slot)
    ensures AllFollowable(j.calls, |j.calls|) && |j.calls| + 1 == slot.attempt <= j.row.maxAttempts
  {
  }

  lemma {:induction false} RunExtends(ss: seq<System>, steps: seq<Action>, i: nat, j: nat, k: DeliveryKey)
    requires IsRun(ss, steps) && i <= j < |ss| && k in ss[i].jobs
    ensures k in ss[j].jobs && ss[j].jobs[k].row.lead == ss[i].jobs[k].row.lead
    ensures CallsExtend(ss[i].jobs[k].calls, ss[j].jobs[k].calls)
    ensures !IsOpen(ss[i].jobs[k].row.status) ==>
              ss[j].jobs[k].row.status == ss[i].jobs[k].row.status && ss[j].jobs[k].attempts == ss[i].jobs[k].attempts
    decreases j - i
  {
    hide Inv, Initial, Enabled, Step, RankMoves, LeaseMoves, ClockMoves;
    if i < j {
      RunExtends(ss, steps, i, j - 1, k);
      RunInv(ss, steps, j - 1);
      assert Next(ss[j - 1], steps[j - 1], ss[j]);
      StepMoves(ss[j - 1], steps[j - 1], k);
    }
  }

  lemma RunJobInv(ss: seq<System>, steps: seq<Action>, i: nat, k: DeliveryKey)
    requires IsRun(ss, steps) && i < |ss| && k in ss[i].jobs
    ensures JobInv(ss[i].jobs[k])
  {
    RunInv(ss, steps, i);
  }

  /** A call not recorded as a transient failure is the last there is; once such an outcome is recorded,
      no later state of the run holds another call for the delivery. */
  lemma FinalCallIsLast(ss: seq<System>, steps: seq<Action>, i: nat, j: nat, k: DeliveryKey, c: nat)
    requires IsRun(ss, steps) && i <= j < |ss| && k in ss[i].jobs && c < |ss[i].jobs[k].calls|
    ensures k in ss[j].jobs && c < |ss[j].jobs[k].calls|
    ensures !RecordedRetryable(ss[j].jobs[k].calls[c]) ==> |ss[j].jobs[k].calls| == c + 1
    ensures ss[i].jobs[k].calls[c].phase.Recorded? && !IsRetryable(ss[i].jobs[k].calls[c].phase.reply) ==>
              ss[j].jobs[k].calls == ss[i].jobs[k].calls
  {
    hide JobInv, IsRun;
    RunExtends(ss, steps, i, j, k);
    RunJobInv(ss, steps, i, k);
    RunJobInv(ss, steps, j, k);
    OnlyLastUnfollowable(ss[i].jobs[k]);
    OnlyLastUnfollowable(ss[j].jobs[k]);
    var calls, calls' := ss[i].jobs[k].calls, ss[j].jobs[k].calls;
    if calls[c].phase.Recorded? && !IsRetryable(calls[c].phase.reply) {
      assert calls'[c] == calls[c] && |calls'| == |calls| == c + 1;
      assert forall n :: 0 <= n < c ==> RecordedRetryable(calls[n]) && calls'[n] == calls[n];
      assert calls' == calls;
    }
  }

  lemma OnlyLastUnfollowable(j: Job)
    requires JobInv(j)
    ensures forall c :: 0 <= c < |j.calls| - 1 ==> RecordedRetryable(j.calls[c])
  {
  }

  // ---------- The attempt ledger ----------

  /** What the stored rows of a delivery say in every reachable state. */
  lemma AttemptLedger(ss: seq<System>, steps: seq<Action>, i: nat, k: DeliveryKey)
    requires IsRun(ss, steps) && i < |ss| && k in ss[i].jobs
    ensures var d := ss[i].jobs[k].row;
            var rows := ss[i].jobs[k].attempts;
            && |rows| == d.attemptCount <= d.maxAttempts
            && (forall n :: 0 <= n < |rows| ==> rows[n].number == n + 1)
            && (forall n :: 0 <= n < |rows| - 1 ==> rows[n].status == RetryableFailure)
            && (IsClaimable(d.status) || d.status == Leased ==> d.attemptCount < d.maxAttempts)
            && (d.status != Cancelled ==>
                  (d.status == Delivering <==> exists n :: 0 <= n < |rows| && rows[n].status == Running))
            && (d.status == Delivered <==> exists n :: 0 <= n < |rows| && rows[n].status == Succeeded)
            && (d.status == OutcomeUnknown <==> exists n :: 0 <= n < |rows| && rows[n].status == AttemptUnknown)
            && (d.lastError == Some(DeliveryAttemptsExhausted) && d.status == Failed ==> d.attemptCount == d.maxAttempts)
  {
    RunJobInv(ss, steps, i, k);
    LedgerOf(ss[i].jobs[k]);
  }

  lemma LedgerOf(j: Job)
    requires JobInv(j)
    ensures forall n :: 0 <= n < |j.attempts| - 1 ==> j.attempts[n].status == RetryableFailure
    ensures j.row.status != Cancelled ==>
              (j.row.status == Delivering <==> exists n :: 0 <= n < |j.attempts| && j.attempts[n].status == Running)
    ensures j.row.status == Delivered <==> exists n :: 0 <= n < |j.attempts| && j.attempts[n].status == Succeeded
    ensures j.row.status == OutcomeUnknown <==>
              exists n :: 0 <= n < |j.attempts| && j.attempts[n].status == AttemptUnknown
  {
    if |j.attempts| > 0 {
      var last := j.attempts[|j.attempts| - 1];
    }
  }

  /** The last transaction always finds the attempt it started: its early return is never taken. */
  lemma AttemptIsFound(ss: seq<System>, steps: seq<Action>, i: nat, w: WorkerId)
    requires IsRun(ss, steps) && i < |ss| && w in ss[i].slots && ss[i].slots[w].Returned?
    ensures var Returned(lease, n, _) := ss[i].slots[w];
            lease.key in ss[i].jobs && FindAttempt(ss[i].jobs[lease.key].attempts, n).Some?
  {
    RunInv(ss, steps, i);
    var s := ss[i];
    assert WorkerInv(s, w) && JobInv(s.jobs[s.slots[w].lease.key]);
    FindLastAttempt(s.jobs[s.slots[w].lease.key]);
  }

  // ---------- Bounded work ----------

  /** Status changes of delivery `k` between states `i` and `j`. */
  ghost function Changes(ss: seq<System>, k: DeliveryKey, i: nat, j: nat): nat
    requires i <= j < |ss| && forall n :: i <= n <= j ==> k in ss[n].jobs
    decreases j - i
  {
    if i == j then 0
    else Changes(ss, k, i, j - 1) + (if ss[j].jobs[k].row.status != ss[j - 1].jobs[k].row.status then 1 else 0)
  }

  /** How many of them took back a lease before the provider was contacted. */
  ghost function LostLeases(ss: seq<System>, k: DeliveryKey, i: nat, j: nat): nat
    requires i <= j < |ss| && forall n :: i <= n <= j ==> k in ss[n].jobs
    decreases j - i
  {
    if i == j then 0
    else LostLeases(ss, k, i, j - 1) + (if LosesLease(ss[j - 1].jobs[k].row, ss[j].jobs[k].row) then 1 else 0)
  }

  lemma RunKeepsKey(ss: seq<System>, steps: seq<Action>, k: DeliveryKey, i: nat)
    requires IsRun(ss, steps) && i < |ss| && k in ss[i].jobs
    ensures forall n :: i <= n < |ss| ==> k in ss[n].jobs
  {
    forall n: nat | i <= n < |ss|
      ensures k in ss[n].jobs
    {
      RunExtends(ss, steps, i, n, k);
    }
  }

  lemma {:induction false} RankPays(ss: seq<System>, steps: seq<Action>, k: DeliveryKey, i: nat, j: nat)
    requires IsRun(ss, steps) && i <= j < |ss| && forall n :: i <= n <= j ==> k in ss[n].jobs
    ensures Changes(ss, k, i, j) + Rank(ss[j].jobs[k].row) <= Rank(ss[i].jobs[k].row) + 2 * LostLeases(ss, k, i, j)
    decreases j - i
  {
    hide Inv, Initial, Enabled, Step, Rank, CallsExtend, LeaseMoves, ClockMoves;
    if i < j {
      RankPays(ss, steps, k, i, j - 1);
      RunInv(ss, steps, j - 1);
      assert Next(ss[j - 1], steps[j - 1], ss[j]);
      StepMoves(ss[j - 1], steps[j - 1], k);
    }
  }

  lemma RankBounds(j: Job)
    requires JobInv(j)
    ensures 0 <= Rank(j.row) <= 3 * j.row.maxAttempts
  {
  }

  /** From the moment it is stored, a delivery changes status at most three times per allowed attempt,
      plus twice for every lease lost before the provider was contacted. */
  lemma BoundedWork(ss: seq<System>, steps: seq<Action>, k: DeliveryKey, i: nat, j: nat)
    requires IsRun(ss, steps) && i <= j < |ss| && k in ss[i].jobs
    ensures forall n :: i <= n <= j ==> k in ss[n].jobs
    ensures Changes(ss, k, i, j) <= 3 * ss[i].jobs[k].row.maxAttempts + 2 * LostLeases(ss, k, i, j)
  {
    RunKeepsKey(ss, steps, k, i);
    RankPays(ss, steps, k, i, j);
    RunJobInv(ss, steps, i, k);
    RunJobInv(ss, steps, j, k);
    RankBounds(ss[i].jobs[k]);
    RankBounds(ss[j].jobs[k]);
  }
}
