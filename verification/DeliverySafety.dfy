/** Every transaction keeps the invariant. */
module DeliverySafety {
  import opened Wrappers
  import opened DeliveryTypes
  import opened DeliveryProtocol
  import opened DeliveryInvariant

  // ---------- Leads ----------

  /** As far as lead `l` can tell, the two delivery tables agree. */
  ghost predicate LooksSame(jobs: map<DeliveryKey, Job>, jobs': map<DeliveryKey, Job>, l: LeadId) {
    && (forall k :: k in jobs && jobs[k].row.lead == l ==>
          k in jobs' && jobs'[k].row.lead == l
          && (jobs'[k].row.status == jobs[k].row.status
              || (IsOpen(jobs[k].row.status) && IsOpen(jobs'[k].row.status))))
    && (forall k :: k in jobs' && jobs'[k].row.lead == l ==> k in jobs && jobs[k].row.lead == l)
  }

  lemma LooksSameLead(jobs: map<DeliveryKey, Job>, jobs': map<DeliveryKey, Job>, l: LeadId)
    requires LooksSame(jobs, jobs', l)
    ensures HasOpen(jobs, l) == HasOpen(jobs', l)
    ensures HasDelivered(jobs, l) == HasDelivered(jobs', l)
    ensures HasDelivery(jobs, l) == HasDelivery(jobs', l)
    ensures NoneCancelled(jobs, l) == NoneCancelled(jobs', l)
  {
    if HasOpen(jobs, l) {
      var k :| k in jobs && jobs[k].row.lead == l && IsOpen(jobs[k].row.status);
      assert k in jobs';
    }
    if HasDelivered(jobs, l) {
      var k :| k in jobs && jobs[k].row.lead == l && jobs[k].row.status == Delivered;
      assert k in jobs';
    }
    if HasDelivery(jobs, l) {
      var k :| k in jobs && jobs[k].row.lead == l;
      assert k in jobs';
    }
  }

  lemma LeadKept(jobs: map<DeliveryKey, Job>, jobs': map<DeliveryKey, Job>, l: LeadId, file: LeadFile)
    requires LeadInv(jobs, l, file) && LooksSame(jobs, jobs', l)
    ensures LeadInv(jobs', l, file)
  {
    hide HasOpen, HasDelivered, HasDelivery, NoneCancelled, EventsInv;
    LooksSameLead(jobs, jobs', l);
  }

  /** Leads and alerts only look at deliveries, so a step that looks the same to every lead keeps them. */
  lemma LeadsKept(s: System, t: System)
    requires Leads(s) && Alerts(s) && t.leads == s.leads && t.alerts == s.alerts
    requires forall l :: l in s.leads ==> LooksSame(s.jobs, t.jobs, l)
    ensures Leads(t) && Alerts(t)
  {
    hide LeadInv, HasOpen, HasDelivered, HasDelivery;
    forall l | l in s.leads
      ensures LeadInv(t.jobs, l, t.leads[l])
    {
      LeadKept(s.jobs, t.jobs, l, s.leads[l]);
    }
    forall i | 0 <= i < |s.alerts|
      ensures Alerted(t.jobs, s.alerts[i])
    {
      LooksSameLead(s.jobs, t.jobs, s.alerts[i]);
    }
  }

  lemma EventsSettle(es: seq<Event>, status: LeadStatus)
    requires EventsInv(es, Routing, true)
    requires status == Routing || status == LeadDelivered || status == DeliveryFailed
    ensures EventsInv(EventsAfter(es, status), status, true)
  {
    var es' := EventsAfter(es, status);
    if status == LeadDelivered {
      assert es'[|es|] == Event(ProviderDelivery, false);
    } else if status == DeliveryFailed {
      assert es'[|es|] == Event(DeliveryFailedEvent, false);
    }
    assert HasLiveEvent(es, ProviderDelivery) ==> HasLiveEvent(es', ProviderDelivery);
  }

  /** A lead with work left is routing: it is neither deleted nor spam nor settled. */
  lemma OpenLeadRoutes(jobs: map<DeliveryKey, Job>, k: DeliveryKey, file: LeadFile)
    requires k in jobs && IsOpen(jobs[k].row.status) && LeadInv(jobs, jobs[k].row.lead, file)
    ensures file.row.status == Routing && HasDelivery(jobs, jobs[k].row.lead) && NoneCancelled(jobs, jobs[k].row.lead)
  {
    assert HasOpen(jobs, jobs[k].row.lead);
  }

  /** Deriving a routing lead afresh from jobs that none cancelled restores its invariant. */
  lemma RefreshLead(jobs: map<DeliveryKey, Job>, l: LeadId, file: LeadFile)
    requires file.row.status == Routing && file.row.piiDeletedAt == None && EventsInv(file.events, Routing, true)
    requires HasDelivery(jobs, l) && NoneCancelled(jobs, l)
    ensures LeadInv(jobs, l, Refreshed(file, DerivedStatus(jobs, l)))
  {
    hide HasOpen, HasDelivered, HasDelivery, NoneCancelled;
    EventsSettle(file.events, DerivedStatus(jobs, l));
  }

  lemma SettleOwnLead(jobs: map<DeliveryKey, Job>, k: DeliveryKey, j: Job, file: LeadFile)
    requires k in jobs && IsOpen(jobs[k].row.status) && j.row.lead == jobs[k].row.lead && j.row.status != Cancelled
    requires LeadInv(jobs, j.row.lead, file)
    ensures LeadInv(jobs[k := j], j.row.lead, Refreshed(file, DerivedStatus(jobs[k := j], j.row.lead)))
    ensures HasDelivery(jobs[k := j], j.row.lead)
  {
    var jobs' := jobs[k := j];
    OpenLeadRoutes(jobs, k, file);
    assert HasDelivery(jobs', j.row.lead) by { assert jobs'[k].row.lead == j.row.lead; }
    RefreshLead(jobs', j.row.lead, file);
  }

  lemma SettleLeads(s: System, k: DeliveryKey, j: Job)
    requires Linked(s) && Leads(s)
    requires k in s.jobs && IsOpen(s.jobs[k].row.status)
    requires j.row.lead == s.jobs[k].row.lead && j.row.status != Cancelled
    ensures Leads(Settled(s, k, j))
  {
    hide LeadInv, HasOpen, HasDelivered, HasDelivery, Refreshed;
    var t := Settled(s, k, j);
    forall l | l in t.leads
      ensures LeadInv(t.jobs, l, t.leads[l])
    {
      if l == j.row.lead {
        SettleOwnLead(s.jobs, k, j, s.leads[l]);
      } else {
        LeadKept(s.jobs, t.jobs, l, s.leads[l]);
      }
    }
  }

  lemma SettleAlerts(s: System, k: DeliveryKey, j: Job)
    requires Linked(s) && Alerts(s)
    requires k in s.jobs && IsOpen(s.jobs[k].row.status) && j.row.lead == s.jobs[k].row.lead
    ensures Alerts(Settled(s, k, j)) && Alerts(SettledFailure(s, k, j))
    ensures j.row.lead !in s.alerts
  {
    var t := Settled(s, k, j);
    assert HasOpen(s.jobs, j.row.lead);
    assert HasDelivery(t.jobs, j.row.lead) by { assert t.jobs[k].row.lead == j.row.lead; }
    hide HasOpen, HasDelivered, HasDelivery;
    forall i | 0 <= i < |s.alerts|
      ensures s.alerts[i] != j.row.lead && Alerted(t.jobs, s.alerts[i])
    {
      LooksSameLead(s.jobs, t.jobs, s.alerts[i]);
    }
  }

  // ---------- One row at a time ----------

  /** A transaction that touches row `k` only, and the workers leased on it. */
  ghost predicate OnlyRow(s: System, t: System, k: DeliveryKey) {
    && k in s.jobs && k in t.jobs
    && t.jobs == s.jobs[k := t.jobs[k]]
    && t.jobs[k].row.lead == s.jobs[k].row.lead
    && t.leads.Keys == s.leads.Keys
    && s.issued <= t.issued
    && (forall w :: w in t.slots && t.slots[w].lease.key != k ==> w in s.slots && t.slots[w] == s.slots[w])
  }

  lemma OnlyRowKeeps(s: System, t: System, k: DeliveryKey)
    requires Linked(s) && OnlyRow(s, t, k) && Jobs(s) && Workers(s)
    requires JobInv(t.jobs[k]) && TokenInv(t.issued, k, t.jobs[k])
    requires Linked(t) ==> forall w :: w in t.slots && t.slots[w].lease.key == k ==> WorkerInv(t, w)
    ensures Linked(t) && Jobs(t) && Workers(t)
  {
    hide JobInv, SlotInv;
    assert Linked(t);
    forall k' | k' in t.jobs
      ensures JobInv(t.jobs[k']) && TokenInv(t.issued, k', t.jobs[k'])
    {
      if k' != k {
        assert JobInv(s.jobs[k']) && TokenInv(s.issued, k', s.jobs[k']);
      }
    }
    forall w | w in t.slots
      ensures WorkerInv(t, w)
    {
      if t.slots[w].lease.key != k {
        assert WorkerInv(s, w);
      }
    }
  }

  lemma OpenStaysOpen(s: System, t: System, k: DeliveryKey)
    requires OnlyRow(s, t, k)
    requires t.jobs[k].row.status == s.jobs[k].row.status
             || (IsOpen(s.jobs[k].row.status) && IsOpen(t.jobs[k].row.status))
    ensures forall l :: l in s.leads ==> LooksSame(s.jobs, t.jobs, l)
  {
  }

  // ---------- What a transaction does to the other workers ----------

  /** Two workers past their first transaction never share a delivery. */
  lemma EngagedAlone(s: System, w: WorkerId, w': WorkerId)
    requires Inv(s) && w in s.slots && w' in s.slots
    requires !s.slots[w].Holding? && !s.slots[w'].Holding? && s.slots[w].lease.key == s.slots[w'].lease.key
    ensures w == w'
  {
    hide JobInv, Jobs, Leads, Alerts;
    assert WorkerInv(s, w) && WorkerInv(s, w');
  }

  /** The other leases on a row survive a change of the row under which their own claims still fail. */
  ghost predicate OthersUnharmed(j: Job, j': Job, own: Token) {
    forall slot: Slot :: slot.lease.token != own && SlotInv(j, slot) ==> SlotInv(j', slot)
  }

  lemma OthersKept(s: System, t: System, k: DeliveryKey, own: Token, w: WorkerId)
    requires Linked(s) && Linked(t) && OnlyRow(s, t, k) && Workers(s)
    requires OthersUnharmed(s.jobs[k], t.jobs[k], own)
    requires own < |t.issued| && t.issued[own].worker == w
    requires forall w' :: w' in t.slots && w' != w ==> w' in s.slots && t.slots[w'] == s.slots[w']
    ensures forall w' :: w' in t.slots && w' != w && t.slots[w'].lease.key == k ==> WorkerInv(t, w')
  {
    hide SlotInv;
    forall w' | w' in t.slots && w' != w && t.slots[w'].lease.key == k
      ensures WorkerInv(t, w')
    {
      assert WorkerInv(s, w');
    }
  }

  // ---------- The transactions ----------

  lemma TickKeeps(s: System, until: Time)
    requires Inv(s)
    ensures Inv(s.(now := until))
  {
    hide JobInv, SlotInv, LeadInv, Alerted;
    assert forall w :: w in s.slots ==> WorkerInv(s, w);
  }

  lemma AssignKeeps(s: System, assignments: map<AssignmentId, Assignment>)
    requires Inv(s)
    ensures Inv(s.(assignments := assignments))
  {
    hide JobInv, SlotInv, LeadInv, Alerted;
    assert forall w :: w in s.slots ==> WorkerInv(s, w);
  }

  lemma ReleaseKeeps(s: System, w: WorkerId)
    requires Inv(s)
    ensures Inv(Released(s, w))
  {
    hide JobInv, SlotInv, LeadInv, Alerted;
    assert forall w' :: w' in Released(s, w).slots ==> WorkerInv(s, w');
  }

  /** Worker `w` changes row `k` under token `own`, everyone else stays put, and what was open stays open. */
  lemma RowStepKeeps(s: System, t: System, k: DeliveryKey, w: WorkerId, own: Token)
    requires Inv(s) && OnlyRow(s, t, k) && t.leads == s.leads && t.alerts == s.alerts
    requires JobInv(t.jobs[k]) && TokenInv(t.issued, k, t.jobs[k]) && OthersUnharmed(s.jobs[k], t.jobs[k], own)
    requires own < |t.issued| && t.issued[own].worker == w
    requires forall w' :: w' in t.slots && w' != w ==> w' in s.slots && t.slots[w'] == s.slots[w']
    requires w in t.slots ==> t.slots[w].lease == t.issued[own] && t.issued[own].token == own
                              && t.issued[own].key == k && SlotInv(t.jobs[k], t.slots[w])
    requires t.jobs[k].row.status == s.jobs[k].row.status
             || (IsOpen(s.jobs[k].row.status) && IsOpen(t.jobs[k].row.status))
    ensures Inv(t)
  {
    hide JobInv, LeadInv, Alerted, TokenInv, LooksSame, SlotInv, OthersUnharmed;
    assert Linked(t);
    OthersKept(s, t, k, own, w);
    OnlyRowKeeps(s, t, k);
    OpenStaysOpen(s, t, k);
    LeadsKept(s, t);
  }

  lemma ClaimKeeps(s: System, w: WorkerId, k: DeliveryKey, at: Time)
    requires Inv(s) && Enabled(s, Claim(w, k, at))
    ensures Inv(ClaimStep(s, w, k, at))
  {
    hide JobInv, Leads, Alerts, TokenInv, Workers;
    if k in s.jobs && Claimable(s.jobs[k].row, at) {
      ClaimJob(s.jobs[k], k, w, at, s.cfg.leaseFor, s.issued);
      RowStepKeeps(s, ClaimStep(s, w, k, at), k, w, |s.issued|);
    }
  }

  /** Workers that hold the row under another token have not been let past its first transaction. */
  lemma CallUnharmed(j: Job, own: Token, calls: seq<Call>)
    requires |j.attempts| >= 1 && j.attempts[|j.attempts| - 1].token == own
    ensures OthersUnharmed(j, j.(calls := calls), own)
  {
  }

  lemma BeginCallKeeps(s: System, w: WorkerId)
    requires Inv(s) && Enabled(s, BeginCall(w))
    ensures Inv(BeginCallStep(s, w))
  {
    hide JobInv, Leads, Alerts, TokenInv;
    var Ready(lease, n) := s.slots[w];
    assert WorkerInv(s, w);
    CallJob(s.jobs[lease.key], lease.key, lease, n, s.issued);
    CallUnharmed(s.jobs[lease.key], lease.token, s.jobs[lease.key].calls + [Call(n, InFlight)]);
    hide SlotInv, OthersUnharmed;
    RowStepKeeps(s, BeginCallStep(s, w), lease.key, w, lease.token);
  }

  lemma ReturnKeeps(s: System, w: WorkerId, reply: Reply)
    requires Inv(s) && Enabled(s, Return(w, reply))
    ensures Inv(ReturnStep(s, w, reply))
  {
    hide JobInv, Leads, Alerts, TokenInv;
    var Calling(lease, n) := s.slots[w];
    assert WorkerInv(s, w);
    AnswerJob(s.jobs[lease.key], lease.key, lease, n, reply, s.issued);
    CallUnharmed(s.jobs[lease.key], lease.token, MarkLast(s.jobs[lease.key].calls, Answered(reply)));
    hide SlotInv, OthersUnharmed, MarkLast;
    RowStepKeeps(s, ReturnStep(s, w, reply), lease.key, w, lease.token);
  }

  lemma BeatUnharmed(j: Job, own: Slot, at: Time, leaseFor: int)
    requires SlotInv(j, own)
    ensures var j' := j.(row := j.row.(heartbeatAt := Some(at), leaseExpiresAt := Some(at + leaseFor)));
            OthersUnharmed(j, j', own.lease.token) && SlotInv(j', own)
  {
  }

  lemma BeatOk(s: System, w: WorkerId, k: DeliveryKey, at: Time)
    requires Inv(s) && w in s.slots && s.slots[w].lease.key == k && Owns(s.jobs[k].row, s.slots[w].lease)
    ensures var j := s.jobs[k];
            var j' := j.(row := j.row.(heartbeatAt := Some(at), leaseExpiresAt := Some(at + s.cfg.leaseFor)));
            && JobInv(j') && TokenInv(s.issued, k, j') && SlotInv(j', s.slots[w])
            && OthersUnharmed(j, j', s.slots[w].lease.token)
  {
    hide JobInv, TokenInv, SlotInv, OthersUnharmed, Leads, Alerts;
    assert WorkerInv(s, w);
    BeatJob(s.jobs[k], k, s.slots[w].lease, at, s.cfg.leaseFor, s.issued);
    BeatUnharmed(s.jobs[k], s.slots[w], at, s.cfg.leaseFor);
  }

  lemma HeartbeatKeeps(s: System, w: WorkerId, at: Time)
    requires Inv(s) && Enabled(s, Heartbeat(w, at))
    ensures Inv(HeartbeatStep(s, w, at))
  {
    hide JobInv, Leads, Alerts, TokenInv, SlotInv, OthersUnharmed;
    var lease := s.slots[w].lease;
    assert WorkerInv(s, w);
    if Owns(s.jobs[lease.key].row, lease) {
      BeatOk(s, w, lease.key, at);
      RowStepKeeps(s, HeartbeatStep(s, w, at), lease.key, w, lease.token);
    }
  }

  lemma SettledIs(s: System, k: DeliveryKey, j: Job, failure: bool)
    requires j.row.lead in s.leads
    ensures var t := if failure then SettledFailure(s, k, j) else Settled(s, k, j);
            && t.jobs == s.jobs[k := j] && t.leads.Keys == s.leads.Keys
            && t.slots == s.slots && t.issued == s.issued
  {
  }

  /** Settling the row of a worker that is done with it. */
  lemma SettleKeeps(s: System, w: WorkerId, k: DeliveryKey, j: Job, failure: bool)
    requires Inv(s) && w in s.slots && s.slots[w].lease.key == k && IsOpen(s.jobs[k].row.status)
    requires JobInv(j) && TokenInv(s.issued, k, j) && j.row.lead == s.jobs[k].row.lead
    requires j.row.status != Cancelled && OthersUnharmed(s.jobs[k], j, s.slots[w].lease.token)
    ensures Inv(if failure then SettledFailure(Released(s, w), k, j) else Settled(Released(s, w), k, j))
  {
    hide JobInv, LeadInv, Alerts, TokenInv, SlotInv, OthersUnharmed, Settled, SettledFailure;
    var r := Released(s, w);
    ReleaseKeeps(s, w);
    var t := if failure then SettledFailure(r, k, j) else Settled(r, k, j);
    SettledIs(r, k, j, failure);
    SettleLeads(r, k, j);
    SettledLeadsSame(r, k, j);
    SettleAlerts(r, k, j);
    assert WorkerInv(s, w);
    OthersKept(s, t, k, s.slots[w].lease.token, w);
    OnlyRowKeeps(s, t, k);
  }

  lemma SettledLeadsSame(s: System, k: DeliveryKey, j: Job)
    requires j.row.lead in s.leads && Leads(Settled(s, k, j))
    ensures Leads(SettledFailure(s, k, j))
  {
    hide LeadInv;
  }

  lemma StartKeeps(s: System, w: WorkerId, at: Time)
    requires Inv(s) && Enabled(s, Start(w, at))
    ensures Inv(StartStep(s, w, at))
  {
    hide JobInv, Leads, Alerts, TokenInv, StartError, SettledFailure, StartedJob, SlotInv, OthersUnharmed, FailedRow;
    var lease := s.slots[w].lease;
    var k := lease.key;
    var j := s.jobs[k];
    assert WorkerInv(s, w);
    ReleaseKeeps(s, w);
    if Owns(j.row, lease) {
      var error := StartError(s, j.row);
      if error.Some? {
        StartErrorKind(s, j.row);
        HolderIsLeased(j, lease);
        RejectUnharmed(j, lease, error.value, at);
        RejectJob(j, k, error.value, at, s.issued);
        SettleKeeps(s, w, k, j.(row := FailedRow(j.row, error.value, at)), true);
      } else {
        StartedKeeps(s, w, k);
      }
    }
  }

  lemma HolderIsLeased(j: Job, lease: Lease)
    requires SlotInv(j, Holding(lease)) && Owns(j.row, lease)
    ensures j.row.status == Leased
  {
  }

  lemma StartUnharmed(j: Job, lease: Lease)
    requires j.row.status == Leased && Owns(j.row, lease)
    ensures var j' := StartedJob(j, lease.token);
            OthersUnharmed(j, j', lease.token) && j'.row.lead == j.row.lead && IsOpen(j'.row.status)
  {
  }

  lemma RejectUnharmed(j: Job, lease: Lease, code: ErrorCode, at: Time)
    requires j.row.status == Leased && Owns(j.row, lease)
    ensures var j' := j.(row := FailedRow(j.row, code, at));
            OthersUnharmed(j, j', lease.token) && j'.row.lead == j.row.lead && j'.row.status == Failed
  {
  }

  lemma StartedOk(s: System, k: DeliveryKey, lease: Lease)
    requires Inv(s) && k in s.jobs && s.jobs[k].row.status == Leased && Owns(s.jobs[k].row, lease)
    ensures var j' := StartedJob(s.jobs[k], lease.token);
            && JobInv(j') && TokenInv(s.issued, k, j') && SlotInv(j', Ready(lease, s.jobs[k].row.attemptCount + 1))
            && OthersUnharmed(s.jobs[k], j', lease.token) && j'.row.lead == s.jobs[k].row.lead && IsOpen(j'.row.status)
  {
    hide JobInv, SlotInv, TokenInv, OthersUnharmed, StartedJob, Workers, Leads, Alerts;
    StartJob(s.jobs[k], k, lease, s.issued);
    StartUnharmed(s.jobs[k], lease);
  }

  lemma StartedKeeps(s: System, w: WorkerId, k: DeliveryKey)
    requires Inv(s) && w in s.slots && s.slots[w].Holding? && s.slots[w].lease.key == k
    requires Owns(s.jobs[k].row, s.slots[w].lease)
    ensures Inv(s.(jobs := s.jobs[k := StartedJob(s.jobs[k], s.slots[w].lease.token)],
                   slots := s.slots[w := Ready(s.slots[w].lease, s.jobs[k].row.attemptCount + 1)]))
  {
    hide JobInv, Leads, Alerts, TokenInv, SlotInv, OthersUnharmed, StartedJob;
    var lease := s.slots[w].lease;
    var j := s.jobs[k];
    assert WorkerInv(s, w);
    HolderIsLeased(j, lease);
    StartedOk(s, k, lease);
    RowStepKeeps(s, s.(jobs := s.jobs[k := StartedJob(j, lease.token)],
                       slots := s.slots[w := Ready(lease, j.row.attemptCount + 1)]), k, w, lease.token);
  }

  lemma StartErrorKind(s: System, d: Delivery)
    ensures StartError(s, d) !in {Some(DeliveryAttemptsExhausted), Some(AdapterFailure), Some(ProviderRejectedDelivery)}
  {
  }

  lemma FinishKeeps(s: System, w: WorkerId, at: Time)
    requires Inv(s) && Enabled(s, Finish(w, at))
    ensures Inv(FinishStep(s, w, at))
  {
    hide JobInv, Leads, Alerts, TokenInv, SlotInv, OthersUnharmed, FindAttempt, ClosedJob, Settled, SettledFailure;
    var Returned(lease, n, reply) := s.slots[w];
    var k := lease.key;
    var j := s.jobs[k];
    assert WorkerInv(s, w);
    ReleaseKeeps(s, w);
    if Owns(j.row, lease) {
      ClosedOk(s, w, k, at);
      var closed := ClosedJob(s.cfg, j, n - 1, reply, at);
      SettleKeeps(s, w, k, closed, closed.row.status == Failed);
    }
  }

  lemma ClosedOk(s: System, w: WorkerId, k: DeliveryKey, at: Time)
    requires Inv(s) && w in s.slots && s.slots[w].Returned? && s.slots[w].lease.key == k
    requires Owns(s.jobs[k].row, s.slots[w].lease)
    ensures var Returned(lease, n, reply) := s.slots[w];
            && 1 <= n <= |s.jobs[k].attempts| && FindAttempt(s.jobs[k].attempts, n) == Some(n - 1)
            && IsOpen(s.jobs[k].row.status)
            && var j' := ClosedJob(s.cfg, s.jobs[k], n - 1, reply, at);
               && JobInv(j') && TokenInv(s.issued, k, j') && OthersUnharmed(s.jobs[k], j', lease.token)
               && j'.row.lead == s.jobs[k].row.lead && j'.row.status != Cancelled
  {
    hide JobInv, TokenInv, OthersUnharmed, Leads, Alerts;
    var Returned(lease, n, reply) := s.slots[w];
    assert WorkerInv(s, w);
    CloseJob(s.cfg, s.jobs[k], k, lease, n, reply, at, s.issued);
    CloseUnharmed(s.cfg, s.jobs[k], lease, n, reply, at);
  }

  lemma CloseUnharmed(cfg: Config, j: Job, lease: Lease, n: nat, reply: Reply, at: Time)
    requires SlotInv(j, Returned(lease, n, reply)) && Owns(j.row, lease)
    ensures var j' := ClosedJob(cfg, j, n - 1, reply, at);
            OthersUnharmed(j, j', lease.token) && j'.row.lead == j.row.lead && j'.row.status != Cancelled
  {
    hide RetryDelay;
  }

  // ---------- The row a worker's own transaction leaves behind ----------

  function StartOutcome(s: System, j: Job, lease: Lease, at: Time): Job {
    if !Owns(j.row, lease) then j
    else
      match StartError(s, j.row)
      case Some(code) => j.(row := FailedRow(j.row, code, at))
      case None => StartedJob(j, lease.token)
  }

  function FinishOutcome(cfg: Config, j: Job, lease: Lease, n: nat, reply: Reply, at: Time): Job {
    if !Owns(j.row, lease) then j
    else
      match FindAttempt(j.attempts, n)
      case Some(i) => ClosedJob(cfg, j, i, reply, at)
      case None => j
  }

  lemma StartLeaves(s: System, w: WorkerId, at: Time)
    requires Linked(s) && Enabled(s, Start(w, at))
    ensures var lease := s.slots[w].lease;
            var t := StartStep(s, w, at);
            && t.jobs == s.jobs[lease.key := StartOutcome(s, s.jobs[lease.key], lease, at)]
            && t.issued == s.issued && t.cfg == s.cfg
  {
  }

  lemma FinishLeaves(s: System, w: WorkerId, at: Time)
    requires Linked(s) && Enabled(s, Finish(w, at))
    ensures var Returned(lease, n, reply) := s.slots[w];
            var t := FinishStep(s, w, at);
            && t.jobs == s.jobs[lease.key := FinishOutcome(s.cfg, s.jobs[lease.key], lease, n, reply, at)]
            && t.issued == s.issued && t.cfg == s.cfg
  {
  }

  // ---------- Transactions over many rows ----------

  /** Every row is changed in a way that keeps its ledger and no worker can object to. */
  ghost predicate RowsKept(s: System, t: System) {
    && t.jobs.Keys == s.jobs.Keys && t.leads.Keys == s.leads.Keys && t.slots == s.slots && t.issued == s.issued
    && forall k :: k in s.jobs ==> RowKept(s.issued, k, s.jobs[k], t.jobs[k])
  }

  ghost predicate RowKept(issued: seq<Lease>, k: DeliveryKey, j: Job, j': Job) {
    && j'.row.lead == j.row.lead && JobInv(j') && TokenInv(issued, k, j')
    && forall slot: Slot :: SlotInv(j, slot) ==> SlotInv(j', slot)
  }

  lemma ManyRowsKeep(s: System, t: System)
    requires Linked(s) && Jobs(s) && Workers(s) && RowsKept(s, t)
    ensures Linked(t) && Jobs(t) && Workers(t)
  {
    hide JobInv, SlotInv, TokenInv;
    forall k | k in t.jobs
      ensures t.jobs[k].row.lead in t.leads && JobInv(t.jobs[k]) && TokenInv(t.issued, k, t.jobs[k])
    {
      assert RowKept(s.issued, k, s.jobs[k], t.jobs[k]);
    }
    assert Linked(t);
    forall w | w in t.slots
      ensures WorkerInv(t, w)
    {
      var k := s.slots[w].lease.key;
      assert WorkerInv(s, w) && RowKept(s.issued, k, s.jobs[k], t.jobs[k]);
    }
  }

  lemma RecoverRowKept(issued: seq<Lease>, k: DeliveryKey, j: Job, at: Time)
    requires JobInv(j) && TokenInv(issued, k, j) && IsActive(j.row.status)
    ensures RowKept(issued, k, j, RecoveredJob(j, at))
  {
    hide JobInv;
    RecoverJob(j, k, at, issued);
    RecoveredSlots(j, at);
  }

  lemma RecoveredSlots(j: Job, at: Time)
    requires IsActive(j.row.status)
    ensures forall slot: Slot :: SlotInv(j, slot) ==> SlotInv(RecoveredJob(j, at), slot)
  {
    var rows := RecoveredAttempts(j.row, j.attempts, at);
    assert forall i :: 0 <= i < |rows| ==> rows[i].token == j.attempts[i].token;
  }

  lemma RecoverRows(s: System, keys: set<DeliveryKey>, at: Time)
    requires Inv(s) && Enabled(s, Recover(keys, at))
    ensures RowsKept(s, RecoverStep(s, keys, at))
  {
    hide JobInv, SlotInv, TokenInv, LeadInv, Alerts, RowKept;
    var t := RecoverStep(s, keys, at);
    forall k | k in s.jobs
      ensures RowKept(s.issued, k, s.jobs[k], t.jobs[k])
    {
      if k in keys {
        RecoverRowKept(s.issued, k, s.jobs[k], at);
      } else {
        SameRowKept(s.issued, k, s.jobs[k]);
      }
    }
  }

  lemma SameRowKept(issued: seq<Lease>, k: DeliveryKey, j: Job)
    requires JobInv(j) && TokenInv(issued, k, j)
    ensures RowKept(issued, k, j, j)
  {
  }

  /** A lead none of whose rows was taken back sees no difference. */
  lemma RecoverUntouched(s: System, keys: set<DeliveryKey>, at: Time, l: LeadId)
    requires !Touches(s.jobs, keys, l)
    ensures LooksSame(s.jobs, RecoverStep(s, keys, at).jobs, l)
  {
  }

  lemma RecoverTouched(s: System, keys: set<DeliveryKey>, at: Time, l: LeadId)
    requires Enabled(s, Recover(keys, at)) && l in s.leads && LeadInv(s.jobs, l, s.leads[l])
    requires Touches(s.jobs, keys, l)
    ensures LeadInv(RecoverStep(s, keys, at).jobs, l, RecoverStep(s, keys, at).leads[l])
    ensures HasOpen(s.jobs, l)
  {
    hide EventsInv, HasDelivered, Refreshed, DerivedStatus;
    var t := RecoverStep(s, keys, at);
    var k :| k in keys && k in s.jobs && s.jobs[k].row.lead == l;
    OpenLeadRoutes(s.jobs, k, s.leads[l]);
    assert HasDelivery(t.jobs, l) by { assert t.jobs[k].row.lead == l; }
    RefreshLead(t.jobs, l, s.leads[l]);
  }

  lemma RecoverKeeps(s: System, keys: set<DeliveryKey>, at: Time)
    requires Inv(s) && Enabled(s, Recover(keys, at))
    ensures Inv(RecoverStep(s, keys, at))
  {
    hide JobInv, SlotInv, TokenInv, LeadInv, HasOpen, HasDelivered, HasDelivery, Refreshed, RowsKept, Touches,
         RecoveredJob, LooksSame;
    var t := RecoverStep(s, keys, at);
    RecoverRows(s, keys, at);
    ManyRowsKeep(s, t);
    forall l | l in t.leads
      ensures LeadInv(t.jobs, l, t.leads[l])
      ensures !HasOpen(s.jobs, l) && Alerted(s.jobs, l) ==> Alerted(t.jobs, l)
    {
      if Touches(s.jobs, keys, l) {
        RecoverTouched(s, keys, at, l);
      } else {
        RecoverUntouched(s, keys, at, l);
        LeadKept(s.jobs, t.jobs, l, s.leads[l]);
        LooksSameLead(s.jobs, t.jobs, l);
      }
    }
  }

  lemma CancelRowKept(issued: seq<Lease>, k: DeliveryKey, j: Job, at: Time)
    requires JobInv(j) && TokenInv(issued, k, j)
    ensures RowKept(issued, k, j, j.(row := CancelledRow(j.row, at)))
  {
    CancelJob(j, k, at, issued);
  }

  lemma DeleteRows(s: System, l: LeadId, at: Time)
    requires Inv(s) && l in s.leads
    ensures RowsKept(s, DeleteStep(s, l, at))
  {
    hide JobInv, SlotInv, TokenInv, LeadInv, Alerts, RowKept;
    var t := DeleteStep(s, l, at);
    forall k | k in s.jobs
      ensures RowKept(s.issued, k, s.jobs[k], t.jobs[k])
    {
      CancelRowKept(s.issued, k, s.jobs[k], at);
      SameRowKept(s.issued, k, s.jobs[k]);
    }
  }

  /** A lead that is another's, or has nothing left to cancel, sees no difference. */
  lemma DeleteUnseen(s: System, l: LeadId, at: Time, l': LeadId)
    requires l in s.leads && (l' != l || !HasOpen(s.jobs, l'))
    ensures LooksSame(s.jobs, DeleteStep(s, l, at).jobs, l')
  {
  }

  lemma DeleteKeeps(s: System, l: LeadId, at: Time)
    requires Inv(s) && l in s.leads
    ensures Inv(DeleteStep(s, l, at))
  {
    hide JobInv, SlotInv, TokenInv, HasOpen, HasDelivered, HasDelivery, RowsKept, LooksSame, LeadInv, DeletedFile;
    var t := DeleteStep(s, l, at);
    DeleteRows(s, l, at);
    ManyRowsKeep(s, t);
    DeletedLead(s, l, at);
    forall l' | l' in t.leads && l' != l
      ensures LeadInv(t.jobs, l', t.leads[l'])
    {
      DeleteUnseen(s, l, at, l');
      LeadKept(s.jobs, t.jobs, l', s.leads[l']);
    }
    forall l' | Alerted(s.jobs, l')
      ensures Alerted(t.jobs, l')
    {
      DeleteUnseen(s, l, at, l');
      LooksSameLead(s.jobs, t.jobs, l');
    }
  }

  lemma DeletedLead(s: System, l: LeadId, at: Time)
    requires l in s.leads && LeadInv(s.jobs, l, s.leads[l])
    ensures LeadInv(DeleteStep(s, l, at).jobs, l, DeleteStep(s, l, at).leads[l])
  {
  }

  lemma FreshJob(d: Delivery, k: DeliveryKey, issued: seq<Lease>)
    requires d.status == Pending && d.attemptCount == 0 && d.maxAttempts >= 1 && d.nextAttemptAt.Some?
    requires d == WithoutLease(d)
    ensures JobInv(Job(d, [], [])) && TokenInv(issued, k, Job(d, [], []))
  {
  }

  lemma InsertRows(s: System, l: LeadId, lead: Lead, rows: map<DeliveryKey, Delivery>)
    requires Inv(s) && Enabled(s, Insert(l, lead, rows))
    ensures var t := InsertStep(s, l, lead, rows); Linked(t) && Jobs(t) && Workers(t)
  {
    hide JobInv, TokenInv, SlotInv, LeadInv, Alerts;
    var t := InsertStep(s, l, lead, rows);
    forall k | k in t.jobs
      ensures t.jobs[k].row.lead in t.leads && JobInv(t.jobs[k]) && TokenInv(t.issued, k, t.jobs[k])
    {
      if k in rows {
        FreshJob(rows[k], k, s.issued);
      }
    }
    assert Linked(t);
    forall w | w in t.slots
      ensures WorkerInv(t, w)
    {
      assert WorkerInv(s, w);
    }
  }

  lemma InsertedLead(s: System, l: LeadId, lead: Lead, rows: map<DeliveryKey, Delivery>)
    requires Linked(s) && Enabled(s, Insert(l, lead, rows))
    ensures var t := InsertStep(s, l, lead, rows); LeadInv(t.jobs, l, t.leads[l])
  {
    InsertedRows(s, l, lead, rows);
    hide HasOpen, HasDelivered, HasDelivery, NoneCancelled;
  }

  lemma InsertedRows(s: System, l: LeadId, lead: Lead, rows: map<DeliveryKey, Delivery>)
    requires Linked(s) && Enabled(s, Insert(l, lead, rows))
    ensures var jobs := InsertStep(s, l, lead, rows).jobs;
            && NoneCancelled(jobs, l) && !HasDelivered(jobs, l)
            && (HasOpen(jobs, l) <==> rows.Keys != {}) && (HasDelivery(jobs, l) <==> rows.Keys != {})
  {
    hide WithoutLease;
    var jobs := InsertStep(s, l, lead, rows).jobs;
    assert forall k :: k in jobs && jobs[k].row.lead == l ==> k in rows;
    if rows.Keys != {} {
      var k :| k in rows;
      assert jobs[k].row.lead == l && IsOpen(jobs[k].row.status);
    }
  }

  lemma InsertUnseen(s: System, l: LeadId, lead: Lead, rows: map<DeliveryKey, Delivery>, l': LeadId)
    requires Linked(s) && Enabled(s, Insert(l, lead, rows)) && l' in s.leads
    ensures LooksSame(s.jobs, InsertStep(s, l, lead, rows).jobs, l')
  {
  }

  lemma InsertKeeps(s: System, l: LeadId, lead: Lead, rows: map<DeliveryKey, Delivery>)
    requires Inv(s) && Enabled(s, Insert(l, lead, rows))
    ensures Inv(InsertStep(s, l, lead, rows))
  {
    hide JobInv, SlotInv, TokenInv, HasOpen, HasDelivered, HasDelivery, LooksSame, LeadInv;
    var t := InsertStep(s, l, lead, rows);
    InsertRows(s, l, lead, rows);
    InsertedLead(s, l, lead, rows);
    forall l' | l' in s.leads
      ensures LeadInv(t.jobs, l', t.leads[l'])
      ensures Alerted(s.jobs, l') ==> Alerted(t.jobs, l')
    {
      InsertUnseen(s, l, lead, rows, l');
      LeadKept(s.jobs, t.jobs, l', s.leads[l']);
      LooksSameLead(s.jobs, t.jobs, l');
    }
  }

  // ---------- The invariant is inductive ----------

  lemma InitialInv(s: System)
    requires Initial(s)
    ensures Inv(s)
  {
  }

  lemma StepKeeps(s: System, a: Action)
    requires Inv(s) && Enabled(s, a)
    ensures Inv(Step(s, a))
  {
    hide Inv;
    match a
    case Tick(until) => TickKeeps(s, until);
    case Insert(l, lead, rows) => InsertKeeps(s, l, lead, rows);
    case Assign(assignments) => AssignKeeps(s, assignments);
    case Claim(w, k, at) => ClaimKeeps(s, w, k, at);
    case Start(w, at) => StartKeeps(s, w, at);
    case BeginCall(w) => BeginCallKeeps(s, w);
    case Return(w, reply) => ReturnKeeps(s, w, reply);
    case Finish(w, at) => FinishKeeps(s, w, at);
    case Heartbeat(w, at) => HeartbeatKeeps(s, w, at);
    case Recover(keys, at) => RecoverKeeps(s, keys, at);
    case Delete(l, at) => DeleteKeeps(s, l, at);
    case Crash(w) => ReleaseKeeps(s, w);
  }
}
