/** The delivery worker and the privacy service as they run: methods that update the stored rows in place.
    Each public method is one committed transaction and is proved to take exactly one step of the protocol. */
module DeliveryWorker {
  import opened Wrappers
  import opened DeliveryTypes
  import opened DeliveryProtocol
  import opened DeliveryInvariant
  import opened DeliverySafety

  /** What the claim query returns: the first ten claimable rows by (next_attempt_at, id). */
  ghost predicate Precedes(jobs: map<DeliveryKey, Job>, a: DeliveryKey, b: DeliveryKey)
    requires a in jobs && b in jobs && jobs[a].row.nextAttemptAt.Some? && jobs[b].row.nextAttemptAt.Some?
  {
    var ta, tb := jobs[a].row.nextAttemptAt.value, jobs[b].row.nextAttemptAt.value;
    ta < tb || (ta == tb && a <= b)
  }

  ghost predicate IsSelection(jobs: map<DeliveryKey, Job>, at: Time, ids: seq<DeliveryKey>) {
    && |ids| <= 10
    && (forall k :: k in jobs && IsClaimable(jobs[k].row.status) ==> jobs[k].row.nextAttemptAt.Some?)
    && (forall i :: 0 <= i < |ids| ==> ids[i] in jobs && Claimable(jobs[ids[i]].row, at))
    && (forall i, j :: 0 <= i < j < |ids| ==> Precedes(jobs, ids[i], ids[j]))
    && (forall k :: k in jobs && Claimable(jobs[k].row, at) ==>
          k in ids || (|ids| == 10 && forall i :: 0 <= i < |ids| ==> Precedes(jobs, ids[i], k)))
  }

  lemma FirstIsOldest(jobs: map<DeliveryKey, Job>, at: Time, ids: seq<DeliveryKey>)
    ensures IsSelection(jobs, at, ids) ==>
              ((exists k :: k in jobs && Claimable(jobs[k].row, at)) <==>
               exists i :: 0 <= i < |ids| && ids[i] in jobs && Claimable(jobs[ids[i]].row, at))
    ensures IsSelection(jobs, at, ids) && |ids| > 0 ==>
              forall k :: k in jobs && Claimable(jobs[k].row, at) ==> Precedes(jobs, ids[0], k)
  {
    if IsSelection(jobs, at, ids) && exists k :: k in jobs && Claimable(jobs[k].row, at) {
      var k :| k in jobs && Claimable(jobs[k].row, at);
      assert k in ids || ids[0] in jobs;
    }
  }

  /** What a failing row held just before it failed makes no difference. */
  lemma FailingHides(s: System, t: System, k: DeliveryKey, j: Job)
    requires k in t.jobs && t == s.(jobs := s.jobs[k := t.jobs[k]]) && j.row.lead in s.leads
    ensures SettledFailure(t, k, j) == SettledFailure(s, k, j)
  {
    assert t.jobs[k := j] == s.jobs[k := j];
  }

  lemma NotingCall(s: System, t: System, k: DeliveryKey, j: Job)
    requires k in t.jobs && t == s.(jobs := s.jobs[k := t.jobs[k]]) && j.row.lead in s.leads
    ensures Settled(t, k, j) == Settled(s, k, j) && SettledFailure(t, k, j) == SettledFailure(s, k, j)
  {
    assert t.jobs[k := j] == s.jobs[k := j];
  }

  function KeysOf(rows: seq<DeliveryKey>): set<DeliveryKey> { set k | k in rows }

  lemma ReplyKeepsLead(cfg: Config, d: Delivery, reply: Reply, at: Time)
    ensures ClosedRow(cfg, d, reply, at).lead == d.lead
  {
  }

  lemma RecoverNothing(s: System, at: Time)
    ensures RecoverStep(s, {}, at) == s
  {
    var t := RecoverStep(s, {}, at);
    assert t.jobs == s.jobs && t.leads == s.leads;
  }

  /** Row by row, with a lead refresh after each row, comes to the same as all rows at once: an earlier
      refresh of the same lead is overwritten, and adds no event while a row of that lead is still open. */
  lemma RecoverOneMore(s: System, keys: set<DeliveryKey>, k: DeliveryKey, at: Time)
    requires Linked(s) && k in s.jobs && k !in keys && IsActive(s.jobs[k].row.status)
    ensures var t := RecoverStep(s, keys, at);
            && t.jobs[k] == s.jobs[k] && s.jobs[k].row.lead in t.leads && k in t.jobs
            && RecoverStep(s, keys + {k}, at) == Settled(t, k, RecoveredJob(s.jobs[k], at))
  {
    hide RecoveredAttempts, IsOpen, DerivedStatus, Refreshed, RecoveredRow;
    RecoveredLead(s.jobs[k], at);
    var t, u := RecoverStep(s, keys, at), RecoverStep(s, keys + {k}, at);
    var l := s.jobs[k].row.lead;
    var v := Settled(t, k, RecoveredJob(s.jobs[k], at));
    assert u.jobs == v.jobs;
    StillOpen(t.jobs, k);
    forall l' | l' in s.leads
      ensures u.leads[l'] == v.leads[l']
    {
      if l' == l {
        assert Touches(s.jobs, keys + {k}, l);
        RefreshTwice(s.leads[l], DerivedStatus(u.jobs, l));
      } else {
        RecoverElsewhere(s, keys, k, at, l');
      }
    }
    assert u.leads == v.leads;
  }

  lemma RecoveredLead(j: Job, at: Time)
    ensures RecoveredJob(j, at).row.lead == j.row.lead
  {
  }

  lemma StillOpen(jobs: map<DeliveryKey, Job>, k: DeliveryKey)
    requires k in jobs && IsActive(jobs[k].row.status)
    ensures DerivedStatus(jobs, jobs[k].row.lead) == Routing
  {
  }

  lemma RefreshTwice(file: LeadFile, status: LeadStatus)
    ensures Refreshed(Refreshed(file, Routing), status) == Refreshed(file, status)
  {
  }

  lemma RecoverElsewhere(s: System, keys: set<DeliveryKey>, k: DeliveryKey, at: Time, l: LeadId)
    requires k in s.jobs && k !in keys && s.jobs[k].row.lead != l
    ensures Touches(s.jobs, keys + {k}, l) == Touches(s.jobs, keys, l)
    ensures DerivedStatus(RecoverStep(s, keys + {k}, at).jobs, l) == DerivedStatus(RecoverStep(s, keys, at).jobs, l)
  {
    hide RecoveredJob, IsOpen, LooksSame, HasOpen, HasDelivered;
    if Touches(s.jobs, keys, l) {
      var n :| n in keys && n in s.jobs && s.jobs[n].row.lead == l;
      assert n in keys + {k};
    }
    ElsewhereLooksSame(s, keys, k, at, l);
    LooksSameLead(RecoverStep(s, keys, at).jobs, RecoverStep(s, keys + {k}, at).jobs, l);
  }

  lemma ElsewhereLooksSame(s: System, keys: set<DeliveryKey>, k: DeliveryKey, at: Time, l: LeadId)
    requires k in s.jobs && k !in keys && s.jobs[k].row.lead != l
    ensures LooksSame(RecoverStep(s, keys, at).jobs, RecoverStep(s, keys + {k}, at).jobs, l)
  {
    RecoveredLead(s.jobs[k], at);
    hide RecoveredJob, IsOpen;
  }

  predicate Expired(file: LeadFile, at: Time) {
    file.row.retentionExpiresAt <= at && file.row.piiDeletedAt == None
  }

  lemma CancelKeepsLead(at: Time)
    ensures forall d: Delivery :: CancelledRow(d, at).lead == d.lead
  {
  }

  /** The listed leads have been deleted one by one, and no other row has changed. */
  ghost predicate Cleared(s: System, t: System, ids: seq<LeadId>, at: Time) {
    && t == s.(jobs := t.jobs, leads := t.leads)
    && t.leads.Keys == s.leads.Keys && t.jobs.Keys == s.jobs.Keys
    && (forall l :: l in s.leads ==> t.leads[l] == if l in ids then DeletedFile(s.leads[l], at) else s.leads[l])
    && (forall k :: k in s.jobs ==>
          t.jobs[k] == if s.jobs[k].row.lead in ids then s.jobs[k].(row := CancelledRow(s.jobs[k].row, at)) else s.jobs[k])
  }

  lemma NothingCleared(s: System, at: Time)
    ensures Cleared(s, s, [], at)
  {
  }

  lemma ClearOneMore(s: System, t: System, ids: seq<LeadId>, l: LeadId, at: Time)
    requires Cleared(s, t, ids, at) && l in s.leads && l !in ids
    ensures l in t.leads && Cleared(s, DeleteStep(t, l, at), ids + [l], at)
  {
    hide Anonymised, CancelledRow;
    CancelKeepsLead(at);
  }

  class DeliveryStore {
    const cfg: Config
    var now: Time
    var leads: map<LeadId, LeadFile>
    var jobs: map<DeliveryKey, Job>
    var assignments: map<AssignmentId, Assignment>
    var slots: map<WorkerId, Slot>
    var issued: seq<Lease>
    var alerts: seq<LeadId>

    constructor (cfg: Config, now: Time)
      ensures Initial(View()) && View().cfg == cfg && View().now == now
    {
      this.cfg := cfg;
      this.now := now;
      leads, jobs, assignments, slots, issued, alerts := map[], map[], map[], map[], [], [];
    }

    ghost function View(): System
      reads this
    {
      System(cfg, now, leads, jobs, assignments, slots, issued, alerts)
    }

    method AdvanceClock(until: Time)
      requires Inv(View()) && now <= until
      modifies this`now
      ensures View() == old(View()).(now := until) && Inv(View())
    {
      TickKeeps(View(), until);
      now := until;
    }

    /** The rows a committed submission leaves behind. */
    method StoreSubmission(l: LeadId, lead: Lead, rows: map<DeliveryKey, Delivery>)
      requires Inv(View()) && Enabled(View(), Insert(l, lead, rows))
      modifies this`leads, this`jobs
      ensures View() == InsertStep(old(View()), l, lead, rows) && Inv(View())
    {
      InsertKeeps(View(), l, lead, rows);
      leads := leads[l := LeadFile(lead, [Event(FormSubmit, false)])];
      jobs := jobs + map k | k in rows :: Job(rows[k], [], []);
    }

    method StoreAssignments(assignments: map<AssignmentId, Assignment>)
      requires Inv(View())
      modifies this`assignments
      ensures View() == old(View()).(assignments := assignments) && Inv(View())
    {
      AssignKeeps(View(), assignments);
      this.assignments := assignments;
    }

    // ---------- Claim ----------

    /** The candidate ids come from an earlier read and may be out of date: the update tests each again. */
    method ClaimNextDelivery(w: WorkerId, ids: seq<DeliveryKey>, claimedAt: Time) returns (lease: Option<Lease>)
      requires Inv(View()) && w !in slots && claimedAt <= now
      modifies this
      ensures Inv(View())
      ensures lease.None? ==> View() == old(View())
      ensures lease.None? ==> forall k :: k in ids && k in old(jobs) ==>
                var d := old(jobs)[k].row;
                d.status !in {Pending, Retrying} || (d.nextAttemptAt.Some? && d.nextAttemptAt.value > claimedAt)
      ensures lease.Some? ==> View() == ClaimStep(old(View()), w, lease.value.key, claimedAt)
      ensures lease.Some? ==> lease.value.key in ids && lease.value.key in old(jobs)
      ensures lease.Some? ==>
                var d := old(jobs)[lease.value.key].row;
                d.status in {Pending, Retrying} && (d.nextAttemptAt.None? || d.nextAttemptAt.value <= claimedAt)
      ensures lease.Some? ==> lease.value.worker == w && lease.value.token == |old(issued)| && issued == old(issued) + [lease.value]
      // With an up-to-date read, the claim finds work whenever there is any, oldest first.
      ensures IsSelection(old(jobs), claimedAt, ids) ==>
                (lease.Some? <==> exists k :: k in old(jobs) && Claimable(old(jobs)[k].row, claimedAt))
      ensures IsSelection(old(jobs), claimedAt, ids) && lease.Some? ==>
                forall k :: k in old(jobs) && Claimable(old(jobs)[k].row, claimedAt) ==>
                              Precedes(old(jobs), lease.value.key, k)
    {
      hide Jobs, Workers, Leads, Alerts;
      for i := 0 to |ids|
        invariant View() == old(View())
        invariant forall n :: 0 <= n < i && ids[n] in jobs ==> !Claimable(jobs[ids[n]].row, claimedAt)
      {
        var k := ids[i];
        var token := |issued|;
        if k in jobs && Claimable(jobs[k].row, claimedAt) {
          assert i > 0 ==> ids[0] !in jobs || !Claimable(jobs[ids[0]].row, claimedAt);
          assert IsSelection(jobs, claimedAt, ids) ==> i == 0;
          FirstIsOldest(jobs, claimedAt, ids);
          ClaimKeeps(View(), w, k, claimedAt);
          jobs := jobs[k := jobs[k].(row := jobs[k].row.(
            status := Leased,
            worker := Some(w),
            token := Some(token),
            claimedAt := Some(claimedAt),
            heartbeatAt := Some(claimedAt),
            leaseExpiresAt := Some(claimedAt + cfg.leaseFor),
            nextAttemptAt := None))];
          var granted := Lease(k, w, token);
          issued := issued + [granted];
          slots := slots[w := Holding(granted)];
          return Some(granted);
        }
      }
      FirstIsOldest(jobs, claimedAt, ids);
      return None;
    }

    // ---------- Small in-place updates ----------

    method ClearLease(k: DeliveryKey)
      requires k in jobs
      modifies this`jobs
      ensures jobs == old(jobs)[k := old(jobs)[k].(row := WithoutLease(old(jobs)[k].row))]
    {
      jobs := jobs[k := jobs[k].(row := jobs[k].row.(worker := None, token := None, claimedAt := None))];
      jobs := jobs[k := jobs[k].(row := jobs[k].row.(heartbeatAt := None, leaseExpiresAt := None))];
    }

    method AddLeadEvent(l: LeadId, kind: EventKind)
      requires l in leads
      modifies this`leads
      ensures leads == old(leads)[l := LeadFile(old(leads)[l].row, WithEvent(old(leads)[l].events, kind))]
      ensures HasLiveEvent(leads[l].events, kind) && old(leads)[l].events <= leads[l].events
    {
      if HasLiveEvent(leads[l].events, kind) {
        return;
      }
      assert (leads[l].events + [Event(kind, false)])[|leads[l].events|] == Event(kind, false);
      leads := leads[l := leads[l].(events := leads[l].events + [Event(kind, false)])];
    }

    /** Recompute the status of a lead; the result says that it has just failed. */
    method RefreshLeadState(l: LeadId) returns (failed: bool)
      modifies this`leads
      ensures l !in old(leads) ==> leads == old(leads) && !failed
      ensures l in old(leads) ==>
                && leads == old(leads)[l := Refreshed(old(leads)[l], DerivedStatus(jobs, l))]
                && (failed <==> DerivedStatus(jobs, l) == DeliveryFailed)
    {
      if l !in leads {
        return false;
      }
      if HasOpen(jobs, l) {
        leads := leads[l := leads[l].(row := leads[l].row.(status := Routing))];
        return false;
      }
      if HasDelivered(jobs, l) {
        leads := leads[l := leads[l].(row := leads[l].row.(status := LeadDelivered))];
        AddLeadEvent(l, ProviderDelivery);
        return false;
      }
      leads := leads[l := leads[l].(row := leads[l].row.(status := DeliveryFailed))];
      AddLeadEvent(l, DeliveryFailedEvent);
      return true;
    }

    method FailDelivery(k: DeliveryKey, code: ErrorCode, at: Time) returns (alert: Option<LeadId>)
      requires k in jobs && jobs[k].row.lead in leads
      modifies this`jobs, this`leads, this`alerts
      ensures View() == SettledFailure(old(View()), k, old(jobs)[k].(row := FailedRow(old(jobs)[k].row, code, at)))
      ensures alert.Some? <==> alerts != old(alerts)
      ensures alert.Some? ==> alert.value == old(jobs)[k].row.lead && alerts == old(alerts) + [alert.value]
    {
      jobs := jobs[k := jobs[k].(row := jobs[k].row.(status := Failed, lastError := Some(code)))];
      jobs := jobs[k := jobs[k].(row := jobs[k].row.(completedAt := Some(at)))];
      ClearLease(k);
      assert jobs == old(jobs)[k := old(jobs)[k].(row := FailedRow(old(jobs)[k].row, code, at))];
      var leadFailed := RefreshLeadState(jobs[k].row.lead);
      if !leadFailed {
        return None;
      }
      alerts := alerts + [jobs[k].row.lead];
      return Some(jobs[k].row.lead);
    }

    method RetryOrFail(k: DeliveryKey, i: nat, at: Time) returns (alert: Option<LeadId>)
      requires k in jobs && jobs[k].row.lead in leads && i < |jobs[k].attempts|
      modifies this`jobs, this`leads, this`alerts
      ensures var j := old(jobs)[k];
              var reply := Raised(true);
              var j' := j.(row := ClosedRow(cfg, j.row, reply, at),
                           attempts := j.attempts[i := ClosedAttempt(j.attempts[i], reply, at)]);
              View() == if j'.row.status == Failed then SettledFailure(old(View()), k, j')
                        else Settled(old(View()), k, j')
      ensures alert.Some? <==> alerts != old(alerts)
      ensures alert.Some? ==> alerts == old(alerts) + [alert.value]
    {
      hide EventsAfter, DerivedStatus, RetryDelay, SettledFailure;
      var attempt := jobs[k].attempts[i].(status := RetryableFailure, error := Some(RetryableAdapterFailure));
      attempt := attempt.(completedAt := Some(at));
      jobs := jobs[k := jobs[k].(attempts := jobs[k].attempts[i := attempt])];
      jobs := jobs[k := jobs[k].(row := jobs[k].row.(lastError := attempt.error))];
      var d := jobs[k].row;
      if d.attemptCount >= d.maxAttempts {
        ghost var before := View();
        alert := FailDelivery(k, DeliveryAttemptsExhausted, at);
        FailingHides(old(View()), before, k, before.jobs[k].(row := FailedRow(d, DeliveryAttemptsExhausted, at)));
        return;
      }
      var delay := RetryDelay(cfg, d.attemptCount);
      jobs := jobs[k := jobs[k].(row := d.(status := Retrying, nextAttemptAt := Some(at + delay)))];
      ClearLease(k);
      assert jobs == old(jobs)[k := jobs[k]];
      var _ := RefreshLeadState(jobs[k].row.lead);
      return None;
    }

    // ---------- The stages of one delivery ----------

    /** First transaction: check the lease and the assignment, then record the attempt. */
    method StartDelivery(w: WorkerId, at: Time) returns (alert: Option<LeadId>)
      requires Inv(View()) && Enabled(View(), Start(w, at))
      modifies this
      ensures View() == StartStep(old(View()), w, at) && Inv(View())
      ensures alert.Some? <==> alerts != old(alerts)
      ensures alert.Some? ==> alerts == old(alerts) + [alert.value]
    {
      hide Jobs, Workers, Leads, Alerts, StartError, SettledFailure;
      StartKeeps(View(), w, at);
      var lease := slots[w].lease;
      var k := lease.key;
      var d := jobs[k].row;
      if !Owns(d, lease) {
        slots := slots - {w};
        return None;
      }
      var error := CheckDelivery(d);
      if error.Some? {
        slots := slots - {w};
        alert := FailDelivery(k, error.value, at);
        return;
      }
      var attemptNumber := d.attemptCount + 1;
      jobs := jobs[k := jobs[k].(row := jobs[k].row.(attemptCount := attemptNumber, status := Delivering))];
      var attempt := Attempt(attemptNumber, Running, None, None, lease.token);
      jobs := jobs[k := jobs[k].(attempts := jobs[k].attempts + [attempt])];
      slots := slots[w := Ready(lease, attemptNumber)];
      assert jobs == old(jobs)[k := StartedJob(old(jobs)[k], lease.token)];
      return None;
    }

    method CheckDelivery(d: Delivery) returns (error: Option<ErrorCode>)
      ensures error == StartError(View(), d) && (error == None <==> Deliverable(View(), d))
    {
      CheckPassesExactly(View(), d);
      if d.lead !in leads {
        return Some(LeadNotFound);
      }
      if d.assignment !in assignments {
        return Some(ProviderAssignmentNotFound);
      }
      var assignment := assignments[d.assignment];
      var destination := DestinationOf(assignment, d.channel);
      if assignment.status != Active {
        return Some(ProviderAssignmentNotActive);
      }
      if leads[d.lead].row.assignment != Some(d.assignment) {
        return Some(LeadAssignmentMismatch);
      }
      if d.channel !in cfg.adapters || cfg.adapters[d.channel] != d.adapterName {
        return Some(DeliveryAdapterUnavailable);
      }
      if destination.None? {
        return Some(AssignmentDestinationUnavailable);
      }
      if MaskedDestination(destination.value) != d.destinationReference {
        return Some(AssignmentDestinationChanged);
      }
      return None;
    }

    method BeginProviderCall(w: WorkerId)
      requires Inv(View()) && Enabled(View(), BeginCall(w))
      modifies this
      ensures View() == BeginCallStep(old(View()), w) && Inv(View())
    {
      hide Jobs, Workers, Leads, Alerts, StartError, SettledFailure;
      BeginCallKeeps(View(), w);
      var Ready(lease, n) := slots[w];
      slots := slots[w := Calling(lease, n)];
      jobs := jobs[lease.key := jobs[lease.key].(calls := jobs[lease.key].calls + [Call(n, InFlight)])];
    }

    method ProviderReturns(w: WorkerId, reply: Reply)
      requires Inv(View()) && Enabled(View(), Return(w, reply))
      modifies this
      ensures View() == ReturnStep(old(View()), w, reply) && Inv(View())
    {
      hide Jobs, Workers, Leads, Alerts, StartError, SettledFailure;
      ReturnKeeps(View(), w, reply);
      var Calling(lease, n) := slots[w];
      slots := slots[w := Returned(lease, n, reply)];
      jobs := jobs[lease.key := jobs[lease.key].(calls := MarkLast(jobs[lease.key].calls, Answered(reply)))];
    }

    /** A heartbeat; false tells the worker's heartbeat loop to stop. */
    method HeartbeatDelivery(w: WorkerId, at: Time) returns (kept: bool)
      requires Inv(View()) && Enabled(View(), Heartbeat(w, at))
      modifies this
      ensures View() == HeartbeatStep(old(View()), w, at) && Inv(View())
      ensures kept <==> Owns(old(jobs)[old(slots)[w].lease.key].row, old(slots)[w].lease)
      ensures !kept ==> View() == old(View())
      ensures kept ==>
                var k := old(slots)[w].lease.key;
                View() == old(View()).(jobs := old(jobs)[k := old(jobs)[k].(row :=
                  old(jobs)[k].row.(heartbeatAt := Some(at), leaseExpiresAt := Some(at + cfg.leaseFor)))])
    {
      hide Jobs, Workers, Leads, Alerts, StartError, SettledFailure;
      HeartbeatKeeps(View(), w, at);
      var lease := slots[w].lease;
      var d := jobs[lease.key].row;
      if Owns(d, lease) {
        jobs := jobs[lease.key := jobs[lease.key].(row :=
          d.(heartbeatAt := Some(at), leaseExpiresAt := Some(at + cfg.leaseFor)))];
        return true;
      }
      return false;
    }

    /** Last transaction: if the lease still holds, record what the provider said. */
    method FinishDelivery(w: WorkerId, at: Time) returns (alert: Option<LeadId>)
      requires Inv(View()) && Enabled(View(), Finish(w, at))
      modifies this
      ensures View() == FinishStep(old(View()), w, at) && Inv(View())
      ensures alert.Some? <==> alerts != old(alerts)
      ensures alert.Some? ==> alerts == old(alerts) + [alert.value]
    {
      hide Jobs, Workers, Leads, Alerts, SettledFailure, Settled, ClosedRow, ClosedAttempt, MarkLast;
      FinishKeeps(View(), w, at);
      var Returned(lease, n, reply) := slots[w];
      var k := lease.key;
      slots := slots - {w};
      if !Owns(jobs[k].row, lease) {
        return None;
      }
      var found := FindAttempt(jobs[k].attempts, n);
      if found.None? {
        return None;
      }
      var i := found.value;
      jobs := jobs[k := jobs[k].(calls := MarkLast(jobs[k].calls, Recorded(reply)))];
      ghost var noted := View();
      alert := RecordReply(k, i, reply, at);
      ReplyKeepsLead(cfg, old(jobs)[k].row, reply, at);
      NotingCall(Released(old(View()), w), noted, k, ClosedJob(cfg, old(jobs)[k], i, reply, at));
    }

    /** The row, its attempt and its lead after the provider's reply. */
    method RecordReply(k: DeliveryKey, i: nat, reply: Reply, at: Time) returns (alert: Option<LeadId>)
      requires k in jobs && jobs[k].row.lead in leads && i < |jobs[k].attempts|
      modifies this`jobs, this`leads, this`alerts
      ensures var j := old(jobs)[k];
              var j' := j.(row := ClosedRow(cfg, j.row, reply, at),
                           attempts := j.attempts[i := ClosedAttempt(j.attempts[i], reply, at)]);
              View() == if j'.row.status == Failed then SettledFailure(old(View()), k, j')
                        else Settled(old(View()), k, j')
      ensures alert.Some? <==> alerts != old(alerts)
      ensures alert.Some? ==> alerts == old(alerts) + [alert.value]
    {
      hide SettledFailure, RetryDelay;
      if IsAccepted(reply) {
        Accept(k, i, reply.message, at);
        alert := None;
      } else if IsRetryable(reply) {
        alert := RetryOrFail(k, i, at);
      } else if reply.Raised? {
        alert := GiveUp(k, i, PermanentFailure, AdapterFailure, at);
      } else {
        alert := GiveUp(k, i, Rejected, ProviderRejectedDelivery, at);
      }
    }

    /** The provider took the lead. */
    method Accept(k: DeliveryKey, i: nat, message: string, at: Time)
      requires k in jobs && jobs[k].row.lead in leads && i < |jobs[k].attempts|
      modifies this`jobs, this`leads
      ensures var j := old(jobs)[k];
              var reply := Answer(true, false, message);
              View() == Settled(old(View()), k,
                j.(row := ClosedRow(cfg, j.row, reply, at),
                   attempts := j.attempts[i := ClosedAttempt(j.attempts[i], reply, at)]))
    {
      var attempt := jobs[k].attempts[i].(status := Succeeded, completedAt := Some(at));
      jobs := jobs[k := jobs[k].(attempts := jobs[k].attempts[i := attempt])];
      jobs := jobs[k := jobs[k].(row := jobs[k].row.(messageId := Some(message), status := Delivered))];
      jobs := jobs[k := jobs[k].(row := jobs[k].row.(deliveredAt := Some(at), completedAt := Some(at)))];
      jobs := jobs[k := jobs[k].(row := jobs[k].row.(lastError := None))];
      ClearLease(k);
      assert jobs == old(jobs)[k := jobs[k]];
      var _ := RefreshLeadState(jobs[k].row.lead);
    }

    /** A permanent error or a refusal: close the attempt and fail the delivery with the same code. */
    method GiveUp(k: DeliveryKey, i: nat, status: AttemptStatus, code: ErrorCode, at: Time)
      returns (alert: Option<LeadId>)
      requires k in jobs && jobs[k].row.lead in leads && i < |jobs[k].attempts|
      modifies this`jobs, this`leads, this`alerts
      ensures var j := old(jobs)[k];
              View() == SettledFailure(old(View()), k,
                j.(row := FailedRow(j.row, code, at),
                   attempts := j.attempts[i := j.attempts[i].(status := status, error := Some(code),
                                                              completedAt := Some(at))]))
      ensures alert.Some? <==> alerts != old(alerts)
      ensures alert.Some? ==> alerts == old(alerts) + [alert.value]
    {
      var attempt := jobs[k].attempts[i].(status := status, error := Some(code), completedAt := Some(at));
      jobs := jobs[k := jobs[k].(attempts := jobs[k].attempts[i := attempt])];
      ghost var before := View();
      alert := FailDelivery(k, code, at);
      FailingHides(old(View()), before, k, before.jobs[k].(row := FailedRow(before.jobs[k].row, code, at)));
    }

    // ---------- Recovery ----------

    /** `rows` is what the locking query returned: stale rows, each once; locked rows may be missing. */
    method RecoverStaleDeliveries(rows: seq<DeliveryKey>, recoveredAt: Time) returns (count: nat)
      requires Inv(View()) && Enabled(View(), Recover(KeysOf(rows), recoveredAt))
      requires forall i, j :: 0 <= i < j < |rows| ==> rows[i] != rows[j]
      modifies this
      ensures View() == RecoverStep(old(View()), KeysOf(rows), recoveredAt) && Inv(View())
      ensures count == |rows|
    {
      hide Jobs, Workers, Leads, Alerts, RecoverStep;
      RecoverKeeps(View(), KeysOf(rows), recoveredAt);
      RecoverNothing(View(), recoveredAt);
      assert KeysOf(rows[..0]) == {};
      for i := 0 to |rows|
        invariant View() == RecoverStep(old(View()), KeysOf(rows[..i]), recoveredAt)
      {
        var k := rows[i];
        ghost var done := KeysOf(rows[..i]);
        RecoverOneMore(old(View()), done, k, recoveredAt);
        RecoverDelivery(k, recoveredAt);
        assert KeysOf(rows[..i + 1]) == done + {k} by { assert rows[..i + 1] == rows[..i] + [k]; }
      }
      assert rows[..|rows|] == rows;
      count := |rows|;
    }

    method RecoverDelivery(k: DeliveryKey, at: Time)
      requires k in jobs && jobs[k].row.lead in leads
      modifies this`jobs, this`leads
      ensures View() == Settled(old(View()), k, RecoveredJob(old(jobs)[k], at))
    {
      var d := jobs[k].row;
      if d.status == Delivering {
        d := d.(status := OutcomeUnknown, lastError := Some(WorkerLostDuringProviderCall), completedAt := Some(at));
        var i := LastRunning(jobs[k].attempts);
        if i.Some? {
          var attempt := jobs[k].attempts[i.value].(status := AttemptUnknown, error := d.lastError);
          attempt := attempt.(completedAt := Some(at));
          jobs := jobs[k := jobs[k].(attempts := jobs[k].attempts[i.value := attempt])];
        }
      } else {
        d := d.(status := Retrying, nextAttemptAt := Some(at), lastError := Some(WorkerLostBeforeProviderCall));
      }
      jobs := jobs[k := jobs[k].(row := d)];
      ClearLease(k);
      assert jobs == old(jobs)[k := RecoveredJob(old(jobs)[k], at)];
      var _ := RefreshLeadState(jobs[k].row.lead);
    }

    // ---------- Privacy ----------

    method DeleteLead(l: LeadId, privileged: bool, at: Time) returns (r: Result<bool, string>)
      requires Inv(View()) && at <= now
      modifies this
      ensures Inv(View())
      ensures !privileged ==> r == Err("lead_deletion_requires_privileged_role") && View() == old(View())
      ensures privileged && l !in old(leads) ==> r == Ok(false) && View() == old(View())
      ensures privileged && l in old(leads) ==> r == Ok(true) && View() == DeleteStep(old(View()), l, at)
    {
      if !privileged {
        return Err("lead_deletion_requires_privileged_role");
      }
      if l !in leads {
        return Ok(false);
      }
      Anonymize(l, at);
      return Ok(true);
    }

    method Anonymize(l: LeadId, at: Time)
      requires Inv(View()) && l in leads
      modifies this
      ensures View() == DeleteStep(old(View()), l, at) && Inv(View())
    {
      hide Jobs, Workers, Leads, Alerts, CancelledRow;
      DeleteKeeps(View(), l, at);
      leads := leads[l := leads[l].(row := leads[l].row.(status := Deleted, piiDeletedAt := Some(at)))];
      CancelDeliveries(l, at);
      leads := leads[l := leads[l].(events := Anonymised(leads[l].events))];
      assert jobs == DeleteStep(old(View()), l, at).jobs;
    }

    method CancelDeliveries(l: LeadId, at: Time)
      modifies this`jobs
      ensures jobs.Keys == old(jobs).Keys
      ensures forall k :: k in jobs ==>
                jobs[k] == if old(jobs)[k].row.lead == l
                           then old(jobs)[k].(row := CancelledRow(old(jobs)[k].row, at)) else old(jobs)[k]
    {
      hide CancelledRow;
      CancelKeepsLead(at);
      var rest := set k | k in jobs && jobs[k].row.lead == l;
      while rest != {}
        invariant jobs.Keys == old(jobs).Keys && rest <= jobs.Keys
        invariant forall k :: k in rest ==> old(jobs)[k].row.lead == l
        invariant forall k :: k in jobs ==>
          jobs[k] == if old(jobs)[k].row.lead == l && k !in rest
                     then old(jobs)[k].(row := CancelledRow(old(jobs)[k].row, at)) else old(jobs)[k]
        decreases rest
      {
        var k :| k in rest;
        CancelDelivery(k, at);
        rest := rest - {k};
      }
    }

    method CancelDelivery(k: DeliveryKey, at: Time)
      requires k in jobs
      modifies this`jobs
      ensures jobs == old(jobs)[k := old(jobs)[k].(row := CancelledRow(old(jobs)[k].row, at))]
    {
      var d := jobs[k].row;
      d := d.(destinationReference := "<deleted>", messageId := None);
      if d.status == Pending || d.status == Leased || d.status == Delivering || d.status == Retrying {
        d := d.(status := Cancelled, nextAttemptAt := None);
        d := d.(worker := None, token := None, claimedAt := None, heartbeatAt := None, leaseExpiresAt := None);
        d := d.(completedAt := Some(at));
      }
      jobs := jobs[k := jobs[k].(row := d)];
    }

    /** Anonymise every lead whose retention has run out and which has not been anonymised yet. */
    method EnforceRetention(at: Time) returns (ids: seq<LeadId>)
      requires Inv(View()) && at <= now
      modifies this
      ensures Inv(View())
      ensures forall i, j :: 0 <= i < j < |ids| ==> ids[i] != ids[j]
      ensures forall l :: l in ids <==>
                l in old(leads) && old(leads)[l].row.piiDeletedAt.None? && old(leads)[l].row.retentionExpiresAt <= at
      ensures Cleared(old(View()), View(), ids, at)
    {
      hide Inv, Cleared, DeleteStep;
      var rest := set l | l in leads && Expired(leads[l], at);
      ids := [];
      NothingCleared(View(), at);
      while rest != {}
        invariant Inv(View()) && Cleared(old(View()), View(), ids, at)
        invariant forall i, j :: 0 <= i < j < |ids| ==> ids[i] != ids[j]
        invariant forall l :: l in ids ==> l !in rest
        invariant forall l :: l in ids || l in rest <==> l in old(leads) && Expired(old(leads)[l], at)
        decreases rest
      {
        var l :| l in rest;
        ClearOneMore(old(View()), View(), ids, l, at);
        Anonymize(l, at);
        ids := ids + [l];
        rest := rest - {l};
      }
    }
  }
}
