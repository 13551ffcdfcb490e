/** Lead status, alerts and leases over whole runs. */
module DeliveryLeads {
  import opened Wrappers
  import opened DeliveryTypes
  import opened DeliveryProtocol
  import opened DeliveryInvariant
  import opened DeliverySafety
  import opened DeliveryRuns

  // ---------- Lead status ----------

  /** The stored status of a lead agrees with its definition in every reachable state. */
  lemma StoredStatusIsDerived(ss: seq<System>, steps: seq<Action>, i: nat, l: LeadId)
    requires IsRun(ss, steps) && i < |ss| && l in ss[i].leads
    ensures match ss[i].leads[l].row.status
            case Deleted => !HasOpen(ss[i].jobs, l)
            case Spam => !HasDelivery(ss[i].jobs, l)
            case stored => stored == DerivedStatus(ss[i].jobs, l)
    ensures ss[i].leads[l].row.status != Deleted ==> NoneCancelled(ss[i].jobs, l)
    ensures ss[i].leads[l].row.status !in {Deleted, Spam} ==> TellsDeliveries(ss[i].jobs, l, ss[i].leads[l].row.status)
  {
    RunInv(ss, steps, i);
    assert LeadInv(ss[i].jobs, l, ss[i].leads[l]);
    hide Inv;
    if ss[i].leads[l].row.status !in {Deleted, Spam} {
      DerivedTells(ss[i].jobs, l);
    }
  }

  /** What a lead status says about the delivery rows. */
  ghost predicate TellsDeliveries(jobs: map<DeliveryKey, Job>, l: LeadId, status: LeadStatus) {
    match status
    case Routing =>
      exists k :: k in jobs && jobs[k].row.lead == l && jobs[k].row.status in {Pending, Leased, Delivering, Retrying}
    case LeadDelivered =>
      && (exists k :: k in jobs && jobs[k].row.lead == l && jobs[k].row.status == Delivered)
      && (forall k :: k in jobs && jobs[k].row.lead == l ==> jobs[k].row.status in {Delivered, Failed, OutcomeUnknown})
    case DeliveryFailed =>
      forall k :: k in jobs && jobs[k].row.lead == l ==> jobs[k].row.status in {Failed, OutcomeUnknown}
    case _ => false
  }

  lemma DerivedTells(jobs: map<DeliveryKey, Job>, l: LeadId)
    requires NoneCancelled(jobs, l)
    ensures TellsDeliveries(jobs, l, DerivedStatus(jobs, l))
  {
  }

  /** What a transaction may do to a stored lead. */
  ghost predicate LeadMoves(a: Action, l: LeadId, old': LeadFile, new': LeadFile) {
    && (a.Delete? && a.leadId == l ==> new'.row.status == Deleted)
    && (!(a.Delete? && a.leadId == l) ==>
          && old'.events <= new'.events
          && (new'.row.status == old'.row.status
              || (old'.row.status == Routing && new'.row.status in {LeadDelivered, DeliveryFailed})))
  }

  lemma SettledMoves(s: System, k: DeliveryKey, j: Job, failure: bool, l: LeadId, a: Action)
    requires Linked(s) && k in s.jobs && IsOpen(s.jobs[k].row.status) && j.row.lead == s.jobs[k].row.lead
    requires l in s.leads && LeadInv(s.jobs, l, s.leads[l]) && !a.Delete?
    ensures var t := if failure then SettledFailure(s, k, j) else Settled(s, k, j);
            l in t.leads && LeadMoves(a, l, s.leads[l], t.leads[l])
  {
    if l == j.row.lead {
      OpenLeadRoutes(s.jobs, k, s.leads[l]);
    }
  }

  lemma StartMovesLead(s: System, w: WorkerId, at: Time, l: LeadId)
    requires Inv(s) && Enabled(s, Start(w, at)) && l in s.leads
    ensures l in StartStep(s, w, at).leads && LeadMoves(Start(w, at), l, s.leads[l], StartStep(s, w, at).leads[l])
  {
    hide JobInv, SlotInv, TokenInv, LeadInv, Settled, SettledFailure, StartError, FailedRow;
    assert LeadInv(s.jobs, l, s.leads[l]);
    var lease := s.slots[w].lease;
    var row := s.jobs[lease.key].row;
    if Owns(row, lease) && StartError(s, row).Some? {
      FailedRowLead(row, StartError(s, row).value, at);
      SettledMoves(Released(s, w), lease.key, s.jobs[lease.key].(row := FailedRow(row, StartError(s, row).value, at)),
                   true, l, Start(w, at));
    }
  }

  lemma FailedRowLead(d: Delivery, code: ErrorCode, at: Time)
    ensures FailedRow(d, code, at).lead == d.lead
  {
  }

  lemma ClosedRowLead(cfg: Config, d: Delivery, reply: Reply, at: Time)
    ensures ClosedRow(cfg, d, reply, at).lead == d.lead
  {
  }

  lemma FinishMovesLead(s: System, w: WorkerId, at: Time, l: LeadId)
    requires Inv(s) && Enabled(s, Finish(w, at)) && l in s.leads
    ensures l in FinishStep(s, w, at).leads && LeadMoves(Finish(w, at), l, s.leads[l], FinishStep(s, w, at).leads[l])
  {
    hide JobInv, SlotInv, TokenInv, LeadInv, Settled, SettledFailure, FindAttempt, ClosedRow;
    assert LeadInv(s.jobs, l, s.leads[l]);
    var Returned(lease, n, reply) := s.slots[w];
    var j := s.jobs[lease.key];
    var i := FindAttempt(j.attempts, n);
    if Owns(j.row, lease) && i.Some? {
      var closed := ClosedJob(s.cfg, j, i.value, reply, at);
      ClosedRowLead(s.cfg, j.row, reply, at);
      SettledMoves(Released(s, w), lease.key, closed, closed.row.status == Failed, l, Finish(w, at));
    }
  }

  lemma StepMovesLead(s: System, a: Action, l: LeadId)
    requires Inv(s) && Enabled(s, a) && l in s.leads
    ensures l in Step(s, a).leads && LeadMoves(a, l, s.leads[l], Step(s, a).leads[l])
  {
    hide Jobs, Workers, Alerts, LeadInv, StartStep, FinishStep, RecoverStep, WellFormedSubmission, Stale, Anonymised;
    assert LeadInv(s.jobs, l, s.leads[l]);
    match a
    case Start(w, at) => StartMovesLead(s, w, at, l);
    case Finish(w, at) => FinishMovesLead(s, w, at, l);
    case Recover(keys, at) => RecoverMovesLead(s, keys, at, l);
    case _ =>
  }

  lemma RecoverMovesLead(s: System, keys: set<DeliveryKey>, at: Time, l: LeadId)
    requires Enabled(s, Recover(keys, at)) && l in s.leads && LeadInv(s.jobs, l, s.leads[l])
    ensures l in RecoverStep(s, keys, at).leads
    ensures LeadMoves(Recover(keys, at), l, s.leads[l], RecoverStep(s, keys, at).leads[l])
  {
    hide LeadInv, HasOpen, HasDelivered, Touches, EventsAfter;
    if Touches(s.jobs, keys, l) {
      TouchedRoutes(s, keys, at, l);
      EventsGrow(s.leads[l].events, DerivedStatus(RecoverStep(s, keys, at).jobs, l));
    }
  }

  lemma EventsGrow(es: seq<Event>, status: LeadStatus)
    ensures es <= EventsAfter(es, status)
  {
  }

  lemma TouchedRoutes(s: System, keys: set<DeliveryKey>, at: Time, l: LeadId)
    requires Enabled(s, Recover(keys, at)) && l in s.leads && LeadInv(s.jobs, l, s.leads[l])
    requires Touches(s.jobs, keys, l)
    ensures s.leads[l].row.status == Routing
  {
    var k :| k in keys && k in s.jobs && s.jobs[k].row.lead == l;
    OpenLeadRoutes(s.jobs, k, s.leads[l]);
  }

  /** Once a lead is deleted it stays deleted, even when a worker comes back from a call afterwards;
      a settled lead changes only by deletion, and until then events are only ever added. */
  lemma {:induction false} LeadStatusSticks(ss: seq<System>, steps: seq<Action>, i: nat, j: nat, l: LeadId)
    requires IsRun(ss, steps) && i <= j < |ss| && l in ss[i].leads
    ensures l in ss[j].leads
    ensures ss[i].leads[l].row.status == Deleted ==> ss[j].leads[l].row.status == Deleted
    ensures ss[i].leads[l].row.status != Routing ==>
              ss[j].leads[l].row.status in {ss[i].leads[l].row.status, Deleted}
    ensures ss[j].leads[l].row.status != Deleted ==> ss[i].leads[l].events <= ss[j].leads[l].events
    decreases j - i
  {
    hide Inv, Initial, Enabled, Step;
    if i < j {
      LeadStatusSticks(ss, steps, i, j - 1, l);
      RunInv(ss, steps, j - 1);
      assert Next(ss[j - 1], steps[j - 1], ss[j]);
      StepMovesLead(ss[j - 1], steps[j - 1], l);
    }
  }

  // ---------- Alerts ----------

  /** Settling row `k` alerts its lead exactly when that leaves the lead failed. */
  lemma SettlingAlerts(s: System, k: DeliveryKey, j: Job, failure: bool)
    requires Inv(s) && k in s.jobs && IsOpen(s.jobs[k].row.status) && j.row.lead == s.jobs[k].row.lead
    requires failure || IsOpen(j.row.status) || j.row.status == Delivered
    ensures var t := if failure then SettledFailure(s, k, j) else Settled(s, k, j);
            && t.leads.Keys == s.leads.Keys
            && s.leads[j.row.lead].row.status == Routing && j.row.lead !in s.alerts
            && (forall l :: l in s.leads && l != j.row.lead ==> l in t.leads && t.leads[l] == s.leads[l])
            && t.alerts == if t.leads[j.row.lead].row.status == DeliveryFailed then s.alerts + [j.row.lead] else s.alerts
  {
    hide HasOpen, HasDelivered, EventsAfter, Jobs, Workers;
    OpenNotAlerted(s, k);
    if !failure {
      NotFailedYet(s.jobs[k := j], k);
    }
  }

  ghost predicate JustFailed(s: System, t: System, l: LeadId) {
    l in s.leads && l in t.leads && s.leads[l].row.status == Routing && t.leads[l].row.status == DeliveryFailed
  }

  lemma StartAlerts(s: System, w: WorkerId, at: Time, l: LeadId)
    requires Inv(s) && Enabled(s, Start(w, at))
    ensures var t := StartStep(s, w, at); l in t.alerts && l !in s.alerts <==> JustFailed(s, t, l)
  {
    hide JobInv, SlotInv, TokenInv, LeadInv, Alerted, StartError, Settled, SettledFailure;
    var lease := s.slots[w].lease;
    var j := s.jobs[lease.key];
    if Owns(j.row, lease) && StartError(s, j.row).Some? {
      ReleaseKeeps(s, w);
      SettlingAlerts(Released(s, w), lease.key, j.(row := FailedRow(j.row, StartError(s, j.row).value, at)), true);
    }
  }

  lemma FinishAlerts(s: System, w: WorkerId, at: Time, l: LeadId)
    requires Inv(s) && Enabled(s, Finish(w, at))
    ensures var t := FinishStep(s, w, at); l in t.alerts && l !in s.alerts <==> JustFailed(s, t, l)
  {
    hide JobInv, SlotInv, TokenInv, LeadInv, Alerted, Settled, SettledFailure;
    var Returned(lease, n, reply) := s.slots[w];
    var j := s.jobs[lease.key];
    var i := FindAttempt(j.attempts, n);
    if Owns(j.row, lease) && i.Some? {
      ReleaseKeeps(s, w);
      var closed := ClosedJob(s.cfg, j, i.value, reply, at);
      SettlingAlerts(Released(s, w), lease.key, closed, closed.row.status == Failed);
    }
  }

  /** A worker alerts exactly when its own transaction turns a routing lead into a failed one;
      a recovery pass that does the same raises no alert. */
  lemma AlertExactlyWhen(s: System, a: Action, l: LeadId)
    requires Inv(s) && Enabled(s, a)
    ensures l in Step(s, a).alerts && l !in s.alerts <==>
              (a.Start? || a.Finish?) && JustFailed(s, Step(s, a), l)
  {
    hide Jobs, Workers, Leads, Alerts, StartStep, FinishStep, JustFailed, DerivedStatus, Refreshed, Touches,
         RecoveredJob, CancelledRow, Anonymised;
    match a
    case Start(w, at) => StartAlerts(s, w, at, l);
    case Finish(w, at) => FinishAlerts(s, w, at, l);
    case _ => assert Step(s, a).alerts == s.alerts;
  }

  /** What a recovery pass makes of one row: a delivering row among the chosen is closed, all else stays open or shut. */
  lemma RecoveredStatus(s: System, keys: set<DeliveryKey>, at: Time, k: DeliveryKey)
    requires Enabled(s, Recover(keys, at)) && k in s.jobs
    ensures k in RecoverStep(s, keys, at).jobs && RecoverStep(s, keys, at).jobs[k].row.lead == s.jobs[k].row.lead
    ensures IsOpen(RecoverStep(s, keys, at).jobs[k].row.status) <==>
              IsOpen(s.jobs[k].row.status) && !(k in keys && s.jobs[k].row.status == Delivering)
    ensures RecoverStep(s, keys, at).jobs[k].row.status == Delivered <==> s.jobs[k].row.status == Delivered
  {
  }

  /** Nothing of this lead is delivered, and the pass closes all that is still open. */
  ghost predicate LosesAll(jobs: map<DeliveryKey, Job>, keys: set<DeliveryKey>, l: LeadId) {
    && Touches(jobs, keys, l) && !HasDelivered(jobs, l)
    && forall k :: k in jobs && jobs[k].row.lead == l && IsOpen(jobs[k].row.status) ==> k in keys && jobs[k].row.status == Delivering
  }

  lemma RecoveredDerives(s: System, keys: set<DeliveryKey>, at: Time, l: LeadId)
    requires Enabled(s, Recover(keys, at)) && Touches(s.jobs, keys, l)
    ensures DerivedStatus(RecoverStep(s, keys, at).jobs, l) == DeliveryFailed <==> LosesAll(s.jobs, keys, l)
  {
    hide Enabled, RecoverStep, IsOpen;
    var jobs := RecoverStep(s, keys, at).jobs;
    assert jobs.Keys == s.jobs.Keys by { RecoveredKeys(s, keys, at); }
    forall k | k in s.jobs
      ensures jobs[k].row.lead == s.jobs[k].row.lead && (jobs[k].row.status == Delivered <==> s.jobs[k].row.status == Delivered)
      ensures IsOpen(jobs[k].row.status) <==> IsOpen(s.jobs[k].row.status) && !(k in keys && s.jobs[k].row.status == Delivering)
    {
      RecoveredStatus(s, keys, at, k);
    }
  }

  lemma RecoveredKeys(s: System, keys: set<DeliveryKey>, at: Time)
    ensures RecoverStep(s, keys, at).jobs.Keys == s.jobs.Keys && RecoverStep(s, keys, at).alerts == s.alerts
    ensures forall l :: l in s.leads ==> l in RecoverStep(s, keys, at).leads
  {
  }

  /** A recovery pass fails a lead, and alerts nobody, exactly when it closes the last open deliveries of a lead
      with nothing delivered, all of them lost during their calls. */
  lemma RecoveryFailsExactly(s: System, keys: set<DeliveryKey>, at: Time, l: LeadId)
    requires Inv(s) && Enabled(s, Recover(keys, at)) && l in s.leads
    ensures JustFailed(s, RecoverStep(s, keys, at), l) <==> LosesAll(s.jobs, keys, l)
    ensures RecoverStep(s, keys, at).alerts == s.alerts
  {
    hide Jobs, Workers, Alerts, LeadInv, DerivedStatus, EventsAfter, RecoveredJob, HasDelivered;
    assert LeadInv(s.jobs, l, s.leads[l]);
    if Touches(s.jobs, keys, l) {
      TouchedRoutes(s, keys, at, l);
      RecoveredDerives(s, keys, at, l);
    }
  }

  lemma OpenNotAlerted(s: System, k: DeliveryKey)
    requires Inv(s) && k in s.jobs && IsOpen(s.jobs[k].row.status)
    ensures s.jobs[k].row.lead !in s.alerts && s.leads[s.jobs[k].row.lead].row.status == Routing
  {
    hide JobInv, SlotInv, TokenInv;
    assert HasOpen(s.jobs, s.jobs[k].row.lead);
    OpenLeadRoutes(s.jobs, k, s.leads[s.jobs[k].row.lead]);
  }

  lemma NotFailedYet(jobs: map<DeliveryKey, Job>, k: DeliveryKey)
    requires k in jobs && (IsOpen(jobs[k].row.status) || jobs[k].row.status == Delivered)
    ensures DerivedStatus(jobs, jobs[k].row.lead) != DeliveryFailed
  {
  }

  /** Over a run no lead is alerted twice, and an alerted lead never has a delivered delivery. */
  lemma AlertedOnce(ss: seq<System>, steps: seq<Action>, i: nat)
    requires IsRun(ss, steps) && i < |ss|
    ensures forall m, n :: 0 <= m < n < |ss[i].alerts| ==> ss[i].alerts[m] != ss[i].alerts[n]
    ensures forall l :: l in ss[i].alerts ==> l in ss[i].leads && !HasDelivered(ss[i].jobs, l) && !HasOpen(ss[i].jobs, l)
  {
    RunInv(ss, steps, i);
  }

  /** A lead never carries both outcome events, and carries each at most once. */
  lemma OutcomeEventsOnce(ss: seq<System>, steps: seq<Action>, i: nat, l: LeadId)
    requires IsRun(ss, steps) && i < |ss| && l in ss[i].leads
    ensures var es := ss[i].leads[l].events;
            && (forall m, n :: 0 <= m < n < |es| ==> es[m].kind != es[n].kind)
            && (ss[i].leads[l].row.status != Deleted ==>
                  && (HasLiveEvent(es, ProviderDelivery) <==> HasDelivered(ss[i].jobs, l) && !HasOpen(ss[i].jobs, l))
                  && (HasLiveEvent(es, DeliveryFailedEvent) <==>
                        HasDelivery(ss[i].jobs, l) && !HasOpen(ss[i].jobs, l) && !HasDelivered(ss[i].jobs, l)))
  {
    RunInv(ss, steps, i);
    assert LeadInv(ss[i].jobs, l, ss[i].leads[l]);
    if ss[i].leads[l].row.status != Deleted {
      LeadEvents(ss[i].jobs, l, ss[i].leads[l]);
    }
  }

  lemma LeadEvents(jobs: map<DeliveryKey, Job>, l: LeadId, file: LeadFile)
    requires LeadInv(jobs, l, file) && file.row.status != Deleted
    ensures HasLiveEvent(file.events, ProviderDelivery) <==> HasDelivered(jobs, l) && !HasOpen(jobs, l)
    ensures HasLiveEvent(file.events, DeliveryFailedEvent) <==>
              HasDelivery(jobs, l) && !HasOpen(jobs, l) && !HasDelivered(jobs, l)
  {
    assert HasDelivered(jobs, l) ==> HasDelivery(jobs, l);
    assert HasOpen(jobs, l) ==> HasDelivery(jobs, l);
  }

  // ---------- Before contact ----------

  /** In every run, the first transaction of a worker lets it on to the provider exactly when its lease still holds
      and the delivery can still be made as it was planned. */
  lemma ContactIsChecked(ss: seq<System>, steps: seq<Action>, i: nat, w: WorkerId, at: Time)
    requires IsRun(ss, steps) && i < |steps| && steps[i] == Start(w, at)
    ensures w in ss[i].slots && ss[i].slots[w].lease.key in ss[i].jobs
    ensures var lease := ss[i].slots[w].lease;
            var row := ss[i].jobs[lease.key].row;
            w in ss[i + 1].slots <==> Owns(row, lease) && Deliverable(ss[i], row)
  {
    hide StartError, Deliverable, SettledFailure;
    assert Next(ss[i], steps[i], ss[i + 1]);
    var lease := ss[i].slots[w].lease;
    CheckPassesExactly(ss[i], ss[i].jobs[lease.key].row);
    if Owns(ss[i].jobs[lease.key].row, lease) && StartError(ss[i], ss[i].jobs[lease.key].row).Some? {
      SettledSlots(Released(ss[i], w), lease.key,
        ss[i].jobs[lease.key].(row := FailedRow(ss[i].jobs[lease.key].row, StartError(ss[i], ss[i].jobs[lease.key].row).value, at)));
    }
  }

  lemma SettledSlots(s: System, k: DeliveryKey, j: Job)
    requires j.row.lead in s.leads
    ensures SettledFailure(s, k, j).slots == s.slots
  {
  }

  // ---------- Lost without an alert ----------

  lemma StoresOne(s: System, lead: Lead, row: Delivery)
    requires Linked(s) && s.leads == map[] && s.jobs == map[] && s.slots == map[]
    requires WellFormedSubmission(lead, 1, map[1 := row])
    ensures var t := s.(leads := map[1 := LeadFile(lead, [Event(FormSubmit, false)])], jobs := map[1 := Job(row, [], [])]);
            Next(s, Insert(1, lead, map[1 := row]), t) && Linked(t)
  {
    assert row.lead == 1 by { assert 1 in map[1 := row]; }
    assert InsertStep(s, 1, lead, map[1 := row]).jobs == map[1 := Job(row, [], [])];
    assert s.leads[1 := LeadFile(lead, [Event(FormSubmit, false)])] == map[1 := LeadFile(lead, [Event(FormSubmit, false)])];
  }

  lemma AssignsAnew(s: System, agreed: map<AssignmentId, Assignment>)
    requires Linked(s)
    ensures Next(s, Assign(agreed), s.(assignments := agreed)) && Linked(s.(assignments := agreed))
  {
  }

  lemma WaitsUntil(s: System, late: Time)
    requires Linked(s) && s.now <= late
    ensures Next(s, Tick(late), s.(now := late)) && Linked(s.(now := late))
  {
  }

  lemma ClaimsOne(s: System, row: Delivery)
    requires Linked(s) && s.jobs == map[1 := Job(row, [], [])] && Claimable(row, s.now) && s.slots == map[] && s.issued == []
    ensures var claimed := Job(ClaimedRow(row, 1, 0, s.now, s.cfg.leaseFor), [], []);
            var t := s.(jobs := map[1 := claimed], slots := map[1 := Holding(Lease(1, 1, 0))], issued := [Lease(1, 1, 0)]);
            Next(s, Claim(1, 1, s.now), t) && Linked(t) && Owns(claimed.row, Lease(1, 1, 0))
  {
    var claimed := Job(ClaimedRow(row, 1, 0, s.now, s.cfg.leaseFor), [], []);
    assert s.jobs[1 := claimed] == map[1 := claimed];
    assert s.jobs[1].row.lead in s.leads;
  }

  lemma StartsOne(s: System, j: Job)
    requires Linked(s) && s.jobs == map[1 := j] && s.slots == map[1 := Holding(Lease(1, 1, 0))]
    requires Owns(j.row, Lease(1, 1, 0)) && Deliverable(s, j.row)
    ensures var t := s.(jobs := map[1 := StartedJob(j, 0)], slots := map[1 := Ready(Lease(1, 1, 0), j.row.attemptCount + 1)]);
            Next(s, Start(1, s.now), t) && Linked(t)
  {
    CheckPassesExactly(s, j.row);
    hide StartError, SettledFailure, Deliverable;
    assert s.jobs[1].row.lead in s.leads && StartedJob(j, 0).row.lead == j.row.lead;
    assert s.jobs[1 := StartedJob(j, 0)] == map[1 := StartedJob(j, 0)];
    assert s.slots[1 := Ready(Lease(1, 1, 0), j.row.attemptCount + 1)] == map[1 := Ready(Lease(1, 1, 0), j.row.attemptCount + 1)];
  }

  /** One delivery from an empty database until its worker has been silent for too long. */
  lemma GoesSilent(s0: System, lead: Lead, row: Delivery, agreed: map<AssignmentId, Assignment>, late: Time)
    returns (ss: seq<System>, steps: seq<Action>)
    requires Initial(s0) && WellFormedSubmission(lead, 1, map[1 := row]) && Claimable(row, s0.now) && s0.now <= late
    requires Deliverable(s0.(leads := map[1 := LeadFile(lead, [])], assignments := agreed), row)
    ensures IsRun(ss, steps) && |ss| == 6
    ensures ss[5].now == late && ss[5].cfg == s0.cfg && ss[5].alerts == [] && 1 in ss[5].leads
    ensures ss[5].jobs == map[1 := StartedJob(Job(ClaimedRow(row, 1, 0, s0.now, s0.cfg.leaseFor), [], []), 0)]
  {
    hide WellFormedSubmission, StartedJob, Next, Linked, Claimable, Owns;
    assert Linked(s0) by { EmptyIsLinked(s0); }
    StoresOne(s0, lead, row);
    var s1 := s0.(leads := map[1 := LeadFile(lead, [Event(FormSubmit, false)])], jobs := map[1 := Job(row, [], [])]);
    var s2 := s1.(assignments := agreed);
    AssignsAnew(s1, agreed);
    ClaimsOne(s2, row);
    var j := Job(ClaimedRow(row, 1, 0, s0.now, s0.cfg.leaseFor), [], []);
    var s3 := s2.(jobs := map[1 := j], slots := map[1 := Holding(Lease(1, 1, 0))], issued := [Lease(1, 1, 0)]);
    StartsOne(s3, j);
    var s4 := s3.(jobs := map[1 := StartedJob(j, 0)], slots := map[1 := Ready(Lease(1, 1, 0), j.row.attemptCount + 1)]);
    WaitsUntil(s4, late);
    ss := [s0, s1, s2, s3, s4, s4.(now := late)];
    steps := [Insert(1, lead, map[1 := row]), Assign(agreed), Claim(1, 1, s0.now), Start(1, s0.now), Tick(late)];
  }

  lemma EmptyIsLinked(s: System)
    requires Initial(s)
    ensures Linked(s)
  {
  }

  lemma OneMoreStep(ss: seq<System>, steps: seq<Action>, a: Action)
    requires IsRun(ss, steps) && Enabled(ss[|steps|], a)
    ensures Linked(ss[|steps|]) && IsRun(ss + [Step(ss[|steps|], a)], steps + [a])
  {
    hide Inv, Enabled, Step, Initial;
    RunInv(ss, steps, |steps|);
    InvLinked(ss[|steps|]);
    var ss', steps' := ss + [Step(ss[|steps|], a)], steps + [a];
    forall i | 0 <= i < |steps'|
      ensures Next(ss'[i], steps'[i], ss'[i + 1])
    {
      assert i < |steps| ==> Next(ss[i], steps[i], ss[i + 1]);
    }
  }

  lemma SilentRun() returns (ss: seq<System>, steps: seq<Action>)
    ensures IsRun(ss, steps) && |ss| == 6 && |steps| == 5 && ss[5].alerts == [] && 1 in ss[5].leads
    ensures Enabled(ss[5], Recover({1}, 60)) && LosesAll(ss[5].jobs, {1}, 1)
  {
    hide MaskedDestination, IsRun, LosesAll;
    var cfg := Config(map[Email := "fixture"], 30, 30, 30, 3600);
    var lead := Lead(Routing, Some(1), None, 1000);
    var row := Delivery(1, 1, Email, MaskedDestination("ops"), "fixture", None, Pending, 0, 3, Some(0),
                        None, None, None, None, None, None, None, None);
    var agreed := map[1 := Assignment(Active, Some("ops"), None)];
    assert 1 in map[1 := row].Keys;
    ss, steps := GoesSilent(System(cfg, 0, map[], map[], map[], map[], [], []), lead, row, agreed, 60);
    RunLength(ss, steps);
    SilentIsLost(ss[5], Job(ClaimedRow(row, 1, 0, 0, 30), [], []));
  }

  /** A worker that goes silent in its call: recovery fails the lead and nobody is told. */
  lemma FailsSilently() returns (ss: seq<System>, steps: seq<Action>)
    ensures IsRun(ss, steps) && |ss| == 7 && |steps| == 6 && steps[5].Recover?
    ensures JustFailed(ss[5], ss[6], 1) && ss[6].alerts == []
  {
    hide Inv, IsRun, JustFailed, RecoverStep, Enabled, LosesAll;
    ss, steps := SilentRun();
    RunInv(ss, steps, 5);
    RecoveryFailsExactly(ss[5], {1}, 60, 1);
    OneMoreStep(ss, steps, Recover({1}, 60));
    ss, steps := ss + [Step(ss[5], Recover({1}, 60))], steps + [Recover({1}, 60)];
  }

  lemma SilentIsLost(s: System, j: Job)
    requires s.jobs == map[1 := StartedJob(j, 0)] && j.row.lead == 1 && s.now == 60 && s.cfg.staleAfter == 30
    requires j.row.leaseExpiresAt == Some(30)
    ensures Enabled(s, Recover({1}, 60)) && LosesAll(s.jobs, {1}, 1)
  {
    assert s.jobs[1].row.status == Delivering;
  }

  lemma RunLength(ss: seq<System>, steps: seq<Action>)
    requires IsRun(ss, steps)
    ensures |ss| == |steps| + 1
  {
  }

  // ---------- Leases ----------

  /** No two rows carry the same token. */
  lemma TokensUnique(ss: seq<System>, steps: seq<Action>, i: nat, k: DeliveryKey, k': DeliveryKey)
    requires IsRun(ss, steps) && i < |ss| && k in ss[i].jobs && k' in ss[i].jobs
    requires ss[i].jobs[k].row.token.Some? && ss[i].jobs[k].row.token == ss[i].jobs[k'].row.token
    ensures k == k'
  {
    RunInv(ss, steps, i);
    assert TokenInv(ss[i].issued, k, ss[i].jobs[k]) && TokenInv(ss[i].issued, k', ss[i].jobs[k']);
  }

  /** The lease columns are filled in exactly while a worker holds or runs the delivery. */
  lemma LeaseFieldsExact(ss: seq<System>, steps: seq<Action>, i: nat, k: DeliveryKey)
    requires IsRun(ss, steps) && i < |ss| && k in ss[i].jobs
    ensures var d := ss[i].jobs[k].row;
            && (IsActive(d.status) <==> d.worker.Some?) && (IsActive(d.status) <==> d.token.Some?)
            && (IsActive(d.status) <==> d.claimedAt.Some?) && (IsActive(d.status) <==> d.heartbeatAt.Some?)
            && (IsActive(d.status) <==> d.leaseExpiresAt.Some?)
            && (IsClaimable(d.status) ==> d.nextAttemptAt.Some?)
  {
    RunJobInv(ss, steps, i, k);
  }

  lemma StepTakesNoLeaseBack(s: System, a: Action, lease: Lease)
    requires Inv(s) && Enabled(s, a) && lease.key in s.jobs
    requires lease.token < |s.issued| && !Owns(s.jobs[lease.key].row, lease)
    ensures lease.key in Step(s, a).jobs && !Owns(Step(s, a).jobs[lease.key].row, lease)
    ensures |s.issued| <= |Step(s, a).issued|
  {
    hide Jobs, Workers, Leads, Alerts, Step, JobInv, CallsExtend, RankMoves, ClockMoves;
    StepMoves(s, a, lease.key);
    IssuedGrows(s, a);
    StepKeepsJob(s, a, lease.key);
  }

  lemma IssuedGrows(s: System, a: Action)
    requires Linked(s) && Enabled(s, a)
    ensures |s.issued| <= |Step(s, a).issued|
  {
    hide StartError, DerivedStatus, EventsAfter, Touches, RecoveredJob, CancelledRow, Anonymised;
  }

  /** Before and after the step, a row holds a token exactly when it is leased or delivering. */
  lemma StepKeepsJob(s: System, a: Action, k: DeliveryKey)
    requires Inv(s) && Enabled(s, a) && k in s.jobs && k in Step(s, a).jobs
    ensures s.jobs[k].row.token.Some? <==> IsActive(s.jobs[k].row.status)
    ensures Step(s, a).jobs[k].row.token.Some? <==> IsActive(Step(s, a).jobs[k].row.status)
  {
    hide Workers, Leads, Alerts, Step, TokenInv, Enabled;
    StepKeeps(s, a);
    assert JobInv(s.jobs[k]) && JobInv(Step(s, a).jobs[k]);
  }

  /** A lease that no longer owns its row never owns it again. */
  lemma {:induction false} LostLeaseStaysLost(ss: seq<System>, steps: seq<Action>, i: nat, j: nat, lease: Lease)
    requires IsRun(ss, steps) && i <= j < |ss| && lease.key in ss[i].jobs
    requires lease.token < |ss[i].issued| && !Owns(ss[i].jobs[lease.key].row, lease)
    ensures lease.key in ss[j].jobs && lease.token < |ss[j].issued| && !Owns(ss[j].jobs[lease.key].row, lease)
    decreases j - i
  {
    hide Inv, Initial, Enabled, Step, Owns;
    if i < j {
      LostLeaseStaysLost(ss, steps, i, j - 1, lease);
      RunInv(ss, steps, j - 1);
      assert Next(ss[j - 1], steps[j - 1], ss[j]);
      StepTakesNoLeaseBack(ss[j - 1], steps[j - 1], lease);
    }
  }

  /** A worker whose lease was taken at some earlier state changes no table by starting, beating or finishing. */
  lemma StaleWorkerIsHarmless(ss: seq<System>, steps: seq<Action>, i: nat, j: nat, w: WorkerId, at: Time)
    requires IsRun(ss, steps) && i <= j < |steps|
    requires w in ss[j].slots && ss[j].slots[w].lease.key in ss[i].jobs
    requires ss[j].slots[w].lease.token < |ss[i].issued|
    requires !Owns(ss[i].jobs[ss[j].slots[w].lease.key].row, ss[j].slots[w].lease)
    requires steps[j] in {Start(w, at), Heartbeat(w, at), Finish(w, at)}
    ensures ss[j + 1].leads == ss[j].leads && ss[j + 1].jobs == ss[j].jobs && ss[j + 1].alerts == ss[j].alerts
  {
    LostLeaseStaysLost(ss, steps, i, j, ss[j].slots[w].lease);
    assert Next(ss[j], steps[j], ss[j + 1]);
  }

  // ---------- Heartbeats and staleness ----------

  ghost predicate Clocked(s: System) {
    forall k :: k in s.jobs && IsActive(s.jobs[k].row.status) ==> ClockedRow(s.cfg, s.jobs[k].row)
  }

  lemma NewJobsArePending(s: System, a: Action, k: DeliveryKey)
    requires Inv(s) && Enabled(s, a)
    ensures k in Step(s, a).jobs && k !in s.jobs ==> Step(s, a).jobs[k].row.status == Pending
    ensures Step(s, a).cfg == s.cfg
  {
    hide Inv, StartError, StartStep, FinishStep, DerivedStatus, Touches, DeletedFile, RecoveredJob, CancelledRow, ClaimedRow, MarkLast;
    InvLinked(s);
    match a
    case Start(w, at) => StartLeaves(s, w, at);
    case Finish(w, at) => FinishLeaves(s, w, at);
    case _ =>
  }

  lemma StepClocked(s: System, a: Action)
    requires Inv(s) && Enabled(s, a) && Clocked(s)
    ensures Clocked(Step(s, a)) && Step(s, a).cfg == s.cfg
  {
    hide Jobs, Workers, Leads, Alerts, Step, Enabled, CallsExtend, RankMoves, LeaseMoves, ClockedRow;
    var t := Step(s, a);
    NewJobsArePending(s, a, 0);
    forall k | k in t.jobs && IsActive(t.jobs[k].row.status)
      ensures ClockedRow(t.cfg, t.jobs[k].row)
    {
      NewJobsArePending(s, a, k);
      StepMoves(s, a, k);
    }
  }

  lemma {:induction false} RunClocked(ss: seq<System>, steps: seq<Action>, i: nat)
    requires IsRun(ss, steps) && i < |ss|
    ensures Clocked(ss[i]) && ss[i].cfg == ss[0].cfg
  {
    hide Inv, Enabled, Step;
    if i > 0 {
      RunClocked(ss, steps, i - 1);
      RunInv(ss, steps, i - 1);
      assert Next(ss[i - 1], steps[i - 1], ss[i]);
      StepClocked(ss[i - 1], steps[i - 1]);
    }
  }

  /** With the worker loop's settings the lease test and the heartbeat test are one and the same, so
      recovery takes a row only when its last heartbeat is more than the allowance ago. */
  lemma FreshHeartbeatIsSafe(ss: seq<System>, steps: seq<Action>, i: nat, keys: set<DeliveryKey>, at: Time, k: DeliveryKey)
    requires IsRun(ss, steps) && i < |steps| && ss[0].cfg.leaseFor == ss[0].cfg.staleAfter
    requires k in ss[i].jobs && IsActive(ss[i].jobs[k].row.status)
    ensures ss[i].jobs[k].row.heartbeatAt.Some?
    ensures Stale(ss[i].jobs[k].row, at, ss[i].cfg.staleAfter) <==>
              at - ss[i].jobs[k].row.heartbeatAt.value > ss[0].cfg.staleAfter
    ensures steps[i] == Recover(keys, at) && at - ss[i].jobs[k].row.heartbeatAt.value <= ss[0].cfg.staleAfter ==>
              k !in keys
  {
    RunClocked(ss, steps, i);
    assert ClockedRow(ss[i].cfg, ss[i].jobs[k].row);
    assert Next(ss[i], steps[i], ss[i + 1]);
  }

  // ---------- Retry delays ----------

  lemma {:induction false} Pow2Grows(m: nat, n: nat)
    requires m <= n
    ensures Pow2(m) <= Pow2(n)
  {
    if m < n {
      Pow2Grows(m, n - 1);
    }
  }

  /** Delays are positive, capped, and never shrink as attempts accumulate. */
  lemma RetryDelayShape(cfg: Config, m: nat, n: nat)
    requires cfg.retryBase > 0 && cfg.retryMax > 0 && m <= n
    ensures 0 < RetryDelay(cfg, m) <= RetryDelay(cfg, n) <= cfg.retryMax
    ensures m <= 1 && cfg.retryBase <= cfg.retryMax ==> RetryDelay(cfg, m) == cfg.retryBase
  {
    var pm, pn := if m == 0 then 0 else m - 1, if n == 0 then 0 else n - 1;
    Pow2Grows(pm, pn);
    assert cfg.retryBase * Pow2(pm) <= cfg.retryBase * Pow2(pn);
    assert cfg.retryBase * Pow2(pm) >= cfg.retryBase;
  }
}
