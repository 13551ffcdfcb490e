/** What each transaction of the delivery protocol leaves in the columns, said on the columns themselves. */
module DeliveryColumns {
  import opened Wrappers
  import opened DeliveryTypes
  import opened DeliveryProtocol
  import opened DeliveryInvariant
  import opened DeliverySafety

  /** A submission adds its lead with the form event, and its deliveries with no attempt made. */
  lemma InsertWrites(s: System, l: LeadId, lead: Lead, rows: map<DeliveryKey, Delivery>)
    requires l !in s.leads && rows.Keys !! s.jobs.Keys
    ensures var t := InsertStep(s, l, lead, rows);
            && t.leads == s.leads[l := LeadFile(lead, [Event(FormSubmit, false)])] && t.jobs.Keys == s.jobs.Keys + rows.Keys
            && (forall k :: k in rows ==> t.jobs[k] == Job(rows[k], [], []))
            && (forall k :: k in s.jobs ==> t.jobs[k] == s.jobs[k])
            && t.slots == s.slots && t.alerts == s.alerts && t.issued == s.issued
  {
  }

  /** A claim takes a pending or retrying row that is due, and nothing else. */
  lemma ClaimWrites(s: System, w: WorkerId, k: DeliveryKey, at: Time)
    requires Enabled(s, Claim(w, k, at)) && k in s.jobs
    ensures var d, t := s.jobs[k].row, ClaimStep(s, w, k, at);
            if (d.status == Pending || d.status == Retrying) && (d.nextAttemptAt.None? || d.nextAttemptAt.value <= at) then
              && t.jobs == s.jobs[k := s.jobs[k].(row :=
                   d.(status := Leased, worker := Some(w), token := Some(|s.issued|), claimedAt := Some(at), heartbeatAt := Some(at),
                      leaseExpiresAt := Some(at + s.cfg.leaseFor), nextAttemptAt := None))]
              && t.slots == s.slots[w := Holding(Lease(k, w, |s.issued|))] && t.issued == s.issued + [Lease(k, w, |s.issued|)]
              && t.leads == s.leads && t.alerts == s.alerts
            else t == s
  {
  }

  /** The lease columns and the status say whose the row is. */
  predicate IsHeldBy(d: Delivery, lease: Lease) {
    (d.status == Leased || d.status == Delivering) && d.worker == Some(lease.worker) && d.token == Some(lease.token)
  }

  /** The row with a new status and no lease. */
  function Unleased(d: Delivery, status: DeliveryStatus): Delivery {
    d.(status := status, worker := None, token := None, claimedAt := None, heartbeatAt := None, leaseExpiresAt := None)
  }

  /** The first transaction of a worker: one more attempt, running, or a failed row with the reason. */
  lemma StartWrites(s: System, w: WorkerId, at: Time)
    requires Linked(s) && Enabled(s, Start(w, at))
    ensures var lease, t := s.slots[w].lease, StartStep(s, w, at);
            var j := s.jobs[lease.key];
            var d, n := j.row, j.row.attemptCount + 1;
            if !IsHeldBy(d, lease) then t == s.(slots := s.slots - {w})
            else if Deliverable(s, d) then
              t == s.(jobs := s.jobs[lease.key := Job(d.(status := Delivering, attemptCount := n),
                                                      j.attempts + [Attempt(n, Running, None, None, lease.token)], j.calls)],
                      slots := s.slots[w := Ready(lease, n)])
            else
              && t.slots == s.slots - {w} && StartError(s, d).Some?
              && t.jobs == s.jobs[lease.key := j.(row :=
                   Unleased(d, Failed).(lastError := StartError(s, d), completedAt := Some(at)))]
  {
    CheckPassesExactly(s, s.jobs[s.slots[w].lease.key].row);
    hide StartError, Deliverable, DerivedStatus, EventsAfter;
  }

  /** Each reason is given exactly when its check is the first to fail. */
  lemma ErrorNamesFirstFailure(s: System, d: Delivery)
    requires d.lead in s.leads
    ensures StartError(s, d) == Some(ProviderAssignmentNotFound) <==> d.assignment !in s.assignments
    ensures d.assignment in s.assignments ==>
              var a := s.assignments[d.assignment];
              var destination := if d.channel == Email then a.email else a.phone;
              var adapter := d.channel in s.cfg.adapters && s.cfg.adapters[d.channel] == d.adapterName;
              && (StartError(s, d) == Some(ProviderAssignmentNotActive) <==> a.status != Active)
              && (a.status == Active ==>
                    (StartError(s, d) == Some(LeadAssignmentMismatch) <==> s.leads[d.lead].row.assignment != Some(d.assignment)))
              && (a.status == Active && s.leads[d.lead].row.assignment == Some(d.assignment) ==>
                    && (StartError(s, d) == Some(DeliveryAdapterUnavailable) <==> !adapter)
                    && (adapter ==> (StartError(s, d) == Some(AssignmentDestinationUnavailable) <==> destination == None))
                    && (adapter && destination.Some? ==>
                          (StartError(s, d) == Some(AssignmentDestinationChanged) <==>
                           MaskedDestination(destination.value) != d.destinationReference)))
  {
    hide MaskedDestination;
  }

  lemma {:induction false} AtSignFound(local: string, domain: string)
    requires '@' !in local
    ensures AtSign(local + "@" + domain) == |local|
  {
    if local != "" {
      assert (local + "@" + domain)[1..] == local[1..] + "@" + domain;
      AtSignFound(local[1..], domain);
    }
  }

  /** A masked address keeps the first letter and the domain. */
  lemma MaskedAddress(local: string, domain: string)
    requires '@' !in local
    ensures MaskedDestination(local + "@" + domain) == (if local == "" then "" else [local[0]]) + "***@" + domain
  {
    AtSignFound(local, domain);
    var d := local + "@" + domain;
    assert d[|local| + 1..] == domain;
    assert d[..if |local| == 0 then 0 else 1] == if local == "" then "" else [local[0]];
  }

  predicate IsDigit(c: char) { '0' <= c <= '9' }

  lemma {:induction false} DigitsConcat(a: string, b: string)
    ensures Digits(a + b) == Digits(a) + Digits(b)
  {
    if a == "" {
      assert a + b == b;
    } else {
      assert (a + b)[1..] == a[1..] + b;
      DigitsConcat(a[1..], b);
    }
  }

  lemma {:induction false} DigitsOfDigits(s: string)
    requires forall i :: 0 <= i < |s| ==> IsDigit(s[i])
    ensures Digits(s) == s
  {
    if s != "" {
      DigitsOfDigits(s[1..]);
    }
  }

  /** A masked number shows its last four digits, whatever stands before them. */
  lemma MaskedNumber(before: string, last: string)
    requires '@' !in before && |last| == 4 && forall i :: 0 <= i < |last| ==> IsDigit(last[i])
    ensures MaskedDestination(before + last) == "***" + last
  {
    var d := before + last;
    DigitsConcat(before, last);
    DigitsOfDigits(last);
    assert Digits(d)[|Digits(before)|..] == last;
    forall i | 0 <= i < |d|
      ensures d[i] != '@'
    {
      assert i < |before| ==> d[i] in before;
      assert i >= |before| ==> IsDigit(last[i - |before|]);
    }
  }

  /** The row after a provider's reply, one case for each kind of reply. */
  lemma ReplyWrites(cfg: Config, d: Delivery, reply: Reply, at: Time)
    ensures var r := ClosedRow(cfg, d, reply, at);
            match reply
            case Answer(true, _, message) =>
              r == Unleased(d, Delivered).(messageId := Some(message), deliveredAt := Some(at), completedAt := Some(at), lastError := None)
            case Answer(false, false, _) =>
              r == Unleased(d, Failed).(lastError := Some(ProviderRejectedDelivery), completedAt := Some(at))
            case Raised(false) =>
              r == Unleased(d, Failed).(lastError := Some(AdapterFailure), completedAt := Some(at))
            case _ =>
              if d.attemptCount < d.maxAttempts then
                r == Unleased(d, Retrying).(nextAttemptAt := Some(at + RetryDelay(cfg, d.attemptCount)),
                                            lastError := Some(RetryableAdapterFailure))
              else r == Unleased(d, Failed).(lastError := Some(DeliveryAttemptsExhausted), completedAt := Some(at))
  {
    hide RetryDelay;
  }

  lemma AttemptWrites(a: Attempt, reply: Reply, at: Time)
    ensures var r := ClosedAttempt(a, reply, at);
            match reply
            case Answer(true, _, _) => r == a.(status := Succeeded, completedAt := Some(at))
            case Answer(false, false, _) => r == a.(status := Rejected, error := Some(ProviderRejectedDelivery), completedAt := Some(at))
            case Raised(false) => r == a.(status := PermanentFailure, error := Some(AdapterFailure), completedAt := Some(at))
            case _ => r == a.(status := RetryableFailure, error := Some(RetryableAdapterFailure), completedAt := Some(at))
  {
  }

  lemma FinishedJob(cfg: Config, j: Job, lease: Lease, n: nat, reply: Reply, at: Time)
    requires JobInv(j) && SlotInv(j, Returned(lease, n, reply))
    ensures var r := FinishOutcome(cfg, j, lease, n, reply, at);
            if !IsHeldBy(j.row, lease) then r == j
            else
              && n == |j.attempts| >= 1 && r.row == ClosedRow(cfg, j.row, reply, at)
              && r.attempts == j.attempts[n - 1 := ClosedAttempt(j.attempts[n - 1], reply, at)]
  {
    hide ClosedRow, ClosedAttempt, FailedInv, MarkLast;
    if Owns(j.row, lease) {
      FindLastAttempt(j);
    }
  }

  /** One row and its last attempt hold the reply, if the lease still held; no other row has changed. */
  ghost predicate HoldsReply(s: System, t: System, w: WorkerId, at: Time)
    requires Linked(s) && w in s.slots && s.slots[w].Returned?
  {
    var Returned(lease, n, reply) := s.slots[w];
    var j := s.jobs[lease.key];
    lease.key in t.jobs && t.jobs == s.jobs[lease.key := t.jobs[lease.key]]
    && if !IsHeldBy(j.row, lease) then t.jobs[lease.key] == j
       else
         && n == |j.attempts| >= 1 && t.jobs[lease.key].row == ClosedRow(s.cfg, j.row, reply, at)
         && t.jobs[lease.key].attempts == j.attempts[n - 1 := ClosedAttempt(j.attempts[n - 1], reply, at)]
  }

  /** The last transaction writes the reply to the row and to its last attempt, if the lease still holds. */
  lemma FinishWrites(s: System, w: WorkerId, at: Time)
    requires Inv(s) && Enabled(s, Finish(w, at))
    ensures HoldsReply(s, FinishStep(s, w, at), w, at)
  {
    hide JobInv, SlotInv, TokenInv, Leads, Alerts, FinishStep, FinishOutcome, ClosedRow, ClosedAttempt, IsHeldBy;
    var Returned(lease, n, reply) := s.slots[w];
    assert WorkerInv(s, w);
    FinishLeaves(s, w, at);
    FinishedJob(s.cfg, s.jobs[lease.key], lease, n, reply, at);
  }

  /** Recovery: a row lost during its call is closed for good, one lost before it is due again at once. */
  lemma RecoverWrites(s: System, keys: set<DeliveryKey>, at: Time, k: DeliveryKey)
    requires Inv(s) && Enabled(s, Recover(keys, at)) && k in s.jobs
    ensures var j, t := s.jobs[k], RecoverStep(s, keys, at);
            && t.jobs.Keys == s.jobs.Keys && t.slots == s.slots
            && (k !in keys ==> t.jobs[k] == j)
            && (k in keys ==> j.row.status == Leased || j.row.status == Delivering)
            && (k in keys && j.row.status == Leased ==>
                  t.jobs[k] == j.(row := Unleased(j.row, Retrying).(nextAttemptAt := Some(at),
                                                                    lastError := Some(WorkerLostBeforeProviderCall))))
            && (k in keys && j.row.status == Delivering ==>
                  && |j.attempts| >= 1
                  && var n := |j.attempts| - 1;
                     t.jobs[k] == Job(
                       Unleased(j.row, OutcomeUnknown).(lastError := Some(WorkerLostDuringProviderCall), completedAt := Some(at)),
                       j.attempts[n := j.attempts[n].(status := AttemptUnknown, error := Some(WorkerLostDuringProviderCall),
                                                      completedAt := Some(at))],
                       j.calls))
  {
    hide Workers, Leads, Alerts, TokenInv, DerivedStatus, Touches, EventsAfter, FailedInv;
    assert JobInv(s.jobs[k]);
  }

  /** Deletion: open deliveries are cancelled, every delivery and event of the lead loses what could identify it, and
      no other row changes. */
  lemma DeleteWrites(s: System, l: LeadId, at: Time, k: DeliveryKey)
    requires l in s.leads && k in s.jobs
    ensures var t, d := DeleteStep(s, l, at), s.jobs[k].row;
            && t.slots == s.slots && t.alerts == s.alerts && t.jobs.Keys == s.jobs.Keys && t.leads.Keys == s.leads.Keys
            && (forall l' :: l' in s.leads && l' != l ==> t.leads[l'] == s.leads[l'])
            && t.leads[l].row == s.leads[l].row.(status := Deleted, piiDeletedAt := Some(at))
            && |t.leads[l].events| == |s.leads[l].events|
            && (forall i :: 0 <= i < |t.leads[l].events| ==>
                  t.leads[l].events[i].anonymised && t.leads[l].events[i].kind == s.leads[l].events[i].kind)
            && (d.lead != l ==> t.jobs[k] == s.jobs[k])
            && (d.lead == l ==>
                  t.jobs[k] == s.jobs[k].(row :=
                    if d.status == Pending || d.status == Retrying || d.status == Leased || d.status == Delivering then
                      Unleased(d, Cancelled).(nextAttemptAt := None, completedAt := Some(at), destinationReference := "<deleted>",
                                              messageId := None)
                    else d.(destinationReference := "<deleted>", messageId := None)))
  {
  }

  /** A heartbeat moves the two clocks of the row it holds, and nothing else. */
  lemma HeartbeatWrites(s: System, w: WorkerId, at: Time)
    requires Linked(s) && Enabled(s, Heartbeat(w, at))
    ensures var lease, t := s.slots[w].lease, HeartbeatStep(s, w, at);
            var d := s.jobs[lease.key].row;
            t == if IsHeldBy(d, lease) then
                   s.(jobs := s.jobs[lease.key := s.jobs[lease.key].(row :=
                        d.(heartbeatAt := Some(at), leaseExpiresAt := Some(at + s.cfg.leaseFor)))])
                 else s
  {
  }
}
