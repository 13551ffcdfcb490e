/** Each committed transaction of the delivery protocol, as one step from system to system. */
module DeliveryProtocol {
  import opened Wrappers
  import opened DeliveryTypes

  // ---------- Lead status and lead events ----------

  predicate HasOpen(jobs: map<DeliveryKey, Job>, l: LeadId) {
    exists k :: k in jobs && jobs[k].row.lead == l && IsOpen(jobs[k].row.status)
  }

  predicate HasDelivered(jobs: map<DeliveryKey, Job>, l: LeadId) {
    exists k :: k in jobs && jobs[k].row.lead == l && jobs[k].row.status == Delivered
  }

  predicate HasDelivery(jobs: map<DeliveryKey, Job>, l: LeadId) {
    exists k :: k in jobs && jobs[k].row.lead == l
  }

  /** The definition of a lead's status in terms of its deliveries. */
  function DerivedStatus(jobs: map<DeliveryKey, Job>, l: LeadId): LeadStatus {
    if HasOpen(jobs, l) then Routing
    else if HasDelivered(jobs, l) then LeadDelivered
    else DeliveryFailed
  }

  predicate HasLiveEvent(es: seq<Event>, kind: EventKind) {
    exists i :: 0 <= i < |es| && es[i] == Event(kind, false)
  }

  function WithEvent(es: seq<Event>, kind: EventKind): seq<Event> {
    if HasLiveEvent(es, kind) then es else es + [Event(kind, false)]
  }

  function EventsAfter(es: seq<Event>, status: LeadStatus): seq<Event> {
    match status
    case LeadDelivered => WithEvent(es, ProviderDelivery)
    case DeliveryFailed => WithEvent(es, DeliveryFailedEvent)
    case _ => es
  }

  function Refreshed(file: LeadFile, status: LeadStatus): LeadFile {
    LeadFile(file.row.(status := status), EventsAfter(file.events, status))
  }

  /** Store job `j` under `k` and bring its lead up to date. */
  function Settled(s: System, k: DeliveryKey, j: Job): System
    requires j.row.lead in s.leads
  {
    var l := j.row.lead;
    var jobs := s.jobs[k := j];
    s.(jobs := jobs, leads := s.leads[l := Refreshed(s.leads[l], DerivedStatus(jobs, l))])
  }

  /** The same, for a delivery that has just failed: alert when that was the lead's last hope. */
  function SettledFailure(s: System, k: DeliveryKey, j: Job): System
    requires j.row.lead in s.leads
  {
    var t := Settled(s, k, j);
    if t.leads[j.row.lead].row.status == DeliveryFailed then t.(alerts := t.alerts + [j.row.lead]) else t
  }

  // ---------- One delivery row ----------

  function WithoutLease(d: Delivery): Delivery {
    d.(worker := None, token := None, claimedAt := None, heartbeatAt := None, leaseExpiresAt := None)
  }

  predicate Claimable(d: Delivery, at: Time) {
    IsClaimable(d.status) && (d.nextAttemptAt == None || d.nextAttemptAt.value <= at)
  }

  function ClaimedRow(d: Delivery, w: WorkerId, t: Token, at: Time, leaseFor: int): Delivery {
    d.(status := Leased, worker := Some(w), token := Some(t), claimedAt := Some(at),
       heartbeatAt := Some(at), leaseExpiresAt := Some(at + leaseFor), nextAttemptAt := None)
  }

  predicate Owns(d: Delivery, lease: Lease) {
    IsActive(d.status) && d.worker == Some(lease.worker) && d.token == Some(lease.token)
  }

  predicate Stale(d: Delivery, at: Time, staleAfter: int) {
    IsActive(d.status) &&
    (d.leaseExpiresAt == None || d.leaseExpiresAt.value < at ||
     d.heartbeatAt == None || d.heartbeatAt.value < at - staleAfter)
  }

  function RecoveredRow(d: Delivery, at: Time): Delivery {
    WithoutLease(
      if d.status == Delivering then
        d.(status := OutcomeUnknown, lastError := Some(WorkerLostDuringProviderCall), completedAt := Some(at))
      else
        d.(status := Retrying, nextAttemptAt := Some(at), lastError := Some(WorkerLostBeforeProviderCall)))
  }

  /** Index of the running attempt with the greatest number, rows being kept in number order. */
  function LastRunning(rows: seq<Attempt>): (i: Option<nat>)
    ensures i.Some? ==> i.value < |rows| && rows[i.value].status == Running
    ensures i.Some? ==> forall j :: i.value < j < |rows| ==> rows[j].status != Running
    ensures i.None? ==> forall j :: 0 <= j < |rows| ==> rows[j].status != Running
  {
    if rows == [] then None
    else if rows[|rows| - 1].status == Running then Some(|rows| - 1)
    else LastRunning(rows[..|rows| - 1])
  }

  function LostAttempts(rows: seq<Attempt>, at: Time): seq<Attempt> {
    var i := LastRunning(rows);
    if i.None? then rows
    else rows[i.value := rows[i.value].(status := AttemptUnknown,
                                        error := Some(WorkerLostDuringProviderCall),
                                        completedAt := Some(at))]
  }

  function RecoveredAttempts(d: Delivery, rows: seq<Attempt>, at: Time): seq<Attempt> {
    if d.status == Delivering then LostAttempts(rows, at) else rows
  }

  function RecoveredJob(j: Job, at: Time): Job {
    j.(row := RecoveredRow(j.row, at), attempts := RecoveredAttempts(j.row, j.attempts, at))
  }

  function CancelledRow(d: Delivery, at: Time): Delivery {
    var anonymous := d.(destinationReference := "<deleted>", messageId := None);
    if IsOpen(d.status) then
      WithoutLease(anonymous.(status := Cancelled, nextAttemptAt := None, completedAt := Some(at)))
    else anonymous
  }

  function FailedRow(d: Delivery, code: ErrorCode, at: Time): Delivery {
    WithoutLease(d.(status := Failed, lastError := Some(code), completedAt := Some(at)))
  }

  function Pow2(n: nat): (p: int)
    ensures p >= 1
  {
    if n == 0 then 1 else 2 * Pow2(n - 1)
  }

  function RetryDelay(cfg: Config, attemptCount: nat): int {
    var backoff := cfg.retryBase * Pow2(if attemptCount == 0 then 0 else attemptCount - 1);
    if cfg.retryMax <= backoff then cfg.retryMax else backoff
  }

  // ---------- Validation before the provider is contacted ----------

  function AtSign(destination: string): (i: nat)
    ensures i <= |destination|
    ensures i < |destination| ==> destination[i] == '@'
    ensures forall j :: 0 <= j < i ==> destination[j] != '@'
  {
    if destination == "" || destination[0] == '@' then 0 else 1 + AtSign(destination[1..])
  }

  function Digits(s: string): string {
    if s == "" then ""
    else (if '0' <= s[0] <= '9' then [s[0]] else "") + Digits(s[1..])
  }

  function MaskedDestination(destination: string): string {
    var i := AtSign(destination);
    if i < |destination| then
      destination[..if i == 0 then 0 else 1] + "***@" + destination[i + 1..]
    else
      var digits := Digits(destination);
      if digits == "" then "<configured>"
      else "***" + digits[if |digits| <= 4 then 0 else |digits| - 4..]
  }

  function DestinationOf(a: Assignment, channel: Channel): Option<string> {
    match channel
    case Email => a.email
    case Phone => a.phone
  }

  /** The first check that fails, in the order the worker makes them. */
  function StartError(s: System, d: Delivery): Option<ErrorCode> {
    if d.lead !in s.leads then Some(LeadNotFound)
    else if d.assignment !in s.assignments then Some(ProviderAssignmentNotFound)
    else
      var a := s.assignments[d.assignment];
      if a.status != Active then Some(ProviderAssignmentNotActive)
      else if s.leads[d.lead].row.assignment != Some(d.assignment) then Some(LeadAssignmentMismatch)
      else if d.channel !in s.cfg.adapters || s.cfg.adapters[d.channel] != d.adapterName then
        Some(DeliveryAdapterUnavailable)
      else
        var destination := DestinationOf(a, d.channel);
        if destination.None? then Some(AssignmentDestinationUnavailable)
        else if MaskedDestination(destination.value) != d.destinationReference then
          Some(AssignmentDestinationChanged)
        else None
  }

  /** The assignment is active and still the lead's, the adapter the delivery was planned for is there, and the
      assignment's present destination on the channel masks to the one on the row. */
  ghost predicate Deliverable(s: System, d: Delivery) {
    && d.lead in s.leads && s.leads[d.lead].row.assignment == Some(d.assignment)
    && d.assignment in s.assignments && s.assignments[d.assignment].status == Active
    && d.channel in s.cfg.adapters && s.cfg.adapters[d.channel] == d.adapterName
    && exists destination ::
         DestinationOf(s.assignments[d.assignment], d.channel) == Some(destination) && MaskedDestination(destination) == d.destinationReference
  }

  lemma CheckPassesExactly(s: System, d: Delivery)
    ensures StartError(s, d) == None <==> Deliverable(s, d)
  {
    hide MaskedDestination;
  }

  // ---------- The outcome of one attempt ----------

  function ClosedAttempt(a: Attempt, reply: Reply, at: Time): Attempt {
    if IsAccepted(reply) then a.(status := Succeeded, completedAt := Some(at))
    else if IsRetryable(reply) then
      a.(status := RetryableFailure, error := Some(RetryableAdapterFailure), completedAt := Some(at))
    else if reply.Raised? then
      a.(status := PermanentFailure, error := Some(AdapterFailure), completedAt := Some(at))
    else
      a.(status := Rejected, error := Some(ProviderRejectedDelivery), completedAt := Some(at))
  }

  function ClosedRow(cfg: Config, d: Delivery, reply: Reply, at: Time): Delivery {
    if IsAccepted(reply) then
      WithoutLease(d.(messageId := Some(reply.message), status := Delivered, deliveredAt := Some(at),
                      completedAt := Some(at), lastError := None))
    else if IsRetryable(reply) then
      if d.attemptCount >= d.maxAttempts then FailedRow(d, DeliveryAttemptsExhausted, at)
      else WithoutLease(d.(status := Retrying, nextAttemptAt := Some(at + RetryDelay(cfg, d.attemptCount)),
                           lastError := Some(RetryableAdapterFailure)))
    else FailedRow(d, if reply.Raised? then AdapterFailure else ProviderRejectedDelivery, at)
  }

  /** Index of the attempt row with the given number. */
  function FindAttempt(rows: seq<Attempt>, number: nat): (i: Option<nat>)
    ensures i.Some? ==> i.value < |rows| && rows[i.value].number == number
    ensures i.None? ==> forall j :: 0 <= j < |rows| ==> rows[j].number != number
  {
    if rows == [] then None
    else if rows[|rows| - 1].number == number then Some(|rows| - 1)
    else FindAttempt(rows[..|rows| - 1], number)
  }

  function MarkLast(calls: seq<Call>, phase: Phase): seq<Call> {
    if calls == [] then calls else calls[|calls| - 1 := calls[|calls| - 1].(phase := phase)]
  }

  // ---------- The transactions ----------

  datatype Action =
    | Tick(until: Time)
    | Insert(newLead: LeadId, lead: Lead, rows: map<DeliveryKey, Delivery>)
    | Assign(assignments: map<AssignmentId, Assignment>)
    | Claim(worker: WorkerId, key: DeliveryKey, at: Time)
    | Start(worker: WorkerId, at: Time)
    | BeginCall(worker: WorkerId)
    | Return(worker: WorkerId, reply: Reply)
    | Finish(worker: WorkerId, at: Time)
    | Heartbeat(worker: WorkerId, at: Time)
    | Recover(keys: set<DeliveryKey>, at: Time)
    | Delete(leadId: LeadId, at: Time)
    | Crash(worker: WorkerId)

  /** The delivery rows a committed submission leaves behind, and the status it stores with them. */
  predicate WellFormedSubmission(lead: Lead, l: LeadId, rows: map<DeliveryKey, Delivery>) {
    && lead.piiDeletedAt == None
    && lead.status == (if lead.status == Spam then Spam else if rows.Keys == {} then DeliveryFailed else Routing)
    && (lead.status == Spam ==> rows.Keys == {})
    && forall k :: k in rows ==>
         && rows[k].lead == l && rows[k].status == Pending && rows[k].attemptCount == 0
         && rows[k].maxAttempts >= 1 && rows[k].nextAttemptAt.Some?
         && rows[k] == WithoutLease(rows[k])
  }

  predicate Enabled(s: System, a: Action) {
    match a
    case Tick(until) => s.now <= until
    case Insert(l, lead, rows) =>
      l !in s.leads && rows.Keys !! s.jobs.Keys && WellFormedSubmission(lead, l, rows)
    case Assign(_) => true
    case Claim(w, k, at) => w !in s.slots && at <= s.now
    case Start(w, at) => w in s.slots && s.slots[w].Holding? && at <= s.now
    case BeginCall(w) => w in s.slots && s.slots[w].Ready?
    case Return(w, _) => w in s.slots && s.slots[w].Calling?
    case Finish(w, at) => w in s.slots && s.slots[w].Returned? && at <= s.now
    case Heartbeat(w, at) => w in s.slots && !s.slots[w].Holding? && at <= s.now
    case Recover(keys, at) =>
      at <= s.now && forall k :: k in keys ==> k in s.jobs && Stale(s.jobs[k].row, at, s.cfg.staleAfter)
    case Delete(l, at) => l in s.leads && at <= s.now
    case Crash(w) => w in s.slots
  }

  /** Foreign keys: deliveries name stored leads, workers name stored deliveries. */
  ghost predicate Linked(s: System) {
    && (forall k :: k in s.jobs ==> s.jobs[k].row.lead in s.leads)
    && (forall w :: w in s.slots ==> s.slots[w].lease.key in s.jobs)
  }

  function InsertStep(s: System, l: LeadId, lead: Lead, rows: map<DeliveryKey, Delivery>): System {
    s.(leads := s.leads[l := LeadFile(lead, [Event(FormSubmit, false)])],
       jobs := s.jobs + map k | k in rows :: Job(rows[k], [], []))
  }

  function ClaimStep(s: System, w: WorkerId, k: DeliveryKey, at: Time): System {
    if k in s.jobs && Claimable(s.jobs[k].row, at) then
      var lease := Lease(k, w, |s.issued|);
      var j := s.jobs[k];
      s.(jobs := s.jobs[k := j.(row := ClaimedRow(j.row, w, lease.token, at, s.cfg.leaseFor))],
         slots := s.slots[w := Holding(lease)],
         issued := s.issued + [lease])
    else s
  }

  function Released(s: System, w: WorkerId): System { s.(slots := s.slots - {w}) }

  function StartedJob(j: Job, token: Token): Job {
    var n := j.row.attemptCount + 1;
    j.(row := j.row.(attemptCount := n, status := Delivering),
       attempts := j.attempts + [Attempt(n, Running, None, None, token)])
  }

  function StartStep(s: System, w: WorkerId, at: Time): System
    requires Linked(s) && Enabled(s, Start(w, at))
  {
    var lease := s.slots[w].lease;
    var j := s.jobs[lease.key];
    if !Owns(j.row, lease) then Released(s, w)
    else
      var error := StartError(s, j.row);
      if error.Some? then
        SettledFailure(Released(s, w), lease.key, j.(row := FailedRow(j.row, error.value, at)))
      else
        s.(jobs := s.jobs[lease.key := StartedJob(j, lease.token)],
           slots := s.slots[w := Ready(lease, j.row.attemptCount + 1)])
  }

  function BeginCallStep(s: System, w: WorkerId): System
    requires Linked(s) && Enabled(s, BeginCall(w))
  {
    var Ready(lease, n) := s.slots[w];
    var j := s.jobs[lease.key];
    s.(slots := s.slots[w := Calling(lease, n)],
       jobs := s.jobs[lease.key := j.(calls := j.calls + [Call(n, InFlight)])])
  }

  function ReturnStep(s: System, w: WorkerId, reply: Reply): System
    requires Linked(s) && Enabled(s, Return(w, reply))
  {
    var Calling(lease, n) := s.slots[w];
    var j := s.jobs[lease.key];
    s.(slots := s.slots[w := Returned(lease, n, reply)],
       jobs := s.jobs[lease.key := j.(calls := MarkLast(j.calls, Answered(reply)))])
  }

  function ClosedJob(cfg: Config, j: Job, i: nat, reply: Reply, at: Time): Job
    requires i < |j.attempts|
  {
    Job(ClosedRow(cfg, j.row, reply, at),
        j.attempts[i := ClosedAttempt(j.attempts[i], reply, at)],
        MarkLast(j.calls, Recorded(reply)))
  }

  function FinishStep(s: System, w: WorkerId, at: Time): System
    requires Linked(s) && Enabled(s, Finish(w, at))
  {
    var Returned(lease, n, reply) := s.slots[w];
    var j := s.jobs[lease.key];
    var i := FindAttempt(j.attempts, n);
    if !Owns(j.row, lease) || i.None? then Released(s, w)
    else
      var closed := ClosedJob(s.cfg, j, i.value, reply, at);
      if closed.row.status == Failed then SettledFailure(Released(s, w), lease.key, closed)
      else Settled(Released(s, w), lease.key, closed)
  }

  function HeartbeatStep(s: System, w: WorkerId, at: Time): System
    requires Linked(s) && Enabled(s, Heartbeat(w, at))
  {
    var lease := s.slots[w].lease;
    var j := s.jobs[lease.key];
    if Owns(j.row, lease) then
      s.(jobs := s.jobs[lease.key :=
           j.(row := j.row.(heartbeatAt := Some(at), leaseExpiresAt := Some(at + s.cfg.leaseFor)))])
    else s
  }

  predicate Touches(jobs: map<DeliveryKey, Job>, keys: set<DeliveryKey>, l: LeadId) {
    exists k :: k in keys && k in jobs && jobs[k].row.lead == l
  }

  /** All chosen rows are taken back at once; every lead they belong to is derived afresh, once. */
  function RecoverStep(s: System, keys: set<DeliveryKey>, at: Time): System {
    var jobs := map k | k in s.jobs :: if k in keys then RecoveredJob(s.jobs[k], at) else s.jobs[k];
    s.(jobs := jobs,
       leads := map l | l in s.leads ::
         if Touches(s.jobs, keys, l) then Refreshed(s.leads[l], DerivedStatus(jobs, l)) else s.leads[l])
  }

  function Anonymised(es: seq<Event>): (r: seq<Event>)
    ensures |r| == |es|
    ensures forall i :: 0 <= i < |es| ==> r[i] == Event(es[i].kind, true)
  {
    seq(|es|, i requires 0 <= i < |es| => Event(es[i].kind, true))
  }

  function DeletedFile(file: LeadFile, at: Time): LeadFile {
    LeadFile(file.row.(status := Deleted, piiDeletedAt := Some(at)), Anonymised(file.events))
  }

  function DeleteStep(s: System, l: LeadId, at: Time): System
    requires l in s.leads
  {
    s.(leads := s.leads[l := DeletedFile(s.leads[l], at)],
       jobs := map k | k in s.jobs ::
         if s.jobs[k].row.lead == l then s.jobs[k].(row := CancelledRow(s.jobs[k].row, at)) else s.jobs[k])
  }

  function Step(s: System, a: Action): System
    requires Linked(s) && Enabled(s, a)
  {
    match a
    case Tick(until) => s.(now := until)
    case Insert(l, lead, rows) => InsertStep(s, l, lead, rows)
    case Assign(assignments) => s.(assignments := assignments)
    case Claim(w, k, at) => ClaimStep(s, w, k, at)
    case Start(w, at) => StartStep(s, w, at)
    case BeginCall(w) => BeginCallStep(s, w)
    case Return(w, reply) => ReturnStep(s, w, reply)
    case Finish(w, at) => FinishStep(s, w, at)
    case Heartbeat(w, at) => HeartbeatStep(s, w, at)
    case Recover(keys, at) => RecoverStep(s, keys, at)
    case Delete(l, at) => DeleteStep(s, l, at)
    case Crash(w) => Released(s, w)
  }
}
