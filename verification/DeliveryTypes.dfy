/** The rows of the lead-delivery tables, and what a worker remembers between two transactions. */
module DeliveryTypes {
  import opened Wrappers

  type Time = int          // ticks of the database clock
  type LeadId = nat
  type DeliveryKey = nat   // `id` and `delivery_key` are both unique: one name stands for both
  type AssignmentId = nat
  type WorkerId = nat
  type Token = nat         // position in the log of issued leases

  datatype Channel = Email | Phone

  datatype DeliveryStatus =
    | Pending | Leased | Delivering | Retrying
    | Delivered | Failed | Cancelled | OutcomeUnknown

  datatype LeadStatus = Spam | Routing | LeadDelivered | DeliveryFailed | Deleted

  datatype AttemptStatus =
    | Running | Succeeded | RetryableFailure | PermanentFailure | Rejected | AttemptUnknown

  datatype ErrorCode =
    | LeadNotFound
    | ProviderAssignmentNotFound
    | ProviderAssignmentNotActive
    | LeadAssignmentMismatch
    | DeliveryAdapterUnavailable
    | AssignmentDestinationUnavailable
    | AssignmentDestinationChanged
    | AdapterFailure
    | ProviderRejectedDelivery
    | RetryableAdapterFailure
    | DeliveryAttemptsExhausted
    | WorkerLostDuringProviderCall
    | WorkerLostBeforeProviderCall

  datatype AssignmentStatus = Candidate | Pilot | Active | Paused | Terminated | Replaced

  datatype Assignment = Assignment(status: AssignmentStatus, email: Option<string>, phone: Option<string>)

  datatype Lead = Lead(
    status: LeadStatus,
    assignment: Option<AssignmentId>,
    piiDeletedAt: Option<Time>,
    retentionExpiresAt: Time)

  datatype Delivery = Delivery(
    lead: LeadId,
    assignment: AssignmentId,
    channel: Channel,
    destinationReference: string,
    adapterName: string,
    messageId: Option<string>,
    status: DeliveryStatus,
    attemptCount: nat,
    maxAttempts: nat,
    nextAttemptAt: Option<Time>,
    worker: Option<WorkerId>,
    token: Option<Token>,
    claimedAt: Option<Time>,
    heartbeatAt: Option<Time>,
    leaseExpiresAt: Option<Time>,
    lastError: Option<ErrorCode>,
    deliveredAt: Option<Time>,
    completedAt: Option<Time>)

  // `token` is a history variable: the lease under which the attempt was started.
  datatype Attempt = Attempt(
    number: nat,
    status: AttemptStatus,
    error: Option<ErrorCode>,
    completedAt: Option<Time>,
    token: Token)

  datatype EventKind = FormSubmit | ProviderDelivery | DeliveryFailedEvent

  // Anonymising a lead overwrites the event keys, so the row no longer blocks a second one.
  datatype Event = Event(kind: EventKind, anonymised: bool)

  datatype Lease = Lease(key: DeliveryKey, worker: WorkerId, token: Token)

  // What an adapter call comes back with: an exception or a DeliveryResult.
  datatype Reply =
    | Raised(retryableError: bool)
    | Answer(accepted: bool, retryable: bool, message: string)

  // The control point of one worker between its transactions. An absent worker is idle.
  datatype Slot =
    | Holding(lease: Lease)                             // claimed, first transaction not yet run
    | Ready(lease: Lease, attempt: nat)                 // attempt committed, adapter not yet called
    | Calling(lease: Lease, attempt: nat)               // inside the adapter call
    | Returned(lease: Lease, attempt: nat, reply: Reply) // reply in hand, last transaction not yet run

  // History: one provider call, and how far the system has got with it.
  datatype Phase = InFlight | Answered(reply: Reply) | Recorded(reply: Reply)
  datatype Call = Call(attempt: nat, phase: Phase)

  // A delivery row with its attempt rows, in number order, and the calls made for it.
  datatype Job = Job(row: Delivery, attempts: seq<Attempt>, calls: seq<Call>)

  // A lead row with its event rows.
  datatype LeadFile = LeadFile(row: Lead, events: seq<Event>)

  datatype Config = Config(
    adapters: map<Channel, string>,
    leaseFor: int,
    staleAfter: int,
    retryBase: int,
    retryMax: int)

  datatype System = System(
    cfg: Config,
    now: Time,
    leads: map<LeadId, LeadFile>,
    jobs: map<DeliveryKey, Job>,
    assignments: map<AssignmentId, Assignment>,
    slots: map<WorkerId, Slot>,
    issued: seq<Lease>,       // history: every lease ever granted
    alerts: seq<LeadId>)      // history: every "all_deliveries_failed" decision

  predicate IsClaimable(st: DeliveryStatus) { st == Pending || st == Retrying }

  predicate IsActive(st: DeliveryStatus) { st == Leased || st == Delivering }

  predicate IsOpen(st: DeliveryStatus) { IsClaimable(st) || IsActive(st) }

  /** The reply counts as a known transient failure: the only kind that may be followed by a retry. */
  predicate IsRetryable(reply: Reply) {
    match reply
    case Raised(retryableError) => retryableError
    case Answer(accepted, retryable, _) => !accepted && retryable
  }

  predicate IsAccepted(reply: Reply) { reply.Answer? && reply.accepted }
}
