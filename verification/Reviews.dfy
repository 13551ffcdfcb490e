/** The opportunity-review state machine and its append-only history. */
module Reviews {
  import opened Wrappers

  type Time = int
  type OpportunityId = nat

  datatype State =
    | Discovered | PrefilterReview | TestingPlanned | TestingRunning | PreliminaryReview | FullScanApproved
    | FullRunning | FullReview | NeedsMoreEvidence | ApprovedForProperty | Rejected | Archived

  // What the status column may hold: a current name, a name of an earlier release, or anything else.
  datatype Legacy = LegacyApproved | EvidenceRejected | ScanFailed | PartialReview | UnusableReview
  datatype Stored = Named(state: State) | Old(legacy: Legacy) | Unknown(text: string)

  datatype Role = Operator | Reviewer | Admin | SystemRole
  datatype Actor = Actor(id: string, role: Role)

  datatype ReviewError =
    | OpportunityNotFound | UnknownOpportunityState | ReviewVersionConflict | InvalidTransition
    | InvalidSystemTransition | HumanReviewerRequired | ApprovalEvidenceIncomplete

  datatype Opportunity = Opportunity(status: Stored, owner: Option<string>, version: nat, approvedAt: Option<Time>)

  // `complete` is a history variable: whether approval evidence was complete when the row was written.
  datatype Review = Review(
    opportunity: OpportunityId, prior: State, state: State, owner: Option<string>, actor: Actor, version: nat,
    approvedAt: Option<Time>, rejectedAt: Option<Time>, complete: bool)

  datatype Ledger = Ledger(opportunities: map<OpportunityId, Opportunity>, reviews: seq<Review>)

  // `complete` stands for what the completeness queries would answer at the moment of the request.
  datatype Request = Request(target: State, owner: Option<string>, expected: Option<nat>, complete: bool, at: Time)

  function AllowedTransitions(s: State): set<State> {
    match s
    case Discovered => {PrefilterReview, TestingPlanned, TestingRunning, PreliminaryReview, FullRunning, FullReview,
                        NeedsMoreEvidence, Rejected, Archived}
    case PrefilterReview => {TestingPlanned, TestingRunning, FullRunning, NeedsMoreEvidence, Rejected, Archived}
    case TestingPlanned => {TestingRunning, NeedsMoreEvidence, Rejected, Archived}
    case TestingRunning => {PreliminaryReview, NeedsMoreEvidence, TestingPlanned}
    case PreliminaryReview => {TestingPlanned, FullScanApproved, NeedsMoreEvidence, Rejected, Archived}
    case FullScanApproved => {FullRunning, PreliminaryReview, NeedsMoreEvidence, Rejected}
    case FullRunning => {FullReview, NeedsMoreEvidence, FullScanApproved}
    case FullReview => {ApprovedForProperty, FullScanApproved, NeedsMoreEvidence, Rejected, Archived}
    case NeedsMoreEvidence => {TestingPlanned, TestingRunning, PreliminaryReview, FullScanApproved, FullRunning,
                               FullReview, Rejected, Archived}
    case ApprovedForProperty => {FullRunning, FullReview, NeedsMoreEvidence, Archived}
    case Rejected => {PrefilterReview, PreliminaryReview, FullReview, Archived}
    case Archived => {}
  }

  /** The same table read the other way: from where a state may be reached. */
  function Sources(target: State): set<State> {
    match target
    case Discovered => {}
    case PrefilterReview => {Discovered, Rejected}
    case TestingPlanned => {Discovered, PrefilterReview, TestingRunning, PreliminaryReview, NeedsMoreEvidence}
    case TestingRunning => {Discovered, PrefilterReview, TestingPlanned, NeedsMoreEvidence}
    case PreliminaryReview => {Discovered, TestingRunning, FullScanApproved, NeedsMoreEvidence, Rejected}
    case FullScanApproved => {PreliminaryReview, FullRunning, FullReview, NeedsMoreEvidence}
    case FullRunning => {Discovered, PrefilterReview, FullScanApproved, NeedsMoreEvidence, ApprovedForProperty}
    case FullReview => {Discovered, FullRunning, NeedsMoreEvidence, ApprovedForProperty, Rejected}
    case NeedsMoreEvidence => {Discovered, PrefilterReview, TestingPlanned, TestingRunning, PreliminaryReview,
                               FullScanApproved, FullRunning, FullReview, ApprovedForProperty}
    case ApprovedForProperty => {FullReview}
    case Rejected => {Discovered, PrefilterReview, TestingPlanned, PreliminaryReview, FullScanApproved, FullReview,
                      NeedsMoreEvidence}
    case Archived => {Discovered, PrefilterReview, TestingPlanned, PreliminaryReview, FullReview, NeedsMoreEvidence,
                      ApprovedForProperty, Rejected}
  }

  lemma SourcesAgree(s: State, target: State)
    ensures target in AllowedTransitions(s) <==> s in Sources(target)
  {
  }

  function CanonicalState(stored: Stored): Result<State, ReviewError> {
    match stored
    case Named(state) => Ok(state)
    case Old(LegacyApproved) => Ok(ApprovedForProperty)
    case Old(_) => Ok(NeedsMoreEvidence)
    case Unknown(_) => Err(UnknownOpportunityState)
  }

  function Stale(o: Opportunity, expected: Option<nat>): bool {
    expected.Some? && expected.value != o.version
  }

  /** The first objection to a transition, in the order the service raises them. */
  function Objection(o: Opportunity, r: Request, actor: Actor): Option<ReviewError> {
    match CanonicalState(o.status)
    case Err(e) => Some(e)
    case Ok(current) =>
      if Stale(o, r.expected) then Some(ReviewVersionConflict)
      else if r.target !in AllowedTransitions(current) then Some(InvalidTransition)
      else if r.target in {ApprovedForProperty, Rejected} && actor.role == SystemRole then Some(HumanReviewerRequired)
      else if r.target == ApprovedForProperty && !r.complete then Some(ApprovalEvidenceIncomplete)
      else None
  }

  /** An owner that is not named, or named by an empty string, stays. */
  function NewOwner(o: Opportunity, r: Request): Option<string> {
    if r.owner.Some? && r.owner.value != "" then r.owner else o.owner
  }

  function Transitioned(o: Opportunity, current: State, r: Request): Opportunity {
    Opportunity(
      Named(r.target),
      NewOwner(o, r),
      o.version + 1,
      if r.target == ApprovedForProperty then Some(r.at)
      else if current == ApprovedForProperty then None
      else o.approvedAt)
  }

  function Transition(l: Ledger, id: OpportunityId, r: Request, actor: Actor): Result<Ledger, ReviewError> {
    if id !in l.opportunities then Err(OpportunityNotFound)
    else
      var o := l.opportunities[id];
      var objection := Objection(o, r, actor);
      if objection.Some? then Err(objection.value)
      else
        var current := CanonicalState(o.status).value;
        var o' := Transitioned(o, current, r);
        Ok(Ledger(
          l.opportunities[id := o'],
          l.reviews + [Review(id, current, r.target, o'.owner, actor, o'.version,
                              if r.target == ApprovedForProperty then Some(r.at) else None,
                              if r.target == Rejected then Some(r.at) else None,
                              r.complete)]))
  }

  const PIPELINE := Actor("system:scan-pipeline", SystemRole)

  function TransitionSystem(l: Ledger, id: OpportunityId, target: State, at: Time): Result<Ledger, ReviewError> {
    if id !in l.opportunities then Err(OpportunityNotFound)
    else
      var o := l.opportunities[id];
      match CanonicalState(o.status)
      case Err(e) => Err(e)
      case Ok(current) =>
        if current == target then Ok(l)
        else if target !in AllowedTransitions(current) then Err(InvalidSystemTransition)
        else Transition(l, id, Request(target, o.owner, None, false, at), PIPELINE)
  }

  function AssignOwner(l: Ledger, id: OpportunityId, owner: string, expected: Option<nat>, actor: Actor)
    : Result<Ledger, ReviewError>
  {
    if id !in l.opportunities then Err(OpportunityNotFound)
    else
      var o := l.opportunities[id];
      if Stale(o, expected) then Err(ReviewVersionConflict)
      else
        match CanonicalState(o.status)
        case Err(e) => Err(e)
        case Ok(state) =>
          var o' := o.(owner := Some(owner), version := o.version + 1);
          Ok(Ledger(l.opportunities[id := o'],
                    l.reviews + [Review(id, state, state, Some(owner), actor, o'.version, None, None, false)]))
  }

  /** Property work may go ahead. */
  predicate PropertyApproved(l: Ledger, id: OpportunityId) {
    id in l.opportunities && CanonicalState(l.opportunities[id].status) == Ok(ApprovedForProperty)
  }

  // ---------- The history of one opportunity ----------

  const FRESH := Opportunity(Named(Discovered), None, 0, None)

  function RowsOf(rows: seq<Review>, id: OpportunityId): seq<Review> {
    if rows == [] then []
    else
      var before := RowsOf(rows[..|rows| - 1], id);
      if rows[|rows| - 1].opportunity == id then before + [rows[|rows| - 1]] else before
  }

  lemma RowsOfAppend(rows: seq<Review>, row: Review, id: OpportunityId)
    ensures RowsOf(rows + [row], id) == if row.opportunity == id then RowsOf(rows, id) + [row] else RowsOf(rows, id)
  {
    assert (rows + [row])[..|rows|] == rows;
  }

  /** Rebuild an opportunity from its review rows alone. */
  function Replay(h: seq<Review>): Opportunity {
    if h == [] then FRESH
    else
      var before := Replay(h[..|h| - 1]);
      var row := h[|h| - 1];
      Opportunity(
        Named(row.state), row.owner, row.version,
        if row.state != ApprovedForProperty then None
        else if row.prior == ApprovedForProperty then before.approvedAt
        else row.approvedAt)
  }

  /** The state an opportunity with this history is in. */
  function StateAfter(h: seq<Review>): State {
    if h == [] then Discovered else h[|h| - 1].state
  }

  ghost predicate Chained(h: seq<Review>) {
    forall i :: 0 <= i < |h| ==> h[i].version == i + 1 && h[i].prior == StateAfter(h[..i])
  }

  ghost predicate Approves(row: Review) { row.state == ApprovedForProperty && row.prior != ApprovedForProperty }

  /** Versions count 1..n, each row starts where the one before ended, every approval was a human's, came
      from full review and had complete evidence; and the rows rebuild the opportunity. */
  ghost predicate Faithful(o: Opportunity, h: seq<Review>) {
    && o == Replay(h)
    && Chained(h)
    && (forall i :: 0 <= i < |h| ==> h[i].state == h[i].prior || h[i].state in AllowedTransitions(h[i].prior))
    && (forall i :: 0 <= i < |h| && Approves(h[i]) ==>
          h[i].prior == FullReview && h[i].actor.role != SystemRole && h[i].complete && h[i].approvedAt.Some?)
    && (forall i :: 0 <= i < |h| && h[i].state == Rejected && h[i].prior != Rejected ==> h[i].actor.role != SystemRole)
    && (o.approvedAt.Some? <==> o.status == Named(ApprovedForProperty))
    && o.status == Named(StateAfter(h))
    && o.version == |h|
  }

  lemma FaithfulAppend(o: Opportunity, h: seq<Review>, row: Review, o': Opportunity)
    requires Faithful(o, h)
    requires row.version == o.version + 1 && Named(row.prior) == o.status
    requires o' == Opportunity(Named(row.state), row.owner, row.version,
                               if row.state != ApprovedForProperty then None
                               else if row.prior == ApprovedForProperty then o.approvedAt else row.approvedAt)
    requires row.state == row.prior || row.state in AllowedTransitions(row.prior)
    requires Approves(row) ==>
               row.prior == FullReview && row.actor.role != SystemRole && row.complete && row.approvedAt.Some?
    requires row.state == Rejected && row.prior != Rejected ==> row.actor.role != SystemRole
    ensures Faithful(o', h + [row])
  {
    var h' := h + [row];
    assert h'[..|h|] == h;
    assert forall i :: 0 <= i <= |h| ==> h'[..i] == h[..i];
  }

  ghost predicate LedgerInv(l: Ledger) {
    && (forall i :: 0 <= i < |l.reviews| ==> l.reviews[i].opportunity in l.opportunities)
    && (forall id :: id in l.opportunities ==> Faithful(l.opportunities[id], RowsOf(l.reviews, id)))
  }

  lemma AppendKeeps(l: Ledger, id: OpportunityId, o': Opportunity, row: Review)
    requires LedgerInv(l) && id in l.opportunities && row.opportunity == id
    requires Faithful(o', RowsOf(l.reviews, id) + [row])
    ensures LedgerInv(Ledger(l.opportunities[id := o'], l.reviews + [row]))
  {
    hide Faithful, RowsOf;
    forall id' | id' in l.opportunities
      ensures Faithful(l.opportunities[id := o'][id'], RowsOf(l.reviews + [row], id'))
    {
      RowsOfAppend(l.reviews, row, id');
    }
  }

  lemma TransitionKeeps(l: Ledger, id: OpportunityId, r: Request, actor: Actor)
    requires LedgerInv(l)
    ensures Transition(l, id, r, actor).Ok? ==> LedgerInv(Transition(l, id, r, actor).value)
  {
    hide RowsOf, Faithful, AllowedTransitions;
    var result := Transition(l, id, r, actor);
    if result.Ok? {
      var o, h := l.opportunities[id], RowsOf(l.reviews, id);
      var l' := result.value;
      var row := l'.reviews[|l.reviews|];
      CanonicalNamed(o, h);
      OnlyFullReviewApproves(CanonicalState(o.status).value);
      FaithfulAppend(o, h, row, l'.opportunities[id]);
      hide Objection, CanonicalState;
      AppendKeeps(l, id, l'.opportunities[id], row);
    }
  }

  lemma OnlyFullReviewApproves(s: State)
    ensures ApprovedForProperty in AllowedTransitions(s) <==> s == FullReview
  {
  }

  lemma CanonicalNamed(o: Opportunity, h: seq<Review>)
    requires Faithful(o, h)
    ensures CanonicalState(o.status).Ok? && o.status == Named(CanonicalState(o.status).value)
    ensures o.approvedAt.Some? <==> o.status == Named(ApprovedForProperty)
  {
  }

  lemma AssignKeeps(l: Ledger, id: OpportunityId, owner: string, expected: Option<nat>, actor: Actor)
    requires LedgerInv(l)
    ensures AssignOwner(l, id, owner, expected, actor).Ok? ==> LedgerInv(AssignOwner(l, id, owner, expected, actor).value)
  {
    hide RowsOf, Replay;
    var result := AssignOwner(l, id, owner, expected, actor);
    if result.Ok? {
      var l' := result.value;
      var row := l'.reviews[|l.reviews|];
      FaithfulAppend(l.opportunities[id], RowsOf(l.reviews, id), row, l'.opportunities[id]);
      AppendKeeps(l, id, l'.opportunities[id], row);
    }
  }

  // ---------- Runs ----------

  datatype Op =
    | Discover(id: OpportunityId)
    | Move(id: OpportunityId, request: Request, actor: Actor)
    | MoveSystem(id: OpportunityId, target: State, at: Time)
    | Own(id: OpportunityId, owner: string, ownExpected: Option<nat>, actor: Actor)

  function Attempted(l: Ledger, op: Op): Result<Ledger, ReviewError> {
    match op
    case Discover(id) =>
      if id in l.opportunities then Ok(l) else Ok(l.(opportunities := l.opportunities[id := FRESH]))
    case Move(id, request, actor) => Transition(l, id, request, actor)
    case MoveSystem(id, target, at) => TransitionSystem(l, id, target, at)
    case Own(id, owner, expected, actor) => AssignOwner(l, id, owner, expected, actor)
  }

  /** A refused request is rolled back. */
  function Applied(l: Ledger, op: Op): Ledger {
    match Attempted(l, op)
    case Ok(l') => l'
    case Err(_) => l
  }

  function Run(ops: seq<Op>): Ledger {
    if ops == [] then Ledger(map[], []) else Applied(Run(ops[..|ops| - 1]), ops[|ops| - 1])
  }

  lemma RowsOfNone(rows: seq<Review>, id: OpportunityId)
    requires forall i :: 0 <= i < |rows| ==> rows[i].opportunity != id
    ensures RowsOf(rows, id) == []
  {
  }

  lemma AppliedKeeps(l: Ledger, op: Op)
    requires LedgerInv(l)
    ensures LedgerInv(Applied(l, op))
  {
    hide Faithful, Objection;
    match op
    case Discover(id) =>
      if id !in l.opportunities {
        RowsOfNone(l.reviews, id);
        FreshFaithful();
      }
    case Move(id, request, actor) => TransitionKeeps(l, id, request, actor);
    case MoveSystem(id, target, at) =>
      if id in l.opportunities {
        TransitionKeeps(l, id, Request(target, l.opportunities[id].owner, None, false, at), PIPELINE);
      }
    case Own(id, owner, expected, actor) => AssignKeeps(l, id, owner, expected, actor);
  }

  lemma FreshFaithful()
    ensures Faithful(FRESH, [])
  {
  }

  /** Whatever is requested in whatever order, every history stays a faithful event log. */
  lemma {:induction false} HistoryIsFaithful(ops: seq<Op>)
    ensures LedgerInv(Run(ops))
  {
    if ops != [] {
      HistoryIsFaithful(ops[..|ops| - 1]);
      AppliedKeeps(Run(ops[..|ops| - 1]), ops[|ops| - 1]);
    }
  }

  /** A later ledger extends the rows of an earlier one and never lowers a version. */
  ghost predicate Extends(l: Ledger, l': Ledger) {
    && l.reviews <= l'.reviews
    && forall id :: id in l.opportunities ==>
         id in l'.opportunities && l'.opportunities[id].version >= l.opportunities[id].version
  }

  lemma AppliedExtends(l: Ledger, op: Op)
    ensures Extends(l, Applied(l, op))
  {
    hide Objection, CanonicalState;
  }

  lemma {:induction false} RunExtends(ops: seq<Op>, i: nat)
    requires i <= |ops|
    ensures Extends(Run(ops[..i]), Run(ops))
  {
    if i == |ops| {
      assert ops[..i] == ops;
    } else {
      var before := ops[..|ops| - 1];
      RunExtends(before, i);
      assert before[..i] == ops[..i];
      AppliedExtends(Run(before), ops[|ops| - 1]);
    }
  }

  /** The request carries an expected version and went through. */
  ghost predicate CommitsAt(ops: seq<Op>, i: nat, id: OpportunityId, version: nat)
    requires i < |ops|
  {
    && Attempted(Run(ops[..i]), ops[i]).Ok?
    && match ops[i]
       case Move(id', request, _) => id' == id && request.expected == Some(version)
       case Own(id', _, expected, _) => id' == id && expected == Some(version)
       case _ => false
  }

  /** Of all requests that expect the same version of an opportunity, at most one goes through. */
  lemma OneCommitPerVersion(ops: seq<Op>, i: nat, j: nat, id: OpportunityId, version: nat)
    requires i < j < |ops| && CommitsAt(ops, i, id, version)
    ensures !CommitsAt(ops, j, id, version)
  {
    hide Objection, Extends;
    var l := Run(ops[..i]);
    CommitRaises(l, ops[i], id, version);
    assert ops[..i + 1][..i] == ops[..i];
    assert ops[..j][..i + 1] == ops[..i + 1];
    RunExtends(ops[..j], i + 1);
    LaterVersion(Run(ops[..i + 1]), Run(ops[..j]), id);
    if CommitsAt(ops, j, id, version) {
      CommitRaises(Run(ops[..j]), ops[j], id, version);
    }
  }

  lemma LaterVersion(l: Ledger, l': Ledger, id: OpportunityId)
    requires Extends(l, l') && id in l.opportunities
    ensures id in l'.opportunities && l'.opportunities[id].version >= l.opportunities[id].version
  {
  }

  lemma CommitRaises(l: Ledger, op: Op, id: OpportunityId, version: nat)
    requires Attempted(l, op).Ok?
    requires match op
             case Move(id', request, _) => id' == id && request.expected == Some(version)
             case Own(id', _, expected, _) => id' == id && expected == Some(version)
             case _ => false
    ensures id in l.opportunities && l.opportunities[id].version == version
    ensures id in Applied(l, op).opportunities && Applied(l, op).opportunities[id].version == version + 1
  {
  }

  /** Whenever property work may go ahead, some human approved from full review on complete evidence, and
      nothing has happened to the opportunity since but changes of owner. */
  lemma ApprovalIsBacked(ops: seq<Op>, id: OpportunityId) returns (i: nat)
    requires PropertyApproved(Run(ops), id)
    ensures var h := RowsOf(Run(ops).reviews, id);
            && i < |h| && Approves(h[i])
            && h[i].prior == FullReview && h[i].actor.role != SystemRole && h[i].complete
            && Run(ops).opportunities[id].approvedAt == h[i].approvedAt
            && forall j :: i < j < |h| ==> h[j].prior == h[j].state == ApprovedForProperty
  {
    HistoryIsFaithful(ops);
    var h := RowsOf(Run(ops).reviews, id);
    i := LastApproval(Run(ops).opportunities[id], h);
  }

  lemma {:induction false} LastApproval(o: Opportunity, h: seq<Review>) returns (i: nat)
    requires Faithful(o, h) && o.status == Named(ApprovedForProperty)
    ensures i < |h| && Approves(h[i]) && o.approvedAt == h[i].approvedAt
    ensures forall j :: i < j < |h| ==> h[j].prior == h[j].state == ApprovedForProperty
    decreases |h|
  {
    hide Faithful, Replay;
    LastStep(o, h);
    var n := |h| - 1;
    if Approves(h[n]) {
      return n;
    }
    FaithfulPrefix(o, h);
    i := LastApproval(Replay(h[..n]), h[..n]);
  }

  /** An approved opportunity's last row either approved it or found it approved. */
  lemma LastStep(o: Opportunity, h: seq<Review>)
    requires Faithful(o, h) && o.status == Named(ApprovedForProperty)
    ensures |h| > 0
    ensures Approves(h[|h| - 1]) ==> o.approvedAt == h[|h| - 1].approvedAt
    ensures !Approves(h[|h| - 1]) ==>
              && h[|h| - 1].prior == h[|h| - 1].state == ApprovedForProperty
              && Replay(h[..|h| - 1]).status == Named(ApprovedForProperty)
              && Replay(h[..|h| - 1]).approvedAt == o.approvedAt
  {
    hide AllowedTransitions;
    if |h| > 0 {
      FaithfulPrefix(o, h);
    }
  }

  lemma FaithfulPrefix(o: Opportunity, h: seq<Review>)
    requires Faithful(o, h) && |h| > 0
    ensures Faithful(Replay(h[..|h| - 1]), h[..|h| - 1])
  {
    var before := h[..|h| - 1];
    assert forall i :: 0 <= i < |h| ==> before[..i] == h[..i];
    ReplayShape(before);
  }

  lemma {:induction false} ReplayShape(h: seq<Review>)
    requires Chained(h)
    requires forall i :: 0 <= i < |h| && Approves(h[i]) ==> h[i].approvedAt.Some?
    ensures Replay(h).version == |h| && Replay(h).status == Named(StateAfter(h))
    ensures Replay(h).approvedAt.Some? <==> StateAfter(h) == ApprovedForProperty
  {
    if h != [] {
      var before := h[..|h| - 1];
      assert forall i :: 0 <= i < |h| ==> before[..i] == h[..i];
      ReplayShape(before);
    }
  }

  /** Nothing leaves the archive. */
  lemma ArchivedIsFinal(l: Ledger, op: Op, id: OpportunityId)
    requires id in l.opportunities && l.opportunities[id].status == Named(Archived)
    ensures id in Applied(l, op).opportunities && Applied(l, op).opportunities[id].status == Named(Archived)
  {
  }

  // ---------- One transition, column by column ----------

  /** The state a stored name stands for: its own, or for a name of an earlier release approved or more evidence. */
  ghost predicate StandsFor(stored: Stored, state: State) {
    || stored == Named(state)
    || (state == ApprovedForProperty && stored == Old(LegacyApproved))
    || (state == NeedsMoreEvidence
        && stored in {Old(EvidenceRejected), Old(ScanFailed), Old(PartialReview), Old(UnusableReview)})
  }

  /** The opportunity is where the request wanted it, one version on, with the named owner or the old one, approved from
      now, still or no longer; and the row says so. */
  ghost predicate HasMoved(l: Ledger, l': Ledger, id: OpportunityId, r: Request, actor: Actor, row: Review) {
    && id in l.opportunities && id in l'.opportunities && StandsFor(l.opportunities[id].status, row.prior)
    && l'.opportunities == l.opportunities[id := l'.opportunities[id]]
    && var o, o' := l.opportunities[id], l'.opportunities[id];
       && row.prior in Sources(r.target)
       && o'.status == Named(r.target) && o'.version == o.version + 1
       && (r.owner.Some? && r.owner.value != "" ==> o'.owner == r.owner)
       && (r.owner.None? || r.owner.value == "" ==> o'.owner == o.owner)
       && (r.target == ApprovedForProperty ==> o'.approvedAt == Some(r.at))
       && (r.target != ApprovedForProperty && row.prior == ApprovedForProperty ==> o'.approvedAt == None)
       && (r.target != ApprovedForProperty && row.prior != ApprovedForProperty ==> o'.approvedAt == o.approvedAt)
       && row.opportunity == id && row.state == r.target && row.owner == o'.owner && row.actor == actor
       && row.version == o'.version && row.complete == r.complete
       && row.approvedAt == (if r.target == ApprovedForProperty then Some(r.at) else None)
       && row.rejectedAt == (if r.target == Rejected then Some(r.at) else None)
       && (r.expected.Some? ==> r.expected.value == o.version)
       && (r.target in {ApprovedForProperty, Rejected} ==> actor.role != SystemRole)
       && (r.target == ApprovedForProperty ==> r.complete)
  }

  /** The first thing that stands against a request, checks in the order of the service. */
  ghost predicate NamesObjection(l: Ledger, id: OpportunityId, r: Request, actor: Actor, error: ReviewError) {
    if id !in l.opportunities then error == OpportunityNotFound
    else
      var o := l.opportunities[id];
      match error
      case UnknownOpportunityState => forall state :: !StandsFor(o.status, state)
      case ReviewVersionConflict => r.expected.Some? && r.expected.value != o.version
      case InvalidTransition =>
        (r.expected.Some? ==> r.expected.value == o.version) && exists state :: StandsFor(o.status, state) && state !in Sources(r.target)
      case HumanReviewerRequired =>
        r.target in {ApprovedForProperty, Rejected} && actor.role == SystemRole
        && exists state :: StandsFor(o.status, state) && state in Sources(r.target)
      case ApprovalEvidenceIncomplete =>
        r.target == ApprovedForProperty && !r.complete && actor.role != SystemRole
        && exists state :: StandsFor(o.status, state) && state in Sources(r.target)
      case _ => false
  }

  lemma CanonicalStands(stored: Stored)
    ensures CanonicalState(stored).Ok? ==> forall state :: StandsFor(stored, state) <==> state == CanonicalState(stored).value
    ensures CanonicalState(stored).Err? ==> CanonicalState(stored).error == UnknownOpportunityState
    ensures CanonicalState(stored).Err? ==> forall state :: !StandsFor(stored, state)
  {
  }

  lemma MovedHas(l: Ledger, id: OpportunityId, r: Request, actor: Actor)
    ensures var t := Transition(l, id, r, actor);
            match t
            case Ok(l') => |l'.reviews| == |l.reviews| + 1 && HasMoved(l, l', id, r, actor, l'.reviews[|l.reviews|])
            case Err(e) => NamesObjection(l, id, r, actor, e)
  {
    if id in l.opportunities {
      var stored := l.opportunities[id].status;
      CanonicalStands(stored);
      if CanonicalState(stored).Ok? {
        SourcesAgree(CanonicalState(stored).value, r.target);
        assert StandsFor(stored, CanonicalState(stored).value);
      }
    }
    hide AllowedTransitions, Sources, CanonicalState, StandsFor;
  }

  // ---------- The service ----------

  class OpportunityReviewService {
    var opportunities: map<OpportunityId, Opportunity>
    var reviews: seq<Review>

    constructor ()
      ensures Book() == Run([])
    {
      opportunities, reviews := map[], [];
    }

    ghost function Book(): Ledger
      reads this
    {
      Ledger(opportunities, reviews)
    }

    method MoveTo(id: OpportunityId, r: Request, actor: Actor) returns (outcome: Result<Review, ReviewError>)
      requires LedgerInv(Book())
      modifies this
      ensures LedgerInv(Book()) && Book() == Applied(old(Book()), Move(id, r, actor))
      ensures outcome.Err? <==> Transition(old(Book()), id, r, actor).Err?
      ensures outcome.Err? ==> Book() == old(Book()) && Transition(old(Book()), id, r, actor) == Err(outcome.error)
      ensures outcome.Ok? ==> reviews == old(reviews) + [outcome.value]
      ensures outcome.Ok? ==> HasMoved(old(Book()), Book(), id, r, actor, outcome.value)
      ensures outcome.Err? ==> NamesObjection(old(Book()), id, r, actor, outcome.error)
    {
      hide LedgerInv;
      TransitionKeeps(Book(), id, r, actor);
      MovedHas(Book(), id, r, actor);
      if id !in opportunities {
        return Err(OpportunityNotFound);
      }
      var o := opportunities[id];
      var canonical := CanonicalState(o.status);
      if canonical.Err? {
        return Err(canonical.error);
      }
      var current := canonical.value;
      if Stale(o, r.expected) {
        return Err(ReviewVersionConflict);
      }
      if r.target !in AllowedTransitions(current) {
        return Err(InvalidTransition);
      }
      if (r.target == ApprovedForProperty || r.target == Rejected) && actor.role == SystemRole {
        return Err(HumanReviewerRequired);
      }
      if r.target == ApprovedForProperty && !r.complete {
        return Err(ApprovalEvidenceIncomplete);
      }
      var owner := if r.owner.Some? && r.owner.value != "" then r.owner else o.owner;
      o := o.(status := Named(r.target), owner := owner);
      o := o.(version := o.version + 1);
      if r.target == ApprovedForProperty {
        o := o.(approvedAt := Some(r.at));
      } else if current == ApprovedForProperty {
        o := o.(approvedAt := None);
      }
      opportunities := opportunities[id := o];
      var row := Review(id, current, r.target, owner, actor, o.version,
                        if r.target == ApprovedForProperty then Some(r.at) else None,
                        if r.target == Rejected then Some(r.at) else None,
                        r.complete);
      reviews := reviews + [row];
      return Ok(row);
    }

    /** A pipeline step that is already where it wants to be does nothing and writes no row. */
    method MoveBySystem(id: OpportunityId, target: State, at: Time) returns (outcome: Result<Option<Review>, ReviewError>)
      requires LedgerInv(Book())
      modifies this
      ensures LedgerInv(Book()) && Book() == Applied(old(Book()), MoveSystem(id, target, at))
      ensures outcome.Err? <==> TransitionSystem(old(Book()), id, target, at).Err?
      ensures outcome.Ok? ==> reviews == old(reviews) + (if outcome.value.Some? then [outcome.value.value] else [])
      ensures outcome.Err? || outcome.value.None? ==> Book() == old(Book())
      ensures outcome.Ok? ==> id in old(opportunities)
      ensures outcome.Ok? && outcome.value.None? ==> StandsFor(old(opportunities)[id].status, target)
      ensures outcome.Ok? && outcome.value.Some? ==>
                && !StandsFor(old(opportunities)[id].status, target)
                && HasMoved(old(Book()), Book(), id, Request(target, old(opportunities)[id].owner, None, false, at), PIPELINE,
                            outcome.value.value)
    {
      hide LedgerInv, Objection, HasMoved;
      if id !in opportunities {
        return Err(OpportunityNotFound);
      }
      var o := opportunities[id];
      CanonicalStands(o.status);
      var canonical := CanonicalState(o.status);
      if canonical.Err? {
        return Err(canonical.error);
      }
      if canonical.value == target {
        return Ok(None);
      }
      if target !in AllowedTransitions(canonical.value) {
        return Err(InvalidSystemTransition);
      }
      var moved := MoveTo(id, Request(target, o.owner, None, false, at), PIPELINE);
      match moved
      case Ok(row) => return Ok(Some(row));
      case Err(e) => return Err(e);
    }

    method SetOwner(id: OpportunityId, owner: string, expected: Option<nat>, actor: Actor)
      returns (outcome: Result<Review, ReviewError>)
      requires LedgerInv(Book())
      modifies this
      ensures LedgerInv(Book()) && Book() == Applied(old(Book()), Own(id, owner, expected, actor))
      ensures outcome.Err? <==> AssignOwner(old(Book()), id, owner, expected, actor).Err?
      ensures outcome.Ok? ==> id in old(opportunities)
      ensures outcome.Ok? ==>
                var o := old(opportunities)[id];
                opportunities == old(opportunities)[id := o.(owner := Some(owner), version := o.version + 1)]
      ensures outcome.Ok? ==> outcome.value.prior == outcome.value.state && StandsFor(old(opportunities)[id].status, outcome.value.state)
      ensures outcome.Ok? && expected.Some? ==> expected.value == old(opportunities)[id].version
      ensures outcome.Ok? ==>
                outcome.value == Review(id, outcome.value.state, outcome.value.state, Some(owner), actor,
                                        old(opportunities)[id].version + 1, None, None, false)
      ensures outcome.Ok? ==> reviews == old(reviews) + [outcome.value]
    {
      hide LedgerInv;
      AssignKeeps(Book(), id, owner, expected, actor);
      if id in opportunities {
        CanonicalStands(opportunities[id].status);
      }
      if id !in opportunities {
        return Err(OpportunityNotFound);
      }
      var o := opportunities[id];
      if Stale(o, expected) {
        return Err(ReviewVersionConflict);
      }
      var canonical := CanonicalState(o.status);
      if canonical.Err? {
        return Err(canonical.error);
      }
      o := o.(owner := Some(owner));
      o := o.(version := o.version + 1);
      opportunities := opportunities[id := o];
      var row := Review(id, canonical.value, canonical.value, Some(owner), actor, o.version, None, None, false);
      reviews := reviews + [row];
      return Ok(row);
    }
  }
}
