/** Lead submission: idempotency keys, the duplicate window, and the rows one submission leaves behind. */
module Submission {
  import opened Wrappers

  type LeadId = nat
  type PropertyId = nat
  type Subject = nat               // what the private hash is computed from
  type AssignmentId = nat
  type SlotId = nat
  type Time = int

  datatype Channel = Email | Phone
  datatype Status = Spam | Routing | Delivered | DeliveryFailed | Deleted

  // Deletion writes a key of its own over the lead's; a form may carry a key of either shape.
  datatype Key = Plain(n: nat) | OfDeleted(lead: LeadId)

  datatype Form = Form(property: PropertyId, key: Key, subject: Subject, receivedAt: Time, blocked: bool)

  datatype Assignment = Assignment(id: AssignmentId, email: Option<string>, phone: Option<string>)

  // The checks that do not look at leads, in the order they are made.
  datatype Gate = Gate(profile: bool, consent: bool, disclosure: bool, rate: bool)

  datatype SubmitError =
    | RoutingProfileNotFound | StaleConsentText | StaleReferralDisclosure | RateLimitExceeded | IntegrityError

  // What the submission of a lead went by.
  datatype Origin = Origin(blocked: bool, offered: Option<Assignment>, adapters: set<Channel>)

  // `origin` is a history variable.
  datatype Lead = Lead(
    property: PropertyId, key: Key, subject: Option<Subject>, receivedAt: Time, status: Status, deleted: bool,
    assignment: Option<AssignmentId>, origin: Origin)

  datatype Delivery = Delivery(lead: LeadId, assignment: AssignmentId, channel: Channel)

  datatype Receipt = New(lead: LeadId, status: Status) | Replay(lead: LeadId, status: Status) | Duplicate(lead: LeadId, status: Status)

  datatype Answer = Answer(form: Form, result: Result<Receipt, SubmitError>)

  /** How far one submission has come: key not seen, ready to insert, or beaten to the insert. */
  datatype Phase =
    | NotSeen(form: Form)
    | Ready(form: Form, status: Status, offered: Option<Assignment>, adapters: set<Channel>, routes: seq<Channel>)
    | Beaten(form: Form)

  type Leads = map<LeadId, Lead>

  datatype Store = Store(
    window: nat, leads: Leads, consents: multiset<LeadId>, assessments: multiset<LeadId>, submitted: multiset<LeadId>,
    deliveries: multiset<Delivery>, slots: map<SlotId, Phase>, answers: seq<Answer>)

  // ---------- Lookups ----------

  predicate HasKey(leads: Leads, property: PropertyId, key: Key, id: LeadId) {
    id in leads && leads[id].property == property && leads[id].key == key
  }

  predicate IsDuplicate(leads: Leads, window: nat, form: Form, id: LeadId) {
    && id in leads && leads[id].property == form.property && leads[id].subject == Some(form.subject)
    && leads[id].receivedAt >= form.receivedAt - window && !leads[id].deleted
  }

  ghost predicate FindsKey(leads: Leads, form: Form, found: Option<LeadId>) {
    match found
    case Some(id) => HasKey(leads, form.property, form.key, id)
    case None => forall id :: !HasKey(leads, form.property, form.key, id)
  }

  ghost predicate FindsDuplicate(leads: Leads, window: nat, form: Form, found: Option<LeadId>) {
    match found
    case Some(id) => IsDuplicate(leads, window, form, id)
    case None => forall id :: !IsDuplicate(leads, window, form, id)
  }

  predicate Reaches(a: Assignment, adapters: set<Channel>, c: Channel) {
    var destination := if c == Email then a.email else a.phone;
    destination.Some? && destination.value != "" && c in adapters
  }

  function Routes(a: Option<Assignment>, adapters: set<Channel>): seq<Channel> {
    if a.None? then []
    else (if Reaches(a.value, adapters, Email) then [Email] else []) + (if Reaches(a.value, adapters, Phone) then [Phone] else [])
  }

  /** The routes are exactly the channels with both a destination and an adapter, each of them once. */
  lemma RoutesExact(a: Option<Assignment>, adapters: set<Channel>)
    ensures forall c :: c in Routes(a, adapters) <==> a.Some? && Reaches(a.value, adapters, c)
    ensures NoRepeats(Routes(a, adapters))
    ensures Email in Routes(a, adapters) <==> a.Some? && a.value.email.Some? && a.value.email.value != "" && Email in adapters
    ensures Phone in Routes(a, adapters) <==> a.Some? && a.value.phone.Some? && a.value.phone.value != "" && Phone in adapters
    ensures Email in Routes(a, adapters) && Phone in Routes(a, adapters) ==> Routes(a, adapters) == [Email, Phone]
  {
    forall c: Channel
      ensures c in Routes(a, adapters) <==> a.Some? && Reaches(a.value, adapters, c)
    {
      assert c.Email? || c.Phone?;
    }
  }

  ghost predicate NoRepeats(routes: seq<Channel>) {
    forall i, j :: 0 <= i < j < |routes| ==> routes[i] != routes[j]
  }

  function Refusal(gate: Gate): Option<SubmitError> {
    if !gate.profile then Some(RoutingProfileNotFound)
    else if !gate.consent then Some(StaleConsentText)
    else if !gate.disclosure then Some(StaleReferralDisclosure)
    else if !gate.rate then Some(RateLimitExceeded)
    else None
  }

  // ---------- Steps ----------

  datatype Action =
    | LookUp(slot: SlotId, form: Form, found: Option<LeadId>)
    | Check(slot: SlotId, gate: Gate, found: Option<LeadId>, assignment: Option<Assignment>, adapters: set<Channel>)
    | Insert(slot: SlotId, id: LeadId)
    | AskWinner(slot: SlotId, found: Option<LeadId>)
    | Delete(id: LeadId)                       // a privacy request or the retention pass
    | Settle(id: LeadId, status: Status)       // the delivery workers

  ghost predicate Enabled(s: Store, a: Action) {
    match a
    case LookUp(slot, form, found) => slot !in s.slots && FindsKey(s.leads, form, found)
    case Check(slot, gate, found, assignment, adapters) =>
      slot in s.slots && s.slots[slot].NotSeen? && FindsDuplicate(s.leads, s.window, s.slots[slot].form, found)
    case Insert(slot, id) => slot in s.slots && s.slots[slot].Ready? && id !in s.leads
    case AskWinner(slot, found) => slot in s.slots && s.slots[slot].Beaten? && FindsKey(s.leads, s.slots[slot].form, found)
    case Delete(id) => id in s.leads && forall other :: HasKey(s.leads, s.leads[id].property, OfDeleted(id), other) ==> other == id
    case Settle(id, status) => id in s.leads && !s.leads[id].deleted
  }

  function Reply(s: Store, slot: SlotId, form: Form, r: Result<Receipt, SubmitError>): Store {
    s.(slots := s.slots - {slot}, answers := s.answers + [Answer(form, r)])
  }

  function LookUpStep(s: Store, slot: SlotId, form: Form, found: Option<LeadId>): Store
    requires found.Some? ==> found.value in s.leads
  {
    if found.Some? then Reply(s, slot, form, Ok(Replay(found.value, s.leads[found.value].status)))
    else s.(slots := s.slots[slot := NotSeen(form)])
  }

  function Admission(form: Form, routes: seq<Channel>): Status {
    if form.blocked then Spam else if routes == [] then DeliveryFailed else Routing
  }

  function CheckStep(s: Store, slot: SlotId, form: Form, gate: Gate, found: Option<LeadId>,
                     assignment: Option<Assignment>, adapters: set<Channel>): Store
    requires found.Some? ==> found.value in s.leads
  {
    if Refusal(gate).Some? then Reply(s, slot, form, Err(Refusal(gate).value))
    else if found.Some? then Reply(s, slot, form, Ok(Duplicate(found.value, s.leads[found.value].status)))
    else
      s.(slots := s.slots[slot := Admitted(form, assignment, adapters)])
  }

  function Entered(p: Phase): Lead
    requires p.Ready?
  {
    Lead(p.form.property, p.form.key, Some(p.form.subject), p.form.receivedAt, p.status, false, IdOf(p.offered),
         Origin(p.form.blocked, p.offered, p.adapters))
  }

  function IdOf(a: Option<Assignment>): Option<AssignmentId> { if a.Some? then Some(a.value.id) else None }

  function DeliveriesOf(id: LeadId, p: Phase): multiset<Delivery>
    requires p.Ready?
  {
    if p.status == Routing && p.offered.Some? then RowsFor(id, p.offered.value.id, p.routes) else multiset{}
  }

  function RowsFor(id: LeadId, assignment: AssignmentId, routes: seq<Channel>): multiset<Delivery> {
    if routes == [] then multiset{}
    else RowsFor(id, assignment, routes[..|routes| - 1]) + multiset{Delivery(id, assignment, routes[|routes| - 1])}
  }

  function InsertStep(s: Store, slot: SlotId, p: Phase, id: LeadId, taken: bool): Store
    requires p.Ready?
  {
    if taken then s.(slots := s.slots[slot := Beaten(p.form)])
    else
      Reply(s, slot, p.form, Ok(New(id, p.status))).(
        leads := s.leads[id := Entered(p)],
        consents := s.consents + multiset{id},
        assessments := s.assessments + multiset{id},
        submitted := s.submitted + multiset{id},
        deliveries := s.deliveries + DeliveriesOf(id, p))
  }

  function WinnerStep(s: Store, slot: SlotId, form: Form, found: Option<LeadId>): Store
    requires found.Some? ==> found.value in s.leads
  {
    Reply(s, slot, form, if found.Some? then Ok(Replay(found.value, s.leads[found.value].status)) else Err(IntegrityError))
  }

  function Wiped(id: LeadId, lead: Lead): Lead {
    lead.(key := OfDeleted(id), subject := None, status := Deleted, deleted := true)
  }

  predicate Taken(leads: Leads, form: Form) {
    exists id :: id in leads && HasKey(leads, form.property, form.key, id)
  }

  ghost function Step(s: Store, a: Action): Store
    requires Enabled(s, a)
  {
    match a
    case LookUp(slot, form, found) => LookUpStep(s, slot, form, found)
    case Check(slot, gate, found, assignment, adapters) => CheckStep(s, slot, s.slots[slot].form, gate, found, assignment, adapters)
    case Insert(slot, id) => InsertStep(s, slot, s.slots[slot], id, Taken(s.leads, s.slots[slot].form))
    case AskWinner(slot, found) => WinnerStep(s, slot, s.slots[slot].form, found)
    case Delete(id) => s.(leads := s.leads[id := Wiped(id, s.leads[id])])
    case Settle(id, status) => s.(leads := s.leads[id := s.leads[id].(status := status)])
  }

  // ---------- Invariant ----------

  ghost predicate UniqueKeys(leads: Leads) {
    forall i, j :: (i in leads && j in leads && leads[i].property == leads[j].property && leads[i].key == leads[j].key) ==> i == j
  }

  ghost predicate LeadOk(id: LeadId, lead: Lead) {
    && lead.assignment == IdOf(lead.origin.offered)
    && (lead.deleted ==> lead.key == OfDeleted(id) && lead.subject == None)
  }

  /** The lead was let in, to an assignment that can be reached on this channel. */
  predicate Expected(leads: Leads, d: Delivery) {
    && d.lead in leads
    && var origin := leads[d.lead].origin;
       && !origin.blocked && origin.offered.Some? && origin.offered.value.id == d.assignment
       && Reaches(origin.offered.value, origin.adapters, d.channel)
  }

  ghost predicate OneEach(leads: Leads, rows: multiset<LeadId>) {
    forall id: LeadId :: rows[id] == if id in leads then 1 else 0
  }

  ghost predicate DeliveriesInv(leads: Leads, deliveries: multiset<Delivery>) {
    forall d: Delivery :: deliveries[d] == if Expected(leads, d) then 1 else 0
  }

  ghost predicate PhaseOk(p: Phase) {
    p.Ready? ==> p.routes == Routes(p.offered, p.adapters) && p.status == Admission(p.form, p.routes)
  }

  /** An answer about the form's own key keeps naming that key's lead until the lead is deleted. */
  ghost predicate AnswerOk(leads: Leads, a: Answer) {
    a.result.Ok? ==>
      && a.result.value.lead in leads && leads[a.result.value.lead].property == a.form.property
      && (!a.result.value.Duplicate? ==>
            leads[a.result.value.lead].key == a.form.key || leads[a.result.value.lead].deleted)
      && (a.result.value.Duplicate? ==>
            leads[a.result.value.lead].subject == Some(a.form.subject) || leads[a.result.value.lead].deleted)
  }

  ghost predicate Inv(s: Store) {
    && UniqueKeys(s.leads)
    && (forall id :: id in s.leads ==> LeadOk(id, s.leads[id]))
    && OneEach(s.leads, s.consents) && OneEach(s.leads, s.assessments) && OneEach(s.leads, s.submitted)
    && DeliveriesInv(s.leads, s.deliveries)
    && (forall slot :: slot in s.slots ==> PhaseOk(s.slots[slot]))
    && (forall i :: 0 <= i < |s.answers| ==> AnswerOk(s.leads, s.answers[i]))
  }

  lemma {:induction false} RowsCounted(id: LeadId, assignment: AssignmentId, routes: seq<Channel>, d: Delivery)
    requires NoRepeats(routes)
    ensures RowsFor(id, assignment, routes)[d] ==
            if d.lead == id && d.assignment == assignment && d.channel in routes then 1 else 0
  {
    if routes != [] {
      var rest := routes[..|routes| - 1];
      RowsCounted(id, assignment, rest, d);
      assert routes == rest + [routes[|routes| - 1]];
    }
  }

  /** What every step leaves alone: leads stay, and until deleted keep property, key, subject and arrival time. */
  ghost predicate Grows(before: Leads, after: Leads) {
    forall id :: id in before ==>
      && id in after && after[id].property == before[id].property && after[id].receivedAt == before[id].receivedAt
      && (before[id].deleted ==> after[id].deleted)
      && (!after[id].deleted ==> after[id].key == before[id].key && after[id].subject == before[id].subject)
      && after[id].origin == before[id].origin
      && after[id].assignment == before[id].assignment
  }

  lemma AnswersLast(before: Leads, after: Leads, a: Answer)
    requires Grows(before, after) && AnswerOk(before, a)
    ensures AnswerOk(after, a)
  {
  }

  /** Steps that only rewrite a row of `leads`: the side tables still fit. */
  lemma RewriteKeeps(s: Store, leads: Leads)
    requires Inv(s) && Grows(s.leads, leads) && leads.Keys == s.leads.Keys
    requires UniqueKeys(leads) && forall id :: id in leads ==> LeadOk(id, leads[id])
    ensures Inv(s.(leads := leads))
  {
    hide UniqueKeys, LeadOk, PhaseOk, AnswerOk;
    forall d: Delivery
      ensures Expected(leads, d) == Expected(s.leads, d)
    {
    }
    forall i | 0 <= i < |s.answers|
      ensures AnswerOk(leads, s.answers[i])
    {
      AnswersLast(s.leads, leads, s.answers[i]);
    }
  }

  lemma ReplyKeeps(s: Store, slot: SlotId, form: Form, r: Result<Receipt, SubmitError>)
    requires Inv(s) && AnswerOk(s.leads, Answer(form, r))
    ensures Inv(Reply(s, slot, form, r))
  {
    hide UniqueKeys, LeadOk, PhaseOk, AnswerOk, OneEach, DeliveriesInv;
  }

  lemma PhaseKeeps(s: Store, slot: SlotId, p: Phase)
    requires Inv(s) && PhaseOk(p)
    ensures Inv(s.(slots := s.slots[slot := p]))
  {
    hide UniqueKeys, LeadOk, PhaseOk, AnswerOk, OneEach, DeliveriesInv;
  }

  lemma InsertDeliveries(leads: Leads, deliveries: multiset<Delivery>, id: LeadId, p: Phase)
    requires DeliveriesInv(leads, deliveries) && id !in leads && p.Ready? && PhaseOk(p)
    ensures DeliveriesInv(leads[id := Entered(p)], deliveries + DeliveriesOf(id, p))
  {
    RoutesExact(p.offered, p.adapters);
    hide Routes;
    forall d: Delivery
      ensures (deliveries + DeliveriesOf(id, p))[d] == if Expected(leads[id := Entered(p)], d) then 1 else 0
    {
      if p.offered.Some? {
        RowsCounted(id, p.offered.value.id, p.routes, d);
      }
    }
  }

  lemma InsertLeads(leads: Leads, id: LeadId, p: Phase)
    requires UniqueKeys(leads) && id !in leads && p.Ready? && !Taken(leads, p.form)
    ensures UniqueKeys(leads[id := Entered(p)]) && Grows(leads, leads[id := Entered(p)])
  {
    forall other | other in leads
      ensures !(leads[other].property == p.form.property && leads[other].key == p.form.key)
    {
      assert !HasKey(leads, p.form.property, p.form.key, other);
    }
  }

  lemma OneMore(leads: Leads, rows: multiset<LeadId>, id: LeadId, lead: Lead)
    requires OneEach(leads, rows) && id !in leads
    ensures OneEach(leads[id := lead], rows + multiset{id})
  {
  }

  lemma InsertKeeps(s: Store, slot: SlotId, id: LeadId)
    requires Inv(s) && Enabled(s, Insert(slot, id)) && !Taken(s.leads, s.slots[slot].form)
    ensures Inv(Step(s, Insert(slot, id)))
  {
    var p := s.slots[slot];
    var leads := s.leads[id := Entered(p)];
    InsertLeads(s.leads, id, p);
    InsertDeliveries(s.leads, s.deliveries, id, p);
    OneMore(s.leads, s.consents, id, Entered(p));
    OneMore(s.leads, s.assessments, id, Entered(p));
    OneMore(s.leads, s.submitted, id, Entered(p));
    hide UniqueKeys, OneEach, DeliveriesInv, Taken, DeliveriesOf;
    forall i | 0 <= i < |s.answers|
      ensures AnswerOk(leads, s.answers[i])
    {
      AnswersLast(s.leads, leads, s.answers[i]);
    }
    assert AnswerOk(leads, Answer(p.form, Ok(New(id, p.status))));
  }

  lemma StepKeeps(s: Store, a: Action)
    requires Inv(s) && Enabled(s, a)
    ensures Inv(Step(s, a)) && Grows(s.leads, Step(s, a).leads)
  {
    hide OneEach, DeliveriesInv, Taken, Routes;
    match a
    case LookUp(slot, form, found) =>
      if found.None? {
        PhaseKeeps(s, slot, NotSeen(form));
      } else {
        ReplyKeeps(s, slot, form, Ok(Replay(found.value, s.leads[found.value].status)));
      }
    case Check(slot, gate, found, assignment, adapters) => CheckKeeps(s, a);
    case Insert(slot, id) =>
      if Taken(s.leads, s.slots[slot].form) {
        PhaseKeeps(s, slot, Beaten(s.slots[slot].form));
      } else {
        InsertKeeps(s, slot, id);
        InsertLeads(s.leads, id, s.slots[slot]);
      }
    case AskWinner(slot, found) =>
      var form := s.slots[slot].form;
      ReplyKeeps(s, slot, form, if found.Some? then Ok(Replay(found.value, s.leads[found.value].status)) else Err(IntegrityError));
    case Delete(id) => DeleteKeeps(s, id);
    case Settle(id, status) =>
      RewriteKeeps(s, s.leads[id := s.leads[id].(status := status)]);
  }

  lemma DeleteKeeps(s: Store, id: LeadId)
    requires Inv(s) && Enabled(s, Delete(id))
    ensures Inv(Step(s, Delete(id))) && Grows(s.leads, Step(s, Delete(id)).leads)
  {
    hide OneEach, DeliveriesInv;
    var leads := s.leads[id := Wiped(id, s.leads[id])];
    forall other | other in s.leads && other != id
      ensures !(s.leads[other].property == s.leads[id].property && s.leads[other].key == OfDeleted(id))
    {
      assert !HasKey(s.leads, s.leads[id].property, OfDeleted(id), other);
    }
    RewriteKeeps(s, leads);
  }

  lemma CheckKeeps(s: Store, a: Action)
    requires Inv(s) && a.Check? && Enabled(s, a)
    ensures Inv(Step(s, a))
  {
    hide OneEach, DeliveriesInv, UniqueKeys, Routes;
    var form := s.slots[a.slot].form;
    if Refusal(a.gate).Some? {
      ReplyKeeps(s, a.slot, form, Err(Refusal(a.gate).value));
    } else if a.found.Some? {
      ReplyKeeps(s, a.slot, form, Ok(Duplicate(a.found.value, s.leads[a.found.value].status)));
    } else {
      PhaseKeeps(s, a.slot, Admitted(form, a.assignment, a.adapters));
    }
  }

  // ---------- Runs ----------

  ghost predicate Next(s: Store, a: Action, s': Store) {
    Enabled(s, a) && s' == Step(s, a)
  }

  ghost predicate IsRun(states: seq<Store>, actions: seq<Action>) {
    && |states| == |actions| + 1
    && states[0].leads == map[] && states[0].slots == map[] && states[0].answers == []
    && states[0].consents == states[0].assessments == states[0].submitted == multiset{} && states[0].deliveries == multiset{}
    && forall i :: 0 <= i < |actions| ==> Next(states[i], actions[i], states[i + 1])
  }

  lemma {:induction false} RunInv(states: seq<Store>, actions: seq<Action>, n: nat)
    requires IsRun(states, actions) && n < |states|
    ensures Inv(states[n])
  {
    hide Inv, Enabled, Step;
    if n == 0 {
      InitialInv(states[0]);
    } else {
      RunInv(states, actions, n - 1);
      assert Next(states[n - 1], actions[n - 1], states[n]);
      StepKeeps(states[n - 1], actions[n - 1]);
    }
  }

  lemma InitialInv(s: Store)
    requires s.leads == map[] && s.slots == map[] && s.answers == []
    requires s.consents == s.assessments == s.submitted == multiset{} && s.deliveries == multiset{}
    ensures Inv(s)
  {
  }

  // ---------- One key, one lead ----------

  /** However many submissions of one key run at once, in whatever order their reads and inserts fall:
      those not answered as duplicates all name the one lead that has the key, unless it was deleted meanwhile. */
  lemma SameKeySameLead(states: seq<Store>, actions: seq<Action>, n: nat, i: nat, j: nat)
    requires IsRun(states, actions) && n < |states| && i < |states[n].answers| && j < |states[n].answers|
    requires var a, b := states[n].answers[i], states[n].answers[j];
             && a.result.Ok? && b.result.Ok? && !a.result.value.Duplicate? && !b.result.value.Duplicate?
             && a.form.property == b.form.property && a.form.key == b.form.key
    ensures var leads, x, y := states[n].leads, states[n].answers[i].result.value.lead, states[n].answers[j].result.value.lead;
            && x in leads && y in leads
            && (!leads[x].deleted && !leads[y].deleted ==>
                  x == y && forall id :: HasKey(leads, states[n].answers[i].form.property, states[n].answers[i].form.key, id) <==> id == x)
  {
    hide IsRun, LeadOk, OneEach, DeliveriesInv, PhaseOk;
    RunInv(states, actions, n);
    var a, b := states[n].answers[i], states[n].answers[j];
    assert AnswerOk(states[n].leads, a) && AnswerOk(states[n].leads, b);
  }

  ghost predicate IsAbout(a: Answer, property: PropertyId, key: Key) {
    a.result.Ok? && a.form.property == property && a.form.key == key
  }

  /** Every submission answered about the key, duplicates included, names the lead that has the key. */
  ghost predicate NamesHolder(s: Store, property: PropertyId, key: Key) {
    forall i :: 0 <= i < |s.answers| && IsAbout(s.answers[i], property, key) ==>
      HasKey(s.leads, property, key, s.answers[i].result.value.lead)
  }

  ghost predicate IsAnswered(s: Store, property: PropertyId, key: Key) {
    exists i :: 0 <= i < |s.answers| && IsAbout(s.answers[i], property, key)
  }

  /** The two guards: a check must not answer with the lead of another key, and a lead whose key has been
      answered about must not have its key taken away. */
  ghost predicate KeepsHolder(s: Store, a: Action, property: PropertyId, key: Key) {
    match a
    case Check(slot, gate, found, _, _) =>
      (slot in s.slots && s.slots[slot].form.property == property && s.slots[slot].form.key == key
       && Refusal(gate).None? && found.Some?) ==> HasKey(s.leads, property, key, found.value)
    case Delete(id) => HasKey(s.leads, property, key, id) && key != OfDeleted(id) ==> !IsAnswered(s, property, key)
    case _ => true
  }

  lemma ReplyNamesHolder(s: Store, slot: SlotId, form: Form, r: Result<Receipt, SubmitError>, property: PropertyId, key: Key)
    requires NamesHolder(s, property, key)
    ensures NamesHolder(Reply(s, slot, form, r), property, key) <==>
            (IsAbout(Answer(form, r), property, key) ==> HasKey(s.leads, property, key, r.value.lead))
  {
    var s' := Reply(s, slot, form, r);
    assert s'.answers[|s.answers|] == Answer(form, r);
    assert forall i :: 0 <= i < |s.answers| ==> s'.answers[i] == s.answers[i];
  }

  /** A deleted lead is marked so, gives up its key and its subject, and keeps all else; no other lead changes. */
  lemma DeleteWipes(s: Store, id: LeadId)
    requires Enabled(s, Delete(id))
    ensures var leads := Step(s, Delete(id)).leads;
            && leads.Keys == s.leads.Keys && (forall n :: n in leads && n != id ==> leads[n] == s.leads[n])
            && leads[id].status == Deleted && leads[id].deleted && leads[id].subject == None && leads[id].key == OfDeleted(id)
            && leads[id].property == s.leads[id].property && leads[id].receivedAt == s.leads[id].receivedAt
            && leads[id].assignment == s.leads[id].assignment
  {
  }

  lemma DeleteNamesHolder(s: Store, id: LeadId, property: PropertyId, key: Key)
    requires UniqueKeys(s.leads) && Enabled(s, Delete(id)) && NamesHolder(s, property, key)
    ensures NamesHolder(Step(s, Delete(id)), property, key) <==> KeepsHolder(s, Delete(id), property, key)
  {
    var s' := Step(s, Delete(id));
    if HasKey(s.leads, property, key, id) && key != OfDeleted(id) && IsAnswered(s, property, key) {
      var i :| 0 <= i < |s.answers| && IsAbout(s.answers[i], property, key);
      assert HasKey(s.leads, property, key, s.answers[i].result.value.lead);
      assert s'.answers[i] == s.answers[i] && !HasKey(s'.leads, property, key, id);
    }
  }

  /** One step keeps all answers about a key naming its holder exactly when it respects the guards. */
  lemma StepNamesHolder(s: Store, a: Action, property: PropertyId, key: Key)
    requires Inv(s) && Enabled(s, a) && NamesHolder(s, property, key)
    ensures NamesHolder(Step(s, a), property, key) <==> KeepsHolder(s, a, property, key)
  {
    hide OneEach, DeliveriesInv, LeadOk, PhaseOk, AnswerOk, Taken, Routes, Refusal, Admission, DeliveriesOf;
    match a
    case LookUp(slot, form, found) =>
      if found.Some? {
        ReplyNamesHolder(s, slot, form, Ok(Replay(found.value, s.leads[found.value].status)), property, key);
      }
    case Check(slot, gate, found, _, _) =>
      var form := s.slots[slot].form;
      if Refusal(gate).Some? {
        ReplyNamesHolder(s, slot, form, Err(Refusal(gate).value), property, key);
      } else if found.Some? {
        ReplyNamesHolder(s, slot, form, Ok(Duplicate(found.value, s.leads[found.value].status)), property, key);
      }
    case Insert(slot, id) => InsertNamesHolder(s, slot, id, property, key);
    case AskWinner(slot, found) =>
      var form := s.slots[slot].form;
      ReplyNamesHolder(s, slot, form,
        if found.Some? then Ok(Replay(found.value, s.leads[found.value].status)) else Err(IntegrityError), property, key);
    case Delete(id) => DeleteNamesHolder(s, id, property, key);
    case Settle(_, _) =>
  }

  lemma InsertNamesHolder(s: Store, slot: SlotId, id: LeadId, property: PropertyId, key: Key)
    requires Enabled(s, Insert(slot, id)) && NamesHolder(s, property, key)
    ensures NamesHolder(Step(s, Insert(slot, id)), property, key)
  {
    hide Taken, DeliveriesOf;
    var p := s.slots[slot];
    var s1 := s.(leads := s.leads[id := Entered(p)]);
    assert NamesHolder(s1, property, key);
    ReplyNamesHolder(s1, slot, p.form, Ok(New(id, p.status)), property, key);
  }

  /** Up to any point of a run all answers about a key have named its holder exactly when every step so far
      respected the guards. */
  lemma {:induction false} HolderNamedExactly(states: seq<Store>, actions: seq<Action>, n: nat, property: PropertyId, key: Key)
    requires IsRun(states, actions) && n < |states|
    ensures (forall m :: 0 <= m <= n ==> NamesHolder(states[m], property, key)) <==>
            (forall m :: 0 <= m < n ==> KeepsHolder(states[m], actions[m], property, key))
  {
    hide Inv, Enabled, Step, NamesHolder, KeepsHolder;
    if n == 0 {
      NobodyAnswered(states[0], property, key);
    } else {
      HolderNamedExactly(states, actions, n - 1, property, key);
      assert Next(states[n - 1], actions[n - 1], states[n]);
      RunInv(states, actions, n - 1);
      if NamesHolder(states[n - 1], property, key) {
        StepNamesHolder(states[n - 1], actions[n - 1], property, key);
      }
    }
  }

  lemma NobodyAnswered(s: Store, property: PropertyId, key: Key)
    requires s.answers == []
    ensures NamesHolder(s, property, key)
  {
  }

  /** What a caller can see before the check: with this guard, and only with it, whatever lead the check comes
      up with has the form's key. When the key is still free that means there is no duplicate at all. */
  lemma CheckNamesHolderExactly(s: Store, slot: SlotId, gate: Gate, assignment: Option<Assignment>, adapters: set<Channel>)
    requires Inv(s) && slot in s.slots && s.slots[slot].NotSeen? && Refusal(gate).None?
    requires NamesHolder(s, s.slots[slot].form.property, s.slots[slot].form.key)
    ensures var form := s.slots[slot].form;
            && ((forall found | FindsDuplicate(s.leads, s.window, form, found) ::
                   NamesHolder(Step(s, Check(slot, gate, found, assignment, adapters)), form.property, form.key))
                <==> OnlyOwnDuplicates(s.leads, s.window, form))
            && (!Taken(s.leads, form) ==>
                  (OnlyOwnDuplicates(s.leads, s.window, form) <==> FindsDuplicate(s.leads, s.window, form, None)))
  {
    hide Inv, NamesHolder, Step, Refusal;
    var form := s.slots[slot].form;
    forall found | FindsDuplicate(s.leads, s.window, form, found)
      ensures NamesHolder(Step(s, Check(slot, gate, found, assignment, adapters)), form.property, form.key) <==>
              (found.Some? ==> s.leads[found.value].key == form.key)
    {
      StepNamesHolder(s, Check(slot, gate, found, assignment, adapters), form.property, form.key);
    }
    forall id | IsDuplicate(s.leads, s.window, form, id)
      ensures FindsDuplicate(s.leads, s.window, form, Some(id)) && HasKey(s.leads, form.property, s.leads[id].key, id)
    {
    }
  }

  ghost predicate OnlyOwnDuplicates(leads: Leads, window: nat, form: Form) {
    forall id :: IsDuplicate(leads, window, form, id) ==> leads[id].key == form.key
  }

  /** The guards as they can be tested before each step, without knowing what the check will find. */
  ghost predicate GuardsKey(s: Store, a: Action, property: PropertyId, key: Key) {
    match a
    case Check(slot, gate, _, _, _) =>
      slot in s.slots && s.slots[slot].form.property == property && s.slots[slot].form.key == key && Refusal(gate).None? ==>
        OnlyOwnDuplicates(s.leads, s.window, s.slots[slot].form)
    case Delete(id) => !HasKey(s.leads, property, key, id)
    case _ => true
  }

  lemma GuardKeeps(s: Store, a: Action, property: PropertyId, key: Key)
    requires Enabled(s, a) && GuardsKey(s, a, property, key)
    ensures KeepsHolder(s, a, property, key)
  {
  }

  /** Where the guards hold all along, every answer about a key, of whatever kind, names one and the same lead. */
  lemma OneLeadPerKey(states: seq<Store>, actions: seq<Action>, n: nat, property: PropertyId, key: Key, i: nat, j: nat)
    requires IsRun(states, actions) && n < |states| && i < |states[n].answers| && j < |states[n].answers|
    requires forall m :: 0 <= m < n ==> GuardsKey(states[m], actions[m], property, key)
    requires IsAbout(states[n].answers[i], property, key) && IsAbout(states[n].answers[j], property, key)
    ensures var lead := states[n].answers[i].result.value.lead;
            && states[n].answers[j].result.value.lead == lead
            && forall id :: HasKey(states[n].leads, property, key, id) <==> id == lead
  {
    hide Inv, Enabled, Step, GuardsKey, KeepsHolder, HasKey;
    forall m | 0 <= m < n
      ensures KeepsHolder(states[m], actions[m], property, key)
    {
      assert Next(states[m], actions[m], states[m + 1]);
      GuardKeeps(states[m], actions[m], property, key);
    }
    HolderNamedExactly(states, actions, n, property, key);
    RunInv(states, actions, n);
    OnlyHolder(states[n], property, key, states[n].answers[i].result.value.lead);
  }

  lemma OnlyHolder(s: Store, property: PropertyId, key: Key, id: LeadId)
    requires Inv(s) && HasKey(s.leads, property, key, id)
    ensures forall other :: HasKey(s.leads, property, key, other) <==> other == id
  {
    hide OneEach, DeliveriesInv, LeadOk, PhaseOk, AnswerOk;
  }

  /** Every lead has one consent, one assessment and one form event; and, unless it was blocked, one delivery
      row for each channel on which the assignment it was offered to has a destination and an adapter. */
  lemma RowsOfALead(states: seq<Store>, actions: seq<Action>, n: nat, id: LeadId, d: Delivery)
    requires IsRun(states, actions) && n < |states| && id in states[n].leads && d.lead == id
    ensures var s := states[n];
            && s.consents[id] == s.assessments[id] == s.submitted[id] == 1
            && s.deliveries[d] <= 1
            && var Origin(blocked, offered, adapters) := s.leads[id].origin;
               && s.leads[id].assignment == IdOf(offered)
               && (d in s.deliveries <==> !blocked && offered.Some? && d.assignment == offered.value.id
                                          && Reaches(offered.value, adapters, d.channel))
  {
    hide IsRun, UniqueKeys, AnswerOk, PhaseOk;
    RunInv(states, actions, n);
  }

  /** A submission beaten to its key was beaten by some lead, and will be answered with that lead unless the
      lead itself is deleted first. */
  lemma BeatenFindsWinner(states: seq<Store>, actions: seq<Action>, m: nat, n: nat, slot: SlotId) returns (winner: LeadId)
    requires IsRun(states, actions) && m < n < |states| && actions[m].Insert? && actions[m].slot == slot
    requires slot in states[m + 1].slots && states[m + 1].slots[slot].Beaten?
    ensures var form := states[m + 1].slots[slot].form;
            && HasKey(states[m].leads, form.property, form.key, winner)
            && ((forall k :: m < k < n ==> actions[k] != Delete(winner)) ==>
                  forall found :: FindsKey(states[n].leads, form, found) <==> found == Some(winner))
  {
    hide Inv;
    assert Next(states[m], actions[m], states[m + 1]);
    var form := states[m + 1].slots[slot].form;
    winner :| winner in states[m].leads && HasKey(states[m].leads, form.property, form.key, winner);
    hide Enabled, Step;
    if forall k :: m < k < n ==> actions[k] != Delete(winner) {
      KeyStaysOverRun(states, actions, m + 1, n, winner, form);
    }
  }

  lemma {:induction false} KeyStaysOverRun(states: seq<Store>, actions: seq<Action>, m: nat, n: nat, winner: LeadId, form: Form)
    requires IsRun(states, actions) && m <= n < |states| && HasKey(states[m].leads, form.property, form.key, winner)
    requires forall k :: m <= k < n ==> actions[k] != Delete(winner)
    ensures HasKey(states[n].leads, form.property, form.key, winner)
    ensures forall found :: FindsKey(states[n].leads, form, found) <==> found == Some(winner)
  {
    hide Inv, Enabled, Step;
    if m < n {
      KeyStaysOverRun(states, actions, m, n - 1, winner, form);
      assert Next(states[n - 1], actions[n - 1], states[n]);
      KeyStays(states[n - 1], actions[n - 1], winner);
    }
    RunInv(states, actions, n);
    OnlyOne(states[n], form, winner);
  }

  lemma KeyStays(s: Store, a: Action, id: LeadId)
    requires Enabled(s, a) && id in s.leads && a != Delete(id)
    ensures id in Step(s, a).leads && Step(s, a).leads[id].(status := s.leads[id].status) == s.leads[id]
  {
  }

  lemma OnlyOne(s: Store, form: Form, id: LeadId)
    requires Inv(s) && HasKey(s.leads, form.property, form.key, id)
    ensures forall found :: FindsKey(s.leads, form, found) <==> found == Some(id)
  {
    hide LeadOk, OneEach, DeliveriesInv, PhaseOk, AnswerOk;
  }

  // ---------- The duplicate window ----------

  predicate SameSubject(a: Lead, b: Lead) {
    a.property == b.property && a.subject == b.subject && a.subject.Some? && !a.deleted && !b.deleted
  }

  /** Undeleted leads of one subject are more than the window apart. */
  ghost predicate Separated(leads: Leads, window: nat) {
    forall i, j :: (i in leads && j in leads && i != j && SameSubject(leads[i], leads[j])) ==>
      FarApart(leads[i].receivedAt, leads[j].receivedAt, window)
  }

  predicate FarApart(t: Time, u: Time, window: nat) { t - u > window || u - t > window }

  /** Inserting keeps the separation exactly when nobody of the same subject is within the window, on either side. */
  lemma InsertSeparates(leads: Leads, window: nat, id: LeadId, p: Phase)
    requires Separated(leads, window) && id !in leads && p.Ready?
    ensures Separated(leads[id := Entered(p)], window) <==>
            forall j :: j in leads && SameSubject(leads[j], Entered(p)) ==> FarApart(leads[j].receivedAt, p.form.receivedAt, window)
  {
    var leads' := leads[id := Entered(p)];
    if Separated(leads', window) {
      forall j | j in leads && SameSubject(leads[j], Entered(p))
        ensures FarApart(leads[j].receivedAt, p.form.receivedAt, window)
      {
        assert j in leads' && id in leads' && SameSubject(leads'[j], leads'[id]);
      }
    }
  }

  /** The source's own check, if it still passes when the row goes in, is enough for any order of arrival times;
      and where nothing received later is on file it is also needed. */
  lemma CheckSeparates(leads: Leads, window: nat, id: LeadId, p: Phase)
    requires Separated(leads, window) && id !in leads && p.Ready?
    ensures FindsDuplicate(leads, window, p.form, None) ==> Separated(leads[id := Entered(p)], window)
    ensures (forall j :: j in leads ==> leads[j].receivedAt <= p.form.receivedAt) ==>
              (FindsDuplicate(leads, window, p.form, None) <==> Separated(leads[id := Entered(p)], window))
  {
    InsertSeparates(leads, window, id, p);
    if FindsDuplicate(leads, window, p.form, None) {
      forall j | j in leads && SameSubject(leads[j], Entered(p))
        ensures FarApart(leads[j].receivedAt, p.form.receivedAt, window)
      {
        assert !IsDuplicate(leads, window, p.form, j);
      }
    }
  }

  lemma OthersSeparate(s: Store, a: Action)
    requires Enabled(s, a) && !a.Insert? && Separated(s.leads, s.window)
    ensures Separated(Step(s, a).leads, s.window)
  {
  }

  /** Each insert comes straight after its own checks; earlier key lookups may be as stale as they like. */
  ghost predicate ChecksAreFresh(actions: seq<Action>) {
    forall i :: 0 <= i < |actions| && actions[i].Insert? ==>
      i > 0 && actions[i - 1].Check? && actions[i - 1].slot == actions[i].slot
  }

  lemma {:induction false} AtomicRunSeparates(states: seq<Store>, actions: seq<Action>, n: nat)
    requires IsRun(states, actions) && ChecksAreFresh(actions) && n < |states|
    ensures Separated(states[n].leads, states[n].window)
  {
    hide Inv, Enabled, Step, Separated;
    if n == 0 {
      NoneSeparated(states[0]);
    } else {
      AtomicRunSeparates(states, actions, n - 1);
      var s, a := states[n - 1], actions[n - 1];
      assert Next(s, a, states[n]);
      WindowStays(s, a);
      if a.Insert? {
        assert Next(states[n - 2], actions[n - 2], s);
        AtomicRunSeparates(states, actions, n - 2);
        WindowStays(states[n - 2], actions[n - 2]);
        FreshCheck(states[n - 2], actions[n - 2], a.id);
      } else {
        OthersSeparate(s, a);
      }
    }
  }

  lemma NoneSeparated(s: Store)
    requires s.leads == map[]
    ensures Separated(s.leads, s.window)
  {
  }

  lemma WindowStays(s: Store, a: Action)
    requires Enabled(s, a)
    ensures Step(s, a).window == s.window
  {
  }

  lemma FreshCheck(s: Store, a: Action, id: LeadId)
    requires a.Check? && Enabled(s, a) && Enabled(Step(s, a), Insert(a.slot, id))
    requires Separated(s.leads, s.window)
    ensures Separated(Step(Step(s, a), Insert(a.slot, id)).leads, s.window)
  {
    hide Separated;
    var s1 := Step(s, a);
    assert s1.leads == s.leads && s1.slots[a.slot].form == s.slots[a.slot].form;
    CheckSeparates(s1.leads, s1.window, id, s1.slots[a.slot]);
  }

  // ---------- Runs that go wrong ----------

  const OPEN := Gate(true, true, true, true)

  lemma LookUpMisses(s: Store, slot: SlotId, form: Form)
    requires slot !in s.slots && !Taken(s.leads, form)
    ensures Next(s, LookUp(slot, form, None), s.(slots := s.slots[slot := NotSeen(form)]))
  {
  }

  lemma CheckPasses(s: Store, slot: SlotId, form: Form)
    requires slot in s.slots && s.slots[slot] == NotSeen(form) && !form.blocked
    requires FindsDuplicate(s.leads, s.window, form, None)
    ensures Next(s, Check(slot, OPEN, None, None, {}),
                 s.(slots := s.slots[slot := Ready(form, DeliveryFailed, None, {}, [])]))
  {
  }

  lemma InsertGoesIn(s: Store, slot: SlotId, p: Phase, id: LeadId)
    requires slot in s.slots && s.slots[slot] == p && p.Ready? && id !in s.leads && !Taken(s.leads, p.form)
    ensures Enabled(s, Insert(slot, id))
    ensures var s' := Step(s, Insert(slot, id));
            Next(s, Insert(slot, id), s') && s'.leads == s.leads[id := Entered(p)] && s'.slots == s.slots - {slot}
            && s'.window == s.window && s'.answers == s.answers + [Answer(p.form, Ok(New(id, p.status)))]
  {
  }

  /** One submission with nobody in between that goes in. */
  lemma GoesIn(s: Store, slot: SlotId, form: Form, id: LeadId) returns (states: seq<Store>, actions: seq<Action>)
    requires slot !in s.slots && !Taken(s.leads, form) && !form.blocked && id !in s.leads
    requires FindsDuplicate(s.leads, s.window, form, None)
    ensures Follow(s, states, actions) && |actions| == 3
    ensures states[3].leads == s.leads[id := Entered(Ready(form, DeliveryFailed, None, {}, []))]
    ensures states[3].slots == s.slots && states[3].window == s.window
    ensures states[3].answers == s.answers + [Answer(form, Ok(New(id, DeliveryFailed)))]
  {
    hide Next, Step, Enabled, Taken, FindsDuplicate;
    var p := Ready(form, DeliveryFailed, None, {}, []);
    var s1 := s.(slots := s.slots[slot := NotSeen(form)]);
    var s2 := s1.(slots := s1.slots[slot := p]);
    LookUpMisses(s, slot, form);
    CheckPasses(s1, slot, form);
    InsertGoesIn(s2, slot, p, id);
    actions := [LookUp(slot, form, None), Check(slot, OPEN, None, None, {}), Insert(slot, id)];
    states := [s, s1, s2, Step(s2, Insert(slot, id))];
  }

  /** The states the actions lead through from `s`. */
  ghost predicate Follow(s: Store, states: seq<Store>, actions: seq<Action>) {
    && |states| == |actions| + 1 && states[0] == s
    && forall i :: 0 <= i < |actions| ==> Next(states[i], actions[i], states[i + 1])
  }

  lemma FollowOn(s: Store, ss: seq<Store>, xs: seq<Action>, t: Store, ts: seq<Store>, ys: seq<Action>)
    requires Follow(s, ss, xs) && ss[|xs|] == t && Follow(t, ts, ys)
    ensures Follow(s, ss + ts[1..], xs + ys) && (ss + ts[1..])[|xs| + |ys|] == ts[|ys|]
  {
    hide Next;
    var states, actions := ss + ts[1..], xs + ys;
    forall i | 0 <= i < |actions|
      ensures Next(states[i], actions[i], states[i + 1])
    {
      if i >= |xs| {
        assert Next(ts[i - |xs|], ys[i - |xs|], ts[i - |xs| + 1]);
        assert states[i] == ts[i - |xs|];
      }
    }
  }

  /** A submission answered as a duplicate does not take up its own key. */
  lemma IsTurnedAway(s: Store, slot: SlotId, form: Form, id: LeadId) returns (states: seq<Store>, actions: seq<Action>)
    requires slot !in s.slots && !Taken(s.leads, form) && IsDuplicate(s.leads, s.window, form, id)
    ensures Follow(s, states, actions) && |actions| == 2
    ensures states[2] == s.(answers := s.answers + [Answer(form, Ok(Duplicate(id, s.leads[id].status)))])
  {
    hide Taken, IsDuplicate;
    LookUpMisses(s, slot, form);
    var s1 := s.(slots := s.slots[slot := NotSeen(form)]);
    actions := [LookUp(slot, form, None), Check(slot, OPEN, Some(id), None, {})];
    assert FindsDuplicate(s1.leads, s1.window, form, Some(id));
    IsDuplicateStored(s, form, id);
    states := [s, s1, Step(s1, actions[1])];
    assert s1.slots - {slot} == s.slots;
  }

  lemma IsDuplicateStored(s: Store, form: Form, id: LeadId)
    requires IsDuplicate(s.leads, s.window, form, id)
    ensures id in s.leads
  {
  }

  /** One after the other, three submissions of one subject: the second is answered as a duplicate of the first
      under its own key, the third repeats that key after the window and goes in. One key, two live leads. */
  lemma DuplicateLeavesKeyFree() returns (states: seq<Store>, actions: seq<Action>)
    ensures IsRun(states, actions)
    ensures var s, key := states[|actions|], Plain(1);
            && |s.answers| == 3 && IsAbout(s.answers[1], 0, key) && IsAbout(s.answers[2], 0, key)
            && s.answers[1].result.value.lead == 1 && s.answers[2].result.value.lead == 2
            && 1 in s.leads && 2 in s.leads && !s.leads[1].deleted && !s.leads[2].deleted
  {
    hide Next, Step, Enabled;
    var f0, f1, f2 := Form(0, Plain(2), 7, 95, false), Form(0, Plain(1), 7, 100, false), Form(0, Plain(1), 7, 200, false);
    var s := Store(15, map[], multiset{}, multiset{}, multiset{}, multiset{}, map[], []);
    var ss, xs := GoesIn(s, 1, f0, 1);
    var t := ss[3];
    assert !Taken(t.leads, f1) && IsDuplicate(t.leads, t.window, f1, 1);
    var ts, ys := IsTurnedAway(t, 1, f1, 1);
    var u := ts[2];
    var us, zs := GoesIn(u, 1, f2, 2);
    FollowOn(s, ss, xs, t, ts, ys);
    FollowOn(s, ss + ts[1..], xs + ys, u, us, zs);
    states, actions := ss + ts[1..] + us[1..], xs + ys + zs;
  }

  /** After a deletion the same key goes in again: one key, two leads, one of them deleted. */
  lemma DeletionFreesKey() returns (states: seq<Store>, actions: seq<Action>)
    ensures IsRun(states, actions)
    ensures var s, key := states[|actions|], Plain(1);
            && |s.answers| == 2 && IsAbout(s.answers[0], 0, key) && IsAbout(s.answers[1], 0, key)
            && s.answers[0].result.value == New(1, DeliveryFailed) && s.answers[1].result.value == New(2, DeliveryFailed)
            && 1 in s.leads && s.leads[1].deleted
  {
    hide Next, Step, Enabled;
    var form := Form(0, Plain(1), 7, 100, false);
    var s := Store(15, map[], multiset{}, multiset{}, multiset{}, multiset{}, map[], []);
    var ss, xs := GoesIn(s, 1, form, 1);
    var t := ss[3];
    var u := t.(leads := t.leads[1 := Wiped(1, t.leads[1])]);
    DeletesTheLead(t, 1);
    var us, zs := GoesIn(u, 1, form, 2);
    FollowOn(s, ss, xs, t, [t, u], [Delete(1)]);
    FollowOn(s, ss + [t, u][1..], xs + [Delete(1)], u, us, zs);
    states, actions := ss + [t, u][1..] + us[1..], xs + [Delete(1)] + zs;
  }

  lemma DeletesTheLead(s: Store, id: LeadId)
    requires s.leads.Keys == {id}
    ensures Next(s, Delete(id), s.(leads := s.leads[id := Wiped(id, s.leads[id])]))
  {
  }

  /** With checks and insert apart, two submissions of one subject under different keys can both get in. */
  lemma StaleChecksLetBothIn() returns (states: seq<Store>, actions: seq<Action>)
    ensures IsRun(states, actions)
    ensures !Separated(states[|actions|].leads, states[|actions|].window)
  {
    hide Next, Step, Enabled;
    var f1, f2 := Form(0, Plain(1), 7, 100, false), Form(0, Plain(2), 7, 100, false);
    var r1, r2 := Ready(f1, DeliveryFailed, None, {}, []), Ready(f2, DeliveryFailed, None, {}, []);
    actions := [LookUp(1, f1, None), LookUp(2, f2, None), Check(1, OPEN, None, None, {}), Check(2, OPEN, None, None, {}),
                Insert(1, 1), Insert(2, 2)];
    var s0 := Store(15, map[], multiset{}, multiset{}, multiset{}, multiset{}, map[], []);
    var s1 := s0.(slots := s0.slots[1 := NotSeen(f1)]);
    LookUpMisses(s0, 1, f1);
    var s2 := s1.(slots := s1.slots[2 := NotSeen(f2)]);
    LookUpMisses(s1, 2, f2);
    var s3 := s2.(slots := s2.slots[1 := r1]);
    CheckPasses(s2, 1, f1);
    var s4 := s3.(slots := s3.slots[2 := r2]);
    CheckPasses(s3, 2, f2);
    InsertGoesIn(s4, 1, r1, 1);
    var s5 := Step(s4, Insert(1, 1));
    InsertGoesIn(s5, 2, r2, 2);
    var s6 := Step(s5, Insert(2, 2));
    states := [s0, s1, s2, s3, s4, s5, s6];
    assert SameSubject(s6.leads[1], s6.leads[2]);
  }

  lemma InsertMeans(s: Store, slot: SlotId, id: LeadId)
    requires Enabled(s, Insert(slot, id))
    ensures Step(s, Insert(slot, id)) == InsertStep(s, slot, s.slots[slot], id, Taken(s.leads, s.slots[slot].form))
  {
  }

  // ---------- One submission undisturbed ----------

  /** What one undisturbed submission answers and does to the leads. */
  ghost predicate SubmitOutcome(leads: Leads, leads': Leads, window: nat, form: Form, gate: Gate,
                                assignment: Option<Assignment>, adapters: set<Channel>, id: LeadId,
                                r: Result<Receipt, SubmitError>) {
    if Taken(leads, form) then
      && r.Ok? && r.value.Replay? && HasKey(leads, form.property, form.key, r.value.lead)
      && r.value.status == leads[r.value.lead].status && leads' == leads
    else if Refusal(gate).Some? then r == Err(Refusal(gate).value) && leads' == leads
    else if r.Ok? && r.value.Duplicate? then
      && IsDuplicate(leads, window, form, r.value.lead)
      && r.value.status == leads[r.value.lead].status && leads' == leads
    else
      && FindsDuplicate(leads, window, form, None)
      && r == Ok(New(id, Admission(form, Routes(assignment, adapters))))
      && leads' == leads[id := Entered(Admitted(form, assignment, adapters))]
  }

  function Admitted(form: Form, assignment: Option<Assignment>, adapters: set<Channel>): Phase {
    var routes := Routes(assignment, adapters);
    Ready(form, Admission(form, routes), assignment, adapters, routes)
  }

  ghost predicate Submitted(s: Store, s': Store, form: Form, gate: Gate, assignment: Option<Assignment>, adapters: set<Channel>,
                            id: LeadId) {
    && s'.slots == s.slots
    && |s'.answers| == |s.answers| + 1 && s'.answers[..|s.answers|] == s.answers && s'.answers[|s.answers|].form == form
    && SubmitOutcome(s.leads, s'.leads, s.window, form, gate, assignment, adapters, id, s'.answers[|s.answers|].result)
  }

  lemma MissedKey(s: Store, slot: SlotId, form: Form)
    requires Enabled(s, LookUp(slot, form, None))
    ensures Step(s, LookUp(slot, form, None)) == s.(slots := s.slots[slot := NotSeen(form)])
    ensures !Taken(s.leads, form)
  {
  }

  lemma ReplayOutcome(s: Store, slot: SlotId, form: Form, found: Option<LeadId>, gate: Gate, assignment: Option<Assignment>,
                      adapters: set<Channel>, id: LeadId)
    requires Enabled(s, LookUp(slot, form, found)) && found.Some?
    ensures Step(s, LookUp(slot, form, found)).leads == s.leads
    ensures Submitted(s, Step(s, LookUp(slot, form, found)), form, gate, assignment, adapters, id)
  {
  }

  lemma AnsweredOutcome(s: Store, slot: SlotId, form: Form, gate: Gate, found: Option<LeadId>, assignment: Option<Assignment>,
                        adapters: set<Channel>, id: LeadId)
    requires slot !in s.slots && !Taken(s.leads, form)
    requires Enabled(s.(slots := s.slots[slot := NotSeen(form)]), Check(slot, gate, found, assignment, adapters))
    requires slot !in Step(s.(slots := s.slots[slot := NotSeen(form)]), Check(slot, gate, found, assignment, adapters)).slots
    ensures var s' := Step(s.(slots := s.slots[slot := NotSeen(form)]), Check(slot, gate, found, assignment, adapters));
            s'.leads == s.leads && Submitted(s, s', form, gate, assignment, adapters, id)
  {
    hide Refusal;
  }

  lemma AdmittedOutcome(s: Store, slot: SlotId, form: Form, gate: Gate, found: Option<LeadId>, assignment: Option<Assignment>,
                        adapters: set<Channel>, id: LeadId)
    requires slot !in s.slots && id !in s.leads && !Taken(s.leads, form) && Separated(s.leads, s.window)
    requires Enabled(s.(slots := s.slots[slot := NotSeen(form)]), Check(slot, gate, found, assignment, adapters))
    requires slot in Step(s.(slots := s.slots[slot := NotSeen(form)]), Check(slot, gate, found, assignment, adapters)).slots
    ensures var s' := Step(s.(slots := s.slots[slot := NotSeen(form)]), Check(slot, gate, found, assignment, adapters));
            && Enabled(s', Insert(slot, id)) && s'.slots[slot].Ready? && id !in s'.leads
            && Separated(Step(s', Insert(slot, id)).leads, s.window)
            && Submitted(s, Step(s', Insert(slot, id)), form, gate, assignment, adapters, id)
  {
    hide Refusal, Separated, Routes, DeliveriesOf, IsDuplicate;
    var p := Admitted(form, assignment, adapters);
    CheckSeparates(s.leads, s.window, id, p);
  }

  /** The same in the submitter's terms: what is answered, in the order in which it is decided, and the lead that goes in. */
  ghost predicate SubmitMeans(leads: Leads, leads': Leads, window: nat, form: Form, gate: Gate, assignment: Option<Assignment>,
                              adapters: set<Channel>, id: LeadId, r: Result<Receipt, SubmitError>) {
    if exists n :: n in leads && leads[n].property == form.property && leads[n].key == form.key then
      && leads' == leads && r.Ok? && r.value.lead in leads && r == Ok(Replay(r.value.lead, leads[r.value.lead].status))
      && leads[r.value.lead].property == form.property && leads[r.value.lead].key == form.key
    else if !gate.profile then leads' == leads && r == Err(RoutingProfileNotFound)
    else if !gate.consent then leads' == leads && r == Err(StaleConsentText)
    else if !gate.disclosure then leads' == leads && r == Err(StaleReferralDisclosure)
    else if !gate.rate then leads' == leads && r == Err(RateLimitExceeded)
    else if exists n :: n in leads && IsRecent(leads[n], form, window) then
      && leads' == leads && r.Ok? && r.value.lead in leads && r == Ok(Duplicate(r.value.lead, leads[r.value.lead].status))
      && IsRecent(leads[r.value.lead], form, window)
    else
      && r == Ok(New(id, EntryStatus(form, assignment, adapters))) && id in leads' && leads' == leads[id := leads'[id]]
      && HoldsForm(leads'[id], form, assignment, EntryStatus(form, assignment, adapters))
  }

  /** A blocked lead is spam; any other is to be routed if its assignment can be reached by email or by phone. */
  ghost function EntryStatus(form: Form, assignment: Option<Assignment>, adapters: set<Channel>): Status {
    if form.blocked then Spam
    else if assignment.Some?
            && ((assignment.value.email.Some? && assignment.value.email.value != "" && Email in adapters)
                || (assignment.value.phone.Some? && assignment.value.phone.value != "" && Phone in adapters)) then Routing
    else DeliveryFailed
  }

  ghost predicate HoldsForm(lead: Lead, form: Form, assignment: Option<Assignment>, status: Status) {
    && lead.property == form.property && lead.key == form.key && lead.subject == Some(form.subject)
    && lead.receivedAt == form.receivedAt && lead.status == status && !lead.deleted
    && lead.assignment == if assignment.Some? then Some(assignment.value.id) else None
  }

  ghost predicate IsRecent(lead: Lead, form: Form, window: nat) {
    lead.property == form.property && lead.subject == Some(form.subject) && !lead.deleted
    && form.receivedAt - lead.receivedAt <= window
  }

  lemma OutcomeMeans(leads: Leads, leads': Leads, window: nat, form: Form, gate: Gate, assignment: Option<Assignment>,
                     adapters: set<Channel>, id: LeadId, r: Result<Receipt, SubmitError>)
    requires SubmitOutcome(leads, leads', window, form, gate, assignment, adapters, id, r)
    ensures SubmitMeans(leads, leads', window, form, gate, assignment, adapters, id, r)
  {
    hide Taken, HasKey, FindsDuplicate, IsDuplicate, IsRecent, Entered, Admitted, Routes, HoldsForm;
    TakenMeans(leads, form);
    DuplicateMeans(leads, window, form);
    AdmittedMeans(form, assignment, adapters);
    if r.Ok? && r.value.Replay? {
      KeyMeans(leads, form, r.value.lead);
    }
    if r.Ok? && r.value.Duplicate? {
      RecentMeans(leads, window, form, r.value.lead);
    }
  }

  lemma KeyMeans(leads: Leads, form: Form, id: LeadId)
    ensures HasKey(leads, form.property, form.key, id) <==> id in leads && leads[id].property == form.property && leads[id].key == form.key
  {
  }

  lemma TakenMeans(leads: Leads, form: Form)
    ensures Taken(leads, form) <==> exists n :: n in leads && leads[n].property == form.property && leads[n].key == form.key
  {
    if n :| n in leads && leads[n].property == form.property && leads[n].key == form.key {
      assert HasKey(leads, form.property, form.key, n);
    }
  }

  lemma RecentMeans(leads: Leads, window: nat, form: Form, id: LeadId)
    ensures IsDuplicate(leads, window, form, id) <==> id in leads && IsRecent(leads[id], form, window)
  {
  }

  lemma DuplicateMeans(leads: Leads, window: nat, form: Form)
    ensures FindsDuplicate(leads, window, form, None) <==> !exists n :: n in leads && IsRecent(leads[n], form, window)
  {
    hide IsRecent, IsDuplicate;
    forall n: LeadId
      ensures IsDuplicate(leads, window, form, n) <==> n in leads && IsRecent(leads[n], form, window)
    {
      RecentMeans(leads, window, form, n);
    }
  }

  lemma AdmittedMeans(form: Form, assignment: Option<Assignment>, adapters: set<Channel>)
    ensures HoldsForm(Entered(Admitted(form, assignment, adapters)), form, assignment, EntryStatus(form, assignment, adapters))
    ensures Admission(form, Routes(assignment, adapters)) == EntryStatus(form, assignment, adapters)
  {
    RoutesExact(assignment, adapters);
    NoRoute(Routes(assignment, adapters));
    hide Routes;
  }

  lemma SubmittedMeans(s: Store, s': Store, form: Form, gate: Gate, assignment: Option<Assignment>, adapters: set<Channel>,
                       id: LeadId)
    requires Submitted(s, s', form, gate, assignment, adapters, id)
    ensures |s'.answers| == |s.answers| + 1
    ensures SubmitMeans(s.leads, s'.leads, s.window, form, gate, assignment, adapters, id, s'.answers[|s.answers|].result)
  {
    hide SubmitOutcome, SubmitMeans;
    OutcomeMeans(s.leads, s'.leads, s.window, form, gate, assignment, adapters, id, s'.answers[|s.answers|].result);
  }

  lemma NoRoute(routes: seq<Channel>)
    ensures routes == [] <==> Email !in routes && Phone !in routes
  {
    if routes != [] {
      assert routes[0] in routes && (routes[0] == Email || routes[0] == Phone);
    }
  }

  // ---------- Service ----------

  class LeadRoutingService {
    const window: nat
    var leads: Leads
    var consents: multiset<LeadId>
    var assessments: multiset<LeadId>
    var submitted: multiset<LeadId>
    var deliveries: multiset<Delivery>
    var slots: map<SlotId, Phase>
    var answers: seq<Answer>

    ghost function View(): Store
      reads this
    {
      Store(window, leads, consents, assessments, submitted, deliveries, slots, answers)
    }

    method FindKey(form: Form) returns (found: Option<LeadId>)
      ensures FindsKey(leads, form, found)
    {
      if id :| id in leads && HasKey(leads, form.property, form.key, id) {
        return Some(id);
      }
      assert forall id :: HasKey(leads, form.property, form.key, id) ==> id in leads;
      return None;
    }

    method FindDuplicate(form: Form) returns (found: Option<LeadId>)
      ensures FindsDuplicate(leads, window, form, found)
    {
      if id :| id in leads && IsDuplicate(leads, window, form, id) {
        return Some(id);
      }
      assert forall id :: IsDuplicate(leads, window, form, id) ==> id in leads;
      return None;
    }

    method RoutableChannels(assignment: Option<Assignment>, adapters: set<Channel>) returns (channels: seq<Channel>)
      ensures channels == Routes(assignment, adapters)
    {
      channels := [];
      if assignment.None? {
        return;
      }
      var destinations := [(Email, assignment.value.email), (Phone, assignment.value.phone)];
      for i := 0 to |destinations|
        invariant i == 0 ==> channels == []
        invariant i == 1 ==> channels == if Reaches(assignment.value, adapters, Email) then [Email] else []
        invariant i == 2 ==> channels == Routes(assignment, adapters)
      {
        var (channel, destination) := destinations[i];
        if destination.Some? && destination.value != "" && channel in adapters {
          channels := channels + [channel];
        }
      }
    }

    method Answered(slot: SlotId, form: Form, r: Result<Receipt, SubmitError>)
      modifies this`slots, this`answers
      ensures View() == Reply(old(View()), slot, form, r)
    {
      slots := slots - {slot};
      answers := answers + [Answer(form, r)];
    }

    /** The first read: has this key been seen? */
    method BeginSubmit(slot: SlotId, form: Form) returns (found: Option<LeadId>)
      requires Inv(View()) && slot !in slots
      modifies this
      ensures Enabled(old(View()), LookUp(slot, form, found)) && View() == Step(old(View()), LookUp(slot, form, found))
      ensures Inv(View())
    {
      hide Inv;
      found := FindKey(form);
      StepKeeps(View(), LookUp(slot, form, found));
      if found.Some? {
        Answered(slot, form, Ok(Replay(found.value, leads[found.value].status)));
      } else {
        slots := slots[slot := NotSeen(form)];
      }
    }

    /** The checks between the first read and the insert. */
    method Assess(slot: SlotId, gate: Gate, assignment: Option<Assignment>, adapters: set<Channel>)
      returns (found: Option<LeadId>)
      requires Inv(View()) && slot in slots && slots[slot].NotSeen?
      modifies this
      ensures Enabled(old(View()), Check(slot, gate, found, assignment, adapters))
      ensures View() == Step(old(View()), Check(slot, gate, found, assignment, adapters))
      ensures Inv(View())
    {
      hide Inv, Routes;
      var form := slots[slot].form;
      found := FindDuplicate(form);
      StepKeeps(View(), Check(slot, gate, found, assignment, adapters));
      if !gate.profile {
        Answered(slot, form, Err(RoutingProfileNotFound));
      } else if !gate.consent {
        Answered(slot, form, Err(StaleConsentText));
      } else if !gate.disclosure {
        Answered(slot, form, Err(StaleReferralDisclosure));
      } else if !gate.rate {
        Answered(slot, form, Err(RateLimitExceeded));
      } else if found.Some? {
        Answered(slot, form, Ok(Duplicate(found.value, leads[found.value].status)));
      } else {
        var channels := RoutableChannels(assignment, adapters);
        var status :=
          if form.blocked then Spam else if assignment.None? || channels == [] then DeliveryFailed else Routing;
        NoAssignmentNoRoute(assignment, adapters);
        slots := slots[slot := Ready(form, status, assignment, adapters, channels)];
      }
    }

    method AddDeliveries(id: LeadId, assignment: AssignmentId, routes: seq<Channel>)
      modifies this`deliveries
      ensures deliveries == old(deliveries) + RowsFor(id, assignment, routes)
    {
      for i := 0 to |routes|
        invariant deliveries == old(deliveries) + RowsFor(id, assignment, routes[..i])
      {
        assert routes[..i + 1][..i] == routes[..i];
        deliveries := deliveries + multiset{Delivery(id, assignment, routes[i])};
      }
      assert routes[..|routes|] == routes;
    }

    /** The lead with everything that is written beside it. */
    method AddLead(id: LeadId, p: Phase)
      requires p.Ready?
      modifies this`leads, this`consents, this`assessments, this`submitted, this`deliveries
      ensures leads == old(leads)[id := Entered(p)]
      ensures consents == old(consents) + multiset{id} && assessments == old(assessments) + multiset{id}
      ensures submitted == old(submitted) + multiset{id}
      ensures deliveries == old(deliveries) + DeliveriesOf(id, p)
    {
      leads := leads[id := Entered(p)];
      consents := consents + multiset{id};
      assessments := assessments + multiset{id};
      submitted := submitted + multiset{id};
      if p.status == Routing && p.offered.Some? {
        AddDeliveries(id, p.offered.value.id, p.routes);
      }
    }

    /** The insert: refused as a whole when the property already has the key. */
    method Commit(slot: SlotId, id: LeadId)
      requires Inv(View()) && slot in slots && slots[slot].Ready? && id !in leads
      modifies this
      ensures View() == Step(old(View()), Insert(slot, id))
      ensures Inv(View())
    {
      hide Inv, Step, HasKey, Entered, DeliveriesOf;
      StepKeeps(View(), Insert(slot, id));
      InsertMeans(View(), slot, id);
      var p := slots[slot];
      if Taken(leads, p.form) {
        slots := slots[slot := Beaten(p.form)];
        return;
      }
      AddLead(id, p);
      Answered(slot, p.form, Ok(New(id, p.status)));
    }

    /** After a refused insert: whoever has the key now is the answer. */
    method IdempotencyWinner(slot: SlotId) returns (found: Option<LeadId>)
      requires Inv(View()) && slot in slots && slots[slot].Beaten?
      modifies this
      ensures Enabled(old(View()), AskWinner(slot, found)) && View() == Step(old(View()), AskWinner(slot, found))
      ensures Inv(View())
    {
      hide Inv;
      var form := slots[slot].form;
      found := FindKey(form);
      StepKeeps(View(), AskWinner(slot, found));
      Answered(slot, form, if found.Some? then Ok(Replay(found.value, leads[found.value].status)) else Err(IntegrityError));
    }

    /** One submission with nobody in between: an old key is replayed whatever else is wrong with the form, a
        refused or duplicate one writes nothing, and only a new one is inserted, which keeps leads separated. */
    method Submit(slot: SlotId, form: Form, gate: Gate, assignment: Option<Assignment>, adapters: set<Channel>, id: LeadId)
      requires Inv(View()) && Separated(leads, window) && slot !in slots && id !in leads
      modifies this
      ensures Inv(View()) && Separated(leads, window)
      ensures Submitted(old(View()), View(), form, gate, assignment, adapters, id)
      ensures |answers| == |old(answers)| + 1
      ensures SubmitMeans(old(leads), leads, window, form, gate, assignment, adapters, id, answers[|old(answers)|].result)
    {
      hide Inv, Enabled, Separated, Submitted, SubmitMeans, Step, LookUpStep, CheckStep;
      ghost var s := View();
      var found := BeginSubmit(slot, form);
      ghost var s1 := View();
      if found.Some? {
        ReplayOutcome(s, slot, form, found, gate, assignment, adapters, id);
        SubmittedMeans(s, View(), form, gate, assignment, adapters, id);
        return;
      }
      MissedKey(s, slot, form);
      var duplicate := Assess(slot, gate, assignment, adapters);
      if slot !in slots {
        AnsweredOutcome(s, slot, form, gate, duplicate, assignment, adapters, id);
      } else {
        AdmittedOutcome(s, slot, form, gate, duplicate, assignment, adapters, id);
        Commit(slot, id);
      }
      SubmittedMeans(s, View(), form, gate, assignment, adapters, id);
    }
  }

  lemma NoAssignmentNoRoute(a: Option<Assignment>, adapters: set<Channel>)
    ensures a.None? ==> Routes(a, adapters) == []
  {
  }
}
