/** Provider assignments: the life cycle of one row, and the hand-over from one active row to the next. */
module Assignments {
  import opened Wrappers

  type AssignmentId = nat
  type PropertyId = nat
  type Time = nat

  datatype Status = Candidate | Pilot | Active | Paused | Terminated | Replaced

  datatype Assignment = Assignment(
    property: PropertyId, status: Status,
    activeFrom: Option<Time>, startedAt: Option<Time>, activeUntil: Option<Time>, endedAt: Option<Time>,
    reason: Option<string>, predecessor: Option<AssignmentId>)

  datatype AssignmentError =
    | NotFound | InvalidTransition | AlreadyHasActive | ReasonRequired | PropertyMismatch | RequiresActive

  type Rows = map<AssignmentId, Assignment>

  /** The rows, and as a history variable the ids of replaced rows in the order they became so. */
  datatype Book = Book(rows: Rows, replaced: seq<AssignmentId>)

  function Allowed(s: Status): set<Status> {
    match s
    case Candidate => {Pilot, Terminated}
    case Pilot => {Active, Paused, Terminated}
    case Active => {Paused, Terminated, Replaced}
    case Paused => {Active, Terminated, Replaced}
    case Terminated => {}
    case Replaced => {}
  }

  /** The same table read the other way. */
  function Sources(target: Status): set<Status> {
    match target
    case Candidate => {}
    case Pilot => {Candidate}
    case Active => {Pilot, Paused}
    case Paused => {Pilot, Active}
    case Terminated => {Candidate, Pilot, Active, Paused}
    case Replaced => {Active, Paused}
  }

  lemma SourcesAgree(s: Status, target: Status)
    ensures target in Allowed(s) <==> s in Sources(target)
  {
  }

  /** A row that has moved: the first activation is stamped once, an end with its time and reason, and no other column. */
  ghost predicate HasMoved(a: Assignment, a': Assignment, target: Status, reason: Option<string>, at: Time) {
    && a'.status == target && a'.property == a.property && a'.predecessor == a.predecessor
    && (target == Active && a.activeFrom.None? ==> a'.activeFrom == Some(at))
    && (target == Active && a.activeFrom.Some? ==> a'.activeFrom == a.activeFrom)
    && (target == Active && a.startedAt.None? ==> a'.startedAt == Some(at))
    && (target == Active && a.startedAt.Some? ==> a'.startedAt == a.startedAt)
    && (target != Active ==> a'.activeFrom == a.activeFrom && a'.startedAt == a.startedAt)
    && (target in {Terminated, Replaced} ==> a'.reason == reason && a'.activeUntil == Some(at) && a'.endedAt == Some(at))
    && (target !in {Terminated, Replaced} ==>
          a'.reason == a.reason && a'.activeUntil == a.activeUntil && a'.endedAt == a.endedAt)
  }

  lemma MovedHas(a: Assignment, target: Status, reason: Option<string>, at: Time)
    ensures HasMoved(a, Moved(a, target, reason, at), target, reason, at)
  {
  }

  predicate IsFinal(s: Status) { s == Terminated || s == Replaced }

  predicate Given(reason: Option<string>) { reason.Some? && reason.value != "" }

  function ActiveOf(rows: Rows, property: PropertyId): set<AssignmentId> {
    set id | id in rows && rows[id].property == property && rows[id].status == Active
  }

  function Fresh(property: PropertyId): Assignment {
    Assignment(property, Candidate, None, None, None, None, None, None)
  }

  function OrElse(t: Option<Time>, at: Time): Option<Time> { if t.Some? then t else Some(at) }

  /** The row once it has moved. */
  function Moved(a: Assignment, target: Status, reason: Option<string>, at: Time): Assignment {
    if target == Active then
      a.(status := target, activeFrom := OrElse(a.activeFrom, at), startedAt := OrElse(a.startedAt, at))
    else if IsFinal(target) then
      a.(status := target, reason := reason, activeUntil := Some(at), endedAt := Some(at))
    else a.(status := target)
  }

  ghost predicate CanMove(rows: Rows, id: AssignmentId, target: Status, reason: Option<string>) {
    && id in rows
    && (target != rows[id].status ==>
          && target in Allowed(rows[id].status)
          && (target == Active ==> ActiveOf(rows, rows[id].property) <= {id})
          && (IsFinal(target) ==> Given(reason)))
  }

  ghost function Move(b: Book, id: AssignmentId, target: Status, reason: Option<string>, at: Time): Book
    requires id in b.rows
  {
    if target == b.rows[id].status then b
    else Book(b.rows[id := Moved(b.rows[id], target, reason, at)],
              if target == Replaced then b.replaced + [id] else b.replaced)
  }

  ghost predicate CanReplace(rows: Rows, current: AssignmentId, next: AssignmentId, reason: Option<string>) {
    && current in rows && next in rows && current != next
    && rows[current].property == rows[next].property
    && rows[current].status == Active && rows[next].status in {Candidate, Pilot, Paused}
    && Given(reason)
  }

  /** A candidate passes through pilot on its way, which leaves no trace in the row. */
  ghost function HandOver(b: Book, current: AssignmentId, next: AssignmentId, reason: Option<string>, at: Time): Book
    requires current in b.rows && next in b.rows
  {
    Book(b.rows[current := Moved(b.rows[current], Replaced, reason, at)]
               [next := Moved(b.rows[next].(predecessor := Some(current)), Active, None, at)],
         b.replaced + [current])
  }

  // ---------- Invariant ----------

  ghost predicate OneActive(rows: Rows) {
    forall i, j :: (i in rows && j in rows && rows[i].status == Active && rows[j].status == Active
                    && rows[i].property == rows[j].property) ==> i == j
  }

  ghost predicate RowInv(a: Assignment) {
    && (IsFinal(a.status) ==> Given(a.reason) && a.activeUntil.Some?)
    && (!IsFinal(a.status) ==> a.reason.None? && a.activeUntil.None?)
    && a.endedAt == a.activeUntil && a.startedAt == a.activeFrom
    && (a.status == Active ==> a.activeFrom.Some?)
    && (a.status == Candidate ==> a.activeFrom.None?)
  }

  /** Replacing puts a row behind every row it could itself point at. */
  ghost predicate PointersInv(b: Book) {
    && (forall i, j :: 0 <= i < j < |b.replaced| ==> b.replaced[i] != b.replaced[j])
    && (forall id :: id in b.replaced <==> id in b.rows && b.rows[id].status == Replaced)
    && (forall id :: id in b.rows && b.rows[id].predecessor.Some? ==>
          b.rows[id].predecessor.value in b.replaced && b.rows[id].predecessor.value != id)
    && (forall i :: 0 <= i < |b.replaced| ==> PointsBack(b, i))
  }

  ghost predicate PointsBack(b: Book, i: nat)
    requires i < |b.replaced|
  {
    b.replaced[i] in b.rows
    && (b.rows[b.replaced[i]].predecessor.Some? ==> b.rows[b.replaced[i]].predecessor.value in b.replaced[..i])
  }

  ghost predicate Inv(b: Book) {
    && OneActive(b.rows)
    && (forall id :: id in b.rows ==> RowInv(b.rows[id]))
    && PointersInv(b)
  }

  /** What no operation may do to a row: drop it, move it to another property, touch it once it is final. */
  ghost predicate Follows(before: Rows, after: Rows) {
    forall id :: id in before ==>
      && id in after && after[id].property == before[id].property
      && (IsFinal(before[id].status) ==> after[id] == before[id])
      && (before[id].activeFrom.Some? ==> after[id].activeFrom == before[id].activeFrom)
  }

  lemma FreshRow(property: PropertyId)
    ensures RowInv(Fresh(property))
  {
  }

  lemma CreateKeeps(b: Book, id: AssignmentId, property: PropertyId)
    requires Inv(b) && id !in b.rows
    ensures Inv(b.(rows := b.rows[id := Fresh(property)])) && Follows(b.rows, b.rows[id := Fresh(property)])
  {
    hide RowInv;
    var b' := b.(rows := b.rows[id := Fresh(property)]);
    assert RowInv(Fresh(property)) by { FreshRow(property); }
    forall i | 0 <= i < |b.replaced|
      ensures PointsBack(b', i)
    {
      assert PointsBack(b, i) && b.replaced[i] in b.replaced;
    }
  }

  lemma MovePointers(b: Book, id: AssignmentId, target: Status, reason: Option<string>, at: Time)
    requires PointersInv(b) && CanMove(b.rows, id, target, reason)
    ensures PointersInv(Move(b, id, target, reason, at))
  {
    if target != b.rows[id].status {
      var b' := Move(b, id, target, reason, at);
      assert id !in b.replaced;
      if target == Replaced {
        assert b'.replaced[|b.replaced|] == id;
      }
      forall i | 0 <= i < |b'.replaced|
        ensures PointsBack(b', i)
      {
        if i < |b.replaced| {
          assert PointsBack(b, i) && b.replaced[i] in b.replaced && b'.replaced[..i] == b.replaced[..i];
        } else {
          assert b'.replaced[..i] == b.replaced;
        }
      }
    }
  }

  lemma MoveOneActive(b: Book, id: AssignmentId, target: Status, reason: Option<string>, at: Time)
    requires OneActive(b.rows) && CanMove(b.rows, id, target, reason)
    ensures OneActive(Move(b, id, target, reason, at).rows)
  {
    if target == Active && b.rows[id].status != Active {
      forall other | other in b.rows && b.rows[other].property == b.rows[id].property && b.rows[other].status == Active
        ensures other == id
      {
        assert other in ActiveOf(b.rows, b.rows[id].property);
      }
    }
  }

  lemma MoveKeeps(b: Book, id: AssignmentId, target: Status, reason: Option<string>, at: Time)
    requires Inv(b) && CanMove(b.rows, id, target, reason)
    ensures Inv(Move(b, id, target, reason, at)) && Follows(b.rows, Move(b, id, target, reason, at).rows)
  {
    hide PointersInv, OneActive;
    MovePointers(b, id, target, reason, at);
    MoveOneActive(b, id, target, reason, at);
  }

  lemma PointAt(b: Book, current: AssignmentId, next: AssignmentId)
    requires PointersInv(b) && current in b.replaced && next in b.rows && b.rows[next].status != Replaced
    ensures PointersInv(b.(rows := b.rows[next := b.rows[next].(predecessor := Some(current))]))
  {
    var b' := b.(rows := b.rows[next := b.rows[next].(predecessor := Some(current))]);
    forall i | 0 <= i < |b.replaced|
      ensures PointsBack(b', i)
    {
      assert PointsBack(b, i) && b.replaced[i] in b.replaced;
    }
  }

  /** Half way through a hand-over: the old row is gone, the new one points at it, nobody is active. */
  ghost function HalfWay(b: Book, current: AssignmentId, next: AssignmentId, reason: Option<string>, at: Time): Book
    requires current in b.rows && next in b.rows
  {
    var b1 := Move(b, current, Replaced, reason, at);
    b1.(rows := PointedAt(b1.rows, current, next))
  }

  function PointedAt(rows: Rows, current: AssignmentId, next: AssignmentId): Rows
    requires next in rows
  {
    rows[next := rows[next].(predecessor := Some(current))]
  }

  /** Half way, the only thing that can still go wrong is the new row's own status. */
  lemma NobodyHalfWay(b: Book, current: AssignmentId, next: AssignmentId, reason: Option<string>, at: Time)
    requires OneActive(b.rows) && current in b.rows && next in b.rows
    requires b.rows[current].property == b.rows[next].property && b.rows[current].status == Active
    ensures var half := HalfWay(b, current, next, reason, at);
            && OneActive(half.rows) && ActiveOf(half.rows, b.rows[current].property) == {}
            && half.rows[next].property == b.rows[next].property
            && half.rows[next].status == (if next == current then Replaced else b.rows[next].status)
    ensures next != current ==> b.rows[next].status != Active
  {
  }

  lemma HalfWayKeeps(b: Book, current: AssignmentId, next: AssignmentId, reason: Option<string>, at: Time)
    requires Inv(b) && CanReplace(b.rows, current, next, reason)
    ensures var b' := HalfWay(b, current, next, reason, at);
            Inv(b') && Follows(b.rows, b'.rows) && ActiveOf(b'.rows, b.rows[current].property) == {}
  {
    hide PointersInv;
    var b1 := Move(b, current, Replaced, reason, at);
    MoveKeeps(b, current, Replaced, reason, at);
    assert b1.replaced[|b.replaced|] == current;
    PointAt(b1, current, next);
  }

  /** A candidate goes through pilot, and no other row of the property is active: nothing can refuse it. */
  lemma TakesOver(b: Book, next: AssignmentId, at: Time)
    requires Inv(b) && next in b.rows && b.rows[next].status in {Candidate, Pilot, Paused}
    requires ActiveOf(b.rows, b.rows[next].property) == {}
    ensures var b' := b.(rows := b.rows[next := Moved(b.rows[next], Active, None, at)]);
            Inv(b') && Follows(b.rows, b'.rows)
  {
    hide Inv, Follows;
    var pilot := b;
    if b.rows[next].status == Candidate {
      pilot := Move(b, next, Pilot, None, at);
      MoveKeeps(b, next, Pilot, None, at);
      assert ActiveOf(pilot.rows, b.rows[next].property) == {};
    } else {
      FollowsSame(b.rows);
    }
    MoveKeeps(pilot, next, Active, None, at);
    assert Move(pilot, next, Active, None, at) == b.(rows := b.rows[next := Moved(b.rows[next], Active, None, at)]);
    FollowsTrans(b.rows, pilot.rows, Move(pilot, next, Active, None, at).rows);
  }

  lemma FollowsSame(rows: Rows)
    ensures Follows(rows, rows)
  {
  }

  lemma FollowsTrans(r1: Rows, r2: Rows, r3: Rows)
    requires Follows(r1, r2) && Follows(r2, r3)
    ensures Follows(r1, r3)
  {
  }

  lemma HandOverKeeps(b: Book, current: AssignmentId, next: AssignmentId, reason: Option<string>, at: Time)
    requires Inv(b) && CanReplace(b.rows, current, next, reason)
    ensures Inv(HandOver(b, current, next, reason, at)) && Follows(b.rows, HandOver(b, current, next, reason, at).rows)
  {
    hide Inv, Follows;
    var half, whole := HalfWay(b, current, next, reason, at), HandOver(b, current, next, reason, at);
    HalfWayKeeps(b, current, next, reason, at);
    TakesOver(half, next, at);
    assert whole == half.(rows := half.rows[next := Moved(half.rows[next], Active, None, at)]);
    FollowsTrans(b.rows, half.rows, whole.rows);
  }

  /** Handing over takes the property from exactly one active assignment to exactly one other. */
  lemma ReplaceHandsOver(b: Book, current: AssignmentId, next: AssignmentId, reason: Option<string>, at: Time)
    requires Inv(b) && CanReplace(b.rows, current, next, reason)
    ensures ActiveOf(b.rows, b.rows[current].property) == {current}
    ensures ActiveOf(HandOver(b, current, next, reason, at).rows, b.rows[current].property) == {next}
    ensures forall p :: p != b.rows[current].property ==>
              ActiveOf(HandOver(b, current, next, reason, at).rows, p) == ActiveOf(b.rows, p)
  {
    hide PointersInv, RowInv;
  }

  /** The old row has ended for the reason, the new one is active and names it, and no other row has changed. */
  ghost predicate HasHandedOver(rows: Rows, rows': Rows, current: AssignmentId, next: AssignmentId, reason: Option<string>, at: Time) {
    && current in rows && next in rows && current != next && current in rows' && next in rows'
    && rows' == rows[current := rows'[current]][next := rows'[next]]
    && HasMoved(rows[current], rows'[current], Replaced, reason, at)
    && HasMoved(rows[next].(predecessor := Some(current)), rows'[next], Active, None, at)
  }

  lemma HandOverHas(b: Book, current: AssignmentId, next: AssignmentId, reason: Option<string>, at: Time)
    requires CanReplace(b.rows, current, next, reason)
    ensures HasHandedOver(b.rows, HandOver(b, current, next, reason, at).rows, current, next, reason, at)
  {
    MovedHas(b.rows[current], Replaced, reason, at);
    MovedHas(b.rows[next].(predecessor := Some(current)), Active, None, at);
    hide HasMoved;
  }

  // ---------- Chains of replacements ----------

  ghost predicate IsChain(rows: Rows, path: seq<AssignmentId>) {
    && (forall i :: 0 <= i < |path| ==> path[i] in rows)
    && (forall i :: 0 < i < |path| ==> rows[path[i - 1]].predecessor == Some(path[i]))
  }

  lemma {:induction false} ChainFallsBack(b: Book, path: seq<AssignmentId>, i: nat, j: nat) returns (m: nat, n: nat)
    requires Inv(b) && IsChain(b.rows, path) && 0 < i < j < |path|
    ensures m < n < |b.replaced| && b.replaced[m] == path[j] && b.replaced[n] == path[i]
    decreases j - i
  {
    hide OneActive, RowInv;
    assert b.rows[path[i - 1]].predecessor == Some(path[i]);
    if i + 1 < j {
      var k;
      m, k := ChainFallsBack(b, path, i + 1, j);
      n :| 0 <= n < |b.replaced| && b.replaced[n] == path[i];
      assert PointsBack(b, n) && b.rows[path[i]].predecessor == Some(path[i + 1]);
    } else {
      n :| 0 <= n < |b.replaced| && b.replaced[n] == path[i];
      assert PointsBack(b, n) && b.rows[path[i]].predecessor == Some(path[j]);
      m :| 0 <= m < n && b.replaced[m] == path[j];
    }
  }

  /** Following predecessors from any row meets only replaced rows and never the same row twice. */
  lemma ChainNeverCycles(b: Book, path: seq<AssignmentId>)
    requires Inv(b) && IsChain(b.rows, path)
    ensures forall i :: 0 < i < |path| ==> b.rows[path[i]].status == Replaced
    ensures forall i, j :: 0 <= i < j < |path| ==> path[i] != path[j]
    ensures |path| <= |b.replaced| + 1
  {
    hide OneActive, RowInv;
    forall i | 0 < i < |path|
      ensures path[i] in b.replaced
    {
      assert b.rows[path[i - 1]].predecessor == Some(path[i]);
    }
    forall i, j | 0 <= i < j < |path|
      ensures path[i] != path[j]
    {
      if 0 < i {
        var m, n := ChainFallsBack(b, path, i, j);
      } else if path[0] == path[j] {
        // A row met along the way is a replaced one, so its own pointer leads further back still.
        var n :| 0 <= n < |b.replaced| && b.replaced[n] == path[0];
        assert PointsBack(b, n) && b.rows[path[0]].predecessor == Some(path[1]);
        if j > 1 {
          var m, k := ChainFallsBack(b, path, 1, j);
        }
      }
    }
    if path != [] {
      NoMoreThan(path[1..], b.replaced);
    }
  }

  lemma {:induction false} NoMoreThan(xs: seq<AssignmentId>, ys: seq<AssignmentId>)
    requires forall i, j :: 0 <= i < j < |xs| ==> xs[i] != xs[j]
    requires forall i :: 0 <= i < |xs| ==> xs[i] in ys
    ensures |xs| <= |ys|
  {
    if xs != [] {
      var k :| 0 <= k < |ys| && ys[k] == xs[0];
      var rest := ys[..k] + ys[k + 1..];
      forall i | 0 < i < |xs|
        ensures xs[i] in rest
      {
        assert xs[i] in ys;
        var n :| 0 <= n < |ys| && ys[n] == xs[i];
        assert if n < k then rest[n] == xs[i] else rest[n - 1] == xs[i];
      }
      NoMoreThan(xs[1..], rest);
    }
  }

  // ---------- Runs ----------

  datatype Op =
    | Create(id: AssignmentId, property: PropertyId)
    | MoveTo(id: AssignmentId, target: Status, reason: Option<string>, at: Time)
    | Replace(current: AssignmentId, next: AssignmentId, reason: Option<string>, at: Time)

  /** An operation that raises leaves the book as it was. */
  ghost function Perform(b: Book, op: Op): Book {
    match op
    case Create(id, property) => if id in b.rows then b else b.(rows := b.rows[id := Fresh(property)])
    case MoveTo(id, target, reason, at) =>
      if CanMove(b.rows, id, target, reason) then Move(b, id, target, reason, at) else b
    case Replace(current, next, reason, at) =>
      if CanReplace(b.rows, current, next, reason) then HandOver(b, current, next, reason, at) else b
  }

  ghost function Run(b: Book, ops: seq<Op>): Book {
    if ops == [] then b else Perform(Run(b, ops[..|ops| - 1]), ops[|ops| - 1])
  }

  /** Every run keeps the invariant, and never again touches a row that was final at its start. */
  lemma {:induction false} RunKeeps(b: Book, ops: seq<Op>)
    requires Inv(b)
    ensures Inv(Run(b, ops)) && Follows(b.rows, Run(b, ops).rows)
  {
    if ops != [] {
      var before, op := Run(b, ops[..|ops| - 1]), ops[|ops| - 1];
      RunKeeps(b, ops[..|ops| - 1]);
      PerformKeeps(before, op);
      assert Run(b, ops) == Perform(before, op);
    }
  }

  lemma PerformKeeps(b: Book, op: Op)
    requires Inv(b)
    ensures Inv(Perform(b, op)) && Follows(b.rows, Perform(b, op).rows)
  {
    hide Inv;
    match op
    case Create(id, property) =>
      if id !in b.rows {
        CreateKeeps(b, id, property);
      }
    case MoveTo(id, target, reason, at) =>
      if CanMove(b.rows, id, target, reason) {
        MoveKeeps(b, id, target, reason, at);
      }
    case Replace(current, next, reason, at) =>
      if CanReplace(b.rows, current, next, reason) {
        HandOverKeeps(b, current, next, reason, at);
      }
  }

  /** From an empty book, whatever is asked for in whatever order: one active row a property at most,
      and an end with a reason and a time for exactly the rows that are final. */
  lemma EveryRun(ops: seq<Op>, property: PropertyId, id: AssignmentId)
    ensures var rows := Run(Book(map[], []), ops).rows;
            && |ActiveOf(rows, property)| <= 1
            && (id in rows ==> (IsFinal(rows[id].status) <==> rows[id].endedAt.Some?)
                               && (IsFinal(rows[id].status) <==> Given(rows[id].reason)))
  {
    var b := Run(Book(map[], []), ops);
    RunKeeps(Book(map[], []), ops);
    var active := ActiveOf(b.rows, property);
    if a :| a in active {
      assert active == {a};
    }
  }

  // ---------- Service ----------

  class ProviderOperations {
    var rows: Rows
    var replaced: seq<AssignmentId>

    ghost function View(): Book
      reads this
    {
      Book(rows, replaced)
    }

    ghost predicate Valid()
      reads this
    {
      Inv(View())
    }

    method ActiveAssignment(property: PropertyId) returns (r: Option<AssignmentId>)
      ensures r.None? <==> ActiveOf(rows, property) == {}
      ensures r.Some? ==> r.value in ActiveOf(rows, property)
    {
      var active := ActiveOf(rows, property);
      if id :| id in active {
        return Some(id);
      }
      return None;
    }

    method CreateAssignment(id: AssignmentId, property: PropertyId)
      requires Valid() && id !in rows
      modifies this
      ensures Valid() && View() == Perform(old(View()), Create(id, property))
    {
      CreateKeeps(View(), id, property);
      rows := rows[id := Fresh(property)];
    }

    method Transition(id: AssignmentId, target: Status, reason: Option<string>, at: Time)
      returns (r: Result<Assignment, AssignmentError>)
      requires OneActive(rows)
      modifies this
      ensures OneActive(rows) && (old(Valid()) ==> Valid())
      ensures r.Ok? <==> CanMove(old(rows), id, target, reason)
      ensures r.Ok? ==> View() == Move(old(View()), id, target, reason, at) && r.value == rows[id]
      ensures r.Ok? ==> id in old(rows) && rows == old(rows)[id := r.value]
      ensures r.Ok? && old(rows)[id].status == target ==> r.value == old(rows)[id]
      ensures r.Ok? && old(rows)[id].status != target ==>
                HasMoved(old(rows)[id], r.value, target, reason, at) && old(rows)[id].status in Sources(target)
      ensures r.Ok? && old(rows)[id].status != target && target in {Terminated, Replaced} ==> reason.Some? && reason.value != ""
      ensures r.Err? ==> View() == old(View())
    {
      hide Inv, HasMoved;
      if id !in rows {
        return Err(NotFound);
      }
      var a := rows[id];
      MovedHas(a, target, reason, at);
      SourcesAgree(a.status, target);
      if target == a.status {
        return Ok(a);
      }
      if target !in Allowed(a.status) {
        return Err(InvalidTransition);
      }
      if target == Active {
        var active := ActiveAssignment(a.property);
        if active.Some? && active.value != id {
          return Err(AlreadyHasActive);
        }
        a := a.(activeFrom := OrElse(a.activeFrom, at), startedAt := OrElse(a.startedAt, at));
      }
      if target == Terminated || target == Replaced {
        if reason.None? || reason.value == "" {
          return Err(ReasonRequired);
        }
        a := a.(reason := reason, activeUntil := Some(at), endedAt := Some(at));
      }
      a := a.(status := target);
      if Inv(View()) {
        MoveKeeps(View(), id, target, reason, at);
      }
      MoveOneActive(View(), id, target, reason, at);
      rows := rows[id := a];
      replaced := if target == Replaced then replaced + [id] else replaced;
      return Ok(a);
    }

    /** Make a row active, a candidate by way of pilot, when its property has nobody active. */
    method TakeOver(next: AssignmentId, at: Time) returns (r: Result<Assignment, AssignmentError>)
      requires OneActive(rows) && next in rows && rows[next].status != Active && ActiveOf(rows, rows[next].property) == {}
      modifies this
      ensures r.Ok? <==> old(rows)[next].status in {Candidate, Pilot, Paused}
      ensures r.Ok? ==> rows == old(rows)[next := Moved(old(rows)[next], Active, None, at)] && replaced == old(replaced)
      ensures r.Ok? ==> r.value == rows[next]
    {
      hide OneActive, Inv;
      if rows[next].status == Candidate {
        var pilot := Transition(next, Pilot, None, at);
        assert ActiveOf(rows, rows[next].property) == {};
      }
      r := Transition(next, Active, None, at);
    }

    /** Replace an active assignment by another one of its property; all of it or none. */
    method ReplaceAssignment(current: AssignmentId, next: AssignmentId, reason: Option<string>, at: Time)
      returns (r: Result<(Assignment, Assignment), AssignmentError>)
      requires Valid()
      modifies this
      ensures Valid()
      ensures r.Ok? <==> CanReplace(old(rows), current, next, reason)
      ensures r.Ok? ==> View() == HandOver(old(View()), current, next, reason, at) && r.value == (rows[current], rows[next])
      ensures r.Ok? ==> HasHandedOver(old(rows), rows, current, next, reason, at)
      ensures r.Err? ==> View() == old(View())
    {
      hide PointersInv, RowInv, OneActive, HasHandedOver, HasMoved;
      if current !in rows || next !in rows {
        return Err(NotFound);
      }
      if rows[current].property != rows[next].property {
        return Err(PropertyMismatch);
      }
      if rows[current].status != Active {
        return Err(RequiresActive);
      }
      var before := Book(rows, replaced);
      var gone := Transition(current, Replaced, reason, at);
      if gone.Err? {
        return Err(gone.error);
      }
      NobodyHalfWay(before, current, next, reason, at);
      rows := PointedAt(rows, current, next);
      assert View() == HalfWay(before, current, next, reason, at);
      var taken := TakeOver(next, at);
      if taken.Err? {
        rows, replaced := before.rows, before.replaced;
        return Err(taken.error);
      }
      HandOverKeeps(before, current, next, reason, at);
      HandOverHas(before, current, next, reason, at);
      assert View() == HandOver(before, current, next, reason, at);
      return Ok((rows[current], rows[next]));
    }
  }
}
