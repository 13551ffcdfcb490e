/** The apply/revert log of evidence overrides and its two views of what is active. */
module Overrides {
  import opened Wrappers

  type Value = string            // JSON values, compared for equality only
  type OpportunityId = nat

  datatype Kind = SerpClassification | ProviderSuitability | GeographicInterpretation | DataQualityWarning
  datatype Target = Target(opportunity: OpportunityId, kind: Kind, record: nat, field: string)

  datatype Row =
    | Apply(id: nat, target: Target, original: Value, value: Value)
    | Revert(id: nat, target: Target, original: Value, value: Value, reverses: nat)

  datatype OverrideError =
    | OpportunityNotFound | EvidenceNotFound | OriginalMismatch | NoEffect | ActiveOverrideExists(active: nat)
    | OverrideNotFound | AlreadyReversed

  /** The rows about one piece of evidence, oldest first. */
  function About(log: seq<Row>, t: Target): seq<Row> {
    if log == [] then []
    else
      var before := About(log[..|log| - 1], t);
      if log[|log| - 1].target == t then before + [log[|log| - 1]] else before
  }

  predicate IsReversed(log: seq<Row>, id: nat) {
    exists i :: 0 <= i < |log| && log[i].Revert? && log[i].reverses == id
  }

  /** The row that is in force: an application nobody has reversed. */
  ghost predicate InForce(log: seq<Row>, row: Row) {
    row in log && row.Apply? && !IsReversed(log, row.id)
  }

  /** What the rows make of a base value when each one's new value is put in place in turn. */
  function Replayed(rows: seq<Row>, base: Value): Value {
    if rows == [] then base else rows[|rows| - 1].value
  }

  /** Applications and reversals take turns, each application changes the value it found, each reversal undoes the
      application just before it. What an application finds may differ from what the last one found. */
  ghost predicate Alternates(rows: seq<Row>) {
    forall i :: 0 <= i < |rows| ==> TakesTurn(rows[..i], rows[i])
  }

  ghost predicate TakesTurn(before: seq<Row>, row: Row) {
    if |before| % 2 == 0 then row.Apply? && row.value != row.original
    else
      var last := before[|before| - 1];
      row.Revert? && row.reverses == last.id && row.original == last.value && row.value == last.original
  }

  lemma AlternatesAppend(rows: seq<Row>, row: Row)
    requires Alternates(rows) && TakesTurn(rows, row)
    ensures Alternates(rows + [row])
  {
    var rows' := rows + [row];
    forall i | 0 <= i < |rows'|
      ensures TakesTurn(rows'[..i], rows'[i])
    {
      assert rows'[..i] == rows[..i];
    }
  }

  ghost predicate Numbered(log: seq<Row>) {
    forall i :: 0 <= i < |log| ==> log[i].id == i
  }

  /** A reversal names an earlier application for the same evidence. */
  ghost predicate PointsBack(log: seq<Row>) {
    forall i :: 0 <= i < |log| && log[i].Revert? ==>
      log[i].reverses < i && log[log[i].reverses].Apply? && log[log[i].reverses].target == log[i].target
  }

  ghost predicate LogInv(log: seq<Row>) {
    && Numbered(log)
    && PointsBack(log)
    && forall t :: Alternates(About(log, t))
  }

  lemma AboutAppend(log: seq<Row>, row: Row, t: Target)
    ensures About(log + [row], t) == if row.target == t then About(log, t) + [row] else About(log, t)
  {
    assert (log + [row])[..|log|] == log;
  }

  lemma {:induction false} AboutMembers(log: seq<Row>, t: Target)
    ensures forall row :: row in About(log, t) <==> row in log && row.target == t
  {
    if log != [] {
      var before := log[..|log| - 1];
      AboutMembers(before, t);
      assert log == before + [log[|log| - 1]];
    }
  }

  /** The last row about a target has the greatest id. */
  lemma {:induction false} AboutLast(log: seq<Row>, t: Target)
    requires Numbered(log)
    ensures forall i, j :: 0 <= i < j < |About(log, t)| ==> About(log, t)[i].id < About(log, t)[j].id
    ensures forall i :: 0 <= i < |About(log, t)| ==> About(log, t)[i].id < |log|
  {
    if log != [] {
      AboutLast(log[..|log| - 1], t);
    }
  }

  lemma IdsAreIndices(log: seq<Row>, row: Row)
    requires Numbered(log) && row in log
    ensures row.id < |log| && log[row.id] == row
  {
  }

  lemma TurnAt(rows: seq<Row>, i: nat)
    requires Alternates(rows) && i < |rows|
    ensures if i % 2 == 0 then rows[i].Apply? && rows[i].value != rows[i].original
            else rows[i].Revert? && rows[i].reverses == rows[i - 1].id && rows[i].value == rows[i - 1].original
  {
    assert TakesTurn(rows[..i], rows[i]);
  }

  /** An application that a later row follows has been reversed by it. */
  lemma OnlyLastInForce(rows: seq<Row>, i: nat)
    requires Alternates(rows) && i < |rows| && rows[i].Apply? && !IsReversed(rows, rows[i].id)
    ensures |rows| % 2 == 1 && i == |rows| - 1
  {
    hide Alternates;
    TurnAt(rows, i);
    if i + 1 < |rows| {
      TurnAt(rows, i + 1);
    }
  }

  lemma AboutReversed(log: seq<Row>, t: Target, row: Row)
    requires PointsBack(log) && Numbered(log) && row in log && row.target == t
    ensures IsReversed(About(log, t), row.id) <==> IsReversed(log, row.id)
  {
    hide About;
    var rows := About(log, t);
    AboutMembers(log, t);
    IdsAreIndices(log, row);
    if IsReversed(log, row.id) {
      var n :| 0 <= n < |log| && log[n].Revert? && log[n].reverses == row.id;
      assert log[n] in rows;
    }
    if IsReversed(rows, row.id) {
      var n :| 0 <= n < |rows| && rows[n].Revert? && rows[n].reverses == row.id;
      assert rows[n] in log;
    }
  }

  /** An odd last row is in force: a reversal of it would have to come after it. */
  lemma OddLastInForce(rows: seq<Row>)
    requires Alternates(rows) && |rows| % 2 == 1
    requires forall i, j :: 0 <= i < j < |rows| ==> rows[i].id < rows[j].id
    ensures rows[|rows| - 1].Apply? && !IsReversed(rows, rows[|rows| - 1].id)
  {
    hide Alternates;
    TurnAt(rows, |rows| - 1);
    forall m | 0 <= m < |rows| && rows[m].Revert?
      ensures rows[m].reverses < rows[|rows| - 1].id
    {
      TurnAt(rows, m);
    }
  }

  /** The row in force for a target is the last one about it, and there is one exactly when their number is odd. */
  lemma InForceIsLast(log: seq<Row>, t: Target, row: Row)
    requires LogInv(log)
    ensures InForce(log, row) && row.target == t <==>
              |About(log, t)| % 2 == 1 && row == About(log, t)[|About(log, t)| - 1]
  {
    hide About, Alternates, IsReversed;
    var rows := About(log, t);
    AboutMembers(log, t);
    if InForce(log, row) && row.target == t {
      AboutReversed(log, t, row);
      var i :| 0 <= i < |rows| && rows[i] == row;
      OnlyLastInForce(rows, i);
    } else if |rows| % 2 == 1 {
      AboutLast(log, t);
      OddLastInForce(rows);
      assert rows[|rows| - 1] in rows;
      AboutReversed(log, t, rows[|rows| - 1]);
    }
  }

  lemma AtMostOneInForce(log: seq<Row>, a: Row, b: Row)
    requires LogInv(log) && InForce(log, a) && InForce(log, b) && a.target == b.target
    ensures a == b
  {
    InForceIsLast(log, a.target, a);
    InForceIsLast(log, a.target, b);
  }

  /** Replaying the log over the evidence as it is now gives the value of the override in force. With none in force
      it gives the evidence back exactly when nothing was ever overridden, or the evidence is still what the last
      application found. */
  lemma ReplayGivesActive(log: seq<Row>, t: Target, now: Value)
    requires LogInv(log)
    ensures forall row :: InForce(log, row) && row.target == t ==> Replayed(About(log, t), now) == row.value
    ensures (forall row :: InForce(log, row) ==> row.target != t) ==>
              |About(log, t)| % 2 == 0
              && (Replayed(About(log, t), now) == now <==>
                    About(log, t) == [] || About(log, t)[|About(log, t)| - 2].original == now)
  {
    hide InForce, LogInv, About;
    var rows := About(log, t);
    forall row
      ensures InForce(log, row) && row.target == t <==> |rows| % 2 == 1 && row == rows[|rows| - 1]
    {
      InForceIsLast(log, t, row);
    }
    if rows != [] && |rows| % 2 == 0 {
      LastReverts(log, t);
    }
  }

  lemma LastReverts(log: seq<Row>, t: Target)
    requires LogInv(log) && About(log, t) != [] && |About(log, t)| % 2 == 0
    ensures About(log, t)[|About(log, t)| - 1].value == About(log, t)[|About(log, t)| - 2].original
  {
    TurnAt(About(log, t), |About(log, t)| - 1);
  }

  /** Evidence rewritten between an application and its reversal: nothing is in force, and the replay gives the value
      the application found, not the evidence. */
  lemma RewrittenUnderneath(t: Target) returns (log: seq<Row>, now: Value)
    ensures LogInv(log) && (forall row :: InForce(log, row) ==> row.target != t)
    ensures Replayed(About(log, t), now) != now
  {
    var apply, revert := Apply(0, t, "found", "override"), Revert(1, t, "override", "found", 0);
    log, now := [apply, revert], "rewritten";
    AboutAppend([], apply, t);
    AboutAppend([apply], revert, t);
    assert [] + [apply] == [apply] && [apply] + [revert] == log;
    assert About([], t) == [] && About([apply], t) == [apply] && About(log, t) == log;
    forall t'
      ensures Alternates(About(log, t'))
    {
      AboutAppend([], apply, t');
      AboutAppend([apply], revert, t');
      if t' == t {
        assert TakesTurn([], apply) && TakesTurn([apply], revert);
        AlternatesAppend([], apply);
        AlternatesAppend([apply], revert);
      }
    }
    assert IsReversed(log, 0) by { assert log[1].Revert? && log[1].reverses == 0; }
  }

  lemma LogNumbered(log: seq<Row>)
    requires LogInv(log)
    ensures Numbered(log)
  {
  }

  lemma AppendKeeps(log: seq<Row>, row: Row)
    requires LogInv(log) && row.id == |log|
    requires TakesTurn(About(log, row.target), row)
    requires row.Revert? ==> row.reverses < |log| && log[row.reverses].Apply? && log[row.reverses].target == row.target
    ensures LogInv(log + [row])
  {
    forall t
      ensures Alternates(About(log + [row], t))
    {
      AboutAppend(log, row, t);
      if t == row.target {
        AlternatesAppend(About(log, t), row);
      }
    }
  }

  lemma AppendApply(log: seq<Row>, t: Target, original: Value, value: Value)
    requires LogInv(log) && value != original
    requires forall row :: InForce(log, row) ==> row.target != t
    ensures LogInv(log + [Apply(|log|, t, original, value)])
  {
    hide LogInv;
    if |About(log, t)| % 2 == 1 {
      InForceIsLast(log, t, About(log, t)[|About(log, t)| - 1]);
    }
    AppendKeeps(log, Apply(|log|, t, original, value));
  }

  lemma AppendRevert(log: seq<Row>, id: nat)
    requires LogInv(log) && id < |log| && InForce(log, log[id])
    ensures LogInv(log + [Revert(|log|, log[id].target, log[id].value, log[id].original, id)])
  {
    hide LogInv, About;
    LogNumbered(log);
    InForceIsLast(log, log[id].target, log[id]);
    AppendKeeps(log, Revert(|log|, log[id].target, log[id].value, log[id].original, id));
  }

  class OverrideLog {
    const opportunities: set<OpportunityId>
    var evidence: map<Target, Value>   // the evidence tables, which overrides never write and others may
    var log: seq<Row>

    ghost predicate Valid()
      reads this
    {
      LogInv(log)
    }

    constructor (opportunities: set<OpportunityId>, evidence: map<Target, Value>)
      ensures Valid() && log == [] && this.evidence == evidence && this.opportunities == opportunities
    {
      this.opportunities, this.evidence, log := opportunities, evidence, [];
    }

    /** Search the applications for `t`, newest first, for one that nobody has reversed. */
    method ActiveOverride(t: Target) returns (active: Option<Row>)
      requires Valid()
      ensures active.Some? ==> InForce(log, active.value) && active.value.target == t
      ensures active.None? ==> forall row :: InForce(log, row) ==> row.target != t
    {
      var i := |log|;
      while i > 0
        invariant 0 <= i <= |log|
        invariant forall n :: i <= n < |log| ==> !(InForce(log, log[n]) && log[n].target == t)
      {
        i := i - 1;
        if log[i].Apply? && log[i].target == t {
          if !IsReversed(log, log[i].id) {
            return Some(log[i]);
          }
        }
      }
      return None;
    }

    method ApplyOverride(t: Target, value: Value, expected: Option<Value>) returns (r: Result<Row, OverrideError>)
      requires Valid()
      modifies this`log
      ensures Valid()
      ensures r.Err? ==> log == old(log)
      ensures r.Ok? <==>
                && t.opportunity in opportunities && t in evidence && (expected.None? || expected.value == evidence[t])
                && value != evidence[t] && forall row :: InForce(old(log), row) ==> row.target != t
      ensures r.Ok? ==> log == old(log) + [r.value] && InForce(log, r.value)
      ensures r.Ok? ==> r.value == Apply(|old(log)|, t, evidence[t], value)
      ensures r.Ok? ==> forall now :: Replayed(About(log, t), now) == value
    {
      if t.opportunity !in opportunities {
        return Err(OpportunityNotFound);
      }
      if t !in evidence {
        return Err(EvidenceNotFound);
      }
      var original := evidence[t];
      if expected.Some? && expected.value != original {
        return Err(OriginalMismatch);
      }
      if original == value {
        return Err(NoEffect);
      }
      var active := ActiveOverride(t);
      if active.Some? {
        return Err(ActiveOverrideExists(active.value.id));
      }
      AppendApply(log, t, original, value);
      var row := Apply(|log|, t, original, value);
      AboutAppend(log, row, t);
      log := log + [row];
      assert log[|log| - 1] == row;
      return Ok(row);
    }

    method ReverseOverride(opportunity: OpportunityId, id: nat) returns (r: Result<Row, OverrideError>)
      requires Valid()
      modifies this`log
      ensures Valid()
      ensures r.Err? ==> log == old(log)
      ensures r.Ok? <==>
                id < |old(log)| && InForce(old(log), old(log)[id]) && old(log)[id].target.opportunity == opportunity
      ensures r.Ok? ==> log == old(log) + [r.value] && r.value.target == old(log)[id].target
      ensures r.Ok? ==> forall row :: InForce(log, row) ==> row.target != r.value.target
      ensures r.Ok? ==> r.value == Revert(|old(log)|, old(log)[id].target, old(log)[id].value, old(log)[id].original, id)
      // The replay now gives what the application found: the evidence, unless that has been rewritten since.
      ensures r.Ok? ==> forall now :: Replayed(About(log, r.value.target), now) == old(log)[id].original
    {
      if id >= |log| || log[id].target.opportunity != opportunity || !log[id].Apply? {
        return Err(OverrideNotFound);
      }
      if IsReversed(log, id) {
        return Err(AlreadyReversed);
      }
      var original := log[id];
      assert InForce(log, original);
      AppendRevert(log, id);
      var row := Revert(|log|, original.target, original.value, original.original, id);
      InForceIsLast(log, original.target, original);
      AboutAppend(log, row, original.target);
      log := log + [row];
      forall other
        ensures InForce(log, other) ==> other.target != row.target
      {
        InForceIsLast(log, row.target, other);
      }
      return Ok(row);
    }

    /** Every row of an opportunity with its active flag, computed from the set of reversed ids. */
    method ListOverrides(opportunity: OpportunityId) returns (rows: seq<(Row, bool)>)
      requires Valid()
      ensures forall i :: 0 <= i < |rows| ==> rows[i].0 in log && rows[i].0.target.opportunity == opportunity
      ensures forall i, j :: 0 <= i < j < |rows| ==> rows[i].0.id < rows[j].0.id
      ensures forall row :: row in log && row.target.opportunity == opportunity ==>
                (row, true) in rows || (row, false) in rows
      // Where a row of the opportunity is reversed, its reversal is a row of the same opportunity, so
      // looking only at these rows misses none.
      ensures forall i :: 0 <= i < |rows| ==> (rows[i].1 <==> InForce(log, rows[i].0))
    {
      hide LogInv, IsReversed;
      var own := Own(opportunity);
      var reversedIds := ReversedIds(own);
      rows := [];
      for i := 0 to |own|
        invariant |rows| == i
        invariant forall n :: 0 <= n < |rows| ==>
          rows[n].0 == own[n] && rows[n].1 == (rows[n].0.Apply? && rows[n].0.id !in reversedIds)
        invariant forall n :: 0 <= n < i ==> (own[n], true) in rows || (own[n], false) in rows
      {
        rows := rows + [(own[i], own[i].Apply? && own[i].id !in reversedIds)];
      }
      forall i | 0 <= i < |rows|
        ensures rows[i].1 <==> InForce(log, rows[i].0)
      {
        ReversedLocally(log, opportunity, rows[i].0, own);
      }
    }

    /** The rows of one opportunity in id order. */
    method Own(opportunity: OpportunityId) returns (own: seq<Row>)
      requires Valid()
      ensures forall i, j :: 0 <= i < j < |own| ==> own[i].id < own[j].id
      ensures forall row :: row in own <==> row in log && row.target.opportunity == opportunity
    {
      LogNumbered(log);
      hide LogInv;
      own := [];
      for i := 0 to |log|
        invariant forall m, n :: 0 <= m < n < |own| ==> own[m].id < own[n].id
        invariant forall n :: 0 <= n < |own| ==> own[n].id < i
        invariant forall row :: row in own <==> row in log[..i] && row.target.opportunity == opportunity
      {
        assert log[..i + 1] == log[..i] + [log[i]];
        if log[i].target.opportunity == opportunity {
          own := own + [log[i]];
        }
      }
      assert log[..|log|] == log;
    }
  }

  function ReversedIds(own: seq<Row>): (ids: set<nat>)
    ensures forall id :: id in ids <==> IsReversed(own, id)
  {
    set i | 0 <= i < |own| && own[i].Revert? :: own[i].reverses
  }

  lemma ReversedLocally(log: seq<Row>, opportunity: OpportunityId, row: Row, own: seq<Row>)
    requires LogInv(log) && row in log && row.target.opportunity == opportunity
    requires forall r :: r in own <==> r in log && r.target.opportunity == opportunity
    ensures IsReversed(log, row.id) <==> IsReversed(own, row.id)
  {
    hide Alternates, About;
    IdsAreIndices(log, row);
    if IsReversed(log, row.id) {
      var n :| 0 <= n < |log| && log[n].Revert? && log[n].reverses == row.id;
      assert log[n] in own;
    }
    if IsReversed(own, row.id) {
      var n :| 0 <= n < |own| && own[n].Revert? && own[n].reverses == row.id;
      assert own[n] in log;
    }
  }
}
