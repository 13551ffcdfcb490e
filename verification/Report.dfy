/** The calibration report: its totals and segments account for every outcome row exactly once. */
module Report {

  type DecisionId = nat
  type Day = int
  type Money = int

  datatype Metric =
    | Impressions | Clicks | OrganicSessions | Calls | Forms | QualifiedLeads | Appointments | WonJobs | ReportedRevenue

  datatype Basis = Observed | ProviderReported | OperatorVerified | Estimated

  datatype Row = Row(
    decision: DecisionId, period: Day, basis: Basis,
    impressions: nat, clicks: nat, organicSessions: nat, calls: nat, forms: nat,
    qualifiedLeads: nat, appointments: nat, wonJobs: nat, reportedRevenue: Money)

  datatype Field = ServiceFamily | MarketSize | EvidenceQuality

  datatype Decision = Decision(id: DecisionId, family: string, band: string, quality: string)

  datatype Item = Item(decision: Decision, leads: int, wonJobs: int)

  datatype Segment = Segment(key: string, count: int, leads: int, wonJobs: int)

  type Totals = map<Metric, int>

  const METRICS: seq<Metric> :=
    [Impressions, Clicks, OrganicSessions, Calls, Forms, QualifiedLeads, Appointments, WonJobs, ReportedRevenue]

  function Get(row: Row, m: Metric): int {
    match m
    case Impressions => row.impressions
    case Clicks => row.clicks
    case OrganicSessions => row.organicSessions
    case Calls => row.calls
    case Forms => row.forms
    case QualifiedLeads => row.qualifiedLeads
    case Appointments => row.appointments
    case WonJobs => row.wonJobs
    case ReportedRevenue => row.reportedRevenue
  }

  function KeyOf(item: Item, field: Field): string {
    match field
    case ServiceFamily => item.decision.family
    case MarketSize => item.decision.band
    case EvidenceQuality => item.decision.quality
  }

  // ---------- Sums over part of a list ----------

  function SumIf<T>(xs: seq<T>, f: T -> int, p: T -> bool): int {
    if xs == [] then 0
    else SumIf(xs[..|xs| - 1], f, p) + (if p(xs[|xs| - 1]) then f(xs[|xs| - 1]) else 0)
  }

  /** Sums add up: over two lists, and over one element. */
  lemma {:induction false} SumAdds<T>(a: seq<T>, b: seq<T>, f: T -> int, p: T -> bool)
    ensures SumIf(a + b, f, p) == SumIf(a, f, p) + SumIf(b, f, p)
    ensures |b| == 1 ==> SumIf(b, f, p) == if p(b[0]) then f(b[0]) else 0
  {
    if b == [] {
      assert a + b == a;
    } else {
      assert (a + b)[..|a + b| - 1] == a + b[..|b| - 1];
      SumAdds(a, b[..|b| - 1], f, p);
    }
  }

  function HasKey<T, K(==)>(key: T -> K, k: K): T -> bool { x => key(x) == k }

  function KeyIn<T, K(==)>(key: T -> K, keys: seq<K>): T -> bool { x => key(x) in keys }

  function Both<T>(p: T -> bool, q: T -> bool): T -> bool { x => p(x) && q(x) }

  /** The sums over the elements with each key in turn. */
  function SumByKey<T, K(==)>(xs: seq<T>, f: T -> int, key: T -> K, keys: seq<K>, q: T -> bool): int {
    if keys == [] then 0
    else SumByKey(xs, f, key, keys[..|keys| - 1], q) + SumIf(xs, f, Both(HasKey(key, keys[|keys| - 1]), q))
  }

  ghost predicate Distinct<K>(keys: seq<K>) {
    forall i, j :: 0 <= i < j < |keys| ==> keys[i] != keys[j]
  }

  lemma {:induction false} SumSplits<T>(xs: seq<T>, f: T -> int, p: T -> bool, q: T -> bool, both: T -> bool)
    requires forall i :: 0 <= i < |xs| ==> (both(xs[i]) <==> p(xs[i]) || q(xs[i])) && !(p(xs[i]) && q(xs[i]))
    ensures SumIf(xs, f, both) == SumIf(xs, f, p) + SumIf(xs, f, q)
  {
    if xs != [] {
      SumSplits(xs[..|xs| - 1], f, p, q, both);
    }
  }

  lemma {:induction false} SumSame<T>(xs: seq<T>, f: T -> int, p: T -> bool, q: T -> bool)
    requires forall i :: 0 <= i < |xs| ==> p(xs[i]) == q(xs[i])
    ensures SumIf(xs, f, p) == SumIf(xs, f, q)
  {
    if xs != [] {
      SumSame(xs[..|xs| - 1], f, p, q);
    }
  }

  lemma {:induction false} SumNone<T>(xs: seq<T>, f: T -> int, p: T -> bool)
    requires forall i :: 0 <= i < |xs| ==> !p(xs[i])
    ensures SumIf(xs, f, p) == 0
  {
    if xs != [] {
      SumNone(xs[..|xs| - 1], f, p);
    }
  }

  /** Distinct keys cut the list into parts: adding up key by key reaches each element with a listed key once. */
  lemma {:induction false} KeysPartition<T, K>(xs: seq<T>, f: T -> int, key: T -> K, keys: seq<K>, q: T -> bool)
    requires Distinct(keys)
    ensures SumByKey(xs, f, key, keys, q) == SumIf(xs, f, Both(KeyIn(key, keys), q))
  {
    if keys == [] {
      SumNone(xs, f, Both(KeyIn(key, keys), q));
    } else {
      var rest, k := keys[..|keys| - 1], keys[|keys| - 1];
      KeysPartition(xs, f, key, rest, q);
      assert keys == rest + [k] && k !in rest;
      SumSplits(xs, f, Both(KeyIn(key, rest), q), Both(HasKey(key, k), q), Both(KeyIn(key, keys), q));
    }
  }

  function Filter<T>(xs: seq<T>, p: T -> bool): seq<T> {
    if xs == [] then []
    else Filter(xs[..|xs| - 1], p) + (if p(xs[|xs| - 1]) then [xs[|xs| - 1]] else [])
  }

  lemma {:induction false} SumFiltered<T>(xs: seq<T>, f: T -> int, p: T -> bool, q: T -> bool)
    ensures SumIf(Filter(xs, p), f, q) == SumIf(xs, f, Both(p, q))
  {
    if xs != [] {
      var rest, last := xs[..|xs| - 1], xs[|xs| - 1];
      SumFiltered(rest, f, p, q);
      if p(last) {
        assert (Filter(rest, p) + [last])[..|Filter(rest, p)|] == Filter(rest, p);
      } else {
        assert Filter(xs, p) == Filter(rest, p);
      }
    }
  }

  // ---------- Rows ----------

  function Measure(m: Metric): Row -> int { row => Get(row, m) }

  function DecisionOf(): Row -> DecisionId { (row: Row) => row.decision }

  function InPeriod(start: Day, end: Day): Row -> bool { (row: Row) => start <= row.period <= end }

  function OnBasis(b: Basis): Row -> bool { (row: Row) => row.basis == b }

  function Verified(): Row -> bool { (row: Row) => row.basis == Observed || row.basis == OperatorVerified }

  function Anything(): Row -> bool { (row: Row) => true }

  function Ids(decisions: seq<Decision>): (ids: seq<DecisionId>)
    ensures |ids| == |decisions| && forall i :: 0 <= i < |ids| ==> ids[i] == decisions[i].id
  {
    seq(|decisions|, i requires 0 <= i < |decisions| => decisions[i].id)
  }

  function GroupOf(rows: seq<Row>, id: DecisionId): seq<Row> { Filter(rows, HasKey(DecisionOf(), id)) }

  /** The counted value of one metric on one basis: every row of a known decision, once. */
  function Expected(decisions: seq<Decision>, rows: seq<Row>, m: Metric, q: Row -> bool): int {
    SumIf(rows, Measure(m), Both(KeyIn(DecisionOf(), Ids(decisions)), q))
  }

  /** What is in the four totals after the first decisions. */
  function Collected(decisions: seq<Decision>, rows: seq<Row>, m: Metric, q: Row -> bool): int {
    if decisions == [] then 0
    else Collected(decisions[..|decisions| - 1], rows, m, q)
         + SumIf(GroupOf(rows, decisions[|decisions| - 1].id), Measure(m), q)
  }

  lemma {:induction false} CollectedByKey(decisions: seq<Decision>, rows: seq<Row>, m: Metric, q: Row -> bool)
    ensures Collected(decisions, rows, m, q) == SumByKey(rows, Measure(m), DecisionOf(), Ids(decisions), q)
  {
    if decisions != [] {
      var rest, id := decisions[..|decisions| - 1], decisions[|decisions| - 1].id;
      CollectedByKey(rest, rows, m, q);
      assert Ids(decisions)[..|decisions| - 1] == Ids(rest);
      SumFiltered(rows, Measure(m), HasKey(DecisionOf(), id), q);
    }
  }

  lemma CollectedExpected(decisions: seq<Decision>, rows: seq<Row>, m: Metric, q: Row -> bool)
    requires Distinct(Ids(decisions))
    ensures Collected(decisions, rows, m, q) == Expected(decisions, rows, m, q)
  {
    CollectedByKey(decisions, rows, m, q);
    KeysPartition(rows, Measure(m), DecisionOf(), Ids(decisions), q);
  }

  /** The four truth bases share out the rows: together their totals are the total. */
  lemma BasesPartition(decisions: seq<Decision>, rows: seq<Row>, m: Metric)
    ensures Expected(decisions, rows, m, Anything()) ==
            Expected(decisions, rows, m, OnBasis(Observed)) + Expected(decisions, rows, m, OnBasis(ProviderReported))
            + Expected(decisions, rows, m, OnBasis(OperatorVerified)) + Expected(decisions, rows, m, OnBasis(Estimated))
    ensures Expected(decisions, rows, m, Verified()) ==
            Expected(decisions, rows, m, OnBasis(Observed)) + Expected(decisions, rows, m, OnBasis(OperatorVerified))
  {
    var known := KeyIn(DecisionOf(), Ids(decisions));
    var rest := (row: Row) => row.basis == ProviderReported || row.basis == Estimated;
    var f := Measure(m);
    SumSplits(rows, f, Both(known, OnBasis(Observed)), Both(known, OnBasis(OperatorVerified)), Both(known, Verified()));
    SumSplits(rows, f, Both(known, OnBasis(ProviderReported)), Both(known, OnBasis(Estimated)), Both(known, rest));
    SumSplits(rows, f, Both(known, Verified()), Both(known, rest), Both(known, Anything()));
  }

  // ---------- Items ----------

  function ItemOf(d: Decision, rows: seq<Row>): Item {
    Item(d, SumIf(rows, Measure(QualifiedLeads), Verified()), SumIf(rows, Measure(WonJobs), Verified()))
  }

  /** One item for every decision with an outcome row. */
  function Items(decisions: seq<Decision>, rows: seq<Row>): seq<Item> {
    if decisions == [] then []
    else
      var d := decisions[|decisions| - 1];
      Items(decisions[..|decisions| - 1], rows) + (if GroupOf(rows, d.id) == [] then [] else [ItemOf(d, GroupOf(rows, d.id))])
  }

  function AllItems(): Item -> bool { (item: Item) => true }
  function LeadsOf(): Item -> int { (item: Item) => item.leads }
  function WonOf(): Item -> int { (item: Item) => item.wonJobs }
  function One(): Item -> int { (item: Item) => 1 }
  function FieldOf(field: Field): Item -> string { (item: Item) => KeyOf(item, field) }

  lemma {:induction false} ItemsCollect(decisions: seq<Decision>, rows: seq<Row>)
    ensures SumIf(Items(decisions, rows), LeadsOf(), AllItems()) == Collected(decisions, rows, QualifiedLeads, Verified())
    ensures SumIf(Items(decisions, rows), WonOf(), AllItems()) == Collected(decisions, rows, WonJobs, Verified())
  {
    if decisions != [] {
      var rest, d := decisions[..|decisions| - 1], decisions[|decisions| - 1];
      ItemsCollect(rest, rows);
      var before := Items(rest, rows);
      if GroupOf(rows, d.id) != [] {
        assert Items(decisions, rows)[..|before|] == before;
      } else {
        assert Items(decisions, rows) == before;
      }
    }
  }

  lemma {:induction false} CountAll(items: seq<Item>)
    ensures SumIf(items, One(), AllItems()) == |items|
  {
    if items != [] {
      CountAll(items[..|items| - 1]);
    }
  }

  // ---------- Segments ----------

  function SegmentOf(items: seq<Item>, field: Field, key: string): Segment {
    var p := Both(HasKey(FieldOf(field), key), AllItems());
    Segment(key, SumIf(items, One(), p), SumIf(items, LeadsOf(), p), SumIf(items, WonOf(), p))
  }

  function KeysOf(segments: seq<Segment>): (keys: seq<string>)
    ensures |keys| == |segments| && forall i :: 0 <= i < |keys| ==> keys[i] == segments[i].key
  {
    seq(|segments|, i requires 0 <= i < |segments| => segments[i].key)
  }

  /** One segment for each key that occurs, holding what the items with that key add up to. */
  ghost predicate IsSegmentation(items: seq<Item>, field: Field, segments: seq<Segment>) {
    && Distinct(KeysOf(segments))
    && (forall i :: 0 <= i < |items| ==> KeyOf(items[i], field) in KeysOf(segments))
    && (forall i :: 0 <= i < |segments| ==> segments[i] == SegmentOf(items, field, segments[i].key))
  }

  function CountSum(segments: seq<Segment>): int {
    if segments == [] then 0 else CountSum(segments[..|segments| - 1]) + segments[|segments| - 1].count
  }

  function LeadSum(segments: seq<Segment>): int {
    if segments == [] then 0 else LeadSum(segments[..|segments| - 1]) + segments[|segments| - 1].leads
  }

  function WonSum(segments: seq<Segment>): int {
    if segments == [] then 0 else WonSum(segments[..|segments| - 1]) + segments[|segments| - 1].wonJobs
  }

  lemma {:induction false} SegmentsByKey(items: seq<Item>, field: Field, segments: seq<Segment>)
    requires forall i :: 0 <= i < |segments| ==> segments[i] == SegmentOf(items, field, segments[i].key)
    ensures CountSum(segments) == SumByKey(items, One(), FieldOf(field), KeysOf(segments), AllItems())
    ensures LeadSum(segments) == SumByKey(items, LeadsOf(), FieldOf(field), KeysOf(segments), AllItems())
    ensures WonSum(segments) == SumByKey(items, WonOf(), FieldOf(field), KeysOf(segments), AllItems())
  {
    if segments != [] {
      SegmentsByKey(items, field, segments[..|segments| - 1]);
      assert KeysOf(segments)[..|segments| - 1] == KeysOf(segments[..|segments| - 1]);
    }
  }

  /** However a report is segmented, the segments add up to the whole. */
  lemma SegmentsAddUp(items: seq<Item>, field: Field, segments: seq<Segment>)
    requires IsSegmentation(items, field, segments)
    ensures CountSum(segments) == |items|
    ensures LeadSum(segments) == SumIf(items, LeadsOf(), AllItems())
    ensures WonSum(segments) == SumIf(items, WonOf(), AllItems())
  {
    hide SumIf, SumByKey, CountSum, LeadSum, WonSum, SegmentOf;
    SegmentsByKey(items, field, segments);
    CountAll(items);
    var keys, key := KeysOf(segments), FieldOf(field);
    KeysPartition(items, One(), key, keys, AllItems());
    KeysPartition(items, LeadsOf(), key, keys, AllItems());
    KeysPartition(items, WonOf(), key, keys, AllItems());
    SumSame(items, One(), Both(KeyIn(key, keys), AllItems()), AllItems());
    SumSame(items, LeadsOf(), Both(KeyIn(key, keys), AllItems()), AllItems());
    SumSame(items, WonOf(), Both(KeyIn(key, keys), AllItems()), AllItems());
  }

  lemma {:induction false} GroupAddsUp(items: seq<Item>, field: Field, key: string, group: seq<Item>)
    requires group == Filter(items, HasKey(FieldOf(field), key))
    ensures SegmentOf(items, field, key) ==
            Segment(key, |group|, SumIf(group, LeadsOf(), AllItems()), SumIf(group, WonOf(), AllItems()))
  {
    SumFiltered(items, One(), HasKey(FieldOf(field), key), AllItems());
    SumFiltered(items, LeadsOf(), HasKey(FieldOf(field), key), AllItems());
    SumFiltered(items, WonOf(), HasKey(FieldOf(field), key), AllItems());
    CountAll(group);
  }

  /** One segment for each value of a column that occurs, with the number, leads and won jobs of the items that have it. */
  ghost predicate ByColumn(items: seq<Item>, column: Item -> string, segments: seq<Segment>) {
    && (forall i, j :: 0 <= i < j < |segments| ==> segments[i].key != segments[j].key)
    && (forall i :: 0 <= i < |items| ==> HasSegment(segments, column(items[i])))
    && (forall n :: 0 <= n < |segments| ==> IsSegment(items, column, segments[n]))
  }

  ghost predicate HasSegment(segments: seq<Segment>, key: string) {
    exists n :: 0 <= n < |segments| && segments[n].key == key
  }

  ghost predicate IsSegment(items: seq<Item>, column: Item -> string, segment: Segment) {
    && segment.count == SumIf(items, One(), HasKey(column, segment.key))
    && segment.leads == SumIf(items, LeadsOf(), HasKey(column, segment.key))
    && segment.wonJobs == SumIf(items, WonOf(), HasKey(column, segment.key))
  }

  lemma SegmentsByColumn(items: seq<Item>, field: Field, column: Item -> string, segments: seq<Segment>)
    requires IsSegmentation(items, field, segments)
    requires forall i :: 0 <= i < |items| ==> KeyOf(items[i], field) == column(items[i])
    ensures ByColumn(items, column, segments)
  {
    hide SumIf, SegmentOf;
    forall i | 0 <= i < |items|
      ensures HasSegment(segments, column(items[i]))
    {
      assert KeyOf(items[i], field) in KeysOf(segments);
      KeyHasSegment(segments, column(items[i]));
    }
    forall i, j | 0 <= i < j < |segments|
      ensures segments[i].key != segments[j].key
    {
      assert KeysOf(segments)[i] != KeysOf(segments)[j];
    }
    forall n | 0 <= n < |segments|
      ensures IsSegment(items, column, segments[n])
    {
      assert segments[n] == SegmentOf(items, field, segments[n].key);
      SegmentByColumn(items, field, column, segments[n].key);
    }
  }

  lemma KeyHasSegment(segments: seq<Segment>, key: string)
    requires key in KeysOf(segments)
    ensures HasSegment(segments, key)
  {
    var n :| 0 <= n < |KeysOf(segments)| && KeysOf(segments)[n] == key;
    assert segments[n].key == key;
  }

  lemma SegmentByColumn(items: seq<Item>, field: Field, column: Item -> string, key: string)
    requires forall i :: 0 <= i < |items| ==> KeyOf(items[i], field) == column(items[i])
    ensures IsSegment(items, column, SegmentOf(items, field, key))
  {
    var p, q := Both(HasKey(FieldOf(field), key), AllItems()), HasKey(column, key);
    SumSame(items, One(), p, q);
    SumSame(items, LeadsOf(), p, q);
    SumSame(items, WonOf(), p, q);
  }

  /** The item of a decision holds the observed and operator-verified leads and won jobs of that decision's rows. */
  ghost predicate IsItem(rows: seq<Row>, item: Item) {
    && item.leads == SumIf(rows, Measure(QualifiedLeads), VerifiedOf(item.decision.id))
    && item.wonJobs == SumIf(rows, Measure(WonJobs), VerifiedOf(item.decision.id))
    && HasRow(rows, item.decision.id)
  }

  function VerifiedOf(id: DecisionId): Row -> bool {
    (row: Row) => row.decision == id && (row.basis == Observed || row.basis == OperatorVerified)
  }

  lemma {:induction false} GroupEmpty(rows: seq<Row>, id: DecisionId)
    ensures GroupOf(rows, id) != [] <==> exists i :: 0 <= i < |rows| && rows[i].decision == id
  {
    if rows != [] {
      var rest := rows[..|rows| - 1];
      GroupEmpty(rest, id);
      if i :| 0 <= i < |rows| && rows[i].decision == id {
        assert i < |rest| ==> rest[i].decision == id;
      }
      if i :| 0 <= i < |rest| && rest[i].decision == id {
        assert rows[i].decision == id;
      }
    }
  }

  lemma GroupIsItem(d: Decision, rows: seq<Row>)
    requires GroupOf(rows, d.id) != []
    ensures IsItem(rows, ItemOf(d, GroupOf(rows, d.id)))
  {
    GroupEmpty(rows, d.id);
    SumFiltered(rows, Measure(QualifiedLeads), HasKey(DecisionOf(), d.id), Verified());
    SumFiltered(rows, Measure(WonJobs), HasKey(DecisionOf(), d.id), Verified());
    SumSame(rows, Measure(QualifiedLeads), Both(HasKey(DecisionOf(), d.id), Verified()), VerifiedOf(d.id));
    SumSame(rows, Measure(WonJobs), Both(HasKey(DecisionOf(), d.id), Verified()), VerifiedOf(d.id));
  }

  /** Each item holds what the rows of its decision say. */
  lemma {:induction false} ItemsHold(decisions: seq<Decision>, rows: seq<Row>)
    ensures forall i :: 0 <= i < |Items(decisions, rows)| ==>
              IsItem(rows, Items(decisions, rows)[i]) && Items(decisions, rows)[i].decision in decisions
  {
    hide IsItem, ItemOf, GroupOf;
    if decisions != [] {
      var rest, d := decisions[..|decisions| - 1], decisions[|decisions| - 1];
      ItemsHold(rest, rows);
      ItemIsOf(d, GroupOf(rows, d.id));
      if GroupOf(rows, d.id) != [] {
        GroupIsItem(d, rows);
      }
      assert decisions == rest + [d];
    }
  }

  ghost predicate HasRow(rows: seq<Row>, id: DecisionId) { exists i :: 0 <= i < |rows| && rows[i].decision == id }

  ghost predicate HasItem(items: seq<Item>, d: Decision) { exists n :: 0 <= n < |items| && items[n].decision == d }

  /** Every decision with a row has an item. */
  lemma {:induction false} ItemsMissNone(decisions: seq<Decision>, rows: seq<Row>, d: Decision)
    requires d in decisions && HasRow(rows, d.id)
    ensures HasItem(Items(decisions, rows), d)
  {
    hide ItemOf, GroupOf, HasRow;
    var rest, last := decisions[..|decisions| - 1], decisions[|decisions| - 1];
    assert decisions == rest + [last];
    if d in rest {
      ItemsMissNone(rest, rows, d);
      var n :| 0 <= n < |Items(rest, rows)| && Items(rest, rows)[n].decision == d;
      assert Items(decisions, rows)[n] == Items(rest, rows)[n];
    } else {
      GroupHasRow(rows, d.id);
      ItemIsOf(d, GroupOf(rows, d.id));
      assert Items(decisions, rows)[|Items(rest, rows)|].decision == d;
    }
  }

  lemma GroupHasRow(rows: seq<Row>, id: DecisionId)
    ensures GroupOf(rows, id) != [] <==> HasRow(rows, id)
  {
    GroupEmpty(rows, id);
  }

  lemma ItemIsOf(d: Decision, group: seq<Row>)
    ensures ItemOf(d, group).decision == d
  {
  }

  // ---------- The service ----------

  datatype FourTotals = FourTotals(observed: Totals, reported: Totals, operatorVerified: Totals, estimated: Totals)

  datatype CalibrationReport = CalibrationReport(
    propertyCount: int, totals: FourTotals, items: seq<Item>,
    byFamily: seq<Segment>, byMarketSize: seq<Segment>, byEvidence: seq<Segment>)

  function On(t: FourTotals, b: Basis): Totals {
    match b
    case Observed => t.observed
    case ProviderReported => t.reported
    case OperatorVerified => t.operatorVerified
    case Estimated => t.estimated
  }

  ghost predicate AreTotals(t: FourTotals) {
    forall b: Basis :: IsTotals(On(t, b))
  }

  /** One total, zero for one that is missing. */
  function At(t: FourTotals, b: Basis, m: Metric): int { if m in On(t, b) then On(t, b)[m] else 0 }

  function EmptyTotals(): Totals { map m | m in METRICS :: 0 }

  ghost predicate IsTotals(t: Totals) { forall m: Metric :: m in t }

  method AddTotals(target: Totals, row: Row) returns (r: Totals)
    requires IsTotals(target)
    ensures IsTotals(r) && forall m: Metric :: r[m] == target[m] + Get(row, m)
    ensures r[Impressions] == target[Impressions] + row.impressions && r[Clicks] == target[Clicks] + row.clicks
    ensures r[OrganicSessions] == target[OrganicSessions] + row.organicSessions
    ensures r[Calls] == target[Calls] + row.calls && r[Forms] == target[Forms] + row.forms
    ensures r[QualifiedLeads] == target[QualifiedLeads] + row.qualifiedLeads
    ensures r[Appointments] == target[Appointments] + row.appointments && r[WonJobs] == target[WonJobs] + row.wonJobs
    ensures r[ReportedRevenue] == target[ReportedRevenue] + row.reportedRevenue
  {
    r := target;
    for i := 0 to |METRICS|
      invariant IsTotals(r)
      invariant forall k :: 0 <= k < i ==> r[METRICS[k]] == target[METRICS[k]] + Get(row, METRICS[k])
      invariant forall k :: i <= k < |METRICS| ==> r[METRICS[k]] == target[METRICS[k]]
    {
      MetricsDistinct();
      r := r[METRICS[i] := r[METRICS[i]] + Get(row, METRICS[i])];
    }
    forall m: Metric
      ensures r[m] == target[m] + Get(row, m)
    {
      EveryMetric(m);
    }
  }

  lemma MetricsDistinct()
    ensures Distinct(METRICS)
  {
  }

  lemma EveryMetric(m: Metric)
    ensures exists k :: 0 <= k < |METRICS| && METRICS[k] == m
  {
    var k := match m
      case Impressions => 0
      case Clicks => 1
      case OrganicSessions => 2
      case Calls => 3
      case Forms => 4
      case QualifiedLeads => 5
      case Appointments => 6
      case WonJobs => 7
      case ReportedRevenue => 8;
    assert METRICS[k] == m;
  }

  /** Add one row to the totals of its own basis and no other. */
  method CountRow(t: FourTotals, row: Row) returns (r: FourTotals)
    requires AreTotals(t)
    ensures AreTotals(r)
    ensures forall b: Basis, m: Metric :: At(r, b, m) == At(t, b, m) + if row.basis == b then Get(row, m) else 0
    ensures row.basis == Observed ==> r == t.(observed := r.observed)
    ensures row.basis == ProviderReported ==> r == t.(reported := r.reported)
    ensures row.basis == OperatorVerified ==> r == t.(operatorVerified := r.operatorVerified)
    ensures row.basis == Estimated ==> r == t.(estimated := r.estimated)
  {
    hide Get;
    var target := AddTotals(On(t, row.basis), row);
    match row.basis {
      case Observed => r := t.(observed := target);
      case ProviderReported => r := t.(reported := target);
      case OperatorVerified => r := t.(operatorVerified := target);
      case Estimated => r := t.(estimated := target);
    }
    assert forall b: Basis :: On(r, b) == if b == row.basis then target else On(t, b);
  }

  method CountGroup(t: FourTotals, group: seq<Row>) returns (r: FourTotals)
    requires AreTotals(t)
    ensures AreTotals(r)
    ensures forall b: Basis, m: Metric :: At(r, b, m) == At(t, b, m) + SumIf(group, Measure(m), OnBasis(b))
  {
    hide IsTotals, At, AreTotals;
    r := t;
    for i := 0 to |group|
      invariant AreTotals(r)
      invariant forall b: Basis, m: Metric :: At(r, b, m) == At(t, b, m) + SumIf(group[..i], Measure(m), OnBasis(b))
    {
      assert group[..i + 1][..i] == group[..i];
      r := CountRow(r, group[i]);
    }
    assert group[..|group|] == group;
  }

  method RowsInPeriod(rows: seq<Row>, start: Day, end: Day) returns (r: seq<Row>)
    ensures r == Filter(rows, InPeriod(start, end))
  {
    r := [];
    for i := 0 to |rows|
      invariant r == Filter(rows[..i], InPeriod(start, end))
    {
      assert rows[..i + 1][..i] == rows[..i];
      if start <= rows[i].period <= end {
        r := r + [rows[i]];
      }
    }
    assert rows[..|rows|] == rows;
  }

  ghost predicate Groups<T, K(!new)>(xs: seq<T>, key: T -> K, groups: map<K, seq<T>>) {
    forall k: K :: if k in groups then groups[k] == Filter(xs, HasKey(key, k)) != [] else Filter(xs, HasKey(key, k)) == []
  }

  lemma NoGroups<T, K(!new)>(key: T -> K)
    ensures Groups([], key, map[])
  {
  }

  lemma GroupOneMore<T, K(!new)>(xs: seq<T>, x: T, key: T -> K, groups: map<K, seq<T>>)
    requires Groups(xs, key, groups)
    ensures Groups(xs + [x], key, groups[key(x) := (if key(x) in groups then groups[key(x)] else []) + [x]])
  {
    assert (xs + [x])[..|xs|] == xs;
  }

  method GroupByDecision(rows: seq<Row>) returns (groups: map<DecisionId, seq<Row>>)
    ensures Groups(rows, DecisionOf(), groups)
  {
    groups := map[];
    NoGroups(DecisionOf());
    hide Groups;
    for i := 0 to |rows|
      invariant Groups(rows[..i], DecisionOf(), groups)
    {
      var id := rows[i].decision;
      GroupOneMore(rows[..i], rows[i], DecisionOf(), groups);
      assert rows[..i + 1] == rows[..i] + [rows[i]];
      groups := groups[id := (if id in groups then groups[id] else []) + [rows[i]]];
    }
    assert rows[..|rows|] == rows;
  }

  method GroupByKey(items: seq<Item>, field: Field) returns (groups: map<string, seq<Item>>, keys: seq<string>)
    ensures Groups(items, FieldOf(field), groups)
    ensures Distinct(keys) && forall k :: k in keys <==> k in groups
    ensures forall n :: 0 <= n < |items| ==> KeyOf(items[n], field) in keys
  {
    groups, keys := map[], [];
    NoGroups(FieldOf(field));
    hide Groups;
    for i := 0 to |items|
      invariant Groups(items[..i], FieldOf(field), groups)
      invariant Distinct(keys) && forall k :: k in keys <==> k in groups
      invariant forall n :: 0 <= n < i ==> KeyOf(items[n], field) in keys
    {
      var key := KeyOf(items[i], field);
      GroupOneMore(items[..i], items[i], FieldOf(field), groups);
      assert items[..i + 1] == items[..i] + [items[i]];
      keys := if key in groups then keys else keys + [key];
      groups := groups[key := (if key in groups then groups[key] else []) + [items[i]]];
    }
    assert items[..|items|] == items;
  }

  /** The items of one segmentation; the keys in the order in which they first occur. */
  method SegmentItems(items: seq<Item>, field: Field) returns (segments: seq<Segment>)
    ensures IsSegmentation(items, field, segments)
    ensures field == ServiceFamily ==> ByColumn(items, (item: Item) => item.decision.family, segments)
    ensures field == MarketSize ==> ByColumn(items, (item: Item) => item.decision.band, segments)
    ensures field == EvidenceQuality ==> ByColumn(items, (item: Item) => item.decision.quality, segments)
  {
    hide Filter, SegmentOf, SumIf;
    var groups, keys := GroupByKey(items, field);
    segments := [];
    for i := 0 to |keys|
      invariant |segments| == i
      invariant forall n :: 0 <= n < i ==> segments[n] == SegmentOf(items, field, keys[n])
    {
      var key := keys[i];
      assert key in keys;
      var leads, won := SumItems(groups[key]);
      GroupAddsUp(items, field, key, groups[key]);
      segments := segments + [Segment(key, |groups[key]|, leads, won)];
    }
    KeysOfSegments(items, field, segments, keys);
    hide IsSegmentation, ByColumn;
    match field
    case ServiceFamily => SegmentsByColumn(items, field, (item: Item) => item.decision.family, segments);
    case MarketSize => SegmentsByColumn(items, field, (item: Item) => item.decision.band, segments);
    case EvidenceQuality => SegmentsByColumn(items, field, (item: Item) => item.decision.quality, segments);
  }

  lemma KeysOfSegments(items: seq<Item>, field: Field, segments: seq<Segment>, keys: seq<string>)
    requires |segments| == |keys| && forall n :: 0 <= n < |keys| ==> segments[n] == SegmentOf(items, field, keys[n])
    ensures KeysOf(segments) == keys
    ensures forall n :: 0 <= n < |segments| ==> segments[n] == SegmentOf(items, field, segments[n].key)
  {
  }

  method SumItems(group: seq<Item>) returns (leads: int, won: int)
    ensures leads == SumIf(group, LeadsOf(), AllItems()) && won == SumIf(group, WonOf(), AllItems())
  {
    leads, won := 0, 0;
    for i := 0 to |group|
      invariant leads == SumIf(group[..i], LeadsOf(), AllItems()) && won == SumIf(group[..i], WonOf(), AllItems())
    {
      assert group[..i + 1][..i] == group[..i];
      leads, won := leads + group[i].leads, won + group[i].wonJobs;
    }
    assert group[..|group|] == group;
  }

  /** The verified leads and won jobs of one decision's rows. */
  method SumVerified(group: seq<Row>) returns (leads: int, won: int)
    ensures leads == SumIf(group, Measure(QualifiedLeads), Verified())
    ensures won == SumIf(group, Measure(WonJobs), Verified())
  {
    leads, won := 0, 0;
    for i := 0 to |group|
      invariant leads == SumIf(group[..i], Measure(QualifiedLeads), Verified())
      invariant won == SumIf(group[..i], Measure(WonJobs), Verified())
    {
      assert group[..i + 1][..i] == group[..i];
      if group[i].basis == Observed || group[i].basis == OperatorVerified {
        leads, won := leads + group[i].qualifiedLeads, won + group[i].wonJobs;
      }
    }
    assert group[..|group|] == group;
  }

  /** Visit the decisions in turn, adding up and summarising the rows of each. */
  method Collect(decisions: seq<Decision>, rows: seq<Row>) returns (totals: FourTotals, items: seq<Item>)
    ensures AreTotals(totals) && items == Items(decisions, rows)
    ensures forall b: Basis, m: Metric :: At(totals, b, m) == Collected(decisions, rows, m, OnBasis(b))
  {
    var groups := GroupByDecision(rows);
    totals, items := FourTotals(EmptyTotals(), EmptyTotals(), EmptyTotals(), EmptyTotals()), [];
    EmptyTotalsZero();
    hide AreTotals, IsTotals, At, Filter;
    for i := 0 to |decisions|
      invariant AreTotals(totals) && items == Items(decisions[..i], rows)
      invariant forall b: Basis, m: Metric :: At(totals, b, m) == Collected(decisions[..i], rows, m, OnBasis(b))
    {
      assert decisions[..i + 1][..i] == decisions[..i];
      var d := decisions[i];
      if d.id in groups {
        var leads, won := SumVerified(groups[d.id]);
        totals := CountGroup(totals, groups[d.id]);
        items := items + [Item(d, leads, won)];
      }
    }
    assert decisions[..|decisions|] == decisions;
  }

  lemma EmptyTotalsZero()
    ensures var t := FourTotals(EmptyTotals(), EmptyTotals(), EmptyTotals(), EmptyTotals());
            AreTotals(t) && forall b: Basis, m: Metric :: At(t, b, m) == 0
  {
    forall m: Metric
      ensures m in METRICS
    {
      EveryMetric(m);
    }
  }

  /** The rows the report is about: in the period and of a known decision. */
  function Counted(decisions: seq<Decision>, start: Day, end: Day): Row -> bool {
    Both(InPeriod(start, end), KeyIn(DecisionOf(), Ids(decisions)))
  }

  /** For every metric the four totals share out the rows counted, and every segmentation adds up to the
      number of properties, and to the leads and jobs in the observed and operator-verified totals. */
  ghost predicate Conserves(r: CalibrationReport, decisions: seq<Decision>, rows: seq<Row>, start: Day, end: Day) {
    && (forall b: Basis, m: Metric ::
          At(r.totals, b, m) == SumIf(rows, Measure(m), Both(Counted(decisions, start, end), OnBasis(b))))
    && (forall m: Metric ::
          At(r.totals, Observed, m) + At(r.totals, ProviderReported, m) + At(r.totals, OperatorVerified, m)
          + At(r.totals, Estimated, m) == SumIf(rows, Measure(m), Counted(decisions, start, end)))
    && (forall segments :: segments in [r.byFamily, r.byMarketSize, r.byEvidence] ==> SegmentsFit(r, segments))
  }

  ghost predicate SegmentsFit(r: CalibrationReport, segments: seq<Segment>) {
    && CountSum(segments) == r.propertyCount
    && LeadSum(segments) == At(r.totals, Observed, QualifiedLeads) + At(r.totals, OperatorVerified, QualifiedLeads)
    && WonSum(segments) == At(r.totals, Observed, WonJobs) + At(r.totals, OperatorVerified, WonJobs)
  }

  lemma ExpectedCounts(decisions: seq<Decision>, rows: seq<Row>, start: Day, end: Day, m: Metric, q: Row -> bool)
    ensures Expected(decisions, Filter(rows, InPeriod(start, end)), m, q) ==
            SumIf(rows, Measure(m), Both(Counted(decisions, start, end), q))
  {
    var known, inPeriod := KeyIn(DecisionOf(), Ids(decisions)), InPeriod(start, end);
    SumFiltered(rows, Measure(m), inPeriod, Both(known, q));
    SumSame(rows, Measure(m), Both(inPeriod, Both(known, q)), Both(Counted(decisions, start, end), q));
  }

  lemma TotalsConserve(r: CalibrationReport, decisions: seq<Decision>, rows: seq<Row>, start: Day, end: Day)
    requires Distinct(Ids(decisions))
    requires forall b: Basis, m: Metric ::
               At(r.totals, b, m) == Collected(decisions, Filter(rows, InPeriod(start, end)), m, OnBasis(b))
    requires r.items == Items(decisions, Filter(rows, InPeriod(start, end))) && r.propertyCount == |r.items|
    requires IsSegmentation(r.items, ServiceFamily, r.byFamily) && IsSegmentation(r.items, MarketSize, r.byMarketSize)
    requires IsSegmentation(r.items, EvidenceQuality, r.byEvidence)
    ensures Conserves(r, decisions, rows, start, end)
  {
    hide At, Collected, Expected, SumIf, Items, IsSegmentation, Filter, Both, Counted, CountSum, LeadSum, WonSum;
    var inPeriod := Filter(rows, InPeriod(start, end));
    forall b: Basis, m: Metric
      ensures At(r.totals, b, m) == Expected(decisions, inPeriod, m, OnBasis(b))
      ensures At(r.totals, b, m) == SumIf(rows, Measure(m), Both(Counted(decisions, start, end), OnBasis(b)))
    {
      CollectedExpected(decisions, inPeriod, m, OnBasis(b));
      ExpectedCounts(decisions, rows, start, end, m, OnBasis(b));
    }
    forall m: Metric
      ensures At(r.totals, Observed, m) + At(r.totals, ProviderReported, m) + At(r.totals, OperatorVerified, m)
              + At(r.totals, Estimated, m) == SumIf(rows, Measure(m), Counted(decisions, start, end))
    {
      BasesPartition(decisions, inPeriod, m);
      ExpectedCounts(decisions, rows, start, end, m, Anything());
      AnythingElse(rows, Measure(m), Counted(decisions, start, end));
    }
    ItemsCollect(decisions, inPeriod);
    CollectedExpected(decisions, inPeriod, QualifiedLeads, Verified());
    CollectedExpected(decisions, inPeriod, WonJobs, Verified());
    BasesPartition(decisions, inPeriod, QualifiedLeads);
    BasesPartition(decisions, inPeriod, WonJobs);
    SegmentsAddUp(r.items, ServiceFamily, r.byFamily);
    SegmentsAddUp(r.items, MarketSize, r.byMarketSize);
    SegmentsAddUp(r.items, EvidenceQuality, r.byEvidence);
  }

  lemma AnythingElse(rows: seq<Row>, f: Row -> int, p: Row -> bool)
    ensures SumIf(rows, f, Both(p, Anything())) == SumIf(rows, f, p)
  {
    SumSame(rows, f, Both(p, Anything()), p);
  }

  method Generate(decisions: seq<Decision>, rows: seq<Row>, start: Day, end: Day) returns (r: CalibrationReport)
    requires Distinct(Ids(decisions))
    ensures Conserves(r, decisions, rows, start, end)
    ensures ByColumn(r.items, (item: Item) => item.decision.family, r.byFamily)
    ensures ByColumn(r.items, (item: Item) => item.decision.band, r.byMarketSize)
    ensures ByColumn(r.items, (item: Item) => item.decision.quality, r.byEvidence)
    ensures SharesOut(r.totals, decisions, rows, start, end)
    ensures forall i :: 0 <= i < |r.items| ==> r.items[i].decision in decisions && IsItem(RowsWithin(rows, start, end), r.items[i])
    ensures forall d :: d in decisions && HasRow(RowsWithin(rows, start, end), d.id) ==> HasItem(r.items, d)
  {
    hide Conserves, ByColumn, IsSegmentation, SharesOut, IsItem, Items, RowsWithin, HasRow, HasItem;
    var inPeriod := RowsInPeriod(rows, start, end);
    var totals, items := Collect(decisions, inPeriod);
    var byFamily := SegmentItems(items, ServiceFamily);
    var byMarketSize := SegmentItems(items, MarketSize);
    var byEvidence := SegmentItems(items, EvidenceQuality);
    r := CalibrationReport(|items|, totals, items, byFamily, byMarketSize, byEvidence);
    TotalsConserve(r, decisions, rows, start, end);
    TotalsShareOut(r, decisions, rows, start, end);
    WithinIsFilter(rows, start, end);
    ItemsHold(decisions, inPeriod);
    forall d | d in decisions && HasRow(inPeriod, d.id)
      ensures HasItem(items, d)
    {
      ItemsMissNone(decisions, inPeriod, d);
    }
  }

  /** The rows of the period, its first and last day included. */
  function RowsWithin(rows: seq<Row>, start: Day, end: Day): seq<Row> {
    if rows == [] then []
    else
      var last := rows[|rows| - 1];
      RowsWithin(rows[..|rows| - 1], start, end) + (if last.period < start || last.period > end then [] else [last])
  }

  lemma {:induction false} WithinIsFilter(rows: seq<Row>, start: Day, end: Day)
    ensures RowsWithin(rows, start, end) == Filter(rows, InPeriod(start, end))
  {
    if rows != [] {
      WithinIsFilter(rows[..|rows| - 1], start, end);
    }
  }

  /** The value a column adds to the totals of one basis: its sum over the rows of the period, on that basis, of a
      decision on file. */
  ghost predicate SharesOut(t: FourTotals, decisions: seq<Decision>, rows: seq<Row>, start: Day, end: Day) {
    forall m: Metric ::
      && m in t.observed && t.observed[m] == SumIf(rows, Measure(m), CountedOn(Observed, decisions, start, end))
      && m in t.reported && t.reported[m] == SumIf(rows, Measure(m), CountedOn(ProviderReported, decisions, start, end))
      && m in t.operatorVerified
      && t.operatorVerified[m] == SumIf(rows, Measure(m), CountedOn(OperatorVerified, decisions, start, end))
      && m in t.estimated && t.estimated[m] == SumIf(rows, Measure(m), CountedOn(Estimated, decisions, start, end))
  }

  function CountedOn(b: Basis, decisions: seq<Decision>, start: Day, end: Day): Row -> bool {
    (row: Row) => row.basis == b && start <= row.period <= end && exists i :: 0 <= i < |decisions| && decisions[i].id == row.decision
  }

  lemma TotalsShareOut(r: CalibrationReport, decisions: seq<Decision>, rows: seq<Row>, start: Day, end: Day)
    requires AreTotals(r.totals) && Conserves(r, decisions, rows, start, end)
    ensures SharesOut(r.totals, decisions, rows, start, end)
  {
    hide SumIf;
    forall b: Basis, m: Metric
      ensures At(r.totals, b, m) == SumIf(rows, Measure(m), CountedOn(b, decisions, start, end))
    {
      var p, q := Both(Counted(decisions, start, end), OnBasis(b)), CountedOn(b, decisions, start, end);
      forall i | 0 <= i < |rows|
        ensures p(rows[i]) == q(rows[i])
      {
        var ids := Ids(decisions);
        if n :| 0 <= n < |decisions| && decisions[n].id == rows[i].decision {
          assert ids[n] == rows[i].decision;
        }
      }
      SumSame(rows, Measure(m), p, q);
    }
    assert IsTotals(On(r.totals, Observed)) && IsTotals(On(r.totals, ProviderReported));
    assert IsTotals(On(r.totals, OperatorVerified)) && IsTotals(On(r.totals, Estimated));
    forall m: Metric
      ensures m in r.totals.observed && m in r.totals.reported && m in r.totals.operatorVerified && m in r.totals.estimated
      ensures At(r.totals, Observed, m) == r.totals.observed[m] && At(r.totals, ProviderReported, m) == r.totals.reported[m]
      ensures At(r.totals, OperatorVerified, m) == r.totals.operatorVerified[m] && At(r.totals, Estimated, m) == r.totals.estimated[m]
    {
    }
  }
}
