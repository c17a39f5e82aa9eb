/** The deterministic aggregation engine: counts, distributions and latency per audit and
    per endpoint. */
module AggregateEngine {
  import opened Wrappers
  import opened Ordering
  import opened LatencySummary
  import opened AggregationRecords
  import Text

  const NO_STATUS := "NO_STATUS"
  const PASS := "PASS"
  const TIMEOUT := "TIMEOUT"
  const CONNECTION_ERROR := "CONNECTION_ERROR"

  type Counts = map<string, nat>

  datatype RequestCounts = RequestCounts(
    total: nat, successful: nat, failed: nat, skipped: nat, timeout: nat, networkFailure: nat)

  datatype EndpointAggregate = EndpointAggregate(
    endpointId: string, executionCount: nat, successes: nat, latency: Summary, timeouts: nat,
    classifications: Counts, statuses: Counts)

  datatype AuditAggregate = AuditAggregate(
    requests: RequestCounts, statuses: Counts, durationMs: int, latency: Summary,
    endpointCounts: Counts, classifications: Counts)

  datatype Aggregates = Aggregates(audit: AuditAggregate, endpoints: map<string, EndpointAggregate>)

  // ---- counting by a key ----

  function CountKey<K(==)>(records: seq<RawRecord>, key: RawRecord -> K, k: K): (c: nat)
    ensures c <= |records|
  {
    if records == [] then 0
    else (if key(records[0]) == k then 1 else 0) + CountKey(records[1..], key, k)
  }

  /** Counter(key(r) for r in records) */
  function CountBy(records: seq<RawRecord>, key: RawRecord -> string): Counts {
    map k | k in (set r | r in records :: key(r)) :: CountKey(records, key, k)
  }

  /** The count a distribution shows for k, nothing meaning none. */
  function Get(counts: Counts, k: string): nat {
    if k in counts then counts[k] else 0
  }

  lemma {:induction false} GetCount(records: seq<RawRecord>, key: RawRecord -> string, k: string)
    ensures Get(CountBy(records, key), k) == CountKey(records, key, k)
    ensures CountKey(records, key, k) > 0 <==> exists r :: r in records && key(r) == k
  {
    if records != [] {
      GetCount(records[1..], key, k);
      assert records[0] in records;
      assert forall r :: r in records <==> r == records[0] || r in records[1..];
    }
  }

  function IntText(i: int): string {
    if i < 0 then "-" + Text.Decimal(-i) else Text.Decimal(i)
  }

  function Classification(): RawRecord -> string {
    (r: RawRecord) => r.failureType
  }

  function Status(): RawRecord -> string {
    (r: RawRecord) => if r.statusCode.Some? then IntText(r.statusCode.value) else NO_STATUS
  }

  function Endpoint(): RawRecord -> string {
    (r: RawRecord) => r.endpointId
  }

  function Passed(): RawRecord -> bool {
    (r: RawRecord) => r.failureType == PASS
  }

  function Durations(records: seq<RawRecord>): seq<Sample> {
    seq(|records|, i requires 0 <= i < |records| => records[i].duration)
  }

  // ---- the aggregates ----

  function Requests(records: seq<RawRecord>): RequestCounts {
    RequestCounts(|records|, CountKey(records, Passed(), true), CountKey(records, Passed(), false),
                  0, CountKey(records, Classification(), TIMEOUT),
                  CountKey(records, Classification(), CONNECTION_ERROR))
  }

  /** The valid timestamps, in microseconds. */
  function Times(records: seq<RawRecord>): seq<int> {
    if records == [] then []
    else (if records[0].time.Some? then [records[0].time.value] else []) + Times(records[1..])
  }

  function IntLe(): (int, int) -> bool {
    (a: int, b: int) => a <= b
  }

  function DurationMs(records: seq<RawRecord>): int {
    var valid := Sort(Times(records), IntLe());
    if |valid| < 2 then 0 else (valid[|valid| - 1] - valid[0]) / 1000
  }

  function EndpointAggregateOf(e: string, group: seq<RawRecord>): EndpointAggregate {
    var counts := Requests(group);
    EndpointAggregate(e, |group|, counts.successful, LatencySummary.LatencySummary(Durations(group)),
                      counts.timeout, CountBy(group, Classification()), CountBy(group, Status()))
  }

  function EndpointAggregates(records: seq<RawRecord>): map<string, EndpointAggregate> {
    map e | e in EndpointSet(records) :: EndpointAggregateOf(e, Select(records, e))
  }

  function BuildAggregates(records: seq<RawRecord>): Aggregates {
    var ordered := Ordered(records);
    Aggregates(
      AuditAggregate(Requests(ordered), CountBy(ordered, Status()), DurationMs(ordered),
                     LatencySummary.LatencySummary(Durations(ordered)),
                     CountBy(ordered, Endpoint()), CountBy(ordered, Classification())),
      EndpointAggregates(ordered))
  }

  // ---- the loops of the engine ----

  ghost predicate GroupsOf(grouped: map<string, seq<RawRecord>>, records: seq<RawRecord>) {
    && grouped.Keys == EndpointSet(records)
    && forall e :: e in grouped ==> grouped[e] == Select(records, e)
  }

  /** defaultdict(list) filled one record at a time. */
  method GroupByEndpoint(records: seq<RawRecord>) returns (grouped: map<string, seq<RawRecord>>)
    ensures GroupsOf(grouped, records)
  {
    grouped := map[];
    for i := 0 to |records|
      invariant GroupsOf(grouped, records[..i])
    {
      var e := records[i].endpointId;
      GroupsStep(grouped, records[..i], records[i]);
      assert records[..i + 1] == records[..i] + [records[i]];
      grouped := grouped[e := (if e in grouped then grouped[e] else []) + [records[i]]];
    }
    assert records[..|records|] == records;
  }

  lemma GroupsStep(grouped: map<string, seq<RawRecord>>, before: seq<RawRecord>, r: RawRecord)
    requires GroupsOf(grouped, before)
    ensures var e := r.endpointId;
            GroupsOf(grouped[e := (if e in grouped then grouped[e] else []) + [r]], before + [r])
  {
    var e := r.endpointId;
    var now := grouped[e := (if e in grouped then grouped[e] else []) + [r]];
    assert now.Keys == EndpointSet(before) + {e} == EndpointSet(before + [r]);
    forall x | x in now ensures now[x] == Select(before + [r], x) {
      SelectAppend(before, [r], x);
      if x !in grouped {
        SelectAbsent(before, x);
      }
    }
  }

  lemma SelectAbsent(records: seq<RawRecord>, e: string)
    requires e !in EndpointSet(records)
    ensures Select(records, e) == []
  {
    if records != [] {
      assert records[0] in records;
      assert forall x :: x in records[1..] ==> x in records;
      SelectAbsent(records[1..], e);
    }
  }

  method BuildEndpointAggregates(records: seq<RawRecord>) returns (output: map<string, EndpointAggregate>)
    ensures output == EndpointAggregates(records)
  {
    var grouped := GroupByEndpoint(records);
    output := map[];
    var todo := grouped.Keys;
    while todo != {}
      invariant todo <= grouped.Keys && output.Keys == grouped.Keys - todo
      invariant forall e :: e in output ==> output[e] == EndpointAggregateOf(e, grouped[e])
      decreases todo
    {
      var e :| e in todo;
      output := output[e := EndpointAggregateOf(e, grouped[e])];
      todo := todo - {e};
    }
    AggregatesExtensional(records, grouped, output);
  }

  lemma AggregatesExtensional(records: seq<RawRecord>, grouped: map<string, seq<RawRecord>>,
                              output: map<string, EndpointAggregate>)
    requires GroupsOf(grouped, records) && output.Keys == grouped.Keys
    requires forall e :: e in output ==> output[e] == EndpointAggregateOf(e, grouped[e])
    ensures output == EndpointAggregates(records)
  {
    var spec := EndpointAggregates(records);
    forall e | e in output ensures output[e] == spec[e] {
      assert grouped[e] == Select(records, e);
    }
  }

  method StatusDistribution(records: seq<RawRecord>) returns (distribution: Counts)
    ensures distribution == CountBy(records, Status())
  {
    distribution := map[];
    for i := 0 to |records|
      invariant distribution == CountBy(records[..i], Status())
    {
      var s := Status()(records[i]);
      CountByStep(records[..i], records[i], Status());
      assert records[..i + 1] == records[..i] + [records[i]];
      distribution := distribution[s := Get(distribution, s) + 1];
    }
    assert records[..|records|] == records;
  }

  lemma CountByStep(before: seq<RawRecord>, r: RawRecord, key: RawRecord -> string)
    ensures CountBy(before + [r], key) == CountBy(before, key)[key(r) := Get(CountBy(before, key), key(r)) + 1]
  {
    var now, was := CountBy(before + [r], key), CountBy(before, key);
    assert now.Keys == was.Keys + {key(r)};
    forall k | k in now ensures now[k] == was[key(r) := Get(was, key(r)) + 1][k] {
      CountAppend(before, [r], key, k);
      GetCount(before, key, k);
    }
  }

  lemma {:induction false} CountAppend<K>(a: seq<RawRecord>, b: seq<RawRecord>, key: RawRecord -> K, k: K)
    ensures CountKey(a + b, key, k) == CountKey(a, key, k) + CountKey(b, key, k)
  {
    if a == [] {
      assert a + b == b;
    } else {
      assert (a + b)[1..] == a[1..] + b;
      CountAppend(a[1..], b, key, k);
    }
  }

  // ---- the endpoints partition the audit ----

  /** The sum of f over the endpoints in es. */
  ghost function SumOver(es: set<string>, f: string -> int): int {
    if es == {} then 0
    else
      var e :| e in es;
      f(e) + SumOver(es - {e}, f)
  }

  lemma {:induction false} SumOverTake(es: set<string>, f: string -> int, e: string)
    requires e in es
    ensures SumOver(es, f) == f(e) + SumOver(es - {e}, f)
    decreases es
  {
    var x :| x in es && SumOver(es, f) == f(x) + SumOver(es - {x}, f);
    if x != e {
      SumOverTake(es - {x}, f, e);
      SumOverTake(es - {e}, f, x);
      assert es - {x} - {e} == es - {e} - {x};
    }
  }

  lemma {:induction false} SumOverCongruent(es: set<string>, f: string -> int, g: string -> int)
    requires forall e :: e in es ==> f(e) == g(e)
    ensures SumOver(es, f) == SumOver(es, g)
    decreases es
  {
    if es != {} {
      var e :| e in es;
      SumOverTake(es, f, e);
      SumOverTake(es, g, e);
      SumOverCongruent(es - {e}, f, g);
    }
  }

  lemma {:induction false} SumOverZero(es: set<string>, f: string -> int)
    requires forall e :: e in es ==> f(e) == 0
    ensures SumOver(es, f) == 0
    decreases es
  {
    if es != {} {
      var e :| e in es;
      SumOverTake(es, f, e);
      SumOverZero(es - {e}, f);
    }
  }

  ghost function GroupCount<K>(records: seq<RawRecord>, key: RawRecord -> K, k: K): string -> int {
    (e: string) => CountKey(Select(records, e), key, k)
  }

  /** Every record is counted in exactly one endpoint group. */
  lemma {:induction false} CountPartition<K>(records: seq<RawRecord>, es: set<string>, key: RawRecord -> K, k: K)
    requires EndpointSet(records) <= es
    ensures CountKey(records, key, k) == SumOver(es, GroupCount(records, key, k))
  {
    if records == [] {
      SumOverZero(es, GroupCount(records, key, k));
    } else {
      var r := records[0];
      assert r in records;
      assert forall x :: x in records[1..] ==> x in records;
      CountPartition(records[1..], es, key, k);
      var f, g := GroupCount(records, key, k), GroupCount(records[1..], key, k);
      SumOverTake(es, f, r.endpointId);
      SumOverTake(es, g, r.endpointId);
      SumOverCongruent(es - {r.endpointId}, f, g);
    }
  }

  ghost function Classified(endpoints: map<string, EndpointAggregate>, k: string): string -> int {
    (e: string) => if e in endpoints then Get(endpoints[e].classifications, k) else 0
  }

  ghost function WithStatus(endpoints: map<string, EndpointAggregate>, k: string): string -> int {
    (e: string) => if e in endpoints then Get(endpoints[e].statuses, k) else 0
  }

  ghost function Executions(endpoints: map<string, EndpointAggregate>): string -> int {
    (e: string) => if e in endpoints then endpoints[e].executionCount else 0
  }

  ghost function Successes(endpoints: map<string, EndpointAggregate>): string -> int {
    (e: string) => if e in endpoints then endpoints[e].successes else 0
  }

  lemma EndpointRow(o: seq<RawRecord>, e: string)
    requires e in EndpointSet(o)
    ensures e in EndpointAggregates(o)
    ensures var row := EndpointAggregates(o)[e];
            && row.classifications == CountBy(Select(o, e), Classification())
            && row.statuses == CountBy(Select(o, e), Status())
            && row.successes == CountKey(Select(o, e), Passed(), true)
            && row.executionCount == |Select(o, e)|
  {
  }

  lemma GroupedClassifications(o: seq<RawRecord>, k: string)
    ensures Get(CountBy(o, Classification()), k)
            == SumOver(EndpointSet(o), Classified(EndpointAggregates(o), k))
  {
    var f, g := GroupCount(o, Classification(), k), Classified(EndpointAggregates(o), k);
    forall e | e in EndpointSet(o) ensures f(e) == g(e) {
      EndpointRow(o, e);
      GetCount(Select(o, e), Classification(), k);
    }
    SumOverCongruent(EndpointSet(o), f, g);
    CountPartition(o, EndpointSet(o), Classification(), k);
    GetCount(o, Classification(), k);
  }

  lemma GroupedStatuses(o: seq<RawRecord>, k: string)
    ensures Get(CountBy(o, Status()), k)
            == SumOver(EndpointSet(o), WithStatus(EndpointAggregates(o), k))
  {
    var f, g := GroupCount(o, Status(), k), WithStatus(EndpointAggregates(o), k);
    forall e | e in EndpointSet(o) ensures f(e) == g(e) {
      EndpointRow(o, e);
      GetCount(Select(o, e), Status(), k);
    }
    SumOverCongruent(EndpointSet(o), f, g);
    CountPartition(o, EndpointSet(o), Status(), k);
    GetCount(o, Status(), k);
  }

  lemma GroupedSuccesses(o: seq<RawRecord>)
    ensures CountKey(o, Passed(), true) == SumOver(EndpointSet(o), Successes(EndpointAggregates(o)))
  {
    var f, g := GroupCount(o, Passed(), true), Successes(EndpointAggregates(o));
    forall e | e in EndpointSet(o) ensures f(e) == g(e) {
      EndpointRow(o, e);
    }
    SumOverCongruent(EndpointSet(o), f, g);
    CountPartition(o, EndpointSet(o), Passed(), true);
  }

  lemma GroupedExecutions(o: seq<RawRecord>)
    ensures |o| == SumOver(EndpointSet(o), Executions(EndpointAggregates(o)))
  {
    var any := (r: RawRecord) => true;
    var f, g := GroupCount(o, any, true), Executions(EndpointAggregates(o));
    forall e | e in EndpointSet(o) ensures f(e) == g(e) {
      EndpointRow(o, e);
      CountAny(Select(o, e), any);
    }
    SumOverCongruent(EndpointSet(o), f, g);
    CountPartition(o, EndpointSet(o), any, true);
    CountAny(o, any);
  }

  lemma {:induction false} CountAny(records: seq<RawRecord>, any: RawRecord -> bool)
    requires forall r :: any(r)
    ensures CountKey(records, any, true) == |records|
  {
    if records != [] {
      CountAny(records[1..], any);
    }
  }

  /** Passed and failed results cover the audit. */
  lemma {:induction false} PassedOrFailed(records: seq<RawRecord>)
    ensures Requests(records).successful + Requests(records).failed == Requests(records).total
  {
    if records != [] {
      PassedOrFailed(records[1..]);
    }
  }

  /** For every classification k and every HTTP status k, the endpoint rows add up to the
      audit row; so do the successes; the executions cover every loaded result, and each of
      them either succeeded or failed. */
  lemma EndpointsSumToAudit(records: seq<RawRecord>, k: string)
    ensures var a := BuildAggregates(records);
            var es := a.endpoints.Keys;
            && es == EndpointSet(records)
            && Get(a.audit.classifications, k) == SumOver(es, Classified(a.endpoints, k))
            && Get(a.audit.statuses, k) == SumOver(es, WithStatus(a.endpoints, k))
            && a.audit.requests.successful == SumOver(es, Successes(a.endpoints))
            && a.audit.requests.total == |records| == SumOver(es, Executions(a.endpoints))
            && a.audit.requests.successful + a.audit.requests.failed == a.audit.requests.total
  {
    var o := Ordered(records);
    GroupedClassifications(o, k);
    GroupedStatuses(o, k);
    GroupedSuccesses(o);
    GroupedExecutions(o);
    PassedOrFailed(o);
    SortElements(records, RecordLe());
    SameMembers(o, records);
    assert EndpointAggregates(o).Keys == EndpointSet(o) == EndpointSet(records);
  }

  /** The audit row and the endpoint rows agree on how often each endpoint ran. */
  lemma EndpointCountsAgree(records: seq<RawRecord>, e: string)
    ensures var a := BuildAggregates(records);
            && Get(a.audit.endpointCounts, e) == Executions(a.endpoints)(e)
            && (e in a.endpoints <==> e in EndpointSet(records))
  {
    var o := Ordered(records);
    GetCount(o, Endpoint(), e);
    SelectCount(o, e);
    SortElements(records, RecordLe());
    SameMembers(o, records);
    if e !in EndpointSet(o) {
      SelectAbsent(o, e);
    }
  }

  lemma {:induction false} SelectCount(records: seq<RawRecord>, e: string)
    ensures CountKey(records, Endpoint(), e) == |Select(records, e)|
  {
    if records != [] {
      SelectCount(records[1..], e);
    }
  }

  /** Reading the evidence in another order changes no aggregate. */
  lemma AggregatesPermutation(a: seq<RawRecord>, b: seq<RawRecord>)
    requires multiset(a) == multiset(b) && DistinctRefs(a)
    ensures BuildAggregates(a) == BuildAggregates(b)
  {
    OrderedPermutation(a, b);
  }
}
