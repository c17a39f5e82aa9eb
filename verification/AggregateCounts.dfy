/** What the numbers of an aggregate are: how many of the loaded results have a property, and
    which durations and times stand behind the latency and the audit's length. */
module AggregateCounts {
  import opened Wrappers
  import opened Ordering
  import opened LatencySummary
  import opened AggregationRecords
  import opened AggregateEngine
  import Text

  // ---- the results in question, by position in the evidence ----

  ghost function All(records: seq<RawRecord>): set<int> {
    set i {:trigger records[i]} | 0 <= i < |records|
  }

  ghost function OfEndpoint(records: seq<RawRecord>, e: string): set<int> {
    set i | 0 <= i < |records| && records[i].endpointId == e
  }

  ghost function Failing(records: seq<RawRecord>, k: string): set<int> {
    set i | 0 <= i < |records| && records[i].failureType == k
  }

  ghost function Coded(records: seq<RawRecord>, c: Option<int>): set<int> {
    set i | 0 <= i < |records| && records[i].statusCode == c
  }

  ghost function Lasting(records: seq<RawRecord>, x: real): set<int> {
    set i | 0 <= i < |records| && records[i].duration == Number(x)
  }

  ghost function Timed(records: seq<RawRecord>): set<int> {
    set i | 0 <= i < |records| && records[i].time.Some?
  }

  // ---- what a row claims about a group of them ----

  /** The distribution shows k with the count n, or not at all when n is zero. */
  ghost predicate Shows(counts: Counts, k: string, n: nat) {
    (k in counts <==> n > 0) && (k in counts ==> counts[k] == n)
  }

  ghost predicate ClassificationsOf(counts: Counts, records: seq<RawRecord>, group: set<int>) {
    forall k :: Shows(counts, k, |Failing(records, k) * group|)
  }

  /** t is the decimal text of c. */
  predicate CodeText(t: string, c: int) {
    if c < 0 then t != "" && t[0] == '-' && Text.Numeral(t[1..], -c) else Text.Numeral(t, c)
  }

  ghost predicate StatusesOf(counts: Counts, records: seq<RawRecord>, group: set<int>) {
    && Shows(counts, "NO_STATUS", |Coded(records, None) * group|)
    && (forall t, c :: CodeText(t, c) ==> Shows(counts, t, |Coded(records, Some(c)) * group|))
    && (forall t :: t in counts ==> t == "NO_STATUS" || exists c :: CodeText(t, c))
  }

  /** r is x at three decimals, halves going up. */
  ghost predicate Rounded(x: real, r: real) {
    exists n: int :: Thousandths(r, n) && n as real - 0.5 <= x * 1000.0 < n as real + 0.5
  }

  predicate Thousandths(r: real, n: int) {
    r == n as real / 1000.0
  }

  /** The samples: each duration of the group that is a number and not negative, as often as
      it occurs, in order. */
  ghost predicate SamplesOf(v: seq<real>, records: seq<RawRecord>, group: set<int>) {
    && (forall i, j :: 0 <= i < j < |v| ==> v[i] <= v[j])
    && (forall x :: multiset(v)[x] == if x >= 0.0 then |Lasting(records, x) * group| else 0)
  }

  ghost predicate StatsOf(s: Summary, v: seq<real>) {
    && s.Stats? && v != [] && s.count == |v|
    && Rounded(v[0], s.min) && Rounded(v[|v| - 1], s.max) && Rounded(Sum(v) / |v| as real, s.mean)
    && Rounded(if |v| % 2 == 1 then v[|v| / 2] else (v[|v| / 2 - 1] + v[|v| / 2]) / 2.0, s.median)
    && (exists x :: LeastCovering(v, 95, x) && Rounded(x, s.p95))
    && (exists x :: LeastCovering(v, 99, x) && Rounded(x, s.p99))
  }

  /** The latency of a group: none without samples, else their statistics. */
  ghost predicate LatencyOf(s: Summary, records: seq<RawRecord>, group: set<int>) {
    exists v :: SamplesOf(v, records, group) && if v == [] then s == NoSamples else StatsOf(s, v)
  }

  /** Microseconds between the earliest and the latest valid time, in whole milliseconds. */
  ghost predicate DurationOf(ms: int, records: seq<RawRecord>) {
    if |Timed(records)| < 2 then ms == 0
    else exists i, j :: i in Timed(records) && j in Timed(records) && Spans(records, i, j)
                        && ms == (records[j].time.value - records[i].time.value) / 1000
  }

  ghost predicate Spans(records: seq<RawRecord>, i: int, j: int)
    requires i in Timed(records) && j in Timed(records)
  {
    forall k :: k in Timed(records) ==> records[i].time.value <= records[k].time.value <= records[j].time.value
  }

  ghost predicate RequestsMean(requests: RequestCounts, records: seq<RawRecord>) {
    && requests.total == |records|
    && requests.successful == |Failing(records, "PASS")|
    && requests.failed == |All(records) - Failing(records, "PASS")|
    && requests.skipped == 0
    && requests.timeout == |Failing(records, "TIMEOUT")|
    && requests.networkFailure == |Failing(records, "CONNECTION_ERROR")|
  }

  ghost predicate EndpointCountsOf(counts: Counts, records: seq<RawRecord>) {
    forall e :: Shows(counts, e, |OfEndpoint(records, e)|)
  }

  ghost predicate AuditMeans(row: AuditAggregate, records: seq<RawRecord>) {
    && RequestsMean(row.requests, records)
    && ClassificationsOf(row.classifications, records, All(records))
    && StatusesOf(row.statuses, records, All(records))
    && EndpointCountsOf(row.endpointCounts, records)
    && LatencyOf(row.latency, records, All(records))
    && DurationOf(row.durationMs, records)
  }

  ghost predicate EndpointMeans(row: EndpointAggregate, e: string, records: seq<RawRecord>) {
    var group := OfEndpoint(records, e);
    && row.endpointId == e
    && row.executionCount == |group|
    && row.successes == |Failing(records, "PASS") * group|
    && row.timeouts == |Failing(records, "TIMEOUT") * group|
    && ClassificationsOf(row.classifications, records, group)
    && StatusesOf(row.statuses, records, group)
    && LatencyOf(row.latency, records, group)
  }

  // ---- counting is a matter of positions, not of order ----

  /** The positions in `found` are those of the records with key k. */
  ghost predicate Found<K>(found: set<int>, records: seq<RawRecord>, key: RawRecord -> K, k: K) {
    forall i :: i in found <==> 0 <= i < |records| && key(records[i]) == k
  }

  lemma {:induction false} CountPositions<K>(records: seq<RawRecord>, key: RawRecord -> K, k: K, found: set<int>)
    requires Found(found, records, key, k)
    ensures CountKey(records, key, k) == |found|
  {
    if records == [] {
      assert forall i :: i in found ==> 0 <= i < |records|;
    } else {
      var n := |records| - 1;
      var front, last := records[..n], records[n];
      CountPositions(front, key, k, found - {n});
      assert records == front + [last];
      CountAppend(front, [last], key, k);
    }
  }

  lemma TakenOut<T>(b: seq<T>, j: nat)
    requires j < |b|
    ensures multiset(b[..j] + b[j + 1..]) == multiset(b) - multiset{b[j]}
  {
    assert b == b[..j] + [b[j]] + b[j + 1..];
  }

  lemma CountTakenOut<K>(front: seq<RawRecord>, x: RawRecord, back: seq<RawRecord>, key: RawRecord -> K, k: K)
    ensures CountKey(front + ([x] + back), key, k) == (if key(x) == k then 1 else 0) + CountKey(front + back, key, k)
  {
    CountAppend(front, [x] + back, key, k);
    CountAppend(front, back, key, k);
    assert ([x] + back)[1..] == back;
  }

  lemma {:induction false} CountRearranged<K>(a: seq<RawRecord>, b: seq<RawRecord>, key: RawRecord -> K, k: K)
    requires multiset(a) == multiset(b)
    ensures CountKey(a, key, k) == CountKey(b, key, k)
    decreases |a|
  {
    if a == [] {
      assert |b| == |multiset(b)| == 0;
    } else {
      assert a[0] in multiset(b);
      var j :| 0 <= j < |b| && b[j] == a[0];
      TakenOut(b, j);
      CountTakenOut(b[..j], a[0], b[j + 1..], key, k);
      assert b == b[..j] + ([a[0]] + b[j + 1..]);
      assert a == [a[0]] + a[1..];
      assert multiset(a[1..]) == multiset(a) - multiset{a[0]};
      CountRearranged(a[1..], b[..j] + b[j + 1..], key, k);
    }
  }

  function Within<K(==)>(e: string, key: RawRecord -> K, k: K): RawRecord -> bool {
    (r: RawRecord) => r.endpointId == e && key(r) == k
  }

  lemma {:induction false} CountSelected<K>(records: seq<RawRecord>, e: string, key: RawRecord -> K, k: K)
    ensures CountKey(Select(records, e), key, k) == CountKey(records, Within(e, key, k), true)
  {
    if records != [] {
      CountSelected(records[1..], e, key, k);
    }
  }

  /** How many records of the group the engine works on have a property, by position. */
  lemma CountOrdered<K>(records: seq<RawRecord>, key: RawRecord -> K, k: K, found: set<int>)
    requires Found(found, records, key, k)
    ensures CountKey(Ordered(records), key, k) == |found|
  {
    SortElements(records, RecordLe());
    CountRearranged(Ordered(records), records, key, k);
    CountPositions(records, key, k, found);
  }

  lemma CountGroup<K>(records: seq<RawRecord>, e: string, key: RawRecord -> K, k: K, found: set<int>)
    requires Found(found, records, key, k)
    ensures CountKey(Select(Ordered(records), e), key, k) == |found * OfEndpoint(records, e)|
  {
    CountSelected(Ordered(records), e, key, k);
    CountOrdered(records, Within(e, key, k), true, found * OfEndpoint(records, e));
  }

  /** The records of a scope, as the engine lists them, and their positions in the evidence. */
  ghost predicate Listed(list: seq<RawRecord>, records: seq<RawRecord>, group: set<int>) {
    || (list == Ordered(records) && group == All(records))
    || (exists e :: list == Select(Ordered(records), e) && group == OfEndpoint(records, e))
  }

  lemma CountListed<K>(list: seq<RawRecord>, records: seq<RawRecord>, group: set<int>, key: RawRecord -> K, k: K,
                       found: set<int>)
    requires Listed(list, records, group) && Found(found, records, key, k)
    ensures CountKey(list, key, k) == |found * group|
  {
    if list == Ordered(records) && group == All(records) {
      CountOrdered(records, key, k, found);
      assert found * group == found;
    } else {
      var e :| list == Select(Ordered(records), e) && group == OfEndpoint(records, e);
      CountGroup(records, e, key, k, found);
    }
  }

  lemma DistributionShows(list: seq<RawRecord>, key: RawRecord -> string, k: string)
    ensures Shows(CountBy(list, key), k, CountKey(list, key, k))
  {
    GetCount(list, key, k);
  }

  lemma ListedClassifications(list: seq<RawRecord>, records: seq<RawRecord>, group: set<int>)
    requires Listed(list, records, group)
    ensures ClassificationsOf(CountBy(list, Classification()), records, group)
  {
    forall k ensures Shows(CountBy(list, Classification()), k, |Failing(records, k) * group|) {
      DistributionShows(list, Classification(), k);
      ClassificationPositions(list, records, group, k);
    }
  }

  lemma ClassificationPositions(list: seq<RawRecord>, records: seq<RawRecord>, group: set<int>, k: string)
    requires Listed(list, records, group)
    ensures CountKey(list, Classification(), k) == |Failing(records, k) * group|
  {
    CountListed(list, records, group, Classification(), k, Failing(records, k));
  }

  lemma CodeTextIs(t: string, c: int)
    ensures CodeText(t, c) <==> t == IntText(c)
    ensures !CodeText(NO_STATUS, c)
  {
    Text.DecimalIsNumeral(if c < 0 then -c else c);
    assert c < 0 ==> IntText(c)[1..] == Text.Decimal(-c);
    if CodeText(t, c) {
      if c < 0 {
        Text.NumeralIsDecimal(t[1..], -c);
        assert t == "-" + t[1..];
      } else {
        Text.NumeralIsDecimal(t, c);
      }
    }
    assert !Text.IsDigit(NO_STATUS[0]);
  }

  lemma OneCode(t: string, c: int, d: int)
    requires CodeText(t, c) && CodeText(t, d)
    ensures c == d
  {
    if c >= 0 {
      assert Text.IsDigit(t[0]);
    }
    if d >= 0 {
      assert Text.IsDigit(t[0]);
    }
  }

  lemma StatusIs(r: RawRecord, t: string, c: int)
    ensures Status()(r) == NO_STATUS <==> r.statusCode == None
    ensures CodeText(t, c) ==> (Status()(r) == t <==> r.statusCode == Some(c))
  {
    if r.statusCode.Some? {
      CodeTextIs(Status()(r), r.statusCode.value);
      if CodeText(t, c) && Status()(r) == t {
        OneCode(t, c, r.statusCode.value);
      }
    }
    CodeTextIs(t, c);
  }

  lemma StatusPositions(list: seq<RawRecord>, records: seq<RawRecord>, group: set<int>, t: string, code: Option<int>)
    requires Listed(list, records, group)
    requires if code.None? then t == NO_STATUS else CodeText(t, code.value)
    ensures CountKey(list, Status(), t) == |Coded(records, code) * group|
  {
    forall i | 0 <= i < |records| ensures Status()(records[i]) == t <==> records[i].statusCode == code {
      StatusIs(records[i], t, if code.Some? then code.value else 0);
    }
    CountListed(list, records, group, Status(), t, Coded(records, code));
  }

  lemma ListedStatuses(list: seq<RawRecord>, records: seq<RawRecord>, group: set<int>)
    requires Listed(list, records, group)
    ensures StatusesOf(CountBy(list, Status()), records, group)
  {
    var counts := CountBy(list, Status());
    DistributionShows(list, Status(), NO_STATUS);
    StatusPositions(list, records, group, NO_STATUS, None);
    forall t, c | CodeText(t, c) ensures Shows(counts, t, |Coded(records, Some(c)) * group|) {
      DistributionShows(list, Status(), t);
      StatusPositions(list, records, group, t, Some(c));
    }
    forall t | t in counts && t != NO_STATUS ensures exists c :: CodeText(t, c) {
      var r :| r in list && Status()(r) == t;
      CodeTextIs(t, r.statusCode.value);
    }
  }

  // ---- latency ----

  function Lasts(x: real): RawRecord -> bool {
    (r: RawRecord) => r.duration == Number(x)
  }

  lemma {:induction false} NumericCounts(list: seq<RawRecord>, x: real)
    ensures multiset(Numeric(Durations(list)))[x] == if x >= 0.0 then CountKey(list, Lasts(x), true) else 0
  {
    if list != [] {
      NumericCounts(list[1..], x);
      assert Durations(list)[1..] == Durations(list[1..]);
    }
  }

  lemma LastingPositions(list: seq<RawRecord>, records: seq<RawRecord>, group: set<int>, x: real)
    requires Listed(list, records, group)
    ensures CountKey(list, Lasts(x), true) == |Lasting(records, x) * group|
  {
    CountListed(list, records, group, Lasts(x), true, Lasting(records, x));
  }

  lemma ListedSamples(list: seq<RawRecord>, records: seq<RawRecord>, group: set<int>, v: seq<real>)
    requires Listed(list, records, group)
    requires Sorted(v, RealLe()) && multiset(v) == multiset(Numeric(Durations(list)))
    ensures SamplesOf(v, records, group)
  {
    forall i, j | 0 <= i < j < |v| ensures v[i] <= v[j] {
      assert RealLe()(v[i], v[j]);
    }
    forall x ensures multiset(v)[x] == if x >= 0.0 then |Lasting(records, x) * group| else 0 {
      NumericCounts(list, x);
      LastingPositions(list, records, group, x);
    }
  }

  lemma RoundRounds(x: real)
    ensures Rounded(x, Round(x))
  {
    var n := (x * 1000.0 + 0.5).Floor;
    assert Thousandths(Round(x), n);
  }

  lemma SummariseStats(v: seq<real>)
    requires v != [] && Sorted(v, RealLe())
    ensures StatsOf(Summarise(v), v)
  {
    RoundRounds(v[0]);
    RoundRounds(v[|v| - 1]);
    RoundRounds(Sum(v) / |v| as real);
    RoundRounds(Median(v));
    RoundRounds(NearestRank(v, 95));
    RoundRounds(NearestRank(v, 99));
    NearestRankLeastCovering(v, 95);
    NearestRankLeastCovering(v, 99);
  }

  lemma ListedLatency(list: seq<RawRecord>, records: seq<RawRecord>, group: set<int>)
    requires Listed(list, records, group)
    ensures LatencyOf(LatencySummary.LatencySummary(Durations(list)), records, group)
  {
    var v := SortedNumeric(Durations(list));
    ListedSamples(list, records, group, v);
    if v != [] {
      SummariseStats(v);
    }
  }

  // ---- the length of the audit ----

  ghost predicate IsTime(records: seq<RawRecord>, x: int) {
    exists i :: i in Timed(records) && records[i].time.value == x
  }

  lemma {:induction false} TimesAre(records: seq<RawRecord>)
    ensures |Times(records)| == |Timed(records)|
    ensures forall x :: x in Times(records) <==> IsTime(records, x)
  {
    if records != [] {
      var n := |records| - 1;
      var front, last := records[..n], records[n];
      TimesAre(front);
      assert records == front + [last];
      TimesAppend(front, last);
      assert Timed(records) == if last.time.Some? then Timed(front) + {n} else Timed(front);
      forall x ensures x in Times(records) <==> IsTime(records, x) {
        assert forall i :: i in Timed(front) ==> records[i] == front[i];
        if x in Times(records) && x !in Times(front) {
          assert n in Timed(records);
        }
      }
    }
  }

  lemma {:induction false} TimesAppend(front: seq<RawRecord>, last: RawRecord)
    ensures Times(front + [last]) == Times(front) + (if last.time.Some? then [last.time.value] else [])
  {
    if front != [] {
      TimesAppend(front[1..], last);
      assert (front + [last])[1..] == front[1..] + [last];
    }
  }

  /** Rearranging the records rearranges their times. */
  lemma {:induction false} TimesCount(records: seq<RawRecord>, x: int)
    ensures multiset(Times(records))[x] == CountKey(records, TimeOf(), Some(x))
  {
    if records != [] {
      TimesCount(records[1..], x);
    }
  }

  function TimeOf(): RawRecord -> Option<int> {
    (r: RawRecord) => r.time
  }

  lemma OrderedTimes(records: seq<RawRecord>)
    ensures multiset(Sort(Times(Ordered(records)), IntLe())) == multiset(Times(records))
    ensures Sorted(Sort(Times(Ordered(records)), IntLe()), IntLe())
  {
    var o := Ordered(records);
    SortElements(Times(o), IntLe());
    SortSorted(Times(o), IntLe());
    SortElements(records, RecordLe());
    forall x ensures multiset(Times(o))[x] == multiset(Times(records))[x] {
      TimesCount(o, x);
      TimesCount(records, x);
      CountRearranged(o, records, TimeOf(), Some(x));
    }
  }

  lemma DurationMeans(records: seq<RawRecord>)
    ensures DurationOf(DurationMs(Ordered(records)), records)
  {
    var valid := Sort(Times(Ordered(records)), IntLe());
    OrderedTimes(records);
    TimesAre(records);
    assert |valid| == |multiset(valid)| == |multiset(Times(records))| == |Times(records)|;
    if |valid| >= 2 {
      forall x ensures x in valid <==> x in Times(records) {
        assert x in valid <==> x in multiset(valid);
        assert x in Times(records) <==> x in multiset(Times(records));
      }
      SpanOf(records, valid);
    }
  }

  lemma SpanOf(records: seq<RawRecord>, valid: seq<int>)
    requires Sorted(valid, IntLe()) && valid != []
    requires forall x :: x in valid <==> IsTime(records, x)
    ensures exists i, j :: i in Timed(records) && j in Timed(records) && Spans(records, i, j)
                           && valid[|valid| - 1] == records[j].time.value && valid[0] == records[i].time.value
  {
    var last := |valid| - 1;
    assert valid[0] in valid && valid[last] in valid;
    var i :| i in Timed(records) && records[i].time.value == valid[0];
    var j :| j in Timed(records) && records[j].time.value == valid[last];
    forall k | k in Timed(records)
      ensures records[i].time.value <= records[k].time.value <= records[j].time.value
    {
      assert IsTime(records, records[k].time.value);
      var m :| 0 <= m < |valid| && valid[m] == records[k].time.value;
      assert m > 0 ==> IntLe()(valid[0], valid[m]);
      assert m < last ==> IntLe()(valid[m], valid[last]);
    }
    assert Spans(records, i, j);
  }

  // ---- the aggregates ----

  lemma PassedPositions(list: seq<RawRecord>, records: seq<RawRecord>, group: set<int>)
    requires Listed(list, records, group)
    ensures CountKey(list, Passed(), true) == |Failing(records, "PASS") * group|
    ensures CountKey(list, Passed(), false) == |(All(records) - Failing(records, "PASS")) * group|
  {
    CountListed(list, records, group, Passed(), true, Failing(records, "PASS"));
    CountListed(list, records, group, Passed(), false, All(records) - Failing(records, "PASS"));
  }

  lemma RequestsCounted(records: seq<RawRecord>)
    ensures RequestsMean(Requests(Ordered(records)), records)
  {
    var o, all := Ordered(records), All(records);
    SortElements(records, RecordLe());
    PassedPositions(o, records, all);
    ClassificationPositions(o, records, all, "TIMEOUT");
    ClassificationPositions(o, records, all, "CONNECTION_ERROR");
    assert (all - Failing(records, "PASS")) * all == all - Failing(records, "PASS");
    assert forall k :: Failing(records, k) * all == Failing(records, k);
  }

  lemma EndpointsCounted(records: seq<RawRecord>)
    ensures EndpointCountsOf(CountBy(Ordered(records), Endpoint()), records)
  {
    var o := Ordered(records);
    forall e ensures Shows(CountBy(o, Endpoint()), e, |OfEndpoint(records, e)|) {
      DistributionShows(o, Endpoint(), e);
      CountOrdered(records, Endpoint(), e, OfEndpoint(records, e));
    }
  }

  /** Every number of the audit row is what it claims about the loaded results. */
  lemma AuditRowMeans(records: seq<RawRecord>)
    ensures AuditMeans(BuildAggregates(records).audit, records)
  {
    RequestsCounted(records);
    ListedClassifications(Ordered(records), records, All(records));
    ListedStatuses(Ordered(records), records, All(records));
    EndpointsCounted(records);
    ListedLatency(Ordered(records), records, All(records));
    DurationMeans(records);
  }

  /** So is every number of an endpoint row, about the results of that endpoint. */
  lemma EndpointRowMeans(records: seq<RawRecord>, e: string)
    requires e in BuildAggregates(records).endpoints
    ensures EndpointMeans(BuildAggregates(records).endpoints[e], e, records)
  {
    var list, group := Select(Ordered(records), e), OfEndpoint(records, e);
    CountOrdered(records, Endpoint(), e, group);
    SelectCount(Ordered(records), e);
    PassedPositions(list, records, group);
    ClassificationPositions(list, records, group, "TIMEOUT");
    ListedClassifications(list, records, group);
    ListedStatuses(list, records, group);
    ListedLatency(list, records, group);
  }

  /** There is a row for each endpoint that has a result, and for no other. */
  lemma RowsAreEndpoints(records: seq<RawRecord>, e: string)
    ensures e in BuildAggregates(records).endpoints <==> OfEndpoint(records, e) != {}
  {
    SortElements(records, RecordLe());
    SameMembers(Ordered(records), records);
    if e in EndpointSet(records) {
      var i :| 0 <= i < |records| && records[i].endpointId == e;
      assert i in OfEndpoint(records, e);
    }
    if i :| i in OfEndpoint(records, e) {
      assert records[i] in records;
    }
  }
}
