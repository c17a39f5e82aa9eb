/** One endpoint result of one run as aggregation reads it, and the order of its reference. */
module AggregationRecords {
  import opened Wrappers
  import opened Ordering
  import opened LatencySummary

  /** Where a result lives: evidence object, object version, run and position. */
  datatype RefIdentity = RefIdentity(key: string, version: Option<string>, runId: string, index: nat)

  /** What a lineage page stores about a result. */
  datatype SourceRef = SourceRef(ref: RefIdentity, endpointId: string, timestamp: Option<string>)

  /** `time` is the timestamp read as microseconds, absent when it is not a valid one. */
  datatype RawRecord = RawRecord(
    runId: string, key: string, s3Version: Option<string>, index: nat, endpointId: string,
    timestamp: Option<string>, time: Option<int>, duration: Sample, statusCode: Option<int>,
    failureType: string)
  {
    function Ref(): RefIdentity {
      RefIdentity(key, s3Version, runId, index)
    }

    function Source(): SourceRef {
      SourceRef(Ref(), endpointId, timestamp)
    }
  }

  /** Absent versions sort first. Results of one evidence object all carry the same version,
      so the choice never decides an order. */
  predicate VersionLe(a: Option<string>, b: Option<string>) {
    a.None? || (b.Some? && StringLe(a.value, b.value))
  }

  predicate RefLe(a: RefIdentity, b: RefIdentity) {
    if a.key != b.key then StringLe(a.key, b.key)
    else if a.version != b.version then VersionLe(a.version, b.version)
    else if a.runId != b.runId then StringLe(a.runId, b.runId)
    else a.index <= b.index
  }

  lemma RefLeTotal(a: RefIdentity, b: RefIdentity)
    ensures RefLe(a, b) || RefLe(b, a)
  {
    StringLeIsOrder();
  }

  lemma RefLeAntisymmetric(a: RefIdentity, b: RefIdentity)
    requires RefLe(a, b) && RefLe(b, a)
    ensures a == b
  {
    StringLeIsOrder();
  }

  lemma RefLeTransitive(a: RefIdentity, b: RefIdentity, c: RefIdentity)
    requires RefLe(a, b) && RefLe(b, c)
    ensures RefLe(a, c)
  {
    StringLeIsOrder();
  }

  function RecordLe(): (RawRecord, RawRecord) -> bool {
    (a: RawRecord, b: RawRecord) => RefLe(a.Ref(), b.Ref())
  }

  lemma RecordLeIsOrder()
    ensures TotalPreorder(RecordLe())
  {
    forall x, y ensures RecordLe()(x, y) || RecordLe()(y, x) { RefLeTotal(x.Ref(), y.Ref()); }
    forall x, y, z | RecordLe()(x, y) && RecordLe()(y, z) ensures RecordLe()(x, z) {
      RefLeTransitive(x.Ref(), y.Ref(), z.Ref());
    }
  }

  /** No two entries carry the same reference: what the evidence gate enforces. */
  ghost predicate DistinctRefs(records: seq<RawRecord>) {
    forall i, j :: 0 <= i < j < |records| ==> records[i].Ref() != records[j].Ref()
  }

  function Ordered(records: seq<RawRecord>): seq<RawRecord> {
    Sort(records, RecordLe())
  }

  lemma DistinctNoTies(records: seq<RawRecord>)
    requires DistinctRefs(records)
    ensures NoTies(multiset(records), RecordLe())
  {
    forall x, y | x in multiset(records) && y in multiset(records) && RecordLe()(x, y) && RecordLe()(y, x)
      ensures x == y
    {
      RefLeAntisymmetric(x.Ref(), y.Ref());
      var i :| 0 <= i < |records| && records[i] == x;
      var j :| 0 <= j < |records| && records[j] == y;
    }
  }

  /** The reading order of the evidence does not matter. */
  lemma OrderedPermutation(a: seq<RawRecord>, b: seq<RawRecord>)
    requires multiset(a) == multiset(b) && DistinctRefs(a)
    ensures Ordered(a) == Ordered(b)
  {
    RecordLeIsOrder();
    DistinctNoTies(a);
    SortPermutation(a, b, RecordLe());
  }

  // ---- selecting one endpoint ----

  function Select(records: seq<RawRecord>, e: string): (r: seq<RawRecord>)
    ensures forall x :: x in r <==> x in records && x.endpointId == e
  {
    if records == [] then []
    else if records[0].endpointId == e then [records[0]] + Select(records[1..], e)
    else Select(records[1..], e)
  }

  lemma {:induction false} SelectAppend(a: seq<RawRecord>, b: seq<RawRecord>, e: string)
    ensures Select(a + b, e) == Select(a, e) + Select(b, e)
  {
    if a == [] {
      assert a + b == b;
    } else {
      assert (a + b)[1..] == a[1..] + b;
      SelectAppend(a[1..], b, e);
    }
  }

  function EndpointSet(records: seq<RawRecord>): (s: set<string>) {
    set r | r in records :: r.endpointId
  }

  lemma {:induction false} SelectMultiset(records: seq<RawRecord>, e: string, x: RawRecord)
    ensures multiset(Select(records, e))[x] == if x.endpointId == e then multiset(records)[x] else 0
  {
    if records != [] {
      assert records == [records[0]] + records[1..];
      SelectMultiset(records[1..], e, x);
    }
  }

  lemma SelectPermutation(a: seq<RawRecord>, b: seq<RawRecord>, e: string)
    requires multiset(a) == multiset(b)
    ensures multiset(Select(a, e)) == multiset(Select(b, e))
  {
    forall x ensures multiset(Select(a, e))[x] == multiset(Select(b, e))[x] {
      SelectMultiset(a, e, x);
      SelectMultiset(b, e, x);
    }
  }

  lemma {:induction false} SelectDistinct(records: seq<RawRecord>, e: string)
    requires DistinctRefs(records)
    ensures DistinctRefs(Select(records, e))
  {
    if records != [] {
      SelectDistinct(records[1..], e);
    }
  }

  lemma SameMembers(a: seq<RawRecord>, b: seq<RawRecord>)
    requires multiset(a) == multiset(b)
    ensures forall x :: x in a <==> x in b
  {
    forall x ensures x in a <==> x in b {
      assert x in a <==> x in multiset(a);
      assert x in b <==> x in multiset(b);
    }
  }
}
