/** What the records of a complete aggregate set say, read off the table alone and compared
    with the results the committing run aggregated. */
module StoredAggregates {
  import opened Wrappers
  import opened LatencySummary
  import opened AggregationRecords
  import opened AggregateEngine
  import opened AggregateCounts
  import opened LineageManifest
  import opened AggregationKeys
  import opened AggregateSet
  import opened AggregationRepository
  import opened AggregationCommit
  import opened AggregationSafety
  import opened AggregationGuarantees

  /** An aggregate record of the set that carries the hash of its scope's stored manifest. */
  ghost predicate Traced(t: Table, k: RecordKey, scope: Scope)
    requires InSet(k)
  {
    && k in t && t[k].AggregateItem?
    && ManifestKey(k.s, scope) in t && t[ManifestKey(k.s, scope)].ManifestItem?
    && t[k].lineage == t[ManifestKey(k.s, scope)].header.hash
  }

  ghost predicate AuditRecordOf(t: Table, s: SetId, records: seq<RawRecord>) {
    && Traced(t, AuditAggregateKey(s), AuditScope)
    && var row := t[AuditAggregateKey(s)].row;
    && row.AuditRow?
    && RequestsMean(row.requests, records)
    && StatusesOf(row.statuses, records, All(records))
    && DurationOf(row.durationMs, records)
    && LatencyOf(row.latency, records, All(records))
    && EndpointCountsOf(row.endpointCounts, records)
  }

  /** The failure record of a scope counts, for every classification, the results with it. */
  ghost predicate FailureRecordOf(t: Table, k: RecordKey, scope: Scope, records: seq<RawRecord>, group: set<int>)
    requires InSet(k)
  {
    && Traced(t, k, scope)
    && t[k].row.FailureRow? && t[k].row.scope == scope
    && ClassificationsOf(t[k].row.counts, records, group)
  }

  ghost predicate EndpointRecordsHold(t: Table, s: SetId, e: string, records: seq<RawRecord>) {
    && Traced(t, EndpointKey(s, e), EndpointScope(e))
    && t[EndpointKey(s, e)].row.EndpointRow?
    && EndpointMeans(t[EndpointKey(s, e)].row.endpoint, e, records)
    && FailureRecordOf(t, EndpointFailureKey(s, e), EndpointScope(e), records, OfEndpoint(records, e))
  }

  function Manifests(t: Table, s: SetId): set<RecordKey> {
    set k | k in t && k.ManifestKey? && k.s == s
  }

  /** The completion marker agrees with what is stored beside it. */
  ghost predicate MarkerAgrees(t: Table, s: SetId, records: seq<RawRecord>) {
    && SetKey(s) in t && t[SetKey(s)].SetItem?
    && ManifestKey(s, AuditScope) in t && t[ManifestKey(s, AuditScope)].ManifestItem?
    && var m := t[SetKey(s)].marker;
    && m.complete && m.rawResultCount == |records|
    && m.rawResultCount == t[ManifestKey(s, AuditScope)].header.body.sourceRefCount
    && m.lineage == t[ManifestKey(s, AuditScope)].header.hash
    && m.manifestCount == |Manifests(t, s)|
    && m.endpointCount == |EndpointRows(t, s)|
    && m.aggregateCount == 2 + |EndpointRecords(t, s)|
  }

  // ---- the transaction of one run ----

  lemma AuditRecordWritten(t: Table, w: Work)
    requires Committed(t, w)
    ensures AuditRecordOf(t, w.s, w.records)
    ensures FailureRecordOf(t, FailureKey(w.s), AuditScope, w.records, All(w.records))
  {
    assert Writes(w, AuditAggregateKey(w.s)) && Writes(w, FailureKey(w.s)) && Writes(w, ManifestKey(w.s, AuditScope));
    AuditRowMeans(w.records);
  }

  lemma EndpointRecordsWritten(t: Table, w: Work, e: string)
    requires Committed(t, w) && e in EndpointSet(w.records)
    ensures EndpointRecordsHold(t, w.s, e, w.records)
  {
    var a, b, m := EndpointKey(w.s, e), EndpointFailureKey(w.s, e), ManifestKey(w.s, EndpointScope(e));
    assert Writes(w, a) && Writes(w, b) && Writes(w, m);
    BuiltEndpoints(w.records);
    EndpointRowMeans(w.records, e);
  }

  lemma EndpointNamed(records: seq<RawRecord>, e: string)
    ensures e in EndpointSet(records) <==> OfEndpoint(records, e) != {}
  {
    BuiltEndpoints(records);
    RowsAreEndpoints(records, e);
  }

  lemma ManifestsAre(t: Table, w: Work)
    requires Committed(t, w) && OnlyWriter(t, w)
    ensures |Manifests(t, w.s)| == 1 + |EndpointSet(w.records)|
  {
    var es := EndpointSet(w.records);
    var named := set e | e in es :: ManifestKey(w.s, EndpointScope(e));
    ImageSize(es, (e: string) => ManifestKey(w.s, EndpointScope(e)), named);
    assert Writes(w, ManifestKey(w.s, AuditScope));
    forall k ensures k in Manifests(t, w.s) <==> k in named + {ManifestKey(w.s, AuditScope)} {
      if k in named {
        assert Writes(w, k);
      }
      if k in Manifests(t, w.s) {
        assert Writes(w, k);
        assert k.scope.EndpointScope? ==> k == ManifestKey(w.s, EndpointScope(k.scope.endpointId));
      }
    }
    assert Manifests(t, w.s) == named + {ManifestKey(w.s, AuditScope)};
  }

  lemma MarkerWritten(t: Table, w: Work)
    requires Committed(t, w) && OnlyWriter(t, w)
    ensures MarkerAgrees(t, w.s, w.records)
  {
    CommittedMarker(t, w);
    assert Writes(w, ManifestKey(w.s, AuditScope));
    ManifestsAre(t, w);
    EndpointRecordsOf(t, w);
  }

  // ---- what the emitting loops produce ----

  /** The records that BuildPersistedRecords emits, read as a table, say all of it. */
  lemma EmittedRecordsMean(w: Work, items: seq<(RecordKey, Item)>, e: string)
    requires |items| == |ItemKeys(w)|
    requires forall i :: 0 <= i < |items| ==> EmittedAt(w, ItemKeys(w)[i], items[i])
    ensures SetRecordsOf(MapOf(items), w.s, w.records)
    ensures EndpointAccounted(MapOf(items), w.s, e, w.records)
  {
    EmittedIsBatch(w, items);
    var t := MapOf(items);
    AuditRecordWritten(t, w);
    MarkerWritten(t, w);
    EndpointWritten(t, w, e);
  }

  // ---- every reachable table ----

  ghost predicate SetRecordsOf(t: Table, s: SetId, records: seq<RawRecord>) {
    && AuditRecordOf(t, s, records)
    && FailureRecordOf(t, FailureKey(s), AuditScope, records, All(records))
    && MarkerAgrees(t, s, records)
  }

  /** An endpoint with results has its row, failure record and manifest; one without, none. */
  ghost predicate EndpointAccounted(t: Table, s: SetId, e: string, records: seq<RawRecord>) {
    && (EndpointKey(s, e) in t <==> OfEndpoint(records, e) != {})
    && (EndpointFailureKey(s, e) in t <==> OfEndpoint(records, e) != {})
    && (ManifestKey(s, EndpointScope(e)) in t <==> OfEndpoint(records, e) != {})
    && (EndpointKey(s, e) in t ==> EndpointRecordsHold(t, s, e, records))
  }

  lemma EndpointWritten(t: Table, w: Work, e: string)
    requires Committed(t, w) && OnlyWriter(t, w)
    ensures EndpointAccounted(t, w.s, e, w.records)
  {
    EndpointNamed(w.records, e);
    if e in EndpointSet(w.records) {
      EndpointRecordsWritten(t, w, e);
    }
  }

  /** In any reachable table with a #SET record, every number of the audit record and of each
      endpoint record is what it claims about the results the committing run aggregated, the
      failure records count every classification of their scope, each record names the stored
      manifest of its own scope, endpoints have records exactly when they have results, and
      the marker agrees with all of it. */
  lemma StoredRecordsMean(start: State, actions: seq<Action>, s: SetId, e: string)
    requires Initial(start) && SetKey(s) in Exec(start, actions).table
    ensures var st := Exec(start, actions);
            && s in st.commits
            && SetRecordsOf(st.table, s, st.commits[s].records)
            && EndpointAccounted(st.table, s, e, st.commits[s].records)
  {
    var st := Exec(start, actions);
    Reachable(start, actions);
    MarkerStored(st, s);
    assert CommitOk(st, s);
    AuditRecordWritten(st.table, st.commits[s]);
    MarkerWritten(st.table, st.commits[s]);
    EndpointWritten(st.table, st.commits[s], e);
  }

  /** The count that the stored failure record of endpoint e shows for k. */
  ghost function StoredFailures(t: Table, s: SetId, k: string): string -> int {
    (e: string) =>
      if EndpointFailureKey(s, e) in t && t[EndpointFailureKey(s, e)].AggregateItem?
         && t[EndpointFailureKey(s, e)].row.FailureRow?
      then Get(t[EndpointFailureKey(s, e)].row.counts, k) else 0
  }

  /** For every classification the stored endpoint records add up to the stored audit one. */
  lemma StoredFailuresSum(start: State, actions: seq<Action>, s: SetId, k: string)
    requires Initial(start) && SetKey(s) in Exec(start, actions).table
    ensures var t := Exec(start, actions).table;
            && Traced(t, FailureKey(s), AuditScope) && t[FailureKey(s)].row.FailureRow?
            && var es := set x | x in EndpointRows(t, s) && x.EndpointKey? :: x.endpointId;
            Get(t[FailureKey(s)].row.counts, k) == SumOver(es, StoredFailures(t, s, k))
  {
    var st := Exec(start, actions);
    Reachable(start, actions);
    MarkerStored(st, s);
    assert CommitOk(st, s);
    var w := st.commits[s];
    var t, es := st.table, EndpointSet(w.records);
    AuditRecordWritten(t, w);
    EndpointRecordsAre(t, w);
    var named := set x | x in EndpointRows(t, s) && x.EndpointKey? :: x.endpointId;
    forall e ensures e in named <==> e in es {
      if e in es {
        assert EndpointKey(s, e) in Named(s, es);
      }
    }
    assert named == es;
    FailuresSum(t, w, k);
  }

  lemma AuditFailure(t: Table, w: Work, k: string)
    requires Committed(t, w) && Traced(t, FailureKey(w.s), AuditScope) && t[FailureKey(w.s)].row.FailureRow?
    ensures Get(t[FailureKey(w.s)].row.counts, k) == Get(BuildAggregates(w.records).audit.classifications, k)
  {
    assert Writes(w, FailureKey(w.s));
  }

  lemma EndpointFailure(t: Table, w: Work, e: string, k: string)
    requires Committed(t, w) && e in EndpointSet(w.records)
    ensures StoredFailures(t, w.s, k)(e) == Classified(BuildAggregates(w.records).endpoints, k)(e)
  {
    assert Writes(w, EndpointFailureKey(w.s, e));
    BuiltEndpoints(w.records);
  }

  lemma FailuresSum(t: Table, w: Work, k: string)
    requires Committed(t, w) && Traced(t, FailureKey(w.s), AuditScope) && t[FailureKey(w.s)].row.FailureRow?
    ensures Get(t[FailureKey(w.s)].row.counts, k) == SumOver(EndpointSet(w.records), StoredFailures(t, w.s, k))
  {
    var f, g := Classified(BuildAggregates(w.records).endpoints, k), StoredFailures(t, w.s, k);
    AuditFailure(t, w, k);
    EndpointsSumToAudit(w.records, k);
    forall e | e in EndpointSet(w.records) ensures f(e) == g(e) {
      EndpointFailure(t, w, e, k);
    }
    SumOverCongruent(EndpointSet(w.records), f, g);
  }

  // ---- the references behind the numbers ----

  /** The list has as many references as the group has results, one of each result, in the
      order of the references. */
  ghost predicate RefersTo(refs: seq<SourceRef>, records: seq<RawRecord>, group: set<int>) {
    && |refs| == |group|
    && (forall i :: i in group && 0 <= i < |records| ==> ReferenceTo(records[i]) in refs)
    && (forall i, j :: 0 <= i < j < |refs| ==> RefLe(refs[i].ref, refs[j].ref))
  }

  function ReferenceTo(r: RawRecord): SourceRef {
    SourceRef(RefIdentity(r.key, r.s3Version, r.runId, r.index), r.endpointId, r.timestamp)
  }

  ghost function GroupOf(records: seq<RawRecord>, scope: Scope): set<int> {
    match scope
    case AuditScope => All(records)
    case EndpointScope(e) => OfEndpoint(records, e)
  }

  lemma GroupSize(w: Work, scope: Scope)
    ensures |ScopeRecords(w, scope)| == |GroupOf(w.records, scope)|
  {
    match scope
    case AuditScope =>
      CountAny(w.records, (r: RawRecord) => true);
      CountPositions(w.records, (r: RawRecord) => true, true, GroupOf(w.records, scope));
    case EndpointScope(e) =>
      SelectCount(w.records, e);
      CountPositions(w.records, Endpoint(), e, GroupOf(w.records, scope));
  }

  lemma SourcesRefer(w: Work, scope: Scope)
    ensures RefersTo(Sources(Ordered(ScopeRecords(w, scope))), w.records, GroupOf(w.records, scope))
  {
    var list := ScopeRecords(w, scope);
    var o := Ordered(list);
    GroupSize(w, scope);
    Ordering.SortElements(list, RecordLe());
    RecordLeIsOrder();
    Ordering.SortSorted(list, RecordLe());
    forall i | i in GroupOf(w.records, scope) ensures ReferenceTo(w.records[i]) in Sources(o) {
      var r := w.records[i];
      assert r in list && r in multiset(o);
      var j :| 0 <= j < |o| && o[j] == r;
      assert Sources(o)[j] == ReferenceTo(r);
    }
    forall i, j | 0 <= i < j < |o| ensures RefLe(Sources(o)[i].ref, Sources(o)[j].ref) {
      assert RecordLe()(o[i], o[j]);
    }
  }

  /** The stored pages of every stored manifest list the results of its scope, whose
      references differ. */
  lemma StoredLineageRefers(start: State, actions: seq<Action>, s: SetId, scope: Scope)
    requires Initial(start) && SetKey(s) in Exec(start, actions).table
    requires ManifestKey(s, scope) in Exec(start, actions).table
    ensures var st := Exec(start, actions);
            && s in st.commits && DistinctRefs(st.commits[s].records)
            && exists refs :: LineageIntact(st.table, s, scope, refs)
                              && RefersTo(refs, st.commits[s].records, GroupOf(st.commits[s].records, scope))
  {
    CompleteSetHasItsLineage(start, actions, s);
    SourcesRefer(Exec(start, actions).commits[s], scope);
  }
}
