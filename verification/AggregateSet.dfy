/** The records of one aggregate set: what the atomic transaction writes, which lineage
    pages precede it, and how a later reader recognises a complete set. */
module AggregateSet {
  import opened Wrappers
  import opened Ordering
  import opened LatencySummary
  import opened AggregationRecords
  import opened AggregateEngine
  import opened LineageManifest
  import opened AggregationKeys

  const MAX_AGGREGATE_RECORDS: nat := 99

  datatype JobStatus =
    | Started | IntentRecorded | InvocationRequested | InvocationFailed
    | Completed | DuplicateCompleted | Conflict | Ineligible | Failed

  datatype Row =
    | AuditRow(requests: RequestCounts, statuses: Counts, durationMs: int, latency: Summary, endpointCounts: Counts)
    | EndpointRow(endpoint: EndpointAggregate)
    | FailureRow(scope: Scope, counts: Counts)

  /** The completion marker, stored under the #SET key. */
  datatype Marker = Marker(
    complete: bool, aggregateCount: nat, endpointCount: nat, manifestCount: nat,
    rawResultCount: nat, job: string, lineage: Digest)

  datatype Item =
    | JobItem(status: JobStatus)
    | IdentityItem(exec: string)
    | PageItem(page: Page)
    | ManifestItem(header: Header)
    | AggregateItem(row: Row, job: string, lineage: Digest)
    | SetItem(marker: Marker)

  type Table = map<RecordKey, Item>

  /** One attempt at aggregating a set: its records, job and timestamp. */
  datatype Work = Work(s: SetId, job: string, createdAt: int, records: seq<RawRecord>)

  // ---- the transaction ----

  function ScopeRecords(w: Work, scope: Scope): seq<RawRecord> {
    match scope
    case AuditScope => w.records
    case EndpointScope(e) => Select(w.records, e)
  }

  function ScopeHeader(w: Work, scope: Scope): Header {
    HeaderOf(w.s, scope, w.job, w.createdAt, ScopeRecords(w, scope))
  }

  function ScopePages(w: Work, scope: Scope): seq<Page> {
    Pages(w.s, scope, w.job, w.createdAt, ScopeRecords(w, scope))
  }

  function MarkerOf(w: Work): Marker {
    var n := |EndpointSet(w.records)|;
    Marker(true, 2 + 2 * n, n, 1 + n, |w.records|, w.job, ScopeHeader(w, AuditScope).hash)
  }

  /** Whether the transaction of w writes key k. */
  predicate Writes(w: Work, k: RecordKey) {
    InSet(k) && k.s == w.s && !k.PageKey? &&
    match k
    case EndpointKey(_, e) => e in EndpointSet(w.records)
    case EndpointFailureKey(_, e) => e in EndpointSet(w.records)
    case ManifestKey(_, EndpointScope(e)) => e in EndpointSet(w.records)
    case _ => true
  }

  function Written(w: Work, k: RecordKey): Item
    requires Writes(w, k)
  {
    var a := BuildAggregates(w.records);
    match k
    case SetKey(_) => SetItem(MarkerOf(w))
    case ManifestKey(_, scope) => ManifestItem(ScopeHeader(w, scope))
    case AuditAggregateKey(_) =>
      var u := a.audit;
      AggregateItem(AuditRow(u.requests, u.statuses, u.durationMs, u.latency, u.endpointCounts), w.job,
                    ScopeHeader(w, AuditScope).hash)
    case FailureKey(_) =>
      AggregateItem(FailureRow(AuditScope, a.audit.classifications), w.job, ScopeHeader(w, AuditScope).hash)
    case EndpointKey(_, e) =>
      BuiltEndpoints(w.records);
      AggregateItem(EndpointRow(a.endpoints[e]), w.job, ScopeHeader(w, EndpointScope(e)).hash)
    case EndpointFailureKey(_, e) =>
      BuiltEndpoints(w.records);
      AggregateItem(FailureRow(EndpointScope(e), a.endpoints[e].classifications), w.job,
                    ScopeHeader(w, EndpointScope(e)).hash)
  }

  lemma BuiltEndpoints(records: seq<RawRecord>)
    ensures BuildAggregates(records).endpoints.Keys == EndpointSet(records)
  {
    SortElements(records, RecordLe());
    SameMembers(Ordered(records), records);
  }

  function BatchKeys(w: Work): (keys: set<RecordKey>) {
    {SetKey(w.s), AuditAggregateKey(w.s), FailureKey(w.s), ManifestKey(w.s, AuditScope)}
    + (set e | e in EndpointSet(w.records) :: EndpointKey(w.s, e))
    + (set e | e in EndpointSet(w.records) :: EndpointFailureKey(w.s, e))
    + (set e | e in EndpointSet(w.records) :: ManifestKey(w.s, EndpointScope(e)))
  }

  lemma BatchKeysExact(w: Work, k: RecordKey)
    ensures k in BatchKeys(w) <==> Writes(w, k)
  {
    if Writes(w, k) {
      match k
      case EndpointKey(_, e) => assert k == EndpointKey(w.s, e);
      case EndpointFailureKey(_, e) => assert k == EndpointFailureKey(w.s, e);
      case ManifestKey(_, EndpointScope(e)) => assert k == ManifestKey(w.s, EndpointScope(e));
      case ManifestKey(_, AuditScope) =>
      case SetKey(_) =>
      case AuditAggregateKey(_) =>
      case FailureKey(_) =>
    }
  }

  function Batch(w: Work): (b: Table)
    ensures forall k :: k in b <==> Writes(w, k)
    ensures forall k :: k in b ==> b[k] == Written(w, k)
  {
    BatchKeysAll(w);
    map k | k in BatchKeys(w) && Writes(w, k) :: Written(w, k)
  }

  lemma BatchKeysAll(w: Work)
    ensures forall k :: k in BatchKeys(w) <==> Writes(w, k)
  {
    forall k ensures k in BatchKeys(w) <==> Writes(w, k) { BatchKeysExact(w, k); }
  }

  // ---- the order in which the loops emit scopes, pages and items ----

  function Names(records: seq<RawRecord>): (names: seq<string>)
    ensures forall e :: e in names <==> e in EndpointSet(records)
    ensures forall i, j :: 0 <= i < j < |names| ==> names[i] != names[j]
  {
    if records == [] then []
    else
      var rest := Names(records[1..]);
      assert EndpointSet(records) == {records[0].endpointId} + EndpointSet(records[1..]);
      if records[0].endpointId in rest then rest else [records[0].endpointId] + rest
  }

  function SortedNames(records: seq<RawRecord>): seq<string> {
    Sort(Names(records), StringLe)
  }

  lemma SortedNamesDistinct(records: seq<RawRecord>)
    ensures var n := SortedNames(records);
            && (forall e :: e in n <==> e in EndpointSet(records))
            && (forall i, j :: 0 <= i < j < |n| ==> n[i] != n[j])
            && |n| == |EndpointSet(records)|
            && Sorted(n, StringLe)
  {
    var names, n := Names(records), SortedNames(records);
    SortElements(names, StringLe);
    StringLeIsOrder();
    SortSorted(names, StringLe);
    forall e ensures e in n <==> e in EndpointSet(records) {
      assert e in n <==> e in multiset(n);
      assert e in names <==> e in multiset(names);
    }
    DistinctCounts(names);
    forall i, j | 0 <= i < j < |n| ensures n[i] != n[j] {
      DistinctFromCounts(n, i, j);
    }
    DistinctLength(n, EndpointSet(records));
  }

  lemma {:induction false} DistinctCounts(s: seq<string>)
    requires forall i, j :: 0 <= i < j < |s| ==> s[i] != s[j]
    ensures forall x :: multiset(s)[x] <= 1
  {
    if s != [] {
      DistinctCounts(s[1..]);
      assert s == [s[0]] + s[1..];
      assert s[0] !in s[1..];
    }
  }

  lemma DistinctFromCounts(s: seq<string>, i: nat, j: nat)
    requires i < j < |s| && forall x :: multiset(s)[x] <= 1
    ensures s[i] != s[j]
  {
    assert s == s[..i] + [s[i]] + s[i + 1..j] + [s[j]] + s[j + 1..];
    assert multiset(s) == multiset(s[..i]) + multiset{s[i]} + multiset(s[i + 1..j]) + multiset{s[j]} + multiset(s[j + 1..]);
    assert s[i] == s[j] ==> multiset(s)[s[i]] >= 2;
  }

  lemma {:induction false} DistinctLength<T>(s: seq<T>, members: set<T>)
    requires forall e :: e in s <==> e in members
    requires forall i, j :: 0 <= i < j < |s| ==> s[i] != s[j]
    ensures |s| == |members|
  {
    if s == [] {
      assert members == {};
    } else {
      assert s[0] in s;
      forall e ensures e in s[1..] <==> e in members - {s[0]} {
        assert e in s <==> e == s[0] || e in s[1..];
      }
      DistinctLength(s[1..], members - {s[0]});
    }
  }

  function EndpointScopes(names: seq<string>): (r: seq<Scope>)
    ensures |r| == |names|
  {
    seq(|names|, i requires 0 <= i < |names| => EndpointScope(names[i]))
  }

  function Scopes(w: Work): seq<Scope> {
    [AuditScope] + EndpointScopes(SortedNames(w.records))
  }

  predicate InScopes(w: Work, scope: Scope) {
    scope.EndpointScope? ==> scope.endpointId in EndpointSet(w.records)
  }

  lemma ScopesExact(w: Work)
    ensures forall scope :: scope in Scopes(w) <==> InScopes(w, scope)
  {
    var n := SortedNames(w.records);
    SortedNamesDistinct(w.records);
    forall scope ensures scope in Scopes(w) <==> InScopes(w, scope) {
      if scope.EndpointScope? && scope.endpointId in n {
        var i :| 0 <= i < |n| && n[i] == scope.endpointId;
        assert EndpointScopes(n)[i] == scope;
      }
    }
  }

  datatype Placed = Placed(key: RecordKey, page: Page)

  function PlacedPages(w: Work, scope: Scope): (r: seq<Placed>)
    ensures |r| == |ScopePages(w, scope)|
  {
    var pages := ScopePages(w, scope);
    seq(|pages|, i requires 0 <= i < |pages| => Placed(PageKey(w.s, scope, i), pages[i]))
  }

  function PagesOfScopes(w: Work, scopes: seq<Scope>): seq<Placed> {
    if scopes == [] then [] else PlacedPages(w, scopes[0]) + PagesOfScopes(w, scopes[1..])
  }

  /** The lineage pages of an attempt in writing order. */
  function PageList(w: Work): seq<Placed> {
    PagesOfScopes(w, Scopes(w))
  }

  lemma {:induction false} PageListCovers(w: Work, scopes: seq<Scope>, scope: Scope, i: nat)
    requires scope in scopes && i < |ScopePages(w, scope)|
    ensures Placed(PageKey(w.s, scope, i), ScopePages(w, scope)[i]) in PagesOfScopes(w, scopes)
  {
    if scopes[0] == scope {
      assert PlacedPages(w, scope)[i] in PlacedPages(w, scope);
    } else {
      PageListCovers(w, scopes[1..], scope, i);
    }
  }

  /** Every page to be written sits under the page key of its scope and index. */
  lemma {:induction false} PageListShape(w: Work, scopes: seq<Scope>, p: Placed)
    requires p in PagesOfScopes(w, scopes)
    ensures p.key.PageKey? && p.key.s == w.s && p.key.scope in scopes
    ensures p.key.index < |ScopePages(w, p.key.scope)| && p.page == ScopePages(w, p.key.scope)[p.key.index]
    ensures p.page.hash == PageDigest(p.page.body)
  {
    if p !in PlacedPages(w, scopes[0]) {
      PageListShape(w, scopes[1..], p);
    }
  }

  /** The page list holds the pages of every scope of the set, each at its key, and no others. */
  lemma PageListExact(w: Work, p: Placed)
    ensures p in PageList(w) <==>
            (p.key.PageKey? && p.key.s == w.s && InScopes(w, p.key.scope)
             && p.key.index < |ScopePages(w, p.key.scope)| && p.page == ScopePages(w, p.key.scope)[p.key.index])
  {
    ScopesExact(w);
    if p in PageList(w) {
      PageListShape(w, Scopes(w), p);
    }
    if p.key.PageKey? && p.key.s == w.s && InScopes(w, p.key.scope)
       && p.key.index < |ScopePages(w, p.key.scope)| && p.page == ScopePages(w, p.key.scope)[p.key.index] {
      PageListCovers(w, Scopes(w), p.key.scope, p.key.index);
    }
  }

  function ScopeKeys(w: Work, names: seq<string>): seq<RecordKey> {
    seq(|names|, i requires 0 <= i < |names| => ManifestKey(w.s, EndpointScope(names[i])))
  }

  function EndpointKeys(w: Work, names: seq<string>): seq<RecordKey> {
    if names == [] then []
    else [EndpointKey(w.s, names[0]), EndpointFailureKey(w.s, names[0])] + EndpointKeys(w, names[1..])
  }

  /** The keys of the transaction in the order the records are emitted. */
  function ItemKeys(w: Work): seq<RecordKey> {
    var n := SortedNames(w.records);
    [ManifestKey(w.s, AuditScope)] + ScopeKeys(w, n) + [AuditAggregateKey(w.s), FailureKey(w.s)]
    + EndpointKeys(w, n) + [SetKey(w.s)]
  }

  lemma {:induction false} EndpointKeysAt(w: Work, names: seq<string>)
    ensures |EndpointKeys(w, names)| == 2 * |names|
    ensures forall i :: 0 <= i < |names| ==>
              EndpointKeys(w, names)[2 * i] == EndpointKey(w.s, names[i])
              && EndpointKeys(w, names)[2 * i + 1] == EndpointFailureKey(w.s, names[i])
  {
    if names != [] {
      EndpointKeysAt(w, names[1..]);
      var rest := EndpointKeys(w, names[1..]);
      forall i | 0 <= i < |names|
        ensures EndpointKeys(w, names)[2 * i] == EndpointKey(w.s, names[i])
        ensures EndpointKeys(w, names)[2 * i + 1] == EndpointFailureKey(w.s, names[i])
      {
        if i > 0 {
          assert EndpointKeys(w, names)[2 * i] == rest[2 * (i - 1)];
          assert EndpointKeys(w, names)[2 * i + 1] == rest[2 * (i - 1) + 1];
        }
      }
    }
  }

  lemma EndpointKeysMembers(w: Work, names: seq<string>, k: RecordKey)
    ensures k in EndpointKeys(w, names) <==>
            (k.EndpointKey? || k.EndpointFailureKey?) && k.s == w.s && k.endpointId in names
  {
    EndpointKeysAt(w, names);
    var keys := EndpointKeys(w, names);
    if k in keys {
      var j :| 0 <= j < |keys| && keys[j] == k;
      assert j == 2 * (j / 2) || j == 2 * (j / 2) + 1;
      assert names[j / 2] in names;
    }
    if (k.EndpointKey? || k.EndpointFailureKey?) && k.s == w.s && k.endpointId in names {
      var i :| 0 <= i < |names| && names[i] == k.endpointId;
      assert keys[2 * i] in keys && keys[2 * i + 1] in keys;
    }
  }

  lemma ScopeKeysMembers(w: Work, names: seq<string>, k: RecordKey)
    ensures k in ScopeKeys(w, names) <==>
            k.ManifestKey? && k.s == w.s && k.scope.EndpointScope? && k.scope.endpointId in names
  {
    if k.ManifestKey? && k.s == w.s && k.scope.EndpointScope? && k.scope.endpointId in names {
      var i :| 0 <= i < |names| && names[i] == k.scope.endpointId;
      assert ScopeKeys(w, names)[i] == k;
    }
  }

  lemma InConcatenation(a: RecordKey, b: seq<RecordKey>, c: seq<RecordKey>, d: seq<RecordKey>, e: RecordKey, k: RecordKey)
    ensures k in [a] + b + c + d + [e] <==> (k == a || k in b || k in c || k in d || k == e)
  {
  }

  lemma ItemKeysMember(w: Work, k: RecordKey)
    ensures k in ItemKeys(w) <==> Writes(w, k)
  {
    var n := SortedNames(w.records);
    SortedNamesDistinct(w.records);
    EndpointKeysMembers(w, n, k);
    ScopeKeysMembers(w, n, k);
    InConcatenation(ManifestKey(w.s, AuditScope), ScopeKeys(w, n), [AuditAggregateKey(w.s), FailureKey(w.s)],
                    EndpointKeys(w, n), SetKey(w.s), k);
  }

  /** The emitted keys are exactly those of the set, 4 + 3N of them. */
  lemma ItemKeysExact(w: Work)
    ensures |ItemKeys(w)| == 4 + 3 * |EndpointSet(w.records)|
    ensures forall k :: k in ItemKeys(w) <==> Writes(w, k)
  {
    var n := SortedNames(w.records);
    SortedNamesDistinct(w.records);
    EndpointKeysAt(w, n);
    forall k ensures k in ItemKeys(w) <==> Writes(w, k) { ItemKeysMember(w, k); }
  }

  ghost predicate Distinct<T(!new)>(s: seq<T>) {
    forall i, j :: 0 <= i < j < |s| ==> s[i] != s[j]
  }

  lemma DistinctAppend<T(!new)>(a: seq<T>, b: seq<T>)
    requires Distinct(a) && Distinct(b) && forall x :: x in a ==> x !in b
    ensures Distinct(a + b)
  {
    forall i, j | 0 <= i < j < |a + b| ensures (a + b)[i] != (a + b)[j] {
      if i < |a| {
        assert (a + b)[i] in a;
        if j >= |a| {
          assert (a + b)[j] in b;
        }
      }
    }
  }

  lemma EndpointKeysDistinct(w: Work, names: seq<string>)
    requires Distinct(names)
    ensures Distinct(EndpointKeys(w, names))
  {
    EndpointKeysAt(w, names);
    var keys := EndpointKeys(w, names);
    forall i, j | 0 <= i < j < |keys| ensures keys[i] != keys[j] {
      EndpointKeyAt(w, names, i);
      EndpointKeyAt(w, names, j);
    }
  }

  lemma EndpointKeyAt(w: Work, names: seq<string>, i: nat)
    requires i < |EndpointKeys(w, names)|
    ensures i / 2 < |names|
    ensures EndpointKeys(w, names)[i] ==
            if i % 2 == 0 then EndpointKey(w.s, names[i / 2]) else EndpointFailureKey(w.s, names[i / 2])
  {
    EndpointKeysAt(w, names);
    assert i == 2 * (i / 2) || i == 2 * (i / 2) + 1;
  }

  /** No key is emitted twice, as a transaction demands. */
  lemma ItemKeysDistinct(w: Work)
    ensures Distinct(ItemKeys(w))
  {
    var n := SortedNames(w.records);
    SortedNamesDistinct(w.records);
    EndpointKeysDistinct(w, n);
    forall k ensures k in EndpointKeys(w, n) ==> k.EndpointKey? || k.EndpointFailureKey? {
      EndpointKeysMembers(w, n, k);
    }
    forall k ensures k in ScopeKeys(w, n) ==> k.ManifestKey? && k.scope.EndpointScope? {
      ScopeKeysMembers(w, n, k);
    }
    var a := [ManifestKey(w.s, AuditScope)] + ScopeKeys(w, n);
    var b := [AuditAggregateKey(w.s), FailureKey(w.s)];
    DistinctAppend(a, b);
    DistinctAppend(a + b, EndpointKeys(w, n));
    DistinctAppend(a + b + EndpointKeys(w, n), [SetKey(w.s)]);
  }

  /** The loop over the records of the transaction. */
  method EmitItems(w: Work) returns (items: seq<(RecordKey, Item)>)
    ensures |items| == |ItemKeys(w)|
    ensures forall i :: 0 <= i < |items| ==> EmittedAt(w, ItemKeys(w)[i], items[i])
  {
    ItemKeysExact(w);
    var keys := ItemKeys(w);
    items := EmitKeys(w, keys);
  }

  /** A record as the transaction writes it. */
  predicate EmittedAt(w: Work, k: RecordKey, item: (RecordKey, Item)) {
    Writes(w, k) && item == (k, Written(w, k))
  }

  method EmitKeys(w: Work, keys: seq<RecordKey>) returns (items: seq<(RecordKey, Item)>)
    requires forall k :: k in keys ==> Writes(w, k)
    ensures |items| == |keys| && forall i :: 0 <= i < |items| ==> EmittedAt(w, keys[i], items[i])
  {
    items := [];
    for i := 0 to |keys|
      invariant |items| == i
      invariant forall j :: 0 <= j < i ==> EmittedAt(w, keys[j], items[j])
    {
      var item := EmitOne(w, keys[i]);
      items := items + [item];
    }
  }

  method EmitOne(w: Work, k: RecordKey) returns (item: (RecordKey, Item))
    requires Writes(w, k)
    ensures EmittedAt(w, k, item)
  {
    item := (k, Written(w, k));
  }

  /** The pages of every scope, one scope after the other. */
  method EmitPages(w: Work) returns (pages: seq<Placed>)
    ensures pages == PageList(w)
  {
    pages := [];
    var scopes := Scopes(w);
    for i := 0 to |scopes|
      invariant pages + PagesOfScopes(w, scopes[i..]) == PageList(w)
    {
      assert scopes[i..][1..] == scopes[i + 1..];
      pages := pages + PlacedPages(w, scopes[i]);
    }
  }

  /** The loops that emit the records of the transaction and the pages of every scope. */
  method BuildPersistedRecords(w: Work) returns (items: seq<(RecordKey, Item)>, pages: seq<Placed>, tooLarge: bool)
    ensures pages == PageList(w)
    ensures |items| == |ItemKeys(w)|
    ensures forall i :: 0 <= i < |items| ==> EmittedAt(w, ItemKeys(w)[i], items[i])
    ensures tooLarge <==> 4 + 3 * |EndpointSet(w.records)| > MAX_AGGREGATE_RECORDS
  {
    items := EmitItems(w);
    pages := EmitPages(w);
    ItemKeysExact(w);
    tooLarge := |items| > MAX_AGGREGATE_RECORDS;
  }

  // ---- recognising a complete set ----

  function EndpointRecords(t: Table, s: SetId): set<RecordKey> {
    set k | k in t && EndpointFamily(k, s) && t[k].AggregateItem?
  }

  function EndpointRows(t: Table, s: SetId): set<RecordKey> {
    set k | k in EndpointRecords(t, s) && k in t && t[k].AggregateItem? && t[k].row.EndpointRow?
  }

  function Required(s: SetId): (r: seq<RecordKey>)
    ensures |r| == 3
  {
    [ManifestKey(s, AuditScope), AuditAggregateKey(s), FailureKey(s)]
  }

  predicate CountsAgree(t: Table, s: SetId, m: Marker) {
    |EndpointRows(t, s)| == m.endpointCount && 2 + |EndpointRecords(t, s)| == m.aggregateCount
  }

  predicate SetExists(t: Table, s: SetId) {
    && SetKey(s) in t && t[SetKey(s)].SetItem? && t[SetKey(s)].marker.complete
    && (forall i :: 0 <= i < 3 ==> Required(s)[i] in t)
    && CountsAgree(t, s, t[SetKey(s)].marker)
  }

  /** The transaction of w is in the table. */
  ghost predicate Committed(t: Table, w: Work) {
    forall k :: Writes(w, k) ==> k in t && t[k] == Written(w, k)
  }

  /** Nothing but w's transaction has written the records of w's set. */
  ghost predicate OnlyWriter(t: Table, w: Work) {
    forall k :: k in t && InSet(k) && !k.PageKey? && k.s == w.s ==> Writes(w, k)
  }

  lemma {:induction false} ImageSize(names: set<string>, f: string -> RecordKey, image: set<RecordKey>)
    requires forall a, b :: a in names && b in names && f(a) == f(b) ==> a == b
    requires image == set e | e in names :: f(e)
    ensures |image| == |names|
    decreases names
  {
    if names != {} {
      var e :| e in names;
      var rest := set x | x in names - {e} :: f(x);
      assert image == rest + {f(e)};
      ImageSize(names - {e}, f, rest);
    }
  }

  function Named(s: SetId, names: set<string>): set<RecordKey> {
    set e | e in names :: EndpointKey(s, e)
  }

  function NamedFailures(s: SetId, names: set<string>): set<RecordKey> {
    set e | e in names :: EndpointFailureKey(s, e)
  }

  lemma NamedSize(s: SetId, names: set<string>)
    ensures |Named(s, names)| == |NamedFailures(s, names)| == |names|
    ensures |Named(s, names) + NamedFailures(s, names)| == 2 * |names|
  {
    ImageSize(names, (e: string) => EndpointKey(s, e), Named(s, names));
    ImageSize(names, (e: string) => EndpointFailureKey(s, e), NamedFailures(s, names));
    assert Named(s, names) !! NamedFailures(s, names);
  }

  lemma NamedMembers(s: SetId, names: set<string>, k: RecordKey)
    ensures k in Named(s, names) <==> k.EndpointKey? && k.s == s && k.endpointId in names
    ensures k in NamedFailures(s, names) <==> k.EndpointFailureKey? && k.s == s && k.endpointId in names
  {
    assert k.EndpointKey? && k.s == s ==> k == EndpointKey(s, k.endpointId);
    assert k.EndpointFailureKey? && k.s == s ==> k == EndpointFailureKey(s, k.endpointId);
  }

  lemma EndpointMembership(t: Table, w: Work, k: RecordKey)
    requires Committed(t, w) && OnlyWriter(t, w)
    ensures k in EndpointRecords(t, w.s) <==> EndpointFamily(k, w.s) && k.endpointId in EndpointSet(w.records)
    ensures k in EndpointRows(t, w.s) <==> k in EndpointRecords(t, w.s) && k.EndpointKey?
  {
    if EndpointFamily(k, w.s) && k.endpointId in EndpointSet(w.records) {
      assert Writes(w, k);
      assert t[k] == Written(w, k);
    }
  }

  lemma EndpointRecordsAre(t: Table, w: Work)
    requires Committed(t, w) && OnlyWriter(t, w)
    ensures var es := EndpointSet(w.records);
            EndpointRows(t, w.s) == Named(w.s, es)
            && EndpointRecords(t, w.s) == Named(w.s, es) + NamedFailures(w.s, es)
  {
    var es := EndpointSet(w.records);
    forall k ensures k in EndpointRows(t, w.s) <==> k in Named(w.s, es)
             ensures k in EndpointRecords(t, w.s) <==> k in Named(w.s, es) + NamedFailures(w.s, es) {
      EndpointMembership(t, w, k);
      NamedMembers(w.s, es, k);
    }
  }

  /** The endpoint records found are the 2N written by that transaction, N of them rows. */
  lemma EndpointRecordsOf(t: Table, w: Work)
    requires Committed(t, w) && OnlyWriter(t, w)
    ensures |EndpointRows(t, w.s)| == |EndpointSet(w.records)|
    ensures |EndpointRecords(t, w.s)| == 2 * |EndpointSet(w.records)|
  {
    EndpointRecordsAre(t, w);
    NamedSize(w.s, EndpointSet(w.records));
  }

  /** A committed set is recognised. */
  lemma CommittedSetExists(t: Table, w: Work)
    requires Committed(t, w) && OnlyWriter(t, w)
    ensures SetExists(t, w.s)
  {
    EndpointRecordsOf(t, w);
    CommittedMarker(t, w);
    forall i | 0 <= i < 3 ensures Required(w.s)[i] in t {
      assert Writes(w, Required(w.s)[i]);
    }
  }

  lemma CommittedMarker(t: Table, w: Work)
    requires Committed(t, w)
    ensures SetKey(w.s) in t && t[SetKey(w.s)] == SetItem(MarkerOf(w))
  {
    assert Writes(w, SetKey(w.s));
  }

  // ---- another attempt at the same evidence ----

  lemma ScopeHashesAgree(v: Work, w: Work, scope: Scope)
    requires v.s == w.s && multiset(v.records) == multiset(w.records) && DistinctRefs(v.records)
    ensures ScopeHeader(v, scope).hash == ScopeHeader(w, scope).hash
    ensures Hashes(ScopePages(v, scope)) == Hashes(ScopePages(w, scope))
  {
    if scope.EndpointScope? {
      SelectPermutation(v.records, w.records, scope.endpointId);
      SelectDistinct(v.records, scope.endpointId);
    }
    ManifestPermutation(v.s, scope, v.job, v.createdAt, ScopeRecords(v, scope), w.job, w.createdAt, ScopeRecords(w, scope));
  }

  /** Two attempts at a set that read the same evidence, in any order, by any job, at any
      time, never stand in each other's way: pages under one key have one hash, and the
      manifests agree. */
  lemma AttemptsAgree(v: Work, w: Work, p: Placed, q: Placed)
    requires v.s == w.s && multiset(v.records) == multiset(w.records) && DistinctRefs(v.records)
    requires p in PageList(v) && q in PageList(w) && p.key == q.key
    ensures p.key.PageKey? && p.page.hash == q.page.hash
    ensures ScopeHeader(v, p.key.scope).hash == ScopeHeader(w, q.key.scope).hash
  {
    PageListShape(v, Scopes(v), p);
    PageListShape(w, Scopes(w), q);
    var scope, i := p.key.scope, p.key.index;
    ScopeHashesAgree(v, w, scope);
    assert Hashes(ScopePages(v, scope))[i] == Hashes(ScopePages(w, scope))[i];
  }
}
