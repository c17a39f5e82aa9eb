/** Lineage manifests: fixed-size hashed pages of sorted source references under a header
    whose hash commits to the page hashes. SHA-256 over canonical JSON is a constructor. */
module LineageManifest {
  import opened Wrappers
  import opened Ordering
  import opened AggregationRecords

  const LINEAGE_PAGE_SIZE: nat := 200

  /** The identity of one aggregate set. */
  datatype SetId = SetId(client: string, audit: string, exec: string, cfg: string, ver: string)

  datatype Scope = AuditScope | EndpointScope(endpointId: string)

  datatype PageBody = PageBody(set_: SetId, scope: Scope, index: nat, refs: seq<SourceRef>)

  datatype HeaderBody = HeaderBody(set_: SetId, scope: Scope, sourceRefCount: nat, pageCount: nat, pageSize: nat)

  datatype Digest = PageDigest(page: PageBody) | ManifestDigest(header: HeaderBody, pages: seq<Digest>)

  datatype Page = Page(body: PageBody, job: string, createdAt: int, hash: Digest)

  datatype Header = Header(body: HeaderBody, job: string, createdAt: int, hash: Digest)

  function Sources(records: seq<RawRecord>): (r: seq<SourceRef>)
    ensures |r| == |records|
  {
    seq(|records|, i requires 0 <= i < |records| => records[i].Source())
  }

  /** [s[i : i + size] for i in range(0, len(s), size)] */
  function Chunks<T>(s: seq<T>, size: nat): (r: seq<seq<T>>)
    requires size > 0
    decreases |s|
  {
    if s == [] then []
    else if |s| <= size then [s]
    else [s[..size]] + Chunks(s[size..], size)
  }

  function Paginate(records: seq<RawRecord>): seq<seq<RawRecord>> {
    Chunks(Ordered(records), LINEAGE_PAGE_SIZE)
  }

  function BuildPage(set_: SetId, scope: Scope, job: string, createdAt: int, index: nat, records: seq<RawRecord>): Page {
    var body := PageBody(set_, scope, index, Sources(records));
    Page(body, job, createdAt, PageDigest(body))
  }

  function Pages(set_: SetId, scope: Scope, job: string, createdAt: int, records: seq<RawRecord>): (pages: seq<Page>)
    ensures |pages| == |Paginate(records)|
  {
    var chunks := Paginate(records);
    seq(|chunks|, i requires 0 <= i < |chunks| => BuildPage(set_, scope, job, createdAt, i, chunks[i]))
  }

  function Hashes(pages: seq<Page>): (r: seq<Digest>)
    ensures |r| == |pages|
  {
    seq(|pages|, i requires 0 <= i < |pages| => pages[i].hash)
  }

  function BuildHeader(set_: SetId, scope: Scope, job: string, createdAt: int, sourceRefCount: nat, hashes: seq<Digest>): Header {
    var body := HeaderBody(set_, scope, sourceRefCount, |hashes|, LINEAGE_PAGE_SIZE);
    Header(body, job, createdAt, ManifestDigest(body, hashes))
  }

  function HeaderOf(set_: SetId, scope: Scope, job: string, createdAt: int, records: seq<RawRecord>): Header {
    BuildHeader(set_, scope, job, createdAt, |records|, Hashes(Pages(set_, scope, job, createdAt, records)))
  }

  /** The loop that builds the pages of one scope and collects their hashes. */
  method BuildLineageScope(set_: SetId, scope: Scope, job: string, createdAt: int, records: seq<RawRecord>)
    returns (header: Header, pages: seq<Page>)
    ensures pages == Pages(set_, scope, job, createdAt, records)
    ensures header == HeaderOf(set_, scope, job, createdAt, records)
  {
    var chunks := Paginate(records);
    pages := [];
    var hashes: seq<Digest> := [];
    for i := 0 to |chunks|
      invariant pages == Pages(set_, scope, job, createdAt, records)[..i]
      invariant hashes == Hashes(pages)
    {
      var page := BuildPage(set_, scope, job, createdAt, i, chunks[i]);
      pages := pages + [page];
      hashes := hashes + [page.hash];
    }
    header := BuildHeader(set_, scope, job, createdAt, |records|, hashes);
  }

  // ---- partition ----

  function Flatten<T>(parts: seq<seq<T>>): seq<T> {
    if parts == [] then [] else parts[0] + Flatten(parts[1..])
  }

  /** The pages are the records, cut after every `size`-th one; only the last page is short. */
  lemma {:induction false} ChunksPartition<T>(s: seq<T>, size: nat)
    requires size > 0
    ensures var c := Chunks(s, size);
            && Flatten(c) == s
            && (forall i :: 0 <= i < |c| - 1 ==> |c[i]| == size)
            && (c != [] ==> 0 < |c[|c| - 1]| <= size)
            && (c == [] <==> s == [])
    decreases |s|
  {
    if s != [] {
      if |s| <= size {
        assert Flatten([s]) == s + Flatten<T>([]);
      } else {
        ChunksPartition(s[size..], size);
        var c := Chunks(s[size..], size);
        assert ([s[..size]] + c)[1..] == c;
        assert s == s[..size] + s[size..];
      }
    }
  }

  /** The references stored in a page list, in order. */
  function PageRefs(pages: seq<Page>): seq<SourceRef> {
    if pages == [] then [] else pages[0].body.refs + PageRefs(pages[1..])
  }

  lemma {:induction false} PageRefsOfChunks(chunks: seq<seq<RawRecord>>, pages: seq<Page>)
    requires |pages| == |chunks|
    requires forall i :: 0 <= i < |pages| ==> pages[i].body.refs == Sources(chunks[i])
    ensures PageRefs(pages) == Sources(Flatten(chunks))
  {
    if pages != [] {
      PageRefsOfChunks(chunks[1..], pages[1..]);
    }
  }

  /** Concatenating the pages of a scope gives the sorted references of its records. */
  lemma PagesCoverRecords(set_: SetId, scope: Scope, job: string, createdAt: int, records: seq<RawRecord>)
    ensures PageRefs(Pages(set_, scope, job, createdAt, records)) == Sources(Ordered(records))
  {
    PageRefsOfChunks(Paginate(records), Pages(set_, scope, job, createdAt, records));
    ChunksPartition(Ordered(records), LINEAGE_PAGE_SIZE);
  }

  // ---- the hashes identify the evidence and nothing else ----

  lemma {:induction false} ChunksOfSources(a: seq<RawRecord>, b: seq<RawRecord>, size: nat)
    requires size > 0 && Sources(a) == Sources(b)
    ensures var c, d := Chunks(a, size), Chunks(b, size);
            |c| == |d| && forall i :: 0 <= i < |c| ==> Sources(c[i]) == Sources(d[i])
    decreases |a|
  {
    assert |a| == |b|;
    if |a| > size {
      assert Sources(a[..size]) == Sources(a)[..size] == Sources(b[..size]);
      assert Sources(a[size..]) == Sources(a)[size..] == Sources(b[size..]);
      ChunksOfSources(a[size..], b[size..], size);
    }
  }

  /** Two manifests of one scope have the same hash exactly when they list the same sorted
      references, whichever job wrote them and whenever. */
  lemma ManifestHashIdentifiesEvidence(
    set_: SetId, scope: Scope, job1: string, at1: int, a: seq<RawRecord>, job2: string, at2: int, b: seq<RawRecord>)
    ensures HeaderOf(set_, scope, job1, at1, a).hash == HeaderOf(set_, scope, job2, at2, b).hash
            <==> Sources(Ordered(a)) == Sources(Ordered(b))
  {
    var p, q := Pages(set_, scope, job1, at1, a), Pages(set_, scope, job2, at2, b);
    if Sources(Ordered(a)) == Sources(Ordered(b)) {
      ChunksOfSources(Ordered(a), Ordered(b), LINEAGE_PAGE_SIZE);
      assert Hashes(p) == Hashes(q);
      SortElements(a, RecordLe());
      SortElements(b, RecordLe());
      assert |a| == |Sources(Ordered(a))| == |b|;
    }
    if Hashes(p) == Hashes(q) {
      assert forall i :: 0 <= i < |p| ==> Hashes(p)[i] == PageDigest(p[i].body) && Hashes(q)[i] == PageDigest(q[i].body);
      SameBodies(p, q);
      PagesCoverRecords(set_, scope, job1, at1, a);
      PagesCoverRecords(set_, scope, job2, at2, b);
    }
  }

  lemma {:induction false} SameBodies(p: seq<Page>, q: seq<Page>)
    requires |p| == |q| && forall i :: 0 <= i < |p| ==> p[i].body == q[i].body
    ensures PageRefs(p) == PageRefs(q)
  {
    if p != [] {
      SameBodies(p[1..], q[1..]);
    }
  }

  /** Reading the evidence in another order, in another job, gives the same hashes. */
  lemma ManifestPermutation(
    set_: SetId, scope: Scope, job1: string, at1: int, a: seq<RawRecord>, job2: string, at2: int, b: seq<RawRecord>)
    requires multiset(a) == multiset(b) && DistinctRefs(a)
    ensures HeaderOf(set_, scope, job1, at1, a).hash == HeaderOf(set_, scope, job2, at2, b).hash
    ensures Hashes(Pages(set_, scope, job1, at1, a)) == Hashes(Pages(set_, scope, job2, at2, b))
  {
    OrderedPermutation(a, b);
    ManifestHashIdentifiesEvidence(set_, scope, job1, at1, a, job2, at2, b);
  }
}
