/** The metadata table as the aggregation stage uses it: single-item conditional writes,
    one multi-item transaction, and the check that a complete aggregate set is present. */
module AggregationRepository {
  import opened AggregationKeys
  import opened AggregateSet
  import opened LineageManifest

  datatype Outcome = Stored | Conflicting | TooLarge

  /** The records of a transaction as a table. */
  function MapOf(records: seq<(RecordKey, Item)>): (m: Table)
    ensures forall k :: k in m <==> exists i :: 0 <= i < |records| && records[i].0 == k
  {
    if records == [] then map[]
    else
      var rest := MapOf(records[..|records| - 1]);
      var last := records[|records| - 1];
      assert forall i :: 0 <= i < |records| - 1 ==> records[i] == records[..|records| - 1][i];
      rest[last.0 := last.1]
  }

  ghost predicate DistinctKeys(records: seq<(RecordKey, Item)>) {
    forall i, j :: 0 <= i < j < |records| ==> records[i].0 != records[j].0
  }

  lemma {:induction false} MapOfAt(records: seq<(RecordKey, Item)>, i: nat)
    requires DistinctKeys(records) && i < |records|
    ensures records[i].0 in MapOf(records) && MapOf(records)[records[i].0] == records[i].1
  {
    var n := |records| - 1;
    if i < n {
      assert DistinctKeys(records[..n]);
      MapOfAt(records[..n], i);
    }
  }

  lemma {:induction false} MapOfListed(records: seq<(RecordKey, Item)>, keys: seq<RecordKey>, b: Table)
    requires |records| == |keys| && Distinct(keys)
    requires forall k :: k in keys <==> k in b
    requires forall i :: 0 <= i < |records| ==> keys[i] in b && records[i] == (keys[i], b[keys[i]])
    ensures DistinctKeys(records) && MapOf(records) == b
  {
    var m := MapOf(records);
    forall k ensures k in m <==> k in b {
      if k in b {
        var i :| 0 <= i < |keys| && keys[i] == k;
        assert records[i].0 == k;
      }
    }
    forall k | k in m ensures m[k] == b[k] {
      var i :| 0 <= i < |records| && records[i].0 == k;
      MapOfAt(records, i);
    }
  }

  /** What the emitting loops produce is, as a table, the transaction of the attempt. */
  lemma {:induction false} EmittedIsBatch(w: Work, records: seq<(RecordKey, Item)>)
    requires |records| == |ItemKeys(w)|
    requires forall i :: 0 <= i < |records| ==> EmittedAt(w, ItemKeys(w)[i], records[i])
    ensures DistinctKeys(records)
    ensures MapOf(records) == Batch(w)
  {
    ItemKeysDistinct(w);
    ItemKeysExact(w);
    var b := Batch(w);
    var keys := ItemKeys(w);
    forall i | 0 <= i < |records| ensures keys[i] in b && records[i] == (keys[i], b[keys[i]]) {
      assert EmittedAt(w, keys[i], records[i]);
    }
    MapOfListed(records, keys, b);
  }

  predicate Fits(t: Table, p: Placed) {
    p.key !in t || (t[p.key].PageItem? && t[p.key].page.hash == p.page.hash)
  }

  predicate HasPage(t: Table, p: Placed) {
    p.key in t && t[p.key].PageItem? && t[p.key].page.hash == p.page.hash
  }

  ghost predicate Extends(t: Table, u: Table) {
    forall k :: k in t ==> k in u && u[k] == t[k]
  }

  class Repository {
    var items: Table

    constructor ()
      ensures items == map[]
    {
      items := map[];
    }

    method PutOnce(key: RecordKey, item: Item) returns (ok: bool)
      modifies this
      ensures ok <==> key !in old(items)
      ensures items == if ok then old(items)[key := item] else old(items)
    {
      ok := key !in items;
      if ok {
        items := items[key := item];
      }
    }

    method UpdateJob(key: RecordKey, status: JobStatus) returns (ok: bool)
      modifies this
      ensures ok <==> key in old(items)
      ensures items == if ok then old(items)[key := JobItem(status)] else old(items)
    {
      ok := key in items;
      if ok {
        items := items[key := JobItem(status)];
      }
    }

    /** All records or none. */
    method PutRecordsOnce(records: seq<(RecordKey, Item)>) returns (o: Outcome)
      modifies this
      ensures o.TooLarge? <==> |records| > MAX_AGGREGATE_RECORDS
      ensures o.Stored? <==> |records| <= MAX_AGGREGATE_RECORDS && MapOf(records).Keys !! old(items).Keys
      ensures items == if o.Stored? then old(items) + MapOf(records) else old(items)
    {
      if |records| > MAX_AGGREGATE_RECORDS {
        return TooLarge;
      }
      var absent := true;
      for i := 0 to |records|
        invariant absent <==> forall j :: 0 <= j < i ==> records[j].0 !in items
        invariant items == old(items)
      {
        absent := absent && records[i].0 !in items;
      }
      if !absent {
        o := Conflicting;
        ghost var j :| 0 <= j < |records| && records[j].0 in items;
        assert records[j].0 in MapOf(records).Keys && records[j].0 in items.Keys;
      } else {
        items := items + MapOf(records);
        o := Stored;
      }
    }

    method AggregateSetExists(s: SetId) returns (exists_: bool)
      ensures exists_ <==> SetExists(items, s)
    {
      if SetKey(s) !in items || !items[SetKey(s)].SetItem? || !items[SetKey(s)].marker.complete {
        return false;
      }
      var marker := items[SetKey(s)].marker;
      var required := Required(s);
      var found := 0;
      for i := 0 to |required|
        invariant forall j :: 0 <= j < i ==> required[j] in items
        invariant found == if i == 0 then 0 else i - 1
      {
        if required[i] !in items {
          return false;
        }
        if !required[i].ManifestKey? {
          found := found + 1;
        }
      }
      if |EndpointRows(items, s)| != marker.endpointCount {
        return false;
      }
      found := found + |EndpointRecords(items, s)|;
      return found == marker.aggregateCount;
    }

    /** Each page is written once; a page already there must carry the same hash. The write
        fails at the first page whose key holds something else. */
    method WriteLineagePages(pages: seq<Placed>) returns (ok: bool)
      requires forall p, q :: p in pages && q in pages && p.key == q.key ==> p.page.hash == q.page.hash
      modifies this
      ensures ok <==> forall p :: p in pages ==> Fits(old(items), p)
      ensures ok ==> forall p :: p in pages ==> HasPage(items, p)
      ensures Extends(old(items), items)
      ensures forall k :: k in items && k !in old(items) ==>
                exists p :: p in pages && p.key == k && items[k] == PageItem(p.page)
    {
      for i := 0 to |pages|
        invariant forall j :: 0 <= j < i ==> HasPage(items, pages[j]) && Fits(old(items), pages[j])
        invariant Extends(old(items), items)
        invariant forall k :: k in items && k !in old(items) ==>
                    exists p :: p in pages && p.key == k && items[k] == PageItem(p.page)
      {
        var p := pages[i];
        assert p in pages;
        ghost var before := items;
        var fresh_ := PutOnce(p.key, PageItem(p.page));
        if !fresh_ {
          if !items[p.key].PageItem? || items[p.key].page.hash != p.page.hash {
            assert p.key in old(items);
            return false;
          }
        }
      }
      return true;
    }
  }
}
