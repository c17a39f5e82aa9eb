/** Primary keys of the metadata table. A partition key and a sort key are '#'-joined
    fields; every identifier passes a pattern that has no '#', '/' or ':' in it. */
module AggregationKeys {
  import opened LineageManifest
  import Text

  datatype RecordKey =
    | AuditKey(client: string, audit: string)
    | IdentityKey(client: string, audit: string)
    | JobKey(client: string, audit: string, job: string)
    | RunKey(client: string, audit: string, run: string)
    | SetKey(s: SetId)
    | AuditAggregateKey(s: SetId)
    | FailureKey(s: SetId)
    | EndpointKey(s: SetId, endpointId: string)
    | EndpointFailureKey(s: SetId, endpointId: string)
    | ManifestKey(s: SetId, scope: Scope)
    | PageKey(s: SetId, scope: Scope, index: nat)

  const SEP: char := '#'

  predicate Id(s: string) {
    Text.Free(s, SEP)
  }

  predicate ValidSet(s: SetId) {
    Id(s.client) && Id(s.audit) && Id(s.exec) && Id(s.cfg) && Id(s.ver)
  }

  predicate ValidScope(scope: Scope) {
    scope.EndpointScope? ==> Id(scope.endpointId)
  }

  predicate ValidKey(k: RecordKey) {
    match k
    case AuditKey(c, a) => Id(c) && Id(a)
    case IdentityKey(c, a) => Id(c) && Id(a)
    case JobKey(c, a, j) => Id(c) && Id(a) && Id(j)
    case RunKey(c, a, r) => Id(c) && Id(a) && Id(r)
    case SetKey(s) => ValidSet(s)
    case AuditAggregateKey(s) => ValidSet(s)
    case FailureKey(s) => ValidSet(s)
    case EndpointKey(s, e) => ValidSet(s) && Id(e)
    case EndpointFailureKey(s, e) => ValidSet(s) && Id(e)
    case ManifestKey(s, scope) => ValidSet(s) && ValidScope(scope)
    case PageKey(s, scope, _) => ValidSet(s) && ValidScope(scope)
  }

  function ScopeText(scope: Scope): string {
    match scope
    case AuditScope => "audit"
    case EndpointScope(e) => "endpoint:" + e
  }

  /** The keys that carry the prefix of one aggregate set. */
  predicate InSet(k: RecordKey) {
    !k.AuditKey? && !k.IdentityKey? && !k.JobKey? && !k.RunKey?
  }

  function Client(k: RecordKey): string {
    if InSet(k) then k.s.client else k.client
  }

  /** aggregate_prefix, as fields */
  function Prefix(s: SetId): seq<string> {
    ["AUDIT", s.audit, "EXEC", s.exec, "CFG", s.cfg, "AGG", s.ver]
  }

  function Tail(k: RecordKey): (f: seq<string>)
    requires InSet(k)
    ensures |f| > 0
  {
    match k
    case SetKey(_) => ["SET"]
    case AuditAggregateKey(_) => ["AUDIT"]
    case FailureKey(_) => ["FAILURE_CLASSIFICATION"]
    case EndpointKey(_, e) => ["ENDPOINT", e]
    case EndpointFailureKey(_, e) => ["ENDPOINT", e, "FAILURE_CLASSIFICATION"]
    case ManifestKey(_, scope) => ["LINEAGE", ScopeText(scope)]
    case PageKey(_, scope, i) => ["LINEAGE", ScopeText(scope), "PAGE", Text.Decimal(i)]
  }

  function Fields(k: RecordKey): (f: seq<string>)
    ensures |f| > 0
  {
    if InSet(k) then Prefix(k.s) + Tail(k)
    else
      match k
      case AuditKey(_, a) => ["AUDIT", a]
      case IdentityKey(_, a) => ["AUDIT", a, "EXECUTION_ID"]
      case JobKey(_, a, j) => ["AUDIT", a, "AGGJOB", j]
      case RunKey(_, a, r) => ["AUDIT", a, "RUN", r]
  }

  function PartitionKey(k: RecordKey): string {
    Text.Join(["CLIENT", Client(k)], SEP)
  }

  function SortKey(k: RecordKey): string {
    Text.Join(Fields(k), SEP)
  }

  lemma ScopeTextInjective(a: Scope, b: Scope)
    requires ScopeText(a) == ScopeText(b)
    ensures a == b
  {
    if a.EndpointScope? && b.EndpointScope? {
      assert a.endpointId == ScopeText(a)[9..] == ScopeText(b)[9..] == b.endpointId;
    } else {
      assert ScopeText(a)[0] == ScopeText(b)[0];
    }
  }

  lemma FieldsFree(k: RecordKey)
    requires ValidKey(k)
    ensures Text.AllFree(Fields(k), SEP)
  {
    if InSet(k) {
      TailFree(k);
      PrefixFree(k.s);
    }
  }

  lemma PrefixFree(s: SetId)
    requires ValidSet(s)
    ensures Text.AllFree(Prefix(s), SEP)
  {
  }

  lemma TailFree(k: RecordKey)
    requires ValidKey(k) && InSet(k)
    ensures Text.AllFree(Tail(k), SEP) && ValidSet(k.s)
  {
    if k.PageKey? {
      Text.DecimalFree(k.index, SEP);
    }
  }

  lemma PrefixPart(s: SetId, t: SetId, x: seq<string>, y: seq<string>)
    requires Prefix(s) + x == Prefix(t) + y
    ensures s.audit == t.audit && s.exec == t.exec && s.cfg == t.cfg && s.ver == t.ver && x == y
  {
    var f := Prefix(s) + x;
    assert f[1] == s.audit && f[3] == s.exec && f[5] == s.cfg && f[7] == s.ver;
    var g := Prefix(t) + y;
    assert g[1] == t.audit && g[3] == t.exec && g[5] == t.cfg && g[7] == t.ver;
    assert x == f[8..] == g[8..] == y;
  }

  lemma TailInjective(j: RecordKey, k: RecordKey)
    requires InSet(j) && InSet(k) && j.s == k.s && Tail(j) == Tail(k)
    ensures j == k
  {
    var t := Tail(j);
    assert t[0] == Tail(k)[0];
    if t[0] == "LINEAGE" {
      ScopeTextInjective(j.scope, k.scope);
      if j.PageKey? {
        assert Text.Decimal(j.index) == t[3] == Tail(k)[3] == Text.Decimal(k.index);
        Text.DecimalInjective(j.index, k.index);
      }
    } else if |t| > 1 {
      assert t[1] == Tail(k)[1];
    }
  }

  lemma FieldsInjective(j: RecordKey, k: RecordKey)
    requires Client(j) == Client(k) && Fields(j) == Fields(k)
    ensures j == k
  {
    var f := Fields(j);
    assert |f| == |Fields(k)|;
    if InSet(j) {
      PrefixPart(j.s, k.s, Tail(j), Tail(k));
      TailInjective(j, k);
    } else {
      assert f[1] == Fields(k)[1] == j.audit;
      assert |f| == 4 ==> f[2] == Fields(k)[2] && f[3] == Fields(k)[3];
    }
  }

  /** Two records share a primary key only when they are the same record: built sort keys
      are pairwise distinct, and disjoint from the page keys. */
  lemma KeysDistinct(j: RecordKey, k: RecordKey)
    requires ValidKey(j) && ValidKey(k)
    ensures PartitionKey(j) == PartitionKey(k) && SortKey(j) == SortKey(k) <==> j == k
  {
    if PartitionKey(j) == PartitionKey(k) && SortKey(j) == SortKey(k) {
      Text.JoinInjective(["CLIENT", Client(j)], ["CLIENT", Client(k)], SEP);
      assert Client(j) == ["CLIENT", Client(j)][1] == ["CLIENT", Client(k)][1] == Client(k);
      FieldsFree(j);
      FieldsFree(k);
      Text.JoinInjective(Fields(j), Fields(k), SEP);
      FieldsInjective(j, k);
    }
  }

  /** The keys a query for the endpoint records of a set must return. */
  predicate EndpointFamily(k: RecordKey, s: SetId) {
    (k.EndpointKey? || k.EndpointFailureKey?) && k.s == s
  }

  lemma EndpointFields(k: RecordKey, s: SetId)
    requires Client(k) == s.client
    ensures 9 < |Fields(k)| && Fields(k)[..9] == Prefix(s) + ["ENDPOINT"] <==> EndpointFamily(k, s)
  {
    var f := Fields(k);
    assert EndpointFamily(k, s) ==> f[..9] == Prefix(s) + ["ENDPOINT"];
    if 9 < |f| && f[..9] == Prefix(s) + ["ENDPOINT"] {
      assert InSet(k);
      assert f == Prefix(s) + (["ENDPOINT"] + f[9..]);
      PrefixPart(k.s, s, Tail(k), ["ENDPOINT"] + f[9..]);
      assert Tail(k)[0] == "ENDPOINT";
    }
  }

  /** begins_with(SK, prefix + "#ENDPOINT#") selects exactly the endpoint records of that
      set: no other set, scope or record kind matches. */
  lemma EndpointQueryExact(k: RecordKey, s: SetId)
    requires ValidKey(k) && ValidSet(s)
    ensures PartitionKey(k) == Text.Join(["CLIENT", s.client], SEP)
            && Text.StartsWith(SortKey(k), Text.Join(Prefix(s) + ["ENDPOINT"], SEP) + [SEP])
            <==> EndpointFamily(k, s)
  {
    FieldsFree(k);
    var p := Prefix(s) + ["ENDPOINT"];
    assert Text.AllFree(p, SEP);
    Text.StartsWithJoin(Fields(k), p, SEP);
    SamePartition(Client(k), s.client);
    if Client(k) == s.client {
      EndpointFields(k, s);
    }
  }

  lemma SamePartition(c: string, d: string)
    requires Id(c) && Id(d)
    ensures Text.Join(["CLIENT", c], SEP) == Text.Join(["CLIENT", d], SEP) <==> c == d
  {
    if Text.Join(["CLIENT", c], SEP) == Text.Join(["CLIENT", d], SEP) {
      Text.JoinInjective(["CLIENT", c], ["CLIENT", d], SEP);
      assert c == ["CLIENT", c][1] == ["CLIENT", d][1] == d;
    }
  }

  /** begins_with(SK, "AUDIT#a#RUN#") selects exactly the run records of the audit. */
  lemma RunQueryExact(k: RecordKey, client: string, audit: string)
    requires ValidKey(k) && Id(client) && Id(audit)
    ensures PartitionKey(k) == Text.Join(["CLIENT", client], SEP)
            && Text.StartsWith(SortKey(k), Text.Join(["AUDIT", audit, "RUN"], SEP) + [SEP])
            <==> k.RunKey? && k.client == client && k.audit == audit
  {
    FieldsFree(k);
    var p := ["AUDIT", audit, "RUN"];
    Text.StartsWithJoin(Fields(k), p, SEP);
    SamePartition(Client(k), client);
    RunFields(k, audit);
  }

  lemma RunFields(k: RecordKey, audit: string)
    ensures 3 < |Fields(k)| && Fields(k)[..3] == ["AUDIT", audit, "RUN"] <==> k.RunKey? && k.audit == audit
  {
    var f := Fields(k);
    if 3 < |f| && f[..3] == ["AUDIT", audit, "RUN"] {
      assert f[1] == f[..3][1] && f[2] == f[..3][2];
    }
  }
}
