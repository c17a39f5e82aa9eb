/** What holds in every state that any interleaving of aggregation runs can reach. */
module AggregationSafety {
  import opened Wrappers
  import opened AggregationRecords
  import opened LineageManifest
  import opened AggregationKeys
  import opened AggregateSet
  import opened AggregationRepository
  import opened AggregationCommit

  // ---- the invariant ----

  /** The first n pages of the attempt are stored, each with the attempt's hash. */
  ghost predicate Held(t: Table, w: Work, n: nat) {
    forall i :: 0 <= i < n && i < |PageList(w)| ==> HasPage(t, PageList(w)[i])
  }

  /** Some set of this audit is complete. */
  ghost predicate AuditDone(st: State, client: string, audit: string) {
    exists s :: s in st.commits && s.client == client && s.audit == audit
  }

  predicate Successful(status: JobStatus) {
    status.Completed? || status.DuplicateCompleted?
  }

  /** Every item is of its key's kind, a page hashes its own body, and the other records of a
      set are there only by a transaction. */
  ghost predicate KindOk(st: State, k: RecordKey)
    requires k in st.table
  {
    match k
    case JobKey(c, a, _) => st.table[k].JobItem? && (Successful(st.table[k].status) ==> AuditDone(st, c, a))
    case IdentityKey(_, _) => st.table[k].IdentityItem?
    case PageKey(_, _, _) => st.table[k].PageItem? && st.table[k].page.hash == PageDigest(st.table[k].page.body)
    case AuditKey(_, _) => false
    case RunKey(_, _, _) => false
    case _ => k.s in st.commits
  }

  ghost predicate CommitOk(st: State, s: SetId)
    requires s in st.commits
  {
    var w := st.commits[s];
    && w.s == s
    && Accepted(w)
    && Committed(st.table, w)
    && OnlyWriter(st.table, w)
    && Held(st.table, w, |PageList(w)|)
  }

  ghost predicate StatusOk(st: State, k: RecordKey, status: JobStatus) {
    k.JobKey? && (Successful(status) ==> AuditDone(st, k.client, k.audit))
  }

  /** `exec` is the one identity of the audit. */
  ghost predicate Agreed(st: State, e: Event, exec: string) {
    if (e.client, e.audit) in st.audits then st.audits[(e.client, e.audit)] == exec
    else IdentityOf(e) in st.table && st.table[IdentityOf(e)] == IdentityItem(exec)
  }

  ghost predicate SetOfEvent(e: Event, s: SetId) {
    s.client == e.client && s.audit == e.audit && s.ver == e.ver
  }

  ghost predicate AfterOk(st: State, s: SetId, after: Option<Work>) {
    after.Some? ==> s in st.commits
  }

  ghost predicate MarkerOk(st: State, s: SetId, m: Marker) {
    s in st.commits && m == MarkerOf(st.commits[s])
  }

  ghost predicate VerdictOk(st: State, e: Event, v: Verdict) {
    && (v.s.Some? ==> SetOfEvent(e, v.s.value))
    && (v.status.Completed? ==> v.s.Some? && v.s.value in st.commits && st.commits[v.s.value].job == e.job)
    && (v.status.DuplicateCompleted? && v.s.Some? ==> v.s.value in st.commits)
    && (Successful(v.status) ==> AuditDone(st, e.client, e.audit))
    && (v.reason.SetIncomplete? ==> !st.consistent)
  }

  ghost predicate Attempt(st: State, p: Proc, w: Work, n: nat) {
    Accepted(w) && w.job == p.event.job && SetOfEvent(p.event, w.s) && Held(st.table, w, n)
  }

  ghost predicate PcOk(st: State, p: Proc) {
    match p.pc
    case ReadIdentity(_) => (p.event.client, p.event.audit) !in st.audits
    case PutIdentity(_) => (p.event.client, p.event.audit) !in st.audits
    case ReReadIdentity(_) => (p.event.client, p.event.audit) !in st.audits
    case SaveIdentity(exec, _) => p.resolved == Some(exec)
    case CheckMarker(s, after) => SetOfEvent(p.event, s) && AfterOk(st, s, after)
    case CheckRequired(s, m, i, after) => SetOfEvent(p.event, s) && MarkerOk(st, s, m) && i < 3
    case CheckQuery(s, m, after) => SetOfEvent(p.event, s) && MarkerOk(st, s, m)
    case Load(s) => SetOfEvent(p.event, s)
    case WritePages(w, i) => Attempt(st, p, w, i)
    case ReadPage(w, i) => Attempt(st, p, w, i)
    case Commit(w) => Attempt(st, p, w, |PageList(w)|)
    case Finish(v) => VerdictOk(st, p.event, v)
    case Done(v) => VerdictOk(st, p.event, v)
    case _ => true
  }

  ghost predicate ProcOk(st: State, p: Proc) {
    PcOk(st, p) && (p.resolved.Some? ==> Agreed(st, p.event, p.resolved.value))
  }

  ghost predicate StoreOk(st: State) {
    && (forall k :: k in st.table ==> KindOk(st, k))
    && (forall s :: s in st.commits ==> CommitOk(st, s))
    && (forall k, status :: (k, status) in st.statuses ==> StatusOk(st, k, status))
  }

  ghost predicate Inv(st: State) {
    StoreOk(st) && forall i :: i in st.procs ==> ProcOk(st, st.procs[i])
  }

  // ---- stored facts are stable ----

  /** Records other than job records are written once and never change. */
  ghost predicate Grows(st: State, u: State) {
    && (forall k :: k in st.table ==> k in u.table)
    && (forall k :: k in st.table && !k.JobKey? ==> u.table[k] == st.table[k])
    && (forall s :: s in st.commits ==> s in u.commits && u.commits[s] == st.commits[s])
    && u.audits == st.audits && u.consistent == st.consistent
  }

  lemma HeldStable(st: State, u: State, w: Work, n: nat)
    requires Grows(st, u) && Held(st.table, w, n)
    requires forall i :: 0 <= i < |PageList(w)| ==> PageList(w)[i].key.PageKey?
    ensures Held(u.table, w, n)
  {
  }

  lemma PageListKeys(w: Work)
    ensures forall i :: 0 <= i < |PageList(w)| ==>
              PageList(w)[i].key.PageKey? && PageList(w)[i].page.hash == PageDigest(PageList(w)[i].page.body)
  {
    var pages := PageList(w);
    forall i | 0 <= i < |pages| ensures pages[i].key.PageKey? && pages[i].page.hash == PageDigest(pages[i].page.body) {
      assert pages[i] in pages;
      PageListShape(w, Scopes(w), pages[i]);
    }
  }

  lemma AuditDoneStable(st: State, u: State, client: string, audit: string)
    requires Grows(st, u) && AuditDone(st, client, audit)
    ensures AuditDone(u, client, audit)
  {
  }

  lemma AttemptStable(st: State, u: State, p: Proc, w: Work, n: nat)
    requires Grows(st, u) && Attempt(st, p, w, n)
    ensures Attempt(u, p, w, n)
  {
    PageListKeys(w);
    HeldStable(st, u, w, n);
  }

  lemma VerdictStable(st: State, u: State, e: Event, v: Verdict)
    requires Grows(st, u) && VerdictOk(st, e, v)
    ensures VerdictOk(u, e, v)
  {
    if Successful(v.status) {
      AuditDoneStable(st, u, e.client, e.audit);
    }
  }

  lemma ProcStable(st: State, u: State, p: Proc)
    requires Grows(st, u) && ProcOk(st, p)
    ensures ProcOk(u, p)
  {
    match p.pc
    case WritePages(w, i) => AttemptStable(st, u, p, w, i);
    case ReadPage(w, i) => AttemptStable(st, u, p, w, i);
    case Commit(w) => AttemptStable(st, u, p, w, |PageList(w)|);
    case Finish(v) => VerdictStable(st, u, p.event, v);
    case Done(v) => VerdictStable(st, u, p.event, v);
    case _ =>
  }

  // ---- effects keep the store in order ----

  ghost predicate EffectOk(st: State, e: Effect) {
    match e
    case Nothing => true
    case RecordJob(k, status) => StatusOk(st, k, status)
    case AddIdentity(k, _) => k.IdentityKey? && k !in st.table
    case AddPage(placed) =>
      placed.key.PageKey? && placed.key !in st.table && placed.page.hash == PageDigest(placed.page.body)
    case AddBatch(w) => Accepted(w) && !Blocked(st.table, w) && Held(st.table, w, |PageList(w)|)
  }

  /** A transaction that is not blocked is the first of its set. */
  lemma Unblocked(st: State, w: Work)
    requires StoreOk(st) && !Blocked(st.table, w)
    ensures w.s !in st.commits
  {
    assert Writes(w, SetKey(w.s)) && SetKey(w.s) in Batch(w);
    assert SetKey(w.s) !in st.table;
    assert w.s in st.commits ==> CommitOk(st, w.s) && Writes(st.commits[w.s], SetKey(w.s));
  }

  /** A blocked one finds its set complete. */
  lemma BlockedMeansDone(st: State, w: Work)
    requires StoreOk(st) && Blocked(st.table, w)
    ensures w.s in st.commits
  {
    var k :| Writes(w, k) && k in st.table;
    assert KindOk(st, k);
  }

  lemma EffectGrows(st: State, e: Effect)
    requires StoreOk(st) && EffectOk(st, e)
    ensures Grows(st, Affected(st, e))
  {
    if e.AddBatch? {
      Unblocked(st, e.w);
    }
  }

  lemma KindKept(st: State, e: Effect, k: RecordKey)
    requires StoreOk(st) && EffectOk(st, e) && k in Affected(st, e).table
    ensures KindOk(Affected(st, e), k)
  {
    EffectGrows(st, e);
    var u := Affected(st, e);
    if k.JobKey? {
      JobKindKept(st, e, k);
    } else if k in st.table {
      assert KindOk(st, k);
    } else if e.AddBatch? {
      assert k in Batch(e.w) && Writes(e.w, k);
    }
  }

  lemma JobKindKept(st: State, e: Effect, k: RecordKey)
    requires StoreOk(st) && EffectOk(st, e) && k in Affected(st, e).table && k.JobKey?
    requires Grows(st, Affected(st, e))
    ensures KindOk(Affected(st, e), k)
  {
    var u := Affected(st, e);
    assert e.AddBatch? && k in Batch(e.w) ==> Writes(e.w, k);
    assert k in st.table ==> KindOk(st, k);
    if AuditDone(st, k.client, k.audit) {
      AuditDoneStable(st, u, k.client, k.audit);
    }
  }

  lemma StatusKept(st: State, e: Effect, k: RecordKey, status: JobStatus)
    requires StoreOk(st) && EffectOk(st, e) && (k, status) in Affected(st, e).statuses
    ensures StatusOk(Affected(st, e), k, status)
  {
    EffectGrows(st, e);
    assert StatusOk(st, k, status);
    if Successful(status) {
      AuditDoneStable(st, Affected(st, e), k.client, k.audit);
    }
  }

  lemma CommittedStable(st: State, u: State, w: Work)
    requires Grows(st, u) && Committed(st.table, w)
    ensures Committed(u.table, w)
  {
    forall k | Writes(w, k) ensures k in u.table && u.table[k] == Written(w, k) {
      assert k in st.table;
    }
  }

  lemma OldCommitKept(st: State, e: Effect, s: SetId)
    requires StoreOk(st) && EffectOk(st, e) && s in st.commits
    ensures CommitOk(Affected(st, e), s)
  {
    EffectGrows(st, e);
    var u, w := Affected(st, e), st.commits[s];
    assert CommitOk(st, s);
    PageListKeys(w);
    HeldStable(st, u, w, |PageList(w)|);
    CommittedStable(st, u, w);
    OnlyWriterKept(st, e, w);
  }

  lemma OnlyWriterKept(st: State, e: Effect, w: Work)
    requires StoreOk(st) && EffectOk(st, e) && w.s in st.commits && OnlyWriter(st.table, w)
    ensures OnlyWriter(Affected(st, e).table, w)
  {
    if e.AddBatch? {
      Unblocked(st, e.w);
      forall k | k in Batch(e.w) ensures k.s != w.s || !InSet(k) {
        assert Writes(e.w, k);
      }
    }
  }

  lemma NewCommitOk(st: State, w: Work)
    requires StoreOk(st) && EffectOk(st, AddBatch(w))
    ensures CommitOk(Affected(st, AddBatch(w)), w.s)
  {
    var u := Affected(st, AddBatch(w));
    EffectGrows(st, AddBatch(w));
    Unblocked(st, w);
    PageListKeys(w);
    HeldStable(st, u, w, |PageList(w)|);
    forall k | Writes(w, k) ensures k in u.table && u.table[k] == Written(w, k) {
      assert k in Batch(w);
    }
    forall k | k in u.table && InSet(k) && !k.PageKey? && k.s == w.s ensures Writes(w, k) {
      assert k in st.table ==> KindOk(st, k);
    }
  }

  lemma StoreKept(st: State, e: Effect)
    requires StoreOk(st) && EffectOk(st, e)
    ensures StoreOk(Affected(st, e))
  {
    var u := Affected(st, e);
    forall k | k in u.table ensures KindOk(u, k) { KindKept(st, e, k); }
    forall k, status | (k, status) in u.statuses ensures StatusOk(u, k, status) { StatusKept(st, e, k, status); }
    forall s | s in u.commits ensures CommitOk(u, s) {
      if s in st.commits {
        OldCommitKept(st, e, s);
      } else {
        NewCommitOk(st, e.w);
      }
    }
  }

  // ---- every step keeps the invariant ----

  ghost function EffectOfStep(st: State, p: Proc, a: Answer): Effect {
    if a.Ack? || a.ErrorAfter? then EffectOf(p, st.table) else Nothing
  }

  lemma StepEffectOk(st: State, p: Proc)
    requires StoreOk(st) && ProcOk(st, p)
    ensures EffectOk(st, EffectOf(p, st.table))
  {
    match p.pc
    case WritePages(w, i) => PageListKeys(w);
    case _ =>
  }

  lemma IdentityAgreed(st: State, e: Event, item: Option<Item>)
    requires StoreOk(st) && MaySee(st, IdentityOf(e), item) && (e.client, e.audit) !in st.audits
    ensures item.Some? ==> item.value.IdentityItem? && Agreed(st, e, item.value.exec)
  {
    if item.Some? {
      assert KindOk(st, IdentityOf(e));
    }
  }

  lemma AfterErrorOk(st: State, p: Proc)
    requires ProcOk(st, p)
    ensures ProcOk(st, p.(pc := OnError(p)))
  {
  }

  lemma CommitAckOk(st: State, p: Proc)
    requires StoreOk(st) && ProcOk(st, p) && p.pc.Commit?
    requires ProcOk(Affected(st, EffectOf(p, st.table)), p)
    ensures ProcOk(Affected(st, EffectOf(p, st.table)), AfterAck(p, st.table))
  {
    var w := p.pc.w;
    if Blocked(st.table, w) {
      BlockedMeansDone(st, w);
    } else {
      assert w.s in Affected(st, AddBatch(w)).commits;
    }
  }

  lemma WriteAckOk(st: State, p: Proc)
    requires StoreOk(st) && ProcOk(st, p) && p.pc.WritePages?
    requires ProcOk(Affected(st, EffectOf(p, st.table)), p)
    ensures ProcOk(Affected(st, EffectOf(p, st.table)), AfterAck(p, st.table))
  {
    var w, i := p.pc.w, p.pc.i;
    var u := Affected(st, EffectOf(p, st.table));
    if i < |PageList(w)| {
      if PageList(w)[i].key !in st.table {
        HeldMore(u.table, w, i);
      }
    } else {
      HeldAll(u.table, w, i);
    }
  }

  lemma HeldMore(t: Table, w: Work, i: nat)
    requires Held(t, w, i) && i < |PageList(w)| && HasPage(t, PageList(w)[i])
    ensures Held(t, w, i + 1)
  {
  }

  lemma HeldAll(t: Table, w: Work, i: nat)
    requires Held(t, w, i) && i >= |PageList(w)|
    ensures Held(t, w, |PageList(w)|)
  {
  }

  lemma AckOk(st: State, p: Proc)
    requires StoreOk(st) && ProcOk(st, p)
    requires ProcOk(Affected(st, EffectOf(p, st.table)), p)
    ensures ProcOk(Affected(st, EffectOf(p, st.table)), AfterAck(p, st.table))
  {
    match p.pc
    case Commit(_) => CommitAckOk(st, p);
    case WritePages(_, _) => WriteAckOk(st, p);
    case PutIdentity(_) => IdentityAckOk(st, p);
    case _ => SimpleAckOk(st.table, p, Affected(st, EffectOf(p, st.table)));
  }

  lemma IdentityAckOk(st: State, p: Proc)
    requires ProcOk(st, p) && p.pc.PutIdentity?
    ensures ProcOk(Affected(st, EffectOf(p, st.table)), AfterAck(p, st.table))
  {
  }

  /** The other writes only move the run on. */
  lemma SimpleAckOk(t: Table, p: Proc, u: State)
    requires !p.pc.Commit? && !p.pc.WritePages? && !p.pc.PutIdentity? && ProcOk(u, p)
    ensures ProcOk(u, AfterAck(p, t))
  {
  }

  /** What a stored marker says. */
  lemma MarkerStored(st: State, s: SetId)
    requires StoreOk(st)
    ensures SetKey(s) in st.table <==> s in st.commits
    ensures s in st.commits ==> st.table[SetKey(s)] == SetItem(MarkerOf(st.commits[s]))
    ensures s in st.commits ==> forall i :: 0 <= i < 3 ==> Required(s)[i] in st.table
  {
    assert SetKey(s) in st.table ==> KindOk(st, SetKey(s));
    if s in st.commits {
      assert CommitOk(st, s);
      CommittedMarker(st.table, st.commits[s]);
      CommittedRequired(st.table, st.commits[s]);
    }
  }

  lemma CommittedRequired(t: Table, w: Work)
    requires Committed(t, w)
    ensures forall i :: 0 <= i < 3 ==> Required(w.s)[i] in t
  {
    forall i | 0 <= i < 3 ensures Required(w.s)[i] in t {
      assert Writes(w, Required(w.s)[i]);
    }
  }

  lemma MissingOk(st: State, p: Proc, s: SetId, after: Option<Work>)
    requires ProcOk(st, p) && SetOfEvent(p.event, s) && (after.Some? ==> !st.consistent)
    ensures ProcOk(st, p.(pc := AfterMissing(s, after)))
  {
  }

  lemma MarkerSeenOk(st: State, p: Proc, item: Option<Item>)
    requires StoreOk(st) && ProcOk(st, p) && p.pc.CheckMarker? && MaySee(st, SetKey(p.pc.s), item)
    ensures ProcOk(st, AfterSeen(p, item))
  {
    var s, after := p.pc.s, p.pc.after;
    MarkerStored(st, s);
    if s in st.commits && item == Some(SetItem(MarkerOf(st.commits[s]))) {
      assert AfterSeen(p, item) == p.(pc := CheckRequired(s, MarkerOf(st.commits[s]), 0, after));
    } else {
      assert item.None? && (after.Some? ==> !st.consistent);
      MissingOk(st, p, s, after);
    }
  }

  lemma RequiredSeenOk(st: State, p: Proc, item: Option<Item>)
    requires StoreOk(st) && ProcOk(st, p) && p.pc.CheckRequired? && MaySee(st, Required(p.pc.s)[p.pc.i], item)
    ensures ProcOk(st, AfterSeen(p, item))
  {
    MarkerStored(st, p.pc.s);
  }

  lemma PageSeenOk(st: State, p: Proc, item: Option<Item>)
    requires StoreOk(st) && ProcOk(st, p) && p.pc.ReadPage? && p.pc.i < |PageList(p.pc.w)|
    requires MaySee(st, PageList(p.pc.w)[p.pc.i].key, item)
    ensures ProcOk(st, AfterSeen(p, item))
  {
    var w, i := p.pc.w, p.pc.i;
    PageListKeys(w);
    if item.Some? && item.value.PageItem? && item.value.page.hash == PageList(w)[i].page.hash {
      HeldMore(st.table, w, i);
    }
  }

  lemma JobSeenOk(st: State, p: Proc, item: Option<Item>)
    requires StoreOk(st) && ProcOk(st, p) && (p.pc.ReadJob? || p.pc.ReReadJob?) && MaySee(st, JobOf(p.event), item)
    ensures ProcOk(st, AfterSeen(p, item))
  {
    var k := JobOf(p.event);
    assert k in st.table ==> KindOk(st, k);
    assert item.Some? && item.value.JobItem? && (k, item.value.status) in st.statuses ==> StatusOk(st, k, item.value.status);
  }

  lemma SeenOk(st: State, p: Proc, item: Option<Item>)
    requires StoreOk(st) && ProcOk(st, p) && Legal(st, p, Seen(item))
    ensures ProcOk(st, AfterSeen(p, item))
  {
    match p.pc
    case ReadIdentity(_) => IdentityAgreed(st, p.event, item);
    case ReReadIdentity(_) => IdentityAgreed(st, p.event, item);
    case CheckMarker(_, _) => MarkerSeenOk(st, p, item);
    case CheckRequired(_, _, _, _) => RequiredSeenOk(st, p, item);
    case ReadPage(_, _) => PageSeenOk(st, p, item);
    case _ => JobSeenOk(st, p, item);
  }

  /** A consistent query over a complete set always agrees with its marker. */
  lemma QueryAgrees(st: State, s: SetId)
    requires StoreOk(st) && s in st.commits
    ensures CountsAgree(st.table, s, MarkerOf(st.commits[s]))
  {
    assert CommitOk(st, s);
    EndpointRecordsOf(st.table, st.commits[s]);
  }

  lemma FoundOk(st: State, p: Proc, keys: set<RecordKey>)
    requires StoreOk(st) && ProcOk(st, p) && Legal(st, p, Found(keys))
    ensures ProcOk(st, Advance(st, p, Found(keys)))
  {
    var s, m, after := p.pc.s, p.pc.marker, p.pc.after;
    assert AuditDone(st, p.event.client, p.event.audit);
    var q := AfterQuery(st.table, s, m, after, keys);
    if q == Finish(Verdict(DuplicateCompleted, NoReason, Some(s))) {
      assert ProcOk(st, p.(pc := q));
    } else {
      if st.consistent {
        FreshQueryAgrees(st, s, m, after, keys);
      }
      MissingOk(st, p, s, after);
    }
  }

  lemma FreshQueryAgrees(st: State, s: SetId, m: Marker, after: Option<Work>, keys: set<RecordKey>)
    requires StoreOk(st) && MarkerOk(st, s, m) && keys == EndpointRecords(st.table, s)
    ensures AfterQuery(st.table, s, m, after, keys) == Finish(Verdict(DuplicateCompleted, NoReason, Some(s)))
  {
    QueryAgrees(st, s);
    assert EndpointRows(st.table, s) ==
           set k | k in keys && k in st.table && st.table[k].AggregateItem? && st.table[k].row.EndpointRow?;
  }

  lemma OtherOk(st: State, p: Proc, a: Answer)
    requires StoreOk(st) && ProcOk(st, p) && Legal(st, p, a) && (a.SeenAudit? || a.Evidence? || a.NotEligible?)
    ensures ProcOk(st, Advance(st, p, a))
  {
  }

  lemma ProcMoves(st: State, p: Proc, a: Answer)
    requires StoreOk(st) && ProcOk(st, p) && Legal(st, p, a)
    ensures EffectOk(st, EffectOfStep(st, p, a))
    ensures ProcOk(Affected(st, EffectOfStep(st, p, a)), Advance(st, p, a))
  {
    var e := EffectOfStep(st, p, a);
    StepEffectOk(st, p);
    EffectGrows(st, e);
    ProcStable(st, Affected(st, e), p);
    ProcLands(st, p, a, e, Affected(st, e));
  }

  lemma ProcLands(st: State, p: Proc, a: Answer, e: Effect, u: State)
    requires StoreOk(st) && ProcOk(st, p) && Legal(st, p, a)
    requires e == EffectOfStep(st, p, a) && u == Affected(st, e) && ProcOk(u, p)
    ensures ProcOk(u, Advance(st, p, a))
  {
    match a
    case Error => AfterErrorOk(u, p);
    case ErrorAfter => AfterErrorOk(u, p);
    case Ack => AckOk(st, p);
    case Seen(item) => SeenOk(st, p, item);
    case Found(keys) => FoundOk(st, p, keys);
    case _ => OtherOk(st, p, a);
  }

  lemma ProcOkOnStore(st: State, u: State, p: Proc)
    requires ProcOk(st, p)
    requires u.table == st.table && u.commits == st.commits && u.audits == st.audits && u.consistent == st.consistent
    ensures ProcOk(u, p)
  {
    ProcStable(st, u, p);
  }

  lemma StoreOkOnStore(st: State, u: State)
    requires StoreOk(st) && u == st.(procs := u.procs)
    ensures StoreOk(u)
  {
    forall k | k in u.table ensures KindOk(u, k) { assert KindOk(st, k); }
    forall s | s in u.commits ensures CommitOk(u, s) { assert CommitOk(st, s); }
    forall k, status | (k, status) in u.statuses ensures StatusOk(u, k, status) { assert StatusOk(st, k, status); }
  }

  lemma OthersKept(st: State, e: Effect)
    requires Inv(st) && EffectOk(st, e)
    ensures Inv(Affected(st, e))
  {
    var u := Affected(st, e);
    StoreKept(st, e);
    EffectGrows(st, e);
    forall i | i in u.procs ensures ProcOk(u, u.procs[i]) { ProcStable(st, u, st.procs[i]); }
  }

  lemma StepKeepsInv(st: State, a: Action)
    requires Inv(st)
    ensures Inv(Next(st, a))
  {
    match a
    case Trigger(client, audit, job, status) =>
      if Claimable(status) {
        OthersKept(st, RecordJob(JobKey(client, audit, job), status));
      }
    case Run(i, answer) =>
      if i in st.procs && Legal(st, st.procs[i], answer) {
        RunKeepsInv(st, i, answer);
      }
  }

  lemma RunKeepsInv(st: State, i: nat, a: Answer)
    requires Inv(st) && i in st.procs && Legal(st, st.procs[i], a)
    ensures Inv(Next(st, Run(i, a)))
  {
    var p := st.procs[i];
    var e := EffectOfStep(st, p, a);
    ProcMoves(st, p, a);
    OthersKept(st, e);
    var u := Affected(st, e);
    var v := Next(st, Run(i, a));
    assert v == u.(procs := st.procs[i := Advance(st, p, a)]);
    StoreOkOnStore(u, v);
    forall j | j in v.procs ensures ProcOk(v, v.procs[j]) {
      ProcOkOnStore(u, v, v.procs[j]);
    }
  }

  lemma {:induction false} Reachable(st: State, actions: seq<Action>)
    requires Initial(st)
    ensures Inv(Exec(st, actions))
    decreases |actions|
  {
    if actions != [] {
      Reachable(st, actions[..|actions| - 1]);
      StepKeepsInv(Exec(st, actions[..|actions| - 1]), actions[|actions| - 1]);
    }
  }
}
