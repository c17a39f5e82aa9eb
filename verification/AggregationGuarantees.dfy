/** What a reader of the metadata table may rely on, whatever runs have raced, crashed or
    been redelivered before. */
module AggregationGuarantees {
  import opened Wrappers
  import opened AggregationRecords
  import opened LineageManifest
  import opened AggregationKeys
  import opened AggregateSet
  import opened AggregationRepository
  import opened AggregationCommit
  import opened AggregationSafety
  import opened AggregationOrchestrator

  // ---- lineage of a complete set ----

  predicate PagesPresent(t: Table, s: SetId, scope: Scope, n: nat) {
    forall i :: 0 <= i < n ==> PageKey(s, scope, i) in t && t[PageKey(s, scope, i)].PageItem?
  }

  /** The pages a reader finds below index n. */
  function StoredPages(t: Table, s: SetId, scope: Scope, n: nat): (pages: seq<Page>)
    requires PagesPresent(t, s, scope, n)
    ensures |pages| == n
  {
    seq(n, i requires 0 <= i < n => t[PageKey(s, scope, i)].page)
  }

  /** Page i of n: it says which set, scope and place it belongs to, its hash is that of its
      contents, and it holds 200 references, the last page what is left. */
  ghost predicate PageWhole(p: Page, s: SetId, scope: Scope, i: nat, n: nat) {
    && p.body.set_ == s && p.body.scope == scope && p.body.index == i && p.hash == PageDigest(p.body)
    && 0 < |p.body.refs| <= 200 && (i + 1 < n ==> |p.body.refs| == 200)
  }

  /** The manifest of a scope is stored with all its pages, its hash commits to the stored
      page hashes, and the pages list exactly the given references. */
  ghost predicate LineageIntact(t: Table, s: SetId, scope: Scope, refs: seq<SourceRef>) {
    && ManifestKey(s, scope) in t && t[ManifestKey(s, scope)].ManifestItem?
    && var h := t[ManifestKey(s, scope)].header;
    && PagesPresent(t, s, scope, h.body.pageCount)
    && var pages := StoredPages(t, s, scope, h.body.pageCount);
    && h.hash == ManifestDigest(h.body, Hashes(pages))
    && PageRefs(pages) == refs
    && h.body.sourceRefCount == |refs| && h.body.set_ == s && h.body.scope == scope && h.body.pageSize == 200
    && forall i :: 0 <= i < |pages| ==> PageWhole(pages[i], s, scope, i, |pages|)
  }

  lemma ScopePageHeld(st: State, s: SetId, scope: Scope, i: nat)
    requires StoreOk(st) && s in st.commits
    requires InScopes(st.commits[s], scope) && i < |ScopePages(st.commits[s], scope)|
    ensures var k := PageKey(s, scope, i);
            k in st.table && st.table[k].PageItem? && st.table[k].page.body == ScopePages(st.commits[s], scope)[i].body
            && st.table[k].page.hash == ScopePages(st.commits[s], scope)[i].hash
  {
    var w := st.commits[s];
    assert CommitOk(st, s);
    var page := ScopePages(w, scope)[i];
    var p := Placed(PageKey(s, scope, i), page);
    PageListExact(w, p);
    var j :| 0 <= j < |PageList(w)| && PageList(w)[j] == p;
    assert HasPage(st.table, p);
    assert KindOk(st, p.key);
  }

  lemma ScopeIntact(st: State, s: SetId, scope: Scope)
    requires StoreOk(st) && s in st.commits && InScopes(st.commits[s], scope)
    ensures LineageIntact(st.table, s, scope, Sources(Ordered(ScopeRecords(st.commits[s], scope))))
  {
    var w := st.commits[s];
    var pages := ScopePages(w, scope);
    assert CommitOk(st, s) && Writes(w, ManifestKey(s, scope));
    assert st.table[ManifestKey(s, scope)] == ManifestItem(ScopeHeader(w, scope));
    forall i | 0 <= i < |pages|
      ensures PageKey(s, scope, i) in st.table && st.table[PageKey(s, scope, i)].PageItem?
      ensures st.table[PageKey(s, scope, i)].page.body == pages[i].body
      ensures st.table[PageKey(s, scope, i)].page.hash == pages[i].hash
    {
      ScopePageHeld(st, s, scope, i);
    }
    StoredAsBuilt(st.table, w, scope);
  }

  lemma BuiltWhole(w: Work, scope: Scope)
    ensures var pages := ScopePages(w, scope);
            forall i :: 0 <= i < |pages| ==> PageWhole(pages[i], w.s, scope, i, |pages|)
  {
    ChunksPartition(Ordered(ScopeRecords(w, scope)), LINEAGE_PAGE_SIZE);
  }

  lemma StoredAsBuilt(t: Table, w: Work, scope: Scope)
    requires PagesPresent(t, w.s, scope, |ScopePages(w, scope)|)
    requires forall i :: 0 <= i < |ScopePages(w, scope)| ==>
               t[PageKey(w.s, scope, i)].page.body == ScopePages(w, scope)[i].body
               && t[PageKey(w.s, scope, i)].page.hash == ScopePages(w, scope)[i].hash
    requires ManifestKey(w.s, scope) in t && t[ManifestKey(w.s, scope)] == ManifestItem(ScopeHeader(w, scope))
    ensures LineageIntact(t, w.s, scope, Sources(Ordered(ScopeRecords(w, scope))))
  {
    var pages := ScopePages(w, scope);
    var stored := StoredPages(t, w.s, scope, |pages|);
    SameBodies(stored, pages);
    assert Hashes(stored) == Hashes(pages);
    BuiltWhole(w, scope);
    PagesCoverRecords(w.s, scope, w.job, w.createdAt, ScopeRecords(w, scope));
    Ordering.SortElements(ScopeRecords(w, scope), RecordLe());
  }

  /** If the #SET record of a set is stored, then so is the lineage of every manifest of the
      set: all pages below its page count, hashed together by the manifest, listing the
      sorted references of exactly the records the committing run aggregated, although any
      page may have been written by another run. */
  lemma CompleteSetHasItsLineage(start: State, actions: seq<Action>, s: SetId)
    requires Initial(start)
    requires SetKey(s) in Exec(start, actions).table
    ensures var st := Exec(start, actions);
            && s in st.commits && Accepted(st.commits[s])
            && ManifestKey(s, AuditScope) in st.table
            && forall scope :: ManifestKey(s, scope) in st.table ==>
                 LineageIntact(st.table, s, scope, Sources(Ordered(ScopeRecords(st.commits[s], scope))))
  {
    var st := Exec(start, actions);
    Reachable(start, actions);
    MarkerStored(st, s);
    assert CommitOk(st, s);
    var w := st.commits[s];
    assert Writes(w, ManifestKey(s, AuditScope));
    forall scope | ManifestKey(s, scope) in st.table
      ensures LineageIntact(st.table, s, scope, Sources(Ordered(ScopeRecords(w, scope))))
    {
      assert Writes(w, ManifestKey(s, scope));
      ScopeIntact(st, s, scope);
    }
  }

  // ---- the existence check ----

  lemma SetExistsInStore(st: State, s: SetId)
    requires StoreOk(st)
    ensures SetExists(st.table, s) <==> s in st.commits
  {
    MarkerStored(st, s);
    if s in st.commits {
      assert CommitOk(st, s);
      CommittedSetExists(st.table, st.commits[s]);
    }
  }

  /** aggregate_set_exists holds exactly when some run's transaction went through. */
  lemma SetExistsIffCommitted(start: State, actions: seq<Action>, s: SetId)
    requires Initial(start)
    ensures SetExists(Exec(start, actions).table, s) <==> s in Exec(start, actions).commits
    ensures SetExists(Exec(start, actions).table, s) <==> SetKey(s) in Exec(start, actions).table
  {
    Reachable(start, actions);
    SetExistsInStore(Exec(start, actions), s);
    MarkerStored(Exec(start, actions), s);
  }

  /** No reachable table holds a part of a set. */
  lemma SetsAreAllOrNothing(start: State, actions: seq<Action>, s: SetId)
    requires Initial(start)
    ensures AllOrNothing(Exec(start, actions).table, s)
  {
    var st := Exec(start, actions);
    Reachable(start, actions);
    SetExistsInStore(st, s);
    forall k | k in st.table && InSet(k) && !k.PageKey? && k.s == s ensures SetExists(st.table, s) {
      assert KindOk(st, k);
    }
  }

  function JobOfItem(i: Item): string {
    match i
    case ManifestItem(h) => h.job
    case AggregateItem(_, job, _) => job
    case SetItem(m) => m.job
    case PageItem(p) => p.job
    case JobItem(_) => ""
    case IdentityItem(_) => ""
  }

  /** The records of a set, pages aside, are what one run wrote: there are 2 + 2N aggregate
      records and N endpoint rows for the N endpoints of that run's evidence. */
  lemma RecordsOfOneJob(start: State, actions: seq<Action>, s: SetId)
    requires Initial(start) && s in Exec(start, actions).commits
    ensures var st := Exec(start, actions);
            var w := st.commits[s];
            && (forall k :: k in st.table && InSet(k) && !k.PageKey? && k.s == s ==>
                  k in Batch(w) && st.table[k] == Batch(w)[k] && JobOfItem(st.table[k]) == w.job)
            && |EndpointRows(st.table, s)| == |EndpointSet(w.records)|
            && 2 + |EndpointRecords(st.table, s)| == 2 + 2 * |EndpointSet(w.records)|
  {
    var st := Exec(start, actions);
    var w := st.commits[s];
    Reachable(start, actions);
    assert CommitOk(st, s);
    EndpointRecordsOf(st.table, w);
    forall k | k in st.table && InSet(k) && !k.PageKey? && k.s == s
      ensures k in Batch(w) && st.table[k] == Batch(w)[k] && JobOfItem(st.table[k]) == w.job
    {
      assert Writes(w, k);
      WrittenByJob(w, k);
    }
  }

  lemma WrittenByJob(w: Work, k: RecordKey)
    requires Writes(w, k)
    ensures JobOfItem(Written(w, k)) == w.job
  {
  }

  // ---- verdicts ----

  predicate Ended(p: Proc) {
    p.pc.Finish? || p.pc.Done?
  }

  function VerdictOf(p: Proc): Verdict
    requires Ended(p)
  {
    p.pc.verdict
  }

  /** A run that reports COMPLETED committed its set itself; one that reports
      DUPLICATE_COMPLETED after looking at a set found that set complete. */
  lemma VerdictsAreTrue(start: State, actions: seq<Action>, i: nat)
    requires Initial(start) && i in Exec(start, actions).procs && Ended(Exec(start, actions).procs[i])
    ensures var st := Exec(start, actions);
            var p := st.procs[i];
            var v := VerdictOf(p);
            && (v.status.Completed? ==>
                  v.s.Some? && SetExists(st.table, v.s.value) && v.s.value in st.commits && st.commits[v.s.value].job == p.event.job)
            && (v.status.DuplicateCompleted? && v.s.Some? ==> SetExists(st.table, v.s.value))
            && (v.s.Some? ==> SetOfEvent(p.event, v.s.value))
  {
    var st := Exec(start, actions);
    Reachable(start, actions);
    assert ProcOk(st, st.procs[i]);
    var v := VerdictOf(st.procs[i]);
    if v.s.Some? {
      SetExistsInStore(st, v.s.value);
    }
  }

  /** A job record that says COMPLETED or DUPLICATE_COMPLETED belongs to an audit with a
      complete aggregate set. */
  lemma JobRecordsAreTrue(start: State, actions: seq<Action>, client: string, audit: string, job: string)
    requires Initial(start)
    requires var t := Exec(start, actions).table;
             var k := JobKey(client, audit, job);
             k in t && t[k].JobItem? && Successful(t[k].status)
    ensures var t := Exec(start, actions).table;
            exists s: SetId :: s.client == client && s.audit == audit && SetExists(t, s)
  {
    var st := Exec(start, actions);
    Reachable(start, actions);
    assert KindOk(st, JobKey(client, audit, job));
    var s :| s in st.commits && s.client == client && s.audit == audit;
    SetExistsInStore(st, s);
  }

  /** With consistent reads and complete query results, AGGREGATE_SET_INCOMPLETE_CONFLICT is
      unreachable. */
  lemma NoIncompleteConflict(start: State, actions: seq<Action>, i: nat)
    requires Initial(start) && start.consistent
    requires i in Exec(start, actions).procs && Ended(Exec(start, actions).procs[i])
    ensures !VerdictOf(Exec(start, actions).procs[i]).reason.SetIncomplete?
  {
    var st := Exec(start, actions);
    Reachable(start, actions);
    ConsistencyFixed(start, actions);
    assert ProcOk(st, st.procs[i]);
  }

  // ---- exactly when the conflict is reported ----

  /** A blocked run that is looking whether the set is there. */
  predicate Checking(pc: PC) {
    (pc.CheckMarker? || pc.CheckRequired? || pc.CheckQuery?) && pc.after.Some?
  }

  /** An answer that differs from what is stored. */
  predicate Stale(st: State, p: Proc, a: Answer) {
    match a
    case Seen(item) => KeyRead(p).Some? && item != Lookup(st.table, KeyRead(p).value)
    case Found(keys) => p.pc.CheckQuery? && keys != EndpointRecords(st.table, p.pc.s)
    case _ => false
  }

  predicate Incomplete(pc: PC) {
    (pc.Finish? || pc.Done?) && pc.verdict.reason.SetIncomplete?
  }

  lemma MarkerAnswered(st: State, p: Proc, item: Option<Item>)
    requires StoreOk(st) && ProcOk(st, p) && p.pc.CheckMarker? && p.pc.after.Some? && MaySee(st, SetKey(p.pc.s), item)
    ensures Incomplete(AfterSeen(p, item).pc) <==> item != Lookup(st.table, SetKey(p.pc.s))
  {
    MarkerStored(st, p.pc.s);
  }

  lemma RequiredAnswered(st: State, p: Proc, item: Option<Item>)
    requires StoreOk(st) && ProcOk(st, p) && p.pc.CheckRequired? && p.pc.after.Some?
    requires MaySee(st, Required(p.pc.s)[p.pc.i], item)
    ensures Incomplete(AfterSeen(p, item).pc) <==> item != Lookup(st.table, Required(p.pc.s)[p.pc.i])
  {
    MarkerStored(st, p.pc.s);
  }

  lemma QueryAnswered(st: State, p: Proc, keys: set<RecordKey>)
    requires StoreOk(st) && ProcOk(st, p) && p.pc.CheckQuery? && p.pc.after.Some? && MayFind(st, p.pc.s, keys)
    ensures Incomplete(AfterQuery(st.table, p.pc.s, p.pc.marker, p.pc.after, keys)) <==> keys != EndpointRecords(st.table, p.pc.s)
  {
    var s, m := p.pc.s, p.pc.marker;
    var all := EndpointRecords(st.table, s);
    if keys == all {
      FreshQueryAgrees(st, s, m, p.pc.after, keys);
    } else {
      QueryAgrees(st, s);
      assert keys < all;
      FewerKeys(keys, all);
    }
  }

  lemma FewerKeys<T>(a: set<T>, b: set<T>)
    requires a < b
    ensures |a| < |b|
  {
    var x :| x in b && x !in a;
    assert a <= b - {x};
    SubsetSize(a, b - {x});
  }

  lemma {:induction false} SubsetSize<T>(a: set<T>, b: set<T>)
    requires a <= b
    ensures |a| <= |b|
    decreases a
  {
    if a != {} {
      var x :| x in a;
      SubsetSize(a - {x}, b - {x});
    }
  }

  /** The check of a blocked run asks for the marker, three records and a query. */
  ghost predicate StaleCheck(st: State, act: Action, i: nat) {
    && act.Run? && act.p == i && i in st.procs && Legal(st, st.procs[i], act.answer)
    && Checking(st.procs[i].pc) && Stale(st, st.procs[i], act.answer)
  }

  predicate ReportsConflict(st: State, i: nat) {
    i in st.procs && Incomplete(st.procs[i].pc)
  }

  lemma UncheckedSeen(p: Proc, item: Option<Item>)
    requires !Checking(p.pc) && !Incomplete(p.pc)
    ensures !Incomplete(AfterSeen(p, item).pc)
  {
  }

  lemma SeenDecides(st: State, p: Proc, item: Option<Item>)
    requires StoreOk(st) && ProcOk(st, p) && Legal(st, p, Seen(item)) && !Incomplete(p.pc)
    ensures Incomplete(AfterSeen(p, item).pc) <==> Checking(p.pc) && Stale(st, p, Seen(item))
  {
    if !Checking(p.pc) {
      UncheckedSeen(p, item);
    } else if p.pc.CheckMarker? {
      MarkerAnswered(st, p, item);
    } else {
      RequiredAnswered(st, p, item);
    }
  }

  lemma AckDecides(p: Proc, t: Table)
    requires !Incomplete(p.pc)
    ensures !Incomplete(AfterAck(p, t).pc) && !Incomplete(OnError(p))
  {
  }

  lemma AnswerDecides(st: State, p: Proc, a: Answer)
    requires StoreOk(st) && ProcOk(st, p) && Legal(st, p, a) && !Incomplete(p.pc)
    ensures Incomplete(Advance(st, p, a).pc) <==> Checking(p.pc) && Stale(st, p, a)
  {
    match a
    case Seen(item) => SeenDecides(st, p, item);
    case Found(keys) => if p.pc.after.Some? { QueryAnswered(st, p, keys); }
    case _ => AckDecides(p, st.table);
  }

  lemma ConflictStep(st: State, act: Action, i: nat)
    requires Inv(st) && i in st.procs && !ReportsConflict(st, i)
    ensures ReportsConflict(Next(st, act), i) <==> StaleCheck(st, act, i)
  {
    if act.Run? && act.p == i && Legal(st, st.procs[i], act.answer) {
      AnswerDecides(st, st.procs[i], act.answer);
    }
  }

  ghost predicate EverReports(start: State, actions: seq<Action>, i: nat)
    decreases |actions|
  {
    ReportsConflict(Exec(start, actions), i) || (actions != [] && EverReports(start, actions[..|actions| - 1], i))
  }

  ghost predicate EverStale(start: State, actions: seq<Action>, i: nat)
    decreases |actions|
  {
    actions != [] &&
    var init := actions[..|actions| - 1];
    EverStale(start, init, i) || StaleCheck(Exec(start, init), actions[|actions| - 1], i)
  }

  /** A run ever reports AGGREGATE_SET_INCOMPLETE_CONFLICT exactly when one of the five answers
      of its check, after its transaction was blocked, was stale. */
  lemma {:induction false} ConflictIffStaleCheck(start: State, actions: seq<Action>, i: nat)
    requires Initial(start) && i in start.procs
    ensures EverReports(start, actions, i) <==> EverStale(start, actions, i)
    ensures i in Exec(start, actions).procs
    decreases |actions|
  {
    if actions != [] {
      var init, last := actions[..|actions| - 1], actions[|actions| - 1];
      ConflictIffStaleCheck(start, init, i);
      Reachable(start, init);
      if ReportsConflict(Exec(start, init), i) {
        assert EverReports(start, init, i);
      } else {
        ConflictStep(Exec(start, init), last, i);
      }
    }
  }

  lemma {:induction false} ConsistencyFixed(st: State, actions: seq<Action>)
    ensures Exec(st, actions).consistent == st.consistent && Exec(st, actions).audits == st.audits
    decreases |actions|
  {
    if actions != [] {
      ConsistencyFixed(st, actions[..|actions| - 1]);
    }
  }

  /** Without that assumption it is reachable: a run whose transaction is blocked reports the
      conflict when its next read of the marker is stale, although the set is complete. */
  lemma StaleReadReportsConflict(start: State, actions: seq<Action>, i: nat)
    requires Initial(start) && !start.consistent
    requires i in Exec(start, actions).procs && Exec(start, actions).procs[i].pc.Commit?
    requires SetExists(Exec(start, actions).table, Exec(start, actions).procs[i].pc.w.s)
    ensures var more := Exec(start, actions + [Run(i, Ack)] + [Run(i, Seen(None))]);
            && i in more.procs
            && more.procs[i].pc == Finish(Verdict(Conflict, SetIncomplete, Some(Exec(start, actions).procs[i].pc.w.s)))
            && SetExists(more.table, Exec(start, actions).procs[i].pc.w.s)
  {
    var st := Exec(start, actions);
    ConsistencyFixed(start, actions);
    ExecTwo(start, actions, Run(i, Ack), Run(i, Seen(None)));
    BlockedStep(st, i);
    StaleStep(Next(st, Run(i, Ack)), i);
  }

  lemma BlockedStep(st: State, i: nat)
    requires i in st.procs && st.procs[i].pc.Commit? && SetExists(st.table, st.procs[i].pc.w.s)
    ensures var w := st.procs[i].pc.w;
            Next(st, Run(i, Ack)) == st.(procs := st.procs[i := st.procs[i].(pc := CheckMarker(w.s, Some(w)))])
  {
    MarkerBlocks(st.table, st.procs[i].pc.w);
    BlockedAck(st.procs[i], st.table);
    NothingWritten(st, i);
  }

  lemma BlockedAck(p: Proc, t: Table)
    requires p.pc.Commit? && Blocked(t, p.pc.w)
    ensures EffectOf(p, t) == Nothing && AfterAck(p, t) == p.(pc := CheckMarker(p.pc.w.s, Some(p.pc.w)))
  {
  }

  lemma NothingWritten(st: State, i: nat)
    requires i in st.procs && st.procs[i].pc.Commit? && EffectOf(st.procs[i], st.table) == Nothing
    ensures Next(st, Run(i, Ack)) == st.(procs := st.procs[i := AfterAck(st.procs[i], st.table)])
  {
  }

  lemma MarkerBlocks(t: Table, w: Work)
    requires SetKey(w.s) in t
    ensures Blocked(t, w)
  {
    assert Writes(w, SetKey(w.s)) && SetKey(w.s) in Batch(w);
  }

  lemma StaleStep(st: State, i: nat)
    requires i in st.procs && st.procs[i].pc.CheckMarker? && st.procs[i].pc.after.Some? && !st.consistent
    ensures var s := st.procs[i].pc.s;
            Next(st, Run(i, Seen(None))) ==
            st.(procs := st.procs[i := st.procs[i].(pc := Finish(Verdict(Conflict, SetIncomplete, Some(s))))])
  {
  }

  lemma ExecTwo(st: State, actions: seq<Action>, a: Action, b: Action)
    ensures Exec(st, actions + [a] + [b]) == Next(Next(Exec(st, actions), a), b)
  {
    assert (actions + [a] + [b])[..|actions| + 1] == actions + [a];
    assert (actions + [a])[..|actions|] == actions;
  }

  // ---- stability and consensus ----

  lemma StepGrows(st: State, a: Action)
    requires Inv(st)
    ensures Grows(st, Next(st, a))
  {
    match a
    case Trigger(client, audit, job, status) =>
      if Claimable(status) {
        EffectGrows(st, RecordJob(JobKey(client, audit, job), status));
      }
    case Run(i, answer) =>
      if i in st.procs && Legal(st, st.procs[i], answer) {
        ProcMoves(st, st.procs[i], answer);
        EffectGrows(st, EffectOfStep(st, st.procs[i], answer));
      }
  }

  /** Whatever happens next, a stored identity, page, manifest, aggregate or marker keeps its
      contents: a second transaction for a set never goes through. */
  lemma {:induction false} StoredForGood(start: State, before: seq<Action>, after: seq<Action>)
    requires Initial(start)
    ensures Grows(Exec(start, before), Exec(start, before + after))
    decreases |after|
  {
    if after == [] {
      assert before + after == before;
    } else {
      var init, last := after[..|after| - 1], after[|after| - 1];
      StoredForGood(start, before, init);
      Reachable(start, before + init);
      StepGrows(Exec(start, before + init), last);
      ExecLast(start, before, after);
      GrowsTwice(Exec(start, before), Exec(start, before + init), Exec(start, before + after));
    }
  }

  lemma ExecLast(start: State, before: seq<Action>, after: seq<Action>)
    requires after != []
    ensures Exec(start, before + after) == Next(Exec(start, before + after[..|after| - 1]), after[|after| - 1])
  {
    assert (before + after)[..|before + after| - 1] == before + after[..|after| - 1];
  }

  lemma GrowsTwice(a: State, b: State, c: State)
    requires Grows(a, b) && Grows(b, c)
    ensures Grows(a, c)
  {
  }

  /** Every run of an audit that settles on an execution id settles on the same one, even
      when reads of the identity record are stale: the one on the audit, or else on record. */
  lemma OneIdentityPerAudit(start: State, actions: seq<Action>, i: nat, j: nat)
    requires Initial(start)
    requires var ps := Exec(start, actions).procs;
             && i in ps && j in ps && ps[i].resolved.Some? && ps[j].resolved.Some?
             && ps[i].event.client == ps[j].event.client && ps[i].event.audit == ps[j].event.audit
    ensures Exec(start, actions).procs[i].resolved == Exec(start, actions).procs[j].resolved
    ensures var st := Exec(start, actions);
            var e := st.procs[i].event;
            if (e.client, e.audit) in st.audits then st.procs[i].resolved == Some(st.audits[(e.client, e.audit)])
            else IdentityKey(e.client, e.audit) in st.table
                 && st.table[IdentityKey(e.client, e.audit)] == IdentityItem(st.procs[i].resolved.value)
  {
    var st := Exec(start, actions);
    Reachable(start, actions);
    assert ProcOk(st, st.procs[i]) && ProcOk(st, st.procs[j]);
  }
}
