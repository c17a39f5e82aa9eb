/** Two runs of one event: how the aggregation machine gets to a blocked run, to a committed
    one that records a failure, and to a verdict overwritten by the other run. */
module AggregationLimits {
  import opened Wrappers
  import opened AggregationRecords
  import opened LineageManifest
  import opened AggregationKeys
  import opened AggregateSet
  import opened AggregationRepository
  import opened AggregationCommit
  import opened AggregationSafety
  import opened AggregationGuarantees

  ghost predicate ReachedFrom(start: State, st: State) {
    exists actions :: Exec(start, actions) == st
  }

  /** The parts of a reached state the runs below depend on. */
  ghost predicate Is(start: State, st: State, m: map<nat, Proc>) {
    ReachedFrom(start, st) && st.procs == m && st.audits == start.audits && st.consistent == start.consistent
  }

  lemma Step(start: State, st: State, act: Action) returns (u: State)
    requires ReachedFrom(start, st)
    ensures u == Next(st, act) && ReachedFrom(start, u)
  {
    u := Next(st, act);
    var actions :| Exec(start, actions) == st;
    assert (actions + [act])[..|actions|] == actions;
    assert Exec(start, actions + [act]) == u;
  }

  /** A call that stores nothing. */
  lemma Moves(start: State, st: State, m: map<nat, Proc>, i: nat, a: Answer, q: Proc) returns (u: State)
    requires Is(start, st, m) && i in m && Legal(st, m[i], a) && EffectOfStep(st, m[i], a) == Nothing
    requires q == Advance(st, m[i], a)
    ensures Is(start, u, m[i := q]) && u.table == st.table && u.commits == st.commits
  {
    u := Step(start, st, Run(i, a));
  }

  // ---- one event, delivered twice ----

  function Both(p: Proc, q: Proc): map<nat, Proc> {
    map[0 := p, 1 := q]
  }

  lemma BothUpdated(p: Proc, q: Proc, r: Proc)
    ensures Both(p, q)[0 := r] == Both(r, q) && Both(p, q)[1 := r] == Both(p, r)
  {
  }

  function Delivery(e: Event): Proc {
    Proc(e, "", PutJob, None)
  }

  /** The audit record carries its execution id. */
  function Delivered(e: Event, exec: string, consistent: bool): State {
    State(map[], consistent, map[(e.client, e.audit) := exec], map[0 := Delivery(e), 1 := Delivery(e)], {}, map[])
  }

  lemma IntentKnown(start: State, st: State, m: map<nat, Proc>, i: nat, e: Event) returns (u: State)
    requires Is(start, st, m) && i in m && m[i] == Delivery(e)
    requires JobOf(e) in st.table && st.table[JobOf(e)] == JobItem(IntentRecorded)
    ensures Is(start, u, m[i := Delivery(e).(pc := ClaimJob)]) && u.table == st.table && u.commits == st.commits
  {
    u := Moves(start, st, m, i, Ack, Delivery(e).(pc := ReadJob));
    u := Moves(start, u, m[i := Delivery(e).(pc := ReadJob)], i, Seen(Some(JobItem(IntentRecorded))), Delivery(e).(pc := ClaimJob));
    assert m[i := Delivery(e).(pc := ReadJob)][i := Delivery(e).(pc := ClaimJob)] == m[i := Delivery(e).(pc := ClaimJob)];
  }

  /** Both runs see the job before either claims it. */
  lemma BothClaim(e: Event, exec: string, consistent: bool) returns (st: State)
    ensures Is(Delivered(e, exec, consistent), st, Both(Delivery(e).(pc := ClaimJob), Delivery(e).(pc := ClaimJob)))
    ensures st.table == map[JobOf(e) := JobItem(IntentRecorded)] && st.commits == map[]
  {
    var start, m := Delivered(e, exec, consistent), Delivered(e, exec, consistent).procs;
    assert Exec(start, []) == start;
    st := Step(start, start, Trigger(e.client, e.audit, e.job, IntentRecorded));
    st := IntentKnown(start, st, m, 0, e);
    m := m[0 := Delivery(e).(pc := ClaimJob)];
    st := IntentKnown(start, st, m, 1, e);
    assert m[1 := Delivery(e).(pc := ClaimJob)] == Both(Delivery(e).(pc := ClaimJob), Delivery(e).(pc := ClaimJob));
  }

  // ---- up to the transaction ----

  ghost predicate For(w: Work, e: Event, exec: string, cfg: string) {
    Accepted(w) && w.s == SetOf(e, exec, cfg) && w.job == e.job
  }

  /** Any single result is evidence enough. */
  lemma OneRecordSuffices(e: Event, exec: string, cfg: string, r: RawRecord)
    ensures For(Work(SetOf(e, exec, cfg), e.job, 0, [r]), e, exec, cfg)
  {
    assert EndpointSet([r]) == {r.endpointId};
  }

  function At(e: Event, exec: string, pc: PC): Proc {
    Proc(e, "", pc, Some(exec))
  }

  lemma Claims(start: State, st: State, m: map<nat, Proc>, i: nat, e: Event) returns (u: State)
    requires Is(start, st, m) && i in m && m[i] == Delivery(e).(pc := ClaimJob) && JobOf(e) in st.table
    ensures Is(start, u, m[i := Delivery(e).(pc := ReadAudit)])
    ensures u.table == st.table[JobOf(e) := JobItem(Started)] && u.commits == st.commits
  {
    u := Step(start, st, Run(i, Ack));
  }

  lemma Resolves(start: State, st: State, m: map<nat, Proc>, i: nat, e: Event, exec: string, cfg: string) returns (u: State)
    requires Is(start, st, m) && i in m && m[i] == Delivery(e).(pc := ReadAudit)
    requires start.audits == map[(e.client, e.audit) := exec]
    ensures Is(start, u, m[i := At(e, exec, CheckMarker(SetOf(e, exec, cfg), None))]) && u.table == st.table && u.commits == st.commits
  {
    var p := At(e, exec, SaveIdentity(exec, Some(cfg)));
    var q := At(e, exec, CheckMarker(SetOf(e, exec, cfg), None));
    u := Moves(start, st, m, i, SeenAudit(Some(cfg)), p);
    u := Moves(start, u, m[i := p], i, Ack, q);
    assert m[i := p][i := q] == m[i := q];
  }

  lemma Loads(start: State, st: State, m: map<nat, Proc>, i: nat, e: Event, exec: string, cfg: string, w: Work) returns (u: State)
    requires Is(start, st, m) && i in m && m[i] == At(e, exec, CheckMarker(w.s, None))
    requires For(w, e, exec, cfg) && SetKey(w.s) !in st.table
    ensures Is(start, u, m[i := At(e, exec, WritePages(w, 0))]) && u.table == st.table && u.commits == st.commits
  {
    var p, q := At(e, exec, Load(w.s)), At(e, exec, WritePages(w, 0));
    u := Moves(start, st, m, i, Seen(None), p);
    u := Moves(start, u, m[i := p], i, Evidence(w.records, w.createdAt), q);
    assert m[i := p][i := q] == m[i := q];
  }

  /** A run that has claimed the job gets as far as its pages. */
  lemma Prepares(start: State, st: State, m: map<nat, Proc>, i: nat, e: Event, exec: string, cfg: string, w: Work) returns (u: State)
    requires Is(start, st, m) && i in m && m[i] == Delivery(e).(pc := ClaimJob) && JobOf(e) in st.table
    requires start.audits == map[(e.client, e.audit) := exec] && For(w, e, exec, cfg) && SetKey(w.s) !in st.table
    ensures Is(start, u, m[i := At(e, exec, WritePages(w, 0))])
    ensures u.table == st.table[JobOf(e) := JobItem(Started)] && u.commits == st.commits
  {
    var p, q := Delivery(e).(pc := ReadAudit), At(e, exec, CheckMarker(w.s, None));
    u := Claims(start, st, m, i, e);
    u := Resolves(start, u, m[i := p], i, e, exec, cfg);
    assert m[i := p][i := q] == m[i := q];
    u := Loads(start, u, m[i := q], i, e, exec, cfg, w);
    assert m[i := q][i := At(e, exec, WritePages(w, 0))] == m[i := At(e, exec, WritePages(w, 0))];
  }

  // ---- the pages ----

  /** Pages of the attempt that are stored already are its own. */
  ghost predicate Mine(t: Table, w: Work) {
    forall j :: 0 <= j < |PageList(w)| && PageList(w)[j].key in t ==> t[PageList(w)[j].key] == PageItem(PageList(w)[j].page)
  }

  lemma SamePage(w: Work, i: nat, j: nat)
    requires i < |PageList(w)| && j < |PageList(w)| && PageList(w)[i].key == PageList(w)[j].key
    ensures PageList(w)[i] == PageList(w)[j]
  {
    PageListShape(w, Scopes(w), PageList(w)[i]);
    PageListShape(w, Scopes(w), PageList(w)[j]);
  }

  lemma AsksForPage(start: State, st: State, m: map<nat, Proc>, i: nat, e: Event, exec: string, w: Work, n: nat) returns (u: State)
    requires Is(start, st, m) && i in m && m[i] == At(e, exec, WritePages(w, n)) && n < |PageList(w)|
    requires PageList(w)[n].key in st.table
    ensures Is(start, u, m[i := At(e, exec, ReadPage(w, n))]) && u.table == st.table && u.commits == st.commits
  {
    u := Moves(start, st, m, i, Ack, At(e, exec, ReadPage(w, n)));
  }

  lemma SeesPage(start: State, st: State, m: map<nat, Proc>, i: nat, e: Event, exec: string, w: Work, n: nat) returns (u: State)
    requires Is(start, st, m) && i in m && m[i] == At(e, exec, ReadPage(w, n)) && n < |PageList(w)|
    requires PageList(w)[n].key in st.table && st.table[PageList(w)[n].key] == PageItem(PageList(w)[n].page)
    ensures Is(start, u, m[i := At(e, exec, WritePages(w, n + 1))]) && u.table == st.table && u.commits == st.commits
  {
    u := Moves(start, st, m, i, Seen(Some(PageItem(PageList(w)[n].page))), At(e, exec, WritePages(w, n + 1)));
  }

  lemma FindsPage(start: State, st: State, m: map<nat, Proc>, i: nat, e: Event, exec: string, w: Work, n: nat) returns (u: State)
    requires Is(start, st, m) && i in m && m[i] == At(e, exec, WritePages(w, n)) && n < |PageList(w)| && Mine(st.table, w)
    requires PageList(w)[n].key in st.table
    ensures Is(start, u, m[i := At(e, exec, WritePages(w, n + 1))]) && u.table == st.table && u.commits == st.commits
  {
    var r := At(e, exec, ReadPage(w, n));
    u := AsksForPage(start, st, m, i, e, exec, w, n);
    u := SeesPage(start, u, m[i := r], i, e, exec, w, n);
    assert m[i := r][i := At(e, exec, WritePages(w, n + 1))] == m[i := At(e, exec, WritePages(w, n + 1))];
  }

  lemma WritesPage(start: State, st: State, m: map<nat, Proc>, i: nat, e: Event, exec: string, w: Work, n: nat) returns (u: State)
    requires Is(start, st, m) && i in m && m[i] == At(e, exec, WritePages(w, n)) && n < |PageList(w)| && Mine(st.table, w)
    ensures Is(start, u, m[i := At(e, exec, WritePages(w, n + 1))]) && Mine(u.table, w) && u.commits == st.commits
    ensures forall k :: k in u.table <==> k in st.table || k == PageList(w)[n].key
    ensures PageList(w)[n].key.PageKey?
  {
    PageListKeys(w);
    if PageList(w)[n].key in st.table {
      u := FindsPage(start, st, m, i, e, exec, w, n);
    } else {
      MineMore(st.table, w, n);
      u := AddsPage(start, st, m, i, e, exec, w, n);
    }
  }

  lemma MineMore(t: Table, w: Work, n: nat)
    requires Mine(t, w) && n < |PageList(w)|
    ensures Mine(t[PageList(w)[n].key := PageItem(PageList(w)[n].page)], w)
  {
    var u := t[PageList(w)[n].key := PageItem(PageList(w)[n].page)];
    forall j | 0 <= j < |PageList(w)| && PageList(w)[j].key in u
      ensures u[PageList(w)[j].key] == PageItem(PageList(w)[j].page)
    {
      if PageList(w)[j].key == PageList(w)[n].key {
        SamePage(w, j, n);
      }
    }
  }

  lemma PageAck(p: Proc, t: Table, w: Work, n: nat)
    requires p.pc == WritePages(w, n) && n < |PageList(w)| && PageList(w)[n].key !in t
    ensures EffectOf(p, t) == AddPage(PageList(w)[n]) && AfterAck(p, t) == p.(pc := WritePages(w, n + 1))
  {
  }

  lemma PageStep(st: State, i: nat, placed: Placed)
    requires i in st.procs && st.procs[i].pc.WritePages? && EffectOf(st.procs[i], st.table) == AddPage(placed)
    ensures Next(st, Run(i, Ack)) ==
            st.(table := st.table[placed.key := PageItem(placed.page)],
                procs := st.procs[i := AfterAck(st.procs[i], st.table)])
  {
  }

  lemma AddsPage(start: State, st: State, m: map<nat, Proc>, i: nat, e: Event, exec: string, w: Work, n: nat) returns (u: State)
    requires Is(start, st, m) && i in m && m[i] == At(e, exec, WritePages(w, n)) && n < |PageList(w)|
    requires PageList(w)[n].key !in st.table
    ensures Is(start, u, m[i := At(e, exec, WritePages(w, n + 1))]) && u.commits == st.commits
    ensures u.table == st.table[PageList(w)[n].key := PageItem(PageList(w)[n].page)]
  {
    PageAck(m[i], st.table, w, n);
    PageStep(st, i, PageList(w)[n]);
    u := Step(start, st, Run(i, Ack));
  }

  /** Whoever wrote the pages, a run that finds only its own gets to its transaction. */
  lemma {:induction false} PagesThenCommit(start: State, st: State, m: map<nat, Proc>, i: nat, e: Event, exec: string, w: Work, n: nat)
    returns (u: State)
    requires Is(start, st, m) && i in m && m[i] == At(e, exec, WritePages(w, n)) && n <= |PageList(w)| && Mine(st.table, w)
    ensures Is(start, u, m[i := At(e, exec, Commit(w))]) && Mine(u.table, w) && u.commits == st.commits
    ensures forall k :: k in st.table ==> k in u.table
    ensures forall k :: k in u.table ==> k in st.table || k.PageKey?
    decreases |PageList(w)| - n
  {
    if n == |PageList(w)| {
      u := Moves(start, st, m, i, Ack, At(e, exec, Commit(w)));
    } else {
      u := WritesPage(start, st, m, i, e, exec, w, n);
      var q := At(e, exec, WritePages(w, n + 1));
      u := PagesThenCommit(start, u, m[i := q], i, e, exec, w, n + 1);
      assert m[i := q][i := At(e, exec, Commit(w))] == m[i := At(e, exec, Commit(w))];
    }
  }

  // ---- two runs at their transactions, and one of them goes through ----

  lemma BothPrepared(e: Event, exec: string, consistent: bool, cfg: string, w: Work) returns (st: State)
    requires For(w, e, exec, cfg)
    ensures Is(Delivered(e, exec, consistent), st, Both(At(e, exec, WritePages(w, 0)), At(e, exec, WritePages(w, 0))))
    ensures st.table == map[JobOf(e) := JobItem(Started)]
  {
    var start := Delivered(e, exec, consistent);
    var c, p := Delivery(e).(pc := ClaimJob), At(e, exec, WritePages(w, 0));
    BothUpdated(c, c, p);
    BothUpdated(p, c, p);
    st := BothClaim(e, exec, consistent);
    st := Prepares(start, st, Both(c, c), 0, e, exec, cfg, w);
    st := Prepares(start, st, Both(p, c), 1, e, exec, cfg, w);
  }

  lemma BothReady(e: Event, exec: string, consistent: bool, cfg: string, w: Work) returns (st: State)
    requires For(w, e, exec, cfg)
    ensures Is(Delivered(e, exec, consistent), st, Both(At(e, exec, Commit(w)), At(e, exec, Commit(w))))
    ensures JobOf(e) in st.table && forall k :: k in st.table ==> k == JobOf(e) || k.PageKey?
  {
    st := BothPrepared(e, exec, consistent, cfg, w);
    NoPages(st.table, w, JobOf(e));
    st := BothWritePages(Delivered(e, exec, consistent), st, e, exec, w);
  }

  lemma NoPages(t: Table, w: Work, job: RecordKey)
    requires job.JobKey? && forall k :: k in t ==> k == job
    ensures Mine(t, w)
  {
    PageListKeys(w);
  }

  lemma BothWritePages(start: State, st: State, e: Event, exec: string, w: Work) returns (u: State)
    requires Is(start, st, Both(At(e, exec, WritePages(w, 0)), At(e, exec, WritePages(w, 0)))) && Mine(st.table, w)
    ensures Is(start, u, Both(At(e, exec, Commit(w)), At(e, exec, Commit(w))))
    ensures forall k :: k in st.table ==> k in u.table
    ensures forall k :: k in u.table ==> k in st.table || k.PageKey?
  {
    var p, q := At(e, exec, WritePages(w, 0)), At(e, exec, Commit(w));
    BothUpdated(p, p, q);
    BothUpdated(q, p, q);
    u := PagesThenCommit(start, st, Both(p, p), 0, e, exec, w, 0);
    u := PagesThenCommit(start, u, Both(q, p), 1, e, exec, w, 0);
  }

  function Committer(e: Event, exec: string, s: SetId): Proc {
    At(e, exec, Finish(Verdict(Completed, NoReason, Some(s))))
  }

  /** Jobs and pages do not stand in the way of a transaction. */
  lemma Unhindered(t: Table, w: Work, job: RecordKey)
    requires job.JobKey? && forall k :: k in t ==> k == job || k.PageKey?
    ensures !Blocked(t, w)
  {
  }

  lemma CommitAck(p: Proc, t: Table)
    requires p.pc.Commit? && !Blocked(t, p.pc.w)
    ensures EffectOf(p, t) == AddBatch(p.pc.w)
    ensures AfterAck(p, t) == p.(pc := Finish(Verdict(Completed, NoReason, Some(p.pc.w.s))))
  {
  }

  lemma CommitStep(st: State, i: nat, w: Work)
    requires i in st.procs && st.procs[i].pc.Commit? && EffectOf(st.procs[i], st.table) == AddBatch(w)
    ensures Next(st, Run(i, Ack)) ==
            st.(table := st.table + Batch(w), commits := st.commits[w.s := w],
                procs := st.procs[i := AfterAck(st.procs[i], st.table)])
  {
  }

  lemma MarkerAdded(t: Table, w: Work)
    ensures SetKey(w.s) in t + Batch(w) && forall k :: k in t ==> k in t + Batch(w)
  {
    assert Writes(w, SetKey(w.s)) && SetKey(w.s) in Batch(w);
  }

  lemma Commits(start: State, st: State, m: map<nat, Proc>, i: nat, e: Event, exec: string, w: Work) returns (u: State)
    requires Is(start, st, m) && i in m && m[i] == At(e, exec, Commit(w)) && !Blocked(st.table, w)
    ensures Is(start, u, m[i := Committer(e, exec, w.s)])
    ensures u.table == st.table + Batch(w) && w.s in u.commits && u.commits[w.s] == w
  {
    CommitAck(m[i], st.table);
    CommitStep(st, i, w);
    u := Step(start, st, Run(i, Ack));
  }

  lemma CommitsFirst(start: State, st: State, e: Event, exec: string, w: Work) returns (u: State)
    requires Is(start, st, Both(At(e, exec, Commit(w)), At(e, exec, Commit(w)))) && !Blocked(st.table, w)
    ensures Is(start, u, Both(Committer(e, exec, w.s), At(e, exec, Commit(w))))
    ensures u.table == st.table + Batch(w) && w.s in u.commits && u.commits[w.s] == w
  {
    var p, q := At(e, exec, Commit(w)), Committer(e, exec, w.s);
    BothUpdated(p, p, q);
    u := Commits(start, st, Both(p, p), 0, e, exec, w);
  }

  lemma OneCommits(e: Event, exec: string, consistent: bool, cfg: string, w: Work) returns (st: State)
    requires For(w, e, exec, cfg)
    ensures Is(Delivered(e, exec, consistent), st, Both(Committer(e, exec, w.s), At(e, exec, Commit(w))))
    ensures JobOf(e) in st.table && SetKey(w.s) in st.table && w.s in st.commits && st.commits[w.s] == w
  {
    st := BothReady(e, exec, consistent, cfg, w);
    Unhindered(st.table, w, JobOf(e));
    MarkerAdded(st.table, w);
    st := CommitsFirst(Delivered(e, exec, consistent), st, e, exec, w);
  }

  /** One event delivered twice: the first run commits, the second is blocked, its read of the
      marker is stale, and it reports an incomplete set that is complete. */
  lemma CompleteSetReportedIncomplete(e: Event, exec: string, cfg: string, w: Work) returns (actions: seq<Action>)
    requires For(w, e, exec, cfg)
    ensures Initial(Delivered(e, exec, false))
    ensures var st := Exec(Delivered(e, exec, false), actions);
            1 in st.procs && st.procs[1].pc == Finish(Verdict(Conflict, SetIncomplete, Some(w.s))) && SetExists(st.table, w.s)
  {
    var st := OneCommits(e, exec, false, cfg, w);
    actions :| Exec(Delivered(e, exec, false), actions) == st;
    SetExistsIffCommitted(Delivered(e, exec, false), actions, w.s);
    StaleReadReportsConflict(Delivered(e, exec, false), actions, 1);
    actions := actions + [Run(1, Ack)] + [Run(1, Seen(None))];
  }

  /** A run at its verdict records it. */
  lemma Records(start: State, st: State, m: map<nat, Proc>, i: nat, p: Proc, v: Verdict) returns (u: State)
    requires Is(start, st, m) && i in m && m[i] == p.(pc := Finish(v)) && JobOf(p.event) in st.table
    ensures Is(start, u, m[i := p.(pc := Done(v))])
    ensures u.commits == st.commits && u.table == st.table[JobOf(p.event) := JobItem(v.status)]
  {
    u := Step(start, st, Run(i, Ack));
  }

  const FAILURE := Verdict(Failed, OtherReason, None)

  lemma FailsAfterwards(start: State, st: State, m: map<nat, Proc>, i: nat, e: Event, exec: string, s: SetId) returns (u: State)
    requires Is(start, st, m) && i in m && m[i] == Committer(e, exec, s) && JobOf(e) in st.table
    ensures Is(start, u, m[i := At(e, exec, Done(FAILURE))])
    ensures u.commits == st.commits && u.table == st.table[JobOf(e) := JobItem(Failed)]
  {
    var p, q := At(e, exec, Finish(FAILURE)), At(e, exec, Done(FAILURE));
    u := Moves(start, st, m, i, Error, p);
    u := Records(start, u, m[i := p], i, p, FAILURE);
    assert m[i := p][i := q] == m[i := q];
  }

  /** The set of w is complete by this run's transaction, its job is recorded FAILED, and the
      run is over. */
  ghost predicate CompleteButFailed(st: State, e: Event, w: Work) {
    && w.s in st.commits && st.commits[w.s] == w && SetExists(st.table, w.s)
    && JobOf(e) in st.table && st.table[JobOf(e)] == JobItem(Failed)
    && 0 in st.procs && st.procs[0].pc == Done(FAILURE)
  }

  /** The first run commits, but its completing update raises; the handler then records FAILED
      for a job whose set is complete. No read is stale. */
  lemma CommittedRunRecordedFailed(e: Event, exec: string, consistent: bool, cfg: string, w: Work) returns (actions: seq<Action>)
    requires For(w, e, exec, cfg)
    ensures Initial(Delivered(e, exec, consistent)) && CompleteButFailed(Exec(Delivered(e, exec, consistent), actions), e, w)
  {
    var st := OneCommits(e, exec, consistent, cfg, w);
    var m := Both(Committer(e, exec, w.s), At(e, exec, Commit(w)));
    st := FailsAfterwards(Delivered(e, exec, consistent), st, m, 0, e, exec, w.s);
    actions :| Exec(Delivered(e, exec, consistent), actions) == st;
    SetExistsIffCommitted(Delivered(e, exec, consistent), actions, w.s);
  }

  // ---- a transaction that takes effect and raises ----

  lemma RaisedStep(st: State, i: nat, w: Work)
    requires i in st.procs && st.procs[i].pc.Commit? && EffectOf(st.procs[i], st.table) == AddBatch(w)
    ensures Next(st, Run(i, ErrorAfter)) ==
            st.(table := st.table + Batch(w), commits := st.commits[w.s := w],
                procs := st.procs[i := st.procs[i].(pc := Finish(FAILURE))])
  {
  }

  lemma Raises(start: State, st: State, m: map<nat, Proc>, i: nat, e: Event, exec: string, w: Work) returns (u: State)
    requires Is(start, st, m) && i in m && m[i] == At(e, exec, Commit(w)) && !Blocked(st.table, w)
    ensures Is(start, u, m[i := At(e, exec, Finish(FAILURE))])
    ensures u.table == st.table + Batch(w) && w.s in u.commits && u.commits[w.s] == w
  {
    CommitAck(m[i], st.table);
    RaisedStep(st, i, w);
    u := Step(start, st, Run(i, ErrorAfter));
  }

  /** The same without any completing update: the transaction itself takes effect and raises,
      and the run never learns that it committed. */
  lemma UnheardCommitRecordedFailed(e: Event, exec: string, consistent: bool, cfg: string, w: Work) returns (actions: seq<Action>)
    requires For(w, e, exec, cfg)
    ensures Initial(Delivered(e, exec, consistent)) && CompleteButFailed(Exec(Delivered(e, exec, consistent), actions), e, w)
  {
    var st := BothReady(e, exec, consistent, cfg, w);
    var p, q := At(e, exec, Commit(w)), At(e, exec, Finish(FAILURE));
    Unhindered(st.table, w, JobOf(e));
    MarkerAdded(st.table, w);
    BothUpdated(p, p, q);
    st := Raises(Delivered(e, exec, consistent), st, Both(p, p), 0, e, exec, w);
    st := Records(Delivered(e, exec, consistent), st, Both(q, p), 0, q, FAILURE);
    actions :| Exec(Delivered(e, exec, consistent), actions) == st;
    SetExistsIffCommitted(Delivered(e, exec, consistent), actions, w.s);
  }

  // ---- a second delivery of the same job ----

  const CONFLICT := Verdict(Conflict, WriteConflict, None)

  function Refused(e: Event): Proc {
    Delivery(e).(pc := Finish(CONFLICT))
  }

  lemma Creates(start: State, st: State, m: map<nat, Proc>, i: nat, e: Event) returns (u: State)
    requires Is(start, st, m) && i in m && m[i] == Delivery(e) && st.table == map[] && st.commits == map[]
    ensures Is(start, u, m[i := Delivery(e).(pc := ReadAudit)])
    ensures u.table == map[JobOf(e) := JobItem(Started)] && u.commits == map[]
  {
    u := Step(start, st, Run(i, Ack));
  }

  lemma FindsStarted(start: State, st: State, m: map<nat, Proc>, i: nat, e: Event) returns (u: State)
    requires Is(start, st, m) && i in m && m[i] == Delivery(e)
    requires JobOf(e) in st.table && st.table[JobOf(e)] == JobItem(Started)
    ensures Is(start, u, m[i := Refused(e)]) && u.table == st.table && u.commits == st.commits
  {
    var p, q := Delivery(e).(pc := ReadJob), Delivery(e).(pc := ReReadJob);
    u := Moves(start, st, m, i, Ack, p);
    u := Moves(start, u, m[i := p], i, Seen(Some(JobItem(Started))), q);
    u := Moves(start, u, m[i := p][i := q], i, Seen(Some(JobItem(Started))), Refused(e));
    assert m[i := p][i := q][i := Refused(e)] == m[i := Refused(e)];
  }

  /** The first run has created the job and is about to read the audit; the second has found
      it STARTED and is about to record a conflict. */
  lemma SecondRefused(e: Event, exec: string, consistent: bool) returns (st: State)
    ensures Is(Delivered(e, exec, consistent), st, Both(Delivery(e).(pc := ReadAudit), Refused(e)))
    ensures st.table == map[JobOf(e) := JobItem(Started)] && st.commits == map[]
  {
    var start, d, p := Delivered(e, exec, consistent), Delivery(e), Delivery(e).(pc := ReadAudit);
    assert Exec(start, []) == start;
    BothUpdated(d, d, p);
    BothUpdated(p, d, Refused(e));
    st := Creates(start, start, Both(d, d), 0, e);
    st := FindsStarted(start, st, Both(p, d), 1, e);
  }

  lemma FirstAtCommit(e: Event, exec: string, consistent: bool, cfg: string, w: Work) returns (st: State)
    requires For(w, e, exec, cfg)
    ensures Is(Delivered(e, exec, consistent), st, Both(At(e, exec, Commit(w)), Refused(e)))
    ensures JobOf(e) in st.table && forall k :: k in st.table ==> k == JobOf(e) || k.PageKey?
  {
    var start := Delivered(e, exec, consistent);
    var p, q := Delivery(e).(pc := ReadAudit), At(e, exec, CheckMarker(w.s, None));
    var r, t := At(e, exec, WritePages(w, 0)), At(e, exec, Commit(w));
    st := SecondRefused(e, exec, consistent);
    BothUpdated(p, Refused(e), q);
    BothUpdated(q, Refused(e), r);
    BothUpdated(r, Refused(e), t);
    st := Resolves(start, st, Both(p, Refused(e)), 0, e, exec, cfg);
    st := Loads(start, st, Both(q, Refused(e)), 0, e, exec, cfg, w);
    NoPages(st.table, w, JobOf(e));
    st := PagesThenCommit(start, st, Both(r, Refused(e)), 0, e, exec, w, 0);
  }

  lemma CommitsAndRecords(start: State, st: State, e: Event, exec: string, w: Work) returns (u: State)
    requires Is(start, st, Both(At(e, exec, Commit(w)), Refused(e))) && !Blocked(st.table, w) && JobOf(e) in st.table
    ensures ReachedFrom(start, u) && w.s in u.commits && u.commits[w.s] == w && JobOf(e) in u.table && u.table[JobOf(e)] == JobItem(Completed)
    ensures Is(start, u, Both(At(e, exec, Done(Verdict(Completed, NoReason, Some(w.s)))), Refused(e)))
  {
    var v := Verdict(Completed, NoReason, Some(w.s));
    var p, q := At(e, exec, Commit(w)), Committer(e, exec, w.s);
    BothUpdated(p, Refused(e), q);
    BothUpdated(q, Refused(e), At(e, exec, Done(v)));
    u := Commits(start, st, Both(p, Refused(e)), 0, e, exec, w);
    u := Records(start, u, Both(q, Refused(e)), 0, q, v);
  }

  /** With every read fresh and no call raising: a second delivery finds the job STARTED, the
      first run commits and records COMPLETED, and then the second overwrites the record with
      a conflict. */
  lemma VerdictOverwritten(e: Event, exec: string, consistent: bool, cfg: string, w: Work)
    returns (before: seq<Action>, after: seq<Action>)
    requires For(w, e, exec, cfg)
    ensures Initial(Delivered(e, exec, consistent))
    ensures JobSays(Exec(Delivered(e, exec, consistent), before), e, Completed)
    ensures JobSays(Exec(Delivered(e, exec, consistent), after), e, Conflict)
    ensures SetExists(Exec(Delivered(e, exec, consistent), after).table, w.s)
  {
    var start := Delivered(e, exec, consistent);
    var st := FirstAtCommit(e, exec, consistent, cfg, w);
    Unhindered(st.table, w, JobOf(e));
    st := CommitsAndRecords(start, st, e, exec, w);
    before :| Exec(start, before) == st;
    var done := At(e, exec, Done(Verdict(Completed, NoReason, Some(w.s))));
    st := Records(start, st, Both(done, Refused(e)), 1, Refused(e), CONFLICT);
    after :| Exec(start, after) == st;
    SetExistsIffCommitted(start, after, w.s);
  }

  predicate JobSays(st: State, e: Event, status: JobStatus) {
    JobOf(e) in st.table && st.table[JobOf(e)] == JobItem(status)
  }
}
