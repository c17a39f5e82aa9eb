/** A run of the aggregation machine that nobody gets in the way of: from any state reached by
    any interleaving it ends as the sequential run does. */
module AggregationAlone {
  import opened Wrappers
  import opened AggregationRecords
  import opened LineageManifest
  import opened AggregationKeys
  import opened AggregateSet
  import opened AggregationRepository
  import opened AggregationCommit
  import opened AggregationSafety
  import opened AggregationGuarantees
  import opened AggregationOrchestrator

  /** The steps of run i, one after the other. */
  ghost function Solo(st: State, i: nat, answers: seq<Answer>): State
    decreases |answers|
  {
    if answers == [] then st else Next(Solo(st, i, answers[..|answers| - 1]), Run(i, answers[|answers| - 1]))
  }

  ghost predicate ReachedAlone(st: State, u: State, i: nat) {
    exists answers :: Solo(st, i, answers) == u
  }

  lemma OneMore(st: State, u: State, i: nat, a: Answer)
    requires ReachedAlone(st, u, i)
    ensures ReachedAlone(st, Next(u, Run(i, a)), i)
  {
    var answers :| Solo(st, i, answers) == u;
    assert (answers + [a])[..|answers|] == answers;
    assert Solo(st, i, answers + [a]) == Next(u, Run(i, a));
  }

  /** Run i alone has got from st to u, where it is p. */
  ghost predicate On(st: State, u: State, i: nat, p: Proc) {
    && ReachedAlone(st, u, i)
    && i in st.procs && u.procs == st.procs[i := p] && u.audits == st.audits && u.consistent == st.consistent
  }

  lemma {:induction false} SoloKeepsInv(st: State, i: nat, answers: seq<Answer>)
    requires Inv(st)
    ensures Inv(Solo(st, i, answers))
    decreases |answers|
  {
    if answers != [] {
      SoloKeepsInv(st, i, answers[..|answers| - 1]);
      StepKeepsInv(Solo(st, i, answers[..|answers| - 1]), Run(i, answers[|answers| - 1]));
    }
  }

  /** Whatever the run does, the invariant holds. */
  lemma StillInv(st: State, u: State, i: nat)
    requires Inv(st) && ReachedAlone(st, u, i)
    ensures Inv(u)
  {
    var answers :| Solo(st, i, answers) == u;
    SoloKeepsInv(st, i, answers);
  }

  lemma Start(st: State, i: nat)
    requires i in st.procs
    ensures On(st, st, i, st.procs[i])
  {
    assert Solo(st, i, []) == st && ReachedAlone(st, st, i);
    assert st.procs[i := st.procs[i]] == st.procs;
  }

  lemma NextIs(u: State, i: nat, p: Proc, a: Answer)
    requires i in u.procs && u.procs[i] == p && Legal(u, p, a)
    ensures var e := EffectOfStep(u, p, a);
            && Next(u, Run(i, a)) == Affected(u, e).(procs := u.procs[i := Advance(u, p, a)])
            && Affected(u, e).audits == u.audits && Affected(u, e).consistent == u.consistent
            && Affected(u, e).table == Apply(u.table, e) && (!e.AddBatch? ==> Affected(u, e).commits == u.commits)
  {
  }

  /** One more call. */
  lemma Go(st: State, u: State, i: nat, p: Proc, a: Answer) returns (v: State)
    requires On(st, u, i, p) && Legal(u, p, a)
    ensures On(st, v, i, Advance(u, p, a))
    ensures v.table == Apply(u.table, EffectOfStep(u, p, a))
    ensures !EffectOfStep(u, p, a).AddBatch? ==> v.commits == u.commits
  {
    v := Next(u, Run(i, a));
    NextIs(u, i, p, a);
    OneMore(st, u, i, a);
    var q := Advance(u, p, a);
    assert st.procs[i := p][i := q] == st.procs[i := q];
  }

  lemma Reads(st: State, u: State, i: nat, p: Proc) returns (v: State)
    requires On(st, u, i, p) && KeyRead(p).Some?
    ensures On(st, v, i, AfterSeen(p, Lookup(u.table, KeyRead(p).value)))
    ensures v.table == u.table && v.commits == u.commits
  {
    v := Go(st, u, i, p, Seen(Lookup(u.table, KeyRead(p).value)));
  }

  // ---- the job ----

  lemma TakesNewJob(st: State, u: State, i: nat, p: Proc) returns (v: State)
    requires On(st, u, i, p) && p.pc.PutJob? && JobOf(p.event) !in u.table
    ensures On(st, v, i, p.(pc := ReadAudit)) && v.table == u.table[JobOf(p.event) := JobItem(Started)]
  {
    v := Go(st, u, i, p, Ack);
  }

  lemma FindsJob(st: State, u: State, i: nat, p: Proc) returns (v: State)
    requires Inv(st) && On(st, u, i, p) && p.pc.PutJob? && JobOf(p.event) in u.table
    ensures u.table[JobOf(p.event)].JobItem? && v.table == u.table
    ensures On(st, v, i, p.(pc := if MayRun(u.table, p.event) then ClaimJob else ReReadJob))
  {
    JobTyped(st, u, i, p.event);
    v := Go(st, u, i, p, Ack);
    v := Reads(st, v, i, p.(pc := ReadJob));
  }

  lemma JobTyped(st: State, u: State, i: nat, e: Event)
    requires Inv(st) && ReachedAlone(st, u, i) && JobOf(e) in u.table
    ensures u.table[JobOf(e)].JobItem?
  {
    StillInv(st, u, i);
    assert KindOk(u, JobOf(e));
  }

  lemma TakesOver(st: State, u: State, i: nat, p: Proc) returns (v: State)
    requires On(st, u, i, p) && p.pc.ClaimJob? && JobOf(p.event) in u.table
    ensures On(st, v, i, p.(pc := ReadAudit)) && v.table == u.table[JobOf(p.event) := JobItem(Started)]
  {
    v := Go(st, u, i, p, Ack);
  }

  /** What a run that does not get its job records. */
  function NotMine(t: Table, e: Event): Verdict
    requires JobOf(e) in t && t[JobOf(e)].JobItem?
  {
    if t[JobOf(e)].status in {Completed, DuplicateCompleted} then Verdict(DuplicateCompleted, NoReason, None)
    else Verdict(Conflict, WriteConflict, None)
  }

  lemma Declines(st: State, u: State, i: nat, p: Proc) returns (v: State)
    requires On(st, u, i, p) && p.pc.ReReadJob? && JobOf(p.event) in u.table && u.table[JobOf(p.event)].JobItem?
    ensures On(st, v, i, p.(pc := Finish(NotMine(u.table, p.event)))) && v.table == u.table
  {
    v := Reads(st, u, i, p);
  }

  lemma Claims(st: State, i: nat, p: Proc) returns (v: State)
    requires Inv(st) && i in st.procs && st.procs[i] == p && p.pc.PutJob? && MayRun(st.table, p.event)
    ensures On(st, v, i, p.(pc := ReadAudit)) && v.table == st.table[JobOf(p.event) := JobItem(Started)]
  {
    Start(st, i);
    if JobOf(p.event) !in st.table {
      v := TakesNewJob(st, st, i, p);
    } else {
      v := FindsJob(st, st, i, p);
      v := TakesOver(st, v, i, p.(pc := ClaimJob));
    }
  }

  lemma DoesNotClaim(st: State, i: nat, p: Proc) returns (v: State)
    requires Inv(st) && i in st.procs && st.procs[i] == p && p.pc.PutJob? && !MayRun(st.table, p.event)
    ensures JobOf(p.event) in st.table && st.table[JobOf(p.event)].JobItem?
    ensures On(st, v, i, p.(pc := Finish(NotMine(st.table, p.event)))) && v.table == st.table
  {
    Start(st, i);
    v := FindsJob(st, st, i, p);
    v := Declines(st, v, i, p.(pc := ReReadJob));
  }

  // ---- the identity ----

  function Existing(st: State, e: Event): Option<string> {
    if (e.client, e.audit) in st.audits then Some(st.audits[(e.client, e.audit)]) else None
  }

  lemma IdentityTyped(st: State, u: State, i: nat, e: Event)
    requires Inv(st) && ReachedAlone(st, u, i) && IdentityOf(e) in u.table
    ensures u.table[IdentityOf(e)].IdentityItem?
  {
    StillInv(st, u, i);
    assert KindOk(u, IdentityOf(e));
  }

  lemma AsksForIdentity(st: State, u: State, i: nat, p: Proc, cfg: Option<string>) returns (v: State)
    requires On(st, u, i, p) && p.pc.ReadAudit?
    ensures v.table == u.table
    ensures On(st, v, i, if Existing(st, p.event).Some?
                         then p.(pc := SaveIdentity(Existing(st, p.event).value, cfg), resolved := Existing(st, p.event))
                         else p.(pc := ReadIdentity(cfg)))
  {
    v := Go(st, u, i, p, SeenAudit(cfg));
  }

  lemma ReadsIdentity(st: State, u: State, i: nat, p: Proc, cfg: Option<string>) returns (v: State)
    requires Inv(st) && On(st, u, i, p) && p.pc == ReadIdentity(cfg)
    ensures v.table == u.table
    ensures IdentityOf(p.event) in u.table ==> u.table[IdentityOf(p.event)].IdentityItem?
    ensures On(st, v, i, if IdentityOf(p.event) in u.table
                         then p.(pc := SaveIdentity(u.table[IdentityOf(p.event)].exec, cfg),
                                 resolved := Some(u.table[IdentityOf(p.event)].exec))
                         else p.(pc := PutIdentity(cfg)))
  {
    if IdentityOf(p.event) in u.table {
      IdentityTyped(st, u, i, p.event);
    }
    v := Reads(st, u, i, p);
  }

  lemma PutsIdentity(st: State, u: State, i: nat, p: Proc, cfg: Option<string>) returns (v: State)
    requires On(st, u, i, p) && p.pc == PutIdentity(cfg) && IdentityOf(p.event) !in u.table
    ensures v.table == u.table[IdentityOf(p.event) := IdentityItem(p.candidate)]
    ensures On(st, v, i, p.(pc := SaveIdentity(p.candidate, cfg), resolved := Some(p.candidate)))
  {
    v := Go(st, u, i, p, Ack);
  }

  /** The winning identity is settled on, and recorded unless the audit or the table has one. */
  lemma Resolves(st: State, u: State, i: nat, p: Proc, cfg: Option<string>) returns (v: State)
    requires Inv(st) && On(st, u, i, p) && p.pc.ReadAudit?
    ensures var exec := Winner(u.table, p.event, Existing(st, p.event), p.candidate);
            && On(st, v, i, p.(pc := SaveIdentity(exec, cfg), resolved := Some(exec)))
            && v.table == if Existing(st, p.event).Some? || IdentityOf(p.event) in u.table then u.table
                          else u.table[IdentityOf(p.event) := IdentityItem(exec)]
  {
    v := AsksForIdentity(st, u, i, p, cfg);
    if Existing(st, p.event).None? {
      var asked := v;
      v := ReadsIdentity(st, asked, i, p.(pc := ReadIdentity(cfg)), cfg);
      if IdentityOf(p.event) !in u.table {
        v := PutsIdentity(st, v, i, p.(pc := PutIdentity(cfg)), cfg);
      }
    }
  }

  lemma Saves(st: State, u: State, i: nat, p: Proc) returns (v: State)
    requires On(st, u, i, p) && p.pc.SaveIdentity?
    ensures On(st, v, i, p.(pc := if p.pc.cfg.None? then Failure(OtherReason)
                                  else CheckMarker(SetOf(p.event, p.pc.exec, p.pc.cfg.value), None)))
    ensures v.table == u.table
  {
    v := Go(st, u, i, p, Ack);
  }

  // ---- the set ----

  lemma ReadsMarker(st: State, u: State, i: nat, p: Proc, s: SetId, m: Marker) returns (v: State)
    requires On(st, u, i, p) && p.pc == CheckMarker(s, None) && m.complete
    requires SetKey(s) in u.table && u.table[SetKey(s)] == SetItem(m)
    ensures On(st, v, i, p.(pc := CheckRequired(s, m, 0, None))) && v.table == u.table && v.commits == u.commits
  {
    v := Reads(st, u, i, p);
  }

  /** The next point of a check that has seen its n-th record. */
  function AfterRecord(s: SetId, m: Marker, n: nat): PC {
    if n < 2 then CheckRequired(s, m, n + 1, None) else CheckQuery(s, m, None)
  }

  lemma SeenRequired(p: Proc, t: Table, s: SetId, m: Marker, n: nat)
    requires p.pc == CheckRequired(s, m, n, None) && n < 3 && Required(s)[n] in t
    ensures KeyRead(p) == Some(Required(s)[n])
    ensures AfterSeen(p, Lookup(t, Required(s)[n])) == p.(pc := AfterRecord(s, m, n))
  {
  }

  lemma ReadsRequired(st: State, u: State, i: nat, p: Proc, q: Proc, s: SetId, m: Marker, n: nat) returns (v: State)
    requires On(st, u, i, p) && p.pc == CheckRequired(s, m, n, None) && n < 3 && Required(s)[n] in u.table
    requires q == p.(pc := AfterRecord(s, m, n))
    ensures On(st, v, i, q) && v.table == u.table && v.commits == u.commits
  {
    SeenRequired(p, u.table, s, m, n);
    v := Reads(st, u, i, p);
  }

  lemma ReadsThree(st: State, u: State, i: nat, p: Proc, s: SetId, m: Marker) returns (v: State)
    requires On(st, u, i, p) && p.pc == CheckRequired(s, m, 0, None)
    requires forall n :: 0 <= n < 3 ==> Required(s)[n] in u.table
    ensures On(st, v, i, p.(pc := CheckQuery(s, m, None))) && v.table == u.table && v.commits == u.commits
  {
    var q, r := p.(pc := AfterRecord(s, m, 0)), p.(pc := AfterRecord(s, m, 1));
    v := ReadsRequired(st, u, i, p, q, s, m, 0);
    v := ReadsRequired(st, v, i, q, r, s, m, 1);
    v := ReadsRequired(st, v, i, r, p.(pc := AfterRecord(s, m, 2)), s, m, 2);
  }

  lemma ReadsAll(st: State, u: State, i: nat, p: Proc, s: SetId, m: Marker) returns (v: State)
    requires On(st, u, i, p) && p.pc == CheckMarker(s, None) && m.complete
    requires SetKey(s) in u.table && u.table[SetKey(s)] == SetItem(m)
    requires forall n :: 0 <= n < 3 ==> Required(s)[n] in u.table
    ensures On(st, v, i, p.(pc := CheckQuery(s, m, None))) && v.table == u.table && v.commits == u.commits
  {
    v := ReadsMarker(st, u, i, p, s, m);
    v := ReadsThree(st, v, i, p.(pc := CheckRequired(s, m, 0, None)), s, m);
  }

  lemma Queries(st: State, u: State, i: nat, p: Proc, s: SetId, m: Marker) returns (v: State)
    requires Inv(st) && On(st, u, i, p) && p.pc == CheckQuery(s, m, None)
    ensures On(st, v, i, p.(pc := Finish(Verdict(DuplicateCompleted, NoReason, Some(s))))) && v.table == u.table
  {
    QueryFinds(st, u, i, p, s, m);
    v := Go(st, u, i, p, Found(EndpointRecords(u.table, s)));
  }

  lemma QueryFinds(st: State, u: State, i: nat, p: Proc, s: SetId, m: Marker)
    requires Inv(st) && On(st, u, i, p) && p.pc == CheckQuery(s, m, None)
    ensures AfterQuery(u.table, s, m, None, EndpointRecords(u.table, s)) == Finish(Verdict(DuplicateCompleted, NoReason, Some(s)))
  {
    StillInv(st, u, i);
    assert ProcOk(u, u.procs[i]);
    FreshQueryAgrees(u, s, m, None, EndpointRecords(u.table, s));
  }

  lemma MarkerThere(t: Table, s: SetId) returns (m: Marker)
    requires SetExists(t, s)
    ensures SetKey(s) in t && t[SetKey(s)] == SetItem(m) && m.complete
    ensures forall n :: 0 <= n < 3 ==> Required(s)[n] in t
  {
    m := t[SetKey(s)].marker;
  }

  /** A set that is there is found at the first look. */
  lemma FindsSet(st: State, u: State, i: nat, p: Proc, s: SetId) returns (v: State)
    requires Inv(st) && On(st, u, i, p) && p.pc == CheckMarker(s, None) && SetExists(u.table, s)
    ensures On(st, v, i, p.(pc := Finish(Verdict(DuplicateCompleted, NoReason, Some(s))))) && v.table == u.table
  {
    var m := MarkerThere(u.table, s);
    v := ReadsAll(st, u, i, p, s, m);
    v := Queries(st, v, i, p.(pc := CheckQuery(s, m, None)), s, m);
  }

  lemma MarkerMissing(st: State, u: State, i: nat, s: SetId)
    requires Inv(st) && ReachedAlone(st, u, i) && !SetExists(u.table, s)
    ensures SetKey(s) !in u.table
  {
    StillInv(st, u, i);
    SetExistsInStore(u, s);
    MarkerStored(u, s);
  }

  lemma MissesSet(st: State, u: State, i: nat, p: Proc, s: SetId) returns (v: State)
    requires Inv(st) && On(st, u, i, p) && p.pc == CheckMarker(s, None) && !SetExists(u.table, s)
    ensures On(st, v, i, p.(pc := Load(s))) && v.table == u.table
  {
    MarkerMissing(st, u, i, s);
    v := Reads(st, u, i, p);
  }

  // ---- the evidence ----

  /** Evidence as the gate lets it through: some results, no two with one reference. */
  ghost predicate Gated(evidence: Gathered) {
    evidence.Usable? ==> evidence.records != [] && DistinctRefs(evidence.records)
  }

  ghost function AnswerFor(evidence: Gathered): Answer {
    match evidence
    case Unusable => Error
    case NotEligible => Answer.NotEligible
    case Usable(records, at) => Evidence(records, at)
  }

  /** Where a run goes with its evidence. */
  ghost function WithEvidence(p: Proc, s: SetId, evidence: Gathered): PC {
    match evidence
    case Unusable => Failure(OtherReason)
    case NotEligible => Finish(Verdict(Ineligible, OtherReason, None))
    case Usable(records, at) =>
      var w := Work(s, p.event.job, at, records);
      if Small(w) then WritePages(w, 0) else Failure(OtherReason)
  }

  lemma LoadsEvidence(st: State, u: State, i: nat, p: Proc, s: SetId, evidence: Gathered) returns (v: State)
    requires On(st, u, i, p) && p.pc == Load(s) && Gated(evidence)
    ensures On(st, v, i, p.(pc := WithEvidence(p, s, evidence))) && v.table == u.table
  {
    v := Go(st, u, i, p, AnswerFor(evidence));
    if evidence.Usable? {
      var w := Work(s, p.event.job, evidence.at, evidence.records);
      assert Accepted(w) <==> Small(w);
    }
  }

  // ---- the pages ----

  /** The pages from n on fit. */
  ghost predicate FitFrom(t: Table, w: Work, n: nat) {
    forall j :: n <= j < |PageList(w)| ==> Fits(t, PageList(w)[j])
  }

  /** Only pages of the attempt are new. */
  ghost predicate PagesAdded(t: Table, u: Table, w: Work) {
    Extends(t, u) && forall k :: k in u && k !in t ==> k.PageKey? && k.s == w.s
  }

  lemma AddingKeepsFit(t: Table, w: Work, n: nat)
    requires n < |PageList(w)| && PageList(w)[n].key !in t
    ensures var page := PageList(w)[n];
            var u := t[page.key := PageItem(page.page)];
            && (FitFrom(t, w, n) <==> FitFrom(u, w, n + 1)) && PagesAdded(t, u, w)
  {
    var page := PageList(w)[n];
    var u := t[page.key := PageItem(page.page)];
    PagesAgree(w);
    PageListShape(w, Scopes(w), page);
    forall j | n <= j < |PageList(w)| ensures Fits(t, PageList(w)[j]) <==> Fits(u, PageList(w)[j]) {
      assert PageList(w)[j] in PageList(w) && page in PageList(w);
    }
    assert Fits(t, page);
  }

  lemma AckAtPage(u: State, p: Proc, w: Work, n: nat)
    requires p.pc == WritePages(w, n) && n < |PageList(w)|
    ensures var placed := PageList(w)[n];
            if placed.key in u.table
            then EffectOfStep(u, p, Ack) == Nothing && Advance(u, p, Ack) == p.(pc := ReadPage(w, n))
            else EffectOfStep(u, p, Ack) == AddPage(placed) && Advance(u, p, Ack) == p.(pc := WritePages(w, n + 1))
  {
  }

  lemma SeenAtPage(p: Proc, t: Table, w: Work, n: nat)
    requires p.pc == ReadPage(w, n) && n < |PageList(w)| && PageList(w)[n].key in t
    ensures KeyRead(p) == Some(PageList(w)[n].key)
    ensures AfterSeen(p, Lookup(t, PageList(w)[n].key))
         == p.(pc := if Fits(t, PageList(w)[n]) then WritePages(w, n + 1) else Failure(PageHashMismatch))
  {
  }

  lemma AddsPage(st: State, u: State, i: nat, p: Proc, w: Work, n: nat) returns (v: State)
    requires On(st, u, i, p) && p.pc == WritePages(w, n) && n < |PageList(w)| && PageList(w)[n].key !in u.table
    ensures On(st, v, i, p.(pc := WritePages(w, n + 1)))
    ensures v.table == u.table[PageList(w)[n].key := PageItem(PageList(w)[n].page)]
  {
    AckAtPage(u, p, w, n);
    v := Go(st, u, i, p, Ack);
  }

  lemma MeetsPage(st: State, u: State, i: nat, p: Proc, w: Work, n: nat) returns (v: State)
    requires On(st, u, i, p) && p.pc == WritePages(w, n) && n < |PageList(w)| && PageList(w)[n].key in u.table
    ensures On(st, v, i, p.(pc := if Fits(u.table, PageList(w)[n]) then WritePages(w, n + 1) else Failure(PageHashMismatch)))
    ensures v.table == u.table
  {
    AckAtPage(u, p, w, n);
    v := Go(st, u, i, p, Ack);
    var q := p.(pc := ReadPage(w, n));
    SeenAtPage(q, u.table, w, n);
    v := Reads(st, v, i, q);
  }

  /** The pages are written as far as they fit. */
  lemma {:induction false} WritesPages(st: State, u: State, i: nat, p: Proc, w: Work, n: nat) returns (v: State)
    requires On(st, u, i, p) && p.pc == WritePages(w, n) && n <= |PageList(w)|
    ensures On(st, v, i, p.(pc := if FitFrom(u.table, w, n) then Commit(w) else Failure(PageHashMismatch)))
    ensures PagesAdded(u.table, v.table, w)
    decreases |PageList(w)| - n
  {
    if n == |PageList(w)| {
      v := Go(st, u, i, p, Ack);
    } else if PageList(w)[n].key !in u.table {
      AddingKeepsFit(u.table, w, n);
      var more := AddsPage(st, u, i, p, w, n);
      v := WritesPages(st, more, i, p.(pc := WritePages(w, n + 1)), w, n + 1);
    } else {
      var more := MeetsPage(st, u, i, p, w, n);
      assert FitFrom(u.table, w, n) <==> Fits(u.table, PageList(w)[n]) && FitFrom(u.table, w, n + 1);
      if Fits(u.table, PageList(w)[n]) {
        v := WritesPages(st, more, i, p.(pc := WritePages(w, n + 1)), w, n + 1);
      } else {
        v := more;
      }
    }
  }

  // ---- the transaction ----

  /** Over a set that is not there the transaction goes through. */
  lemma Commits(st: State, u: State, i: nat, p: Proc, w: Work) returns (v: State)
    requires Inv(st) && On(st, u, i, p) && p.pc == Commit(w) && !SetExists(u.table, w.s)
    ensures On(st, v, i, p.(pc := Finish(Verdict(Completed, NoReason, Some(w.s)))))
    ensures SetExists(v.table, w.s) && Committed(v.table, w) && Extends(u.table, v.table)
  {
    NotBlocked(st, u, i, w);
    AckAtCommit(u, p, w);
    v := Go(st, u, i, p, Ack);
    NowThere(st, v, i, w);
    BatchExtends(u.table, w);
  }

  lemma BatchExtends(t: Table, w: Work)
    requires !Blocked(t, w)
    ensures Extends(t, t + Batch(w))
  {
  }

  lemma AckAtCommit(u: State, p: Proc, w: Work)
    requires p.pc == Commit(w) && !Blocked(u.table, w)
    ensures EffectOfStep(u, p, Ack) == AddBatch(w)
    ensures Advance(u, p, Ack) == p.(pc := Finish(Verdict(Completed, NoReason, Some(w.s))))
  {
  }

  lemma NotBlocked(st: State, u: State, i: nat, w: Work)
    requires Inv(st) && ReachedAlone(st, u, i) && !SetExists(u.table, w.s)
    ensures !Blocked(u.table, w)
  {
    StillInv(st, u, i);
    SetExistsInStore(u, w.s);
    if Blocked(u.table, w) {
      BlockedMeansDone(u, w);
    }
  }

  lemma NowThere(st: State, v: State, i: nat, w: Work)
    requires Inv(st) && ReachedAlone(st, v, i) && forall k :: k in Batch(w) ==> k in v.table && v.table[k] == Batch(w)[k]
    ensures SetExists(v.table, w.s) && Committed(v.table, w)
  {
    StillInv(st, v, i);
    forall k | Writes(w, k) ensures k in v.table && v.table[k] == Written(w, k) {
      assert k in Batch(w);
    }
    CommittedMarker(v.table, w);
    MarkerStored(v, w.s);
    SetExistsInStore(v, w.s);
  }

  lemma AckAtFinish(u: State, p: Proc)
    requires p.pc.Finish? && JobOf(p.event) in u.table
    ensures EffectOfStep(u, p, Ack) == RecordJob(JobOf(p.event), p.pc.verdict.status)
    ensures Advance(u, p, Ack) == p.(pc := Done(p.pc.verdict))
  {
  }

  lemma Finishes(st: State, u: State, i: nat, p: Proc) returns (v: State)
    requires On(st, u, i, p) && p.pc.Finish? && JobOf(p.event) in u.table
    ensures On(st, v, i, p.(pc := Done(p.pc.verdict)))
    ensures v.table == u.table[JobOf(p.event) := JobItem(p.pc.verdict.status)]
  {
    AckAtFinish(u, p);
    v := Go(st, u, i, p, Ack);
  }

  // ---- a whole run ----

  lemma WritesSet(st: State, u: State, i: nat, p: Proc, w: Work) returns (v: State, verdict: Verdict)
    requires Inv(st) && On(st, u, i, p) && p.pc == WritePages(w, 0) && !SetExists(u.table, w.s)
    ensures On(st, v, i, p.(pc := Finish(verdict))) && Extends(u.table, v.table)
    ensures if PagesFit(u.table, w) then verdict.status == Completed && SetExists(v.table, w.s) && Committed(v.table, w)
            else verdict.status == JobStatus.Failed
  {
    v := WritesPages(st, u, i, p, w, 0);
    assert PagesFit(u.table, w) <==> FitFrom(u.table, w, 0) by {
      assert forall j :: 0 <= j < |PageList(w)| ==> PageList(w)[j] in PageList(w);
    }
    verdict := Verdict(JobStatus.Failed, PageHashMismatch, None);
    if PagesFit(u.table, w) {
      PagesInvisible(u.table, v.table, w.s);
      v := Commits(st, v, i, p.(pc := Commit(w)), w);
      verdict := Verdict(Completed, NoReason, Some(w.s));
    }
  }

  /** From its first look at the set to its verdict. */
  lemma Aggregates(st: State, u: State, i: nat, p: Proc, s: SetId, evidence: Gathered) returns (v: State, verdict: Verdict)
    requires Inv(st) && On(st, u, i, p) && p.pc == CheckMarker(s, None) && Gated(evidence)
    ensures On(st, v, i, p.(pc := Finish(verdict))) && Extends(u.table, v.table)
    ensures Aggregated(u.table, v.table, verdict.status, s, p.event, evidence)
  {
    if SetExists(u.table, s) {
      v := FindsSet(st, u, i, p, s);
      verdict := Verdict(DuplicateCompleted, NoReason, Some(s));
    } else {
      var missed := MissesSet(st, u, i, p, s);
      v := LoadsEvidence(st, missed, i, p.(pc := Load(s)), s, evidence);
      var pc := WithEvidence(p, s, evidence);
      if pc.WritePages? {
        v, verdict := WritesSet(st, v, i, p.(pc := pc), pc.w);
      } else {
        verdict := pc.verdict;
      }
    }
  }

  lemma SetsStay(t: Table, k: RecordKey, item: Item)
    requires !InSet(k)
    ensures SameSets(t, t[k := item])
  {
  }

  /** Once the job is its own: identity, configuration version, set. */
  lemma Proceeds(st: State, u: State, i: nat, p: Proc, cfg: Option<string>, evidence: Gathered) returns (v: State, q: Proc, verdict: Verdict)
    requires Inv(st) && On(st, u, i, p) && p.pc.ReadAudit? && Gated(evidence)
    ensures On(st, v, i, q.(pc := Finish(verdict))) && Extends(u.table, v.table) && q.event == p.event
    ensures var exec := Winner(u.table, p.event, Existing(st, p.event), p.candidate);
            && (Existing(st, p.event).None? ==> Identified(v.table, p.event, exec))
            && if cfg.None? then verdict.status == JobStatus.Failed
               else Aggregated(u.table, v.table, verdict.status, SetOf(p.event, exec, cfg.value), p.event, evidence)
  {
    var exec := Winner(u.table, p.event, Existing(st, p.event), p.candidate);
    if Existing(st, p.event).None? && IdentityOf(p.event) in u.table {
      IdentityTyped(st, u, i, p.event);
    }
    var known := Resolves(st, u, i, p, cfg);
    q := p.(pc := SaveIdentity(exec, cfg), resolved := Some(exec));
    SetsStay(u.table, IdentityOf(p.event), IdentityItem(exec));
    v := Saves(st, known, i, q);
    if cfg.None? {
      verdict := Verdict(JobStatus.Failed, OtherReason, None);
    } else {
      var s := SetOf(p.event, exec, cfg.value);
      v, verdict := Aggregates(st, v, i, q.(pc := CheckMarker(s, None)), s, evidence);
      AggregatedElsewhere(known.table, v.table, u.table, v.table, verdict.status, s, p.event, evidence);
    }
  }

  lemma ClaimedEnds(t: Table, claimed: Table, v: Table, e: Event, existing: Option<string>, candidate: string,
                    cfg: Option<string>, evidence: Gathered, status: JobStatus)
    requires MayRun(t, e) && claimed == t[JobOf(e) := JobItem(Started)] && JobOf(e) in v
    requires var exec := Winner(claimed, e, existing, candidate);
             && (existing.None? ==> Identified(v, e, exec))
             && if cfg.None? then status == JobStatus.Failed
                else Aggregated(claimed, v, status, SetOf(e, exec, cfg.value), e, evidence)
    ensures RunEnds(t, v[JobOf(e) := JobItem(status)], e, existing, candidate, cfg, evidence, status)
  {
    SetsStay(t, JobOf(e), JobItem(Started));
    SetsStay(v, JobOf(e), JobItem(status));
    if cfg.Some? {
      var s := SetOf(e, Winner(t, e, existing, candidate), cfg.value);
      AggregatedElsewhere(claimed, v, t, v[JobOf(e) := JobItem(status)], status, s, e, evidence);
    }
  }

  lemma EndsWithJob(st: State, i: nat, p: Proc, cfg: Option<string>, evidence: Gathered)
    returns (v: State, q: Proc, verdict: Verdict)
    requires Inv(st) && i in st.procs && st.procs[i] == p && p.pc == PutJob && Gated(evidence) && MayRun(st.table, p.event)
    ensures On(st, v, i, q.(pc := Done(verdict)))
    ensures RunEnds(st.table, v.table, p.event, Existing(st, p.event), p.candidate, cfg, evidence, verdict.status)
  {
    var claimed := Claims(st, i, p);
    v, q, verdict := Proceeds(st, claimed, i, p.(pc := ReadAudit), cfg, evidence);
    assert JobOf(p.event) in claimed.table;
    ClaimedEnds(st.table, claimed.table, v.table, p.event, Existing(st, p.event), p.candidate, cfg, evidence, verdict.status);
    v := Finishes(st, v, i, q.(pc := Finish(verdict)));
  }

  lemma EndsWithoutJob(st: State, i: nat, p: Proc, cfg: Option<string>, evidence: Gathered) returns (v: State, verdict: Verdict)
    requires Inv(st) && i in st.procs && st.procs[i] == p && p.pc == PutJob && !MayRun(st.table, p.event)
    ensures On(st, v, i, p.(pc := Done(verdict)))
    ensures RunEnds(st.table, v.table, p.event, Existing(st, p.event), p.candidate, cfg, evidence, verdict.status)
  {
    v := DoesNotClaim(st, i, p);
    verdict := NotMine(st.table, p.event);
    v := Finishes(st, v, i, p.(pc := Finish(verdict)));
  }

  /** A run about to create its job, left alone from here on with its reads fresh and no call
      failing, ends, and ends as the sequential run over the same table does. */
  lemma EndsAsRun(st: State, i: nat, cfg: Option<string>, evidence: Gathered) returns (v: State, verdict: Verdict)
    requires Inv(st) && i in st.procs && st.procs[i].pc == PutJob && Gated(evidence)
    ensures ReachedAlone(st, v, i) && i in v.procs && v.procs[i].pc == Done(verdict)
    ensures forall j :: j in st.procs && j != i ==> j in v.procs && v.procs[j] == st.procs[j]
    ensures RunEnds(st.table, v.table, st.procs[i].event, Existing(st, st.procs[i].event), st.procs[i].candidate, cfg,
                    evidence, verdict.status)
  {
    var p := st.procs[i];
    if MayRun(st.table, p.event) {
      var q;
      v, q, verdict := EndsWithJob(st, i, p, cfg, evidence);
    } else {
      v, verdict := EndsWithoutJob(st, i, p, cfg, evidence);
    }
  }

  lemma {:induction false} SoloIsExec(start: State, actions: seq<Action>, i: nat, answers: seq<Answer>) returns (more: seq<Action>)
    ensures Solo(Exec(start, actions), i, answers) == Exec(start, actions + more)
    decreases |answers|
  {
    if answers == [] {
      more := [];
      assert actions + more == actions;
    } else {
      var init := SoloIsExec(start, actions, i, answers[..|answers| - 1]);
      var last := Run(i, answers[|answers| - 1]);
      more := init + [last];
      assert (actions + more)[..|actions + more| - 1] == actions + init;
    }
  }

  /** So it is after any interleaving of any runs: whatever has been stored, left half done or
      recorded before, there are further steps of this run alone that bring it to that end. */
  lemma AnyRunEnds(start: State, actions: seq<Action>, i: nat, cfg: Option<string>, evidence: Gathered)
    returns (more: seq<Action>, verdict: Verdict)
    requires Initial(start) && i in Exec(start, actions).procs && Exec(start, actions).procs[i].pc == PutJob && Gated(evidence)
    ensures var st, v := Exec(start, actions), Exec(start, actions + more);
            var p := st.procs[i];
            && i in v.procs && v.procs[i].pc == Done(verdict)
            && RunEnds(st.table, v.table, p.event, Existing(st, p.event), p.candidate, cfg, evidence, verdict.status)
  {
    Reachable(start, actions);
    var st := Exec(start, actions);
    var v;
    v, verdict := EndsAsRun(st, i, cfg, evidence);
    var answers :| Solo(st, i, answers) == v;
    more := SoloIsExec(start, actions, i, answers);
  }
}
