/** What a report generation and a certification come to when their calls are answered. */
module ArtifactProgress {
  import opened Wrappers
  import opened ArtifactChain
  import ArtifactSafety
  import C = Certification

  /** The steps of one run, one after the other. */
  function After(st: State, p: nat, answers: seq<Answer>): State
    decreases |answers|
  {
    if answers == [] then st else After(Next(st, p, answers[0]), p, answers[1..])
  }

  function StepsOf(p: nat, answers: seq<Answer>): seq<(nat, Answer)> {
    seq(|answers|, i requires 0 <= i < |answers| => (p, answers[i]))
  }

  lemma {:induction false} AfterIsExec(st: State, p: nat, answers: seq<Answer>)
    ensures After(st, p, answers) == Exec(st, StepsOf(p, answers))
    decreases |answers|
  {
    var steps := StepsOf(p, answers);
    if answers != [] {
      var rest := StepsOf(p, answers[1..]);
      AfterIsExec(Next(st, p, answers[0]), p, answers[1..]);
      assert steps == [(p, answers[0])] + rest;
      ExecFrom(st, (p, answers[0]), rest);
    }
  }

  lemma {:induction false} ExecFrom(st: State, step: (nat, Answer), rest: seq<(nat, Answer)>)
    ensures Exec(st, [step] + rest) == Exec(Next(st, step.0, step.1), rest)
    decreases |rest|
  {
    var steps := [step] + rest;
    if rest == [] {
      assert steps[..0] == [] && steps[0] == step;
      assert Exec(st, []) == st;
    } else {
      var init := rest[..|rest| - 1];
      ExecFrom(st, step, init);
      assert steps[..|steps| - 1] == [step] + init;
    }
  }

  /** The record on file, and seen before: what a read of it may answer. */
  function OnFile(st: State, c: Combo): Option<ReportMeta> {
    if c in st.reports then Some(st.reports[c]) else None
  }

  predicate Recorded(st: State, c: Combo) {
    c in st.reports ==> (c, st.reports[c]) in st.pasts
  }

  /** A generation ends at once on a report in progress, or on a complete one unless forced. */
  predicate Refuses(m: Option<ReportMeta>, force: bool) {
    m.Some? && (m.value.status == InProgress || (m.value.status == Complete && !force))
  }

  lemma RefusedAtOnce(st: State, p: nat)
    requires p in st.procs && st.procs[p].pc == ReadMeta && Recorded(st, st.procs[p].combo)
    ensures var q := st.procs[p];
            var m := OnFile(st, q.combo);
            Next(st, p, SawMeta(m))
            == Goto(st, p, if Refuses(m, q.force) then Done else CheckIntelligence(q.combo in st.reports))
  {
  }

  // ---- one run at a time ----

  /** Nothing but the run itself, and the record of its report, has changed. */
  ghost predicate Only(st: State, u: State, p: nat, pc: PC, next: nat)
    requires p in st.procs
  {
    && p in u.procs && u.procs[p].pc == pc && u.next == next
    && u == st.(reports := u.reports, pasts := u.pasts, next := next, procs := st.procs[p := st.procs[p].(pc := pc)])
    && forall d :: d != st.procs[p].combo ==> (d in u.reports <==> d in st.reports) && (d in st.reports ==> u.reports[d] == st.reports[d])
  }

  lemma {:induction false} AfterBoth(st: State, p: nat, a: seq<Answer>, b: seq<Answer>)
    ensures After(st, p, a + b) == After(After(st, p, a), p, b)
    decreases |a|
  {
    if a == [] {
      assert a + b == b;
    } else {
      assert (a + b)[1..] == a[1..] + b;
      AfterBoth(Next(st, p, a[0]), p, a[1..], b);
    }
  }

  /** One step more. */
  lemma Onward(st: State, p: nat, before: seq<Answer>, a: Answer)
    ensures After(st, p, before + [a]) == Next(After(st, p, before), p, a)
  {
    AfterBoth(st, p, before, [a]);
    var u := After(st, p, before);
    assert [a][1..] == [];
    assert After(u, p, [a]) == After(Next(u, p, a), p, []);
  }

  // ---- generation ----

  lemma JobTaken(st: State, u: State, p: nat, existing: bool)
    requires p in st.procs && Only(st, u, p, CheckIntelligence(existing), st.next)
    ensures Only(st, Next(u, p, Ack(false)), p, PutReportJob(st.next, existing), st.next + 1)
    ensures Next(u, p, Ack(false)).reports == u.reports
  {
  }

  lemma JobPut(st: State, u: State, p: nat, job: nat, existing: bool)
    requires p in st.procs && Only(st, u, p, PutReportJob(job, existing), st.next + 1)
    ensures Only(st, Next(u, p, Ack(false)), p, PutMeta(job, existing), st.next + 1)
    ensures Next(u, p, Ack(false)).reports == u.reports
  {
  }

  lemma MetaPut(st: State, u: State, p: nat, job: nat, existing: bool)
    requires p in st.procs && Only(st, u, p, PutMeta(job, existing), st.next + 1)
    requires existing <==> st.procs[p].combo in u.reports
    ensures Only(st, Next(u, p, Ack(false)), p, ProgressJob(job), st.next + 1)
    ensures st.procs[p].combo in Next(u, p, Ack(false)).reports
    ensures Next(u, p, Ack(false)).reports[st.procs[p].combo].job == job
  {
  }

  lemma JobProgressed(st: State, u: State, p: nat, job: nat)
    requires p in st.procs && Only(st, u, p, ProgressJob(job), st.next + 1)
    ensures Only(st, Next(u, p, Ack(false)), p, ProgressMeta(job), st.next + 1)
    ensures Next(u, p, Ack(false)).reports == u.reports
  {
  }

  lemma MetaProgressed(st: State, u: State, p: nat, job: nat)
    requires p in st.procs && Only(st, u, p, ProgressMeta(job), st.next + 1) && st.procs[p].combo in u.reports
    ensures Only(st, Next(u, p, Ack(false)), p, Build(job), st.next + 1)
    ensures var c := st.procs[p].combo;
            var v := Next(u, p, Ack(false));
            c in v.reports && v.reports[c] == u.reports[c].(status := InProgress)
  {
  }

  function Acks(n: nat): (a: seq<Answer>)
    ensures |a| == n
  {
    if n == 0 then [] else Acks(n - 1) + [Ack(false)]
  }

  lemma Acked(st: State, p: nat, n: nat)
    ensures After(st, p, Acks(n + 1)) == Next(After(st, p, Acks(n)), p, Ack(false))
  {
    Onward(st, p, Acks(n), Ack(false));
  }

  /** Up to building, only the report's record changes: it is IN_PROGRESS under a new job. */
  lemma Prepares(st: State, p: nat, existing: bool)
    requires p in st.procs && st.procs[p].pc == CheckIntelligence(existing)
    requires existing <==> st.procs[p].combo in st.reports
    ensures Only(st, After(st, p, Acks(5)), p, Build(st.next), st.next + 1)
    ensures var c := st.procs[p].combo;
            var u := After(st, p, Acks(5));
            c in u.reports && u.reports[c].status == InProgress && u.reports[c].job == st.next
  {
    var u0 := After(st, p, Acks(0));
    assert st.procs[p := st.procs[p].(pc := CheckIntelligence(existing))] == st.procs;
    assert u0 == st && Only(st, u0, p, CheckIntelligence(existing), st.next);
    Acked(st, p, 0);
    JobTaken(st, u0, p, existing);
    var u1 := After(st, p, Acks(1));
    Acked(st, p, 1);
    JobPut(st, u1, p, st.next, existing);
    var u2 := After(st, p, Acks(2));
    Acked(st, p, 2);
    MetaPut(st, u2, p, st.next, existing);
    var u3 := After(st, p, Acks(3));
    Acked(st, p, 3);
    JobProgressed(st, u3, p, st.next);
    var u4 := After(st, p, Acks(4));
    Acked(st, p, 4);
    MetaProgressed(st, u4, p, st.next);
  }

  /** Besides, one artifact has been stored. */
  ghost predicate Wrote(st: State, u: State, p: nat, pc: PC, next: nat, key: Key, a: Artifact)
    requires p in st.procs
  {
    && p in u.procs && u.procs[p].pc == pc && u.next == next
    && u == st.(reports := u.reports, pasts := u.pasts, next := next, objects := st.objects[key := a],
                puts := st.puts + [key], procs := st.procs[p := st.procs[p].(pc := pc)])
    && forall d :: d != st.procs[p].combo ==> (d in u.reports <==> d in st.reports) && (d in st.reports ==> u.reports[d] == st.reports[d])
  }

  lemma ReportBuilt(st: State, u: State, p: nat, job: nat, body: C.Report)
    requires p in st.procs && Only(st, u, p, Build(job), st.next + 1)
    ensures Only(st, Next(u, p, Built(body)), p, WriteReport(job, ReportArtifact(st.next + 1, body)), st.next + 2)
    ensures Next(u, p, Built(body)).reports == u.reports
  {
  }

  lemma ReportWritten(st: State, u: State, p: nat, job: nat, a: Artifact)
    requires p in st.procs && Only(st, u, p, WriteReport(job, a), st.next + 2)
    ensures var c := st.procs[p].combo;
            Wrote(st, Next(u, p, Ack(false)), p, CompleteJob(job, a), st.next + 2,
                  ReportKey(c.client, c.audit, c.exec, c.agg, c.intel, c.rpt, job), a)
    ensures Next(u, p, Ack(false)).reports == u.reports
  {
  }

  lemma JobCompleted(st: State, u: State, p: nat, job: nat, key: Key, a: Artifact)
    requires p in st.procs && Wrote(st, u, p, CompleteJob(job, a), st.next + 2, key, a)
    ensures Wrote(st, Next(u, p, Ack(false)), p, CompleteMeta(job, a), st.next + 2, key, a)
    ensures Next(u, p, Ack(false)).reports == u.reports
  {
  }

  lemma MetaCompleted(st: State, u: State, p: nat, job: nat, key: Key, a: Artifact)
    requires p in st.procs && Wrote(st, u, p, CompleteMeta(job, a), st.next + 2, key, a) && a.ReportArtifact?
    requires st.procs[p].combo in u.reports
    ensures Wrote(st, Next(u, p, Ack(false)), p, Done, st.next + 2, key, a)
    ensures var c := st.procs[p].combo;
            var v := Next(u, p, Ack(false));
            && c in v.reports && v.reports[c].status == Complete && Recorded(v, c)
            && v.reports[c].job == u.reports[c].job
            && v.reports[c].report.Some? && v.reports[c].report.value.id == a.id
            && v.reports[c].report.value.ref == ReportKey(c.client, c.audit, c.exec, c.agg, c.intel, c.rpt, job)
            && v.reports[c].report.value.endpointCount == if a.body.summary.Some? then a.body.summary.value.endpointCount else 0
  {
  }

  /** The report of a generation that ran through: COMPLETE metadata under the job it took,
      pointing at the stored artifact with the built body. */
  ghost predicate Generated(st: State, u: State, p: nat, body: C.Report)
    requires p in st.procs
  {
    var c := st.procs[p].combo;
    var key := ReportKey(c.client, c.audit, c.exec, c.agg, c.intel, c.rpt, st.next);
    && Wrote(st, u, p, Done, st.next + 2, key, ReportArtifact(st.next + 1, body))
    && c in u.reports && u.reports[c].status == Complete && u.reports[c].job == st.next && Recorded(u, c)
    && u.reports[c].report == Some(Produced(st.next + 1, key, if body.summary.Some? then body.summary.value.endpointCount else 0))
  }

  /** The answers to a generation whose calls all succeed. */
  function Answers(m: Option<ReportMeta>, body: C.Report): seq<Answer> {
    [SawMeta(m)] + Acks(5) + [Built(body)] + [Ack(false)] + [Ack(false)] + [Ack(false)]
  }

  lemma SecondHalf(st: State, p: nat, before: seq<Answer>, job: nat, body: C.Report)
    requires p in st.procs && Only(st, After(st, p, before), p, Build(job), st.next + 1) && job == st.next
    requires st.procs[p].combo in After(st, p, before).reports && After(st, p, before).reports[st.procs[p].combo].job == job
    ensures Generated(st, After(st, p, before + [Built(body)] + [Ack(false)] + [Ack(false)] + [Ack(false)]), p, body)
  {
    var c, a := st.procs[p].combo, ReportArtifact(st.next + 1, body);
    var key := ReportKey(c.client, c.audit, c.exec, c.agg, c.intel, c.rpt, job);
    var one := before + [Built(body)];
    Onward(st, p, before, Built(body));
    ReportBuilt(st, After(st, p, before), p, job, body);
    Onward(st, p, one, Ack(false));
    ReportWritten(st, After(st, p, one), p, job, a);
    var two := one + [Ack(false)];
    Onward(st, p, two, Ack(false));
    JobCompleted(st, After(st, p, two), p, job, key, a);
    var three := two + [Ack(false)];
    Onward(st, p, three, Ack(false));
    MetaCompleted(st, After(st, p, three), p, job, key, a);
  }

  /** A generation that is not refused and whose calls are acknowledged ends with COMPLETE
      metadata pointing at its artifact, which holds the report that was built under the key of
      its job; everything else is as it was. */
  lemma GenerationCompletes(st: State, p: nat, body: C.Report)
    requires p in st.procs && st.procs[p].pc == ReadMeta && Recorded(st, st.procs[p].combo)
    requires !Refuses(OnFile(st, st.procs[p].combo), st.procs[p].force)
    ensures Generated(st, After(st, p, Answers(OnFile(st, st.procs[p].combo), body)), p, body)
  {
    var q := st.procs[p];
    var m := OnFile(st, q.combo);
    RefusedAtOnce(st, p);
    var one := Next(st, p, SawMeta(m));
    Prepares(one, p, q.combo in st.reports);
    AfterBoth(st, p, [SawMeta(m)], Acks(5));
    var first := [SawMeta(m)] + Acks(5);
    FirstStep(st, p, SawMeta(m));
    assert After(st, p, first) == After(one, p, Acks(5));
    OnlyFrom(st, one, After(st, p, first), p, st.next);
    SecondHalf(st, p, first, st.next, body);
  }

  lemma FirstStep(st: State, p: nat, a: Answer)
    ensures After(st, p, [a]) == Next(st, p, a)
  {
    assert [a][1..] == [];
    assert After(Next(st, p, a), p, []) == Next(st, p, a);
  }

  lemma OnlyFrom(st: State, one: State, u: State, p: nat, job: nat)
    requires p in st.procs && one == Goto(st, p, CheckIntelligence(st.procs[p].combo in st.reports))
    requires Only(one, u, p, Build(job), st.next + 1)
    ensures Only(st, u, p, Build(job), st.next + 1)
  {
    assert one.procs[p := one.procs[p].(pc := Build(job))] == st.procs[p := st.procs[p].(pc := Build(job))];
  }

  // ---- certification ----

  lemma ReportSeen(st: State, p: nat)
    requires p in st.procs && st.procs[p].pc == ReadReport && Recorded(st, st.procs[p].combo)
    ensures var m := OnFile(st, st.procs[p].combo);
            Next(st, p, SawMeta(m)) == Goto(st, p, if m.Some? && m.value.status == Complete && m.value.report.Some?
                                                   then ReadCert(m.value.report.value) else Done)
  {
  }

  /** A certificate on record ends the run, unless it is forced. */
  lemma CertSeen(st: State, p: nat, r: Produced, certified: bool)
    requires p in st.procs && st.procs[p].pc == ReadCert(r)
    ensures Next(st, p, SawCert(certified)) ==
            if certified && !st.procs[p].force then Goto(st, p, Done) else Goto(Bump(st), p, PutCertJob(r, st.next))
  {
  }

  /** Nothing but the certification itself has changed. */
  ghost predicate Still(st: State, u: State, p: nat, pc: PC, next: nat)
    requires p in st.procs
  {
    p in u.procs && u.procs[p].pc == pc && u == st.(next := next, procs := st.procs[p := st.procs[p].(pc := pc)])
  }

  lemma CertJobPut(st: State, u: State, p: nat, r: Produced, job: nat)
    requires p in st.procs && Still(st, u, p, PutCertJob(r, job), st.next + 1)
    ensures Still(st, Next(u, p, Ack(false)), p, Examine(r, job), st.next + 1)
  {
  }

  /** The domains that read the endpoint list, on the stored report, before the others. */
  ghost predicate IssuedOn(st: State, r: Produced, others: seq<C.DomainResult>, c: Certificate)
    requires r.ref in st.objects && st.objects[r.ref].ReportArtifact?
  {
    var body := st.objects[r.ref].body;
    && c.id == st.next + 1 && c.reportRef == r.ref && c.reportId == r.id
    && c.results == [C.SchedulerResult(body), C.CoverageResult(body, Some(r.endpointCount)),
                     C.IntegrityResult(body, st.labels, st.descriptions)] + others
    && c.verdict == C.DetermineTerminalState(c.results)
  }

  lemma Examined(st: State, u: State, p: nat, r: Produced, job: nat, others: seq<C.DomainResult>) returns (c: Certificate)
    requires p in st.procs && Still(st, u, p, Examine(r, job), st.next + 1)
    requires r.ref in st.objects && st.objects[r.ref].ReportArtifact?
    ensures Still(st, Next(u, p, Checked(others)), p, WriteCert(job, c), st.next + 2)
    ensures IssuedOn(st, r, others, c)
  {
    c := Issue(u, r, Results(u, u.objects[r.ref].body, r.endpointCount, others));
  }

  lemma CertWritten(st: State, u: State, p: nat, job: nat, c: Certificate)
    requires p in st.procs && Still(st, u, p, WriteCert(job, c), st.next + 2)
    ensures var q := st.procs[p];
            Wrote(st, Next(u, p, Ack(false)), p, WriteCertMeta(job, c), st.next + 2, CertKey(q.combo, q.version, job), CertArtifact(c))
    ensures Next(u, p, Ack(false)).reports == st.reports
  {
  }

  /** The end of a certification that ran through: the certificate stored under the key of its
      job, and its metadata naming it and its report. */
  ghost predicate CertificateStored(st: State, u: State, p: nat, c: Certificate)
    requires p in st.procs
  {
    var q := st.procs[p];
    var key := CertKey(q.combo, q.version, st.next);
    && u.objects == st.objects[key := CertArtifact(c)] && u.puts == st.puts + [key]
    && u.reports == st.reports && u.procs == st.procs[p := q.(pc := Done)]
    && u.certs == st.certs[(q.combo, q.version) := CertMeta(c.verdict, c.id, key, c.reportRef, c.reportId, st.next)]
  }

  lemma CertRecorded(st: State, u: State, p: nat, c: Certificate)
    requires p in st.procs
    requires var q := st.procs[p];
             Wrote(st, u, p, WriteCertMeta(st.next, c), st.next + 2, CertKey(q.combo, q.version, st.next), CertArtifact(c))
    requires u.reports == st.reports
    ensures CertificateStored(st, Next(u, p, Ack(false)), p, c)
  {
    assert u.procs[p := u.procs[p].(pc := Done)] == st.procs[p := st.procs[p].(pc := Done)];
  }

  function CertAnswers(m: Option<ReportMeta>, certified: bool, others: seq<C.DomainResult>): seq<Answer> {
    [SawMeta(m)] + [SawCert(certified)] + [Ack(false)] + [Checked(others)] + [Ack(false)] + [Ack(false)]
  }

  /** A certification of a COMPLETE report that is stored, not certified before unless forced,
      with all calls acknowledged: it ends with a certificate issued on that report, and the
      certification metadata points at both. */
  lemma CertificationCompletes(st: State, p: nat, certified: bool, others: seq<C.DomainResult>) returns (c: Certificate)
    requires p in st.procs && st.procs[p].pc == ReadReport && Recorded(st, st.procs[p].combo)
    requires certified ==> st.procs[p].force
    requires var m := OnFile(st, st.procs[p].combo);
             && m.Some? && m.value.status == Complete && m.value.report.Some?
             && m.value.report.value.ref in st.objects && st.objects[m.value.report.value.ref].ReportArtifact?
    ensures var m := OnFile(st, st.procs[p].combo);
            && IssuedOn(st, m.value.report.value, others, c)
            && CertificateStored(st, After(st, p, CertAnswers(m, certified, others)), p, c)
  {
    var m := OnFile(st, st.procs[p].combo);
    var r := m.value.report.value;
    ReportSeen(st, p);
    FirstStep(st, p, SawMeta(m));
    var a1 := [SawMeta(m)];
    Onward(st, p, a1, SawCert(certified));
    CertSeen(After(st, p, a1), p, r, certified);
    var a2 := a1 + [SawCert(certified)];
    CertStarted(st, After(st, p, a1), p, r);
    Onward(st, p, a2, Ack(false));
    CertJobPut(st, After(st, p, a2), p, r, st.next);
    var a3 := a2 + [Ack(false)];
    Onward(st, p, a3, Checked(others));
    c := Examined(st, After(st, p, a3), p, r, st.next, others);
    var a4 := a3 + [Checked(others)];
    Onward(st, p, a4, Ack(false));
    CertWritten(st, After(st, p, a4), p, st.next, c);
    var a5 := a4 + [Ack(false)];
    Onward(st, p, a5, Ack(false));
    CertRecorded(st, After(st, p, a5), p, c);
  }

  lemma CertStarted(st: State, one: State, p: nat, r: Produced)
    requires p in st.procs && one == Goto(st, p, ReadCert(r))
    ensures Still(st, Goto(Bump(one), p, PutCertJob(r, one.next)), p, PutCertJob(r, st.next), st.next + 1)
  {
    var pc := PutCertJob(r, st.next);
    assert one.procs[p := one.procs[p].(pc := pc)] == st.procs[p := st.procs[p].(pc := pc)];
  }

  // ---- from any reachable state ----

  lemma StepRecorded(st: State, p: nat, a: Answer, c: Combo)
    requires Recorded(st, c)
    ensures Recorded(Next(st, p, a), c)
  {
    if p in st.procs {
      var pc := st.procs[p].pc;
      if !pc.PutMeta? && !pc.ProgressMeta? && !pc.CompleteMeta? && !pc.FailMeta? {
        ReportsKept(st, p, a);
      }
    }
  }

  lemma ReportsKept(st: State, p: nat, a: Answer)
    requires p in st.procs
    requires var pc := st.procs[p].pc; !pc.PutMeta? && !pc.ProgressMeta? && !pc.CompleteMeta? && !pc.FailMeta?
    ensures Next(st, p, a).reports == st.reports && Next(st, p, a).pasts == st.pasts
  {
  }

  lemma {:induction false} RecordedReachable(start: State, steps: seq<(nat, Answer)>, c: Combo)
    requires Initial(start)
    ensures Recorded(Exec(start, steps), c)
    decreases |steps|
  {
    if steps != [] {
      RecordedReachable(start, steps[..|steps| - 1], c);
      StepRecorded(Exec(start, steps[..|steps| - 1]), steps[|steps| - 1].0, steps[|steps| - 1].1, c);
    }
  }

  lemma {:induction false} ExecBoth(st: State, a: seq<(nat, Answer)>, b: seq<(nat, Answer)>)
    ensures Exec(st, a + b) == Exec(Exec(st, a), b)
    decreases |b|
  {
    if b == [] {
      assert a + b == a;
    } else {
      ExecBoth(st, a, b[..|b| - 1]);
      assert (a + b)[..|a + b| - 1] == a + b[..|b| - 1];
    }
  }

  /** Whatever has happened before, a generation about to start that the record does not refuse
      completes when its calls are answered. */
  lemma GenerationGoesThrough(start: State, steps: seq<(nat, Answer)>, p: nat, body: C.Report)
    requires Initial(start)
    requires var st := Exec(start, steps);
             && p in st.procs && st.procs[p].pc == ReadMeta
             && !Refuses(OnFile(st, st.procs[p].combo), st.procs[p].force)
    ensures var st := Exec(start, steps);
            Generated(st, Exec(start, steps + StepsOf(p, Answers(OnFile(st, st.procs[p].combo), body))), p, body)
  {
    var st := Exec(start, steps);
    RecordedReachable(start, steps, st.procs[p].combo);
    GenerationCompletes(st, p, body);
    var answers := Answers(OnFile(st, st.procs[p].combo), body);
    AfterIsExec(st, p, answers);
    ExecBoth(start, steps, StepsOf(p, answers));
  }

  /** So does a certification about to start on a report recorded as COMPLETE, not certified
      before unless forced. */
  lemma CertificationGoesThrough(start: State, steps: seq<(nat, Answer)>, p: nat, certified: bool, others: seq<C.DomainResult>)
    returns (r: Produced, c: Certificate)
    requires Initial(start)
    requires var st := Exec(start, steps);
             && p in st.procs && st.procs[p].pc == ReadReport && (certified ==> st.procs[p].force)
             && st.procs[p].combo in st.reports && st.reports[st.procs[p].combo].status == Complete
    ensures var st := Exec(start, steps);
            && Some(r) == st.reports[st.procs[p].combo].report
            && r.ref in st.objects && st.objects[r.ref].ReportArtifact? && IssuedOn(st, r, others, c)
            && CertificateStored(st, Exec(start, steps + StepsOf(p, CertAnswers(OnFile(st, st.procs[p].combo), certified, others))), p, c)
  {
    var st := Exec(start, steps);
    var combo := st.procs[p].combo;
    RecordedReachable(start, steps, combo);
    ArtifactSafety.CompleteReportIsStored(start, steps, combo);
    r := st.reports[combo].report.value;
    c := CertificationCompletes(st, p, certified, others);
    var answers := CertAnswers(OnFile(st, combo), certified, others);
    AfterIsExec(st, p, answers);
    ExecBoth(start, steps, StepsOf(p, answers));
  }
}
