/** What report and certificate metadata may be relied on for, in every reachable state. */
module ArtifactSafety {
  import opened Wrappers
  import opened ArtifactChain
  import C = Certification

  // ---- stored artifacts ----

  predicate ProducedOk(o: Objects, r: Produced) {
    r.ref in o && o[r.ref].ReportArtifact? && o[r.ref].id == r.id && CountIn(o[r.ref].body) == r.endpointCount
  }

  predicate MetaOk(o: Objects, m: ReportMeta) {
    && (m.status.Complete? ==> m.report.Some?)
    && (m.report.Some? ==> ProducedOk(o, m.report.value))
  }

  /** A certificate names a stored report, and its verdict follows from its domain results;
      a CERTIFIED one was issued on that report. */
  ghost predicate CertificateOk(o: Objects, labels: set<string>, descriptions: set<string>, c: Certificate) {
    && c.reportRef in o && o[c.reportRef].ReportArtifact? && o[c.reportRef].id == c.reportId
    && c.verdict == C.DetermineTerminalState(c.results)
    && (c.verdict.Certified? ==>
          var body := o[c.reportRef].body;
          && C.SchedulerResult(body) in c.results
          && C.CoverageResult(body, Some(CountIn(body))) in c.results
          && C.IntegrityResult(body, labels, descriptions) in c.results)
  }

  ghost predicate Stored(o: Objects, labels: set<string>, descriptions: set<string>, k: Key, c: Certificate) {
    k in o && o[k] == CertArtifact(c) && CertificateOk(o, labels, descriptions, c)
  }

  ghost predicate CertMetaOk(o: Objects, labels: set<string>, descriptions: set<string>, m: CertMeta) {
    exists c :: Stored(o, labels, descriptions, m.ref, c) && c.id == m.certificateId && c.verdict == m.verdict
                && c.reportRef == m.reportRef && c.reportId == m.reportId
  }

  // ---- fresh jobs ----

  function JobOf(pc: PC): Option<nat> {
    match pc
    case PutReportJob(j, _) => Some(j)
    case PutMeta(j, _) => Some(j)
    case ProgressJob(j) => Some(j)
    case ProgressMeta(j) => Some(j)
    case Build(j) => Some(j)
    case WriteReport(j, _) => Some(j)
    case PutCertJob(_, j) => Some(j)
    case Examine(_, j) => Some(j)
    case WriteCert(j, _) => Some(j)
    case _ => None
  }

  /** No artifact is stored under the job of a run that has not written yet. */
  ghost predicate Unwritten(st: State, job: nat) {
    job < st.next && forall k :: k in st.objects ==> k.job != job
  }

  ghost predicate PcOk(st: State, q: Proc) {
    match q.pc
    case WriteReport(_, a) => a.ReportArtifact?
    case CompleteJob(j, a) => a.ReportArtifact? && ReportKeyOf(q.combo, j) in st.objects && st.objects[ReportKeyOf(q.combo, j)] == a
    case CompleteMeta(j, a) => a.ReportArtifact? && ReportKeyOf(q.combo, j) in st.objects && st.objects[ReportKeyOf(q.combo, j)] == a
    case ReadCert(r) => ProducedOk(st.objects, r)
    case PutCertJob(r, _) => ProducedOk(st.objects, r)
    case Examine(r, _) => ProducedOk(st.objects, r)
    case WriteCert(_, c) => CertificateOk(st.objects, st.labels, st.descriptions, c)
    case WriteCertMeta(j, c) => Stored(st.objects, st.labels, st.descriptions, CertKey(q.combo, q.version, j), c)
    case _ => true
  }

  ghost predicate ProcOk(st: State, q: Proc) {
    PcOk(st, q) && (JobOf(q.pc).Some? ==> Unwritten(st, JobOf(q.pc).value))
  }

  ghost predicate JobsDistinct(st: State) {
    forall p, q :: p in st.procs && q in st.procs && p != q && JobOf(st.procs[p].pc).Some? ==>
      JobOf(st.procs[p].pc) != JobOf(st.procs[q].pc)
  }

  ghost predicate PutsOk(st: State) {
    && (forall i :: 0 <= i < |st.puts| ==> st.puts[i] in st.objects)
    && (forall i, j :: 0 <= i < j < |st.puts| ==> st.puts[i] != st.puts[j])
  }

  ghost predicate StoreOk(st: State) {
    && (forall c :: c in st.reports ==> MetaOk(st.objects, st.reports[c]))
    && (forall c, m :: (c, m) in st.pasts ==> MetaOk(st.objects, m))
    && (forall k :: k in st.certs ==> CertMetaOk(st.objects, st.labels, st.descriptions, st.certs[k]))
    && (forall k :: k in st.objects ==> k.job < st.next)
    && PutsOk(st)
  }

  ghost predicate Inv(st: State) {
    StoreOk(st) && JobsDistinct(st) && forall p :: p in st.procs ==> ProcOk(st, st.procs[p])
  }

  ghost predicate Extends(o: Objects, u: Objects) {
    forall k :: k in o ==> k in u && u[k] == o[k]
  }

  lemma CertificateKept(o: Objects, u: Objects, labels: set<string>, descriptions: set<string>, c: Certificate)
    requires CertificateOk(o, labels, descriptions, c) && Extends(o, u)
    ensures CertificateOk(u, labels, descriptions, c)
  {
  }

  lemma CertMetaKept(o: Objects, u: Objects, labels: set<string>, descriptions: set<string>, m: CertMeta)
    requires CertMetaOk(o, labels, descriptions, m) && Extends(o, u)
    ensures CertMetaOk(u, labels, descriptions, m)
  {
    var c :| Stored(o, labels, descriptions, m.ref, c) && c.id == m.certificateId && c.verdict == m.verdict
             && c.reportRef == m.reportRef && c.reportId == m.reportId;
    CertificateKept(o, u, labels, descriptions, c);
    assert Stored(u, labels, descriptions, m.ref, c);
  }

  // ---- steps ----

  /** A run moves without touching the artifacts; it keeps its job, drops it, or never had one. */
  lemma GotoKeeps(st: State, p: nat, pc: PC)
    requires Inv(st) && p in st.procs && PcOk(st, st.procs[p].(pc := pc))
    requires JobOf(pc).None? || JobOf(pc) == JobOf(st.procs[p].pc)
    ensures Inv(Goto(st, p, pc))
  {
    var u := Goto(st, p, pc);
    forall q | q in u.procs ensures ProcOk(u, u.procs[q]) {
      assert ProcOk(st, st.procs[q]);
    }
  }

  /** A run takes a fresh id for its job. */
  lemma FreshJob(st: State, p: nat, pc: PC)
    requires Inv(st) && p in st.procs && PcOk(st, st.procs[p].(pc := pc)) && JobOf(pc) == Some(st.next)
    ensures Inv(Goto(Bump(st), p, pc))
  {
    var u := Goto(Bump(st), p, pc);
    forall q | q in u.procs ensures ProcOk(u, u.procs[q]) {
      assert ProcOk(st, st.procs[q]);
    }
  }

  /** A fresh id used for something else. */
  lemma FreshId(st: State, p: nat, pc: PC)
    requires Inv(st) && p in st.procs && PcOk(st, st.procs[p].(pc := pc)) && JobOf(pc) == JobOf(st.procs[p].pc)
    ensures Inv(Goto(Bump(st), p, pc))
  {
    var u := Goto(Bump(st), p, pc);
    forall q | q in u.procs ensures ProcOk(u, u.procs[q]) {
      assert ProcOk(st, st.procs[q]);
    }
  }

  lemma MetaKeeps(st: State, c: Combo, m: ReportMeta)
    requires Inv(st) && MetaOk(st.objects, m)
    ensures Inv(StoreMeta(st, c, m))
  {
    var u := StoreMeta(st, c, m);
    forall q | q in u.procs ensures ProcOk(u, u.procs[q]) { assert ProcOk(st, st.procs[q]); }
  }

  lemma StatusKeeps(st: State, c: Combo, status: Status)
    requires Inv(st) && !status.Complete?
    ensures Inv(SetStatus(st, c, status))
  {
    if c in st.reports {
      MetaKeeps(st, c, st.reports[c].(status := status));
    }
  }

  lemma PutMetaKeeps(st: State, p: nat, job: nat, existing: bool, lost: bool)
    requires Inv(st) && p in st.procs && st.procs[p].pc == PutMeta(job, existing)
    ensures Inv(PutMetaStep(st, p, job, existing, lost))
  {
    var c := st.procs[p].combo;
    var next := if lost then Done else ProgressJob(job);
    if existing == (c in st.reports) {
      var m := if existing then st.reports[c].(status := Pending, job := job) else ReportMeta(Pending, job, None);
      MetaKeeps(st, c, m);
      GotoKeeps(StoreMeta(st, c, m), p, next);
    } else {
      GotoKeeps(st, p, Done);
    }
  }

  lemma StoreAfterPut(st: State, k: Key, a: Artifact)
    requires StoreOk(st) && k.job < st.next && k !in st.objects
    ensures StoreOk(PutObject(st, k, a))
  {
    var u := PutObject(st, k, a);
    forall c | c in u.certs ensures CertMetaOk(u.objects, u.labels, u.descriptions, u.certs[c]) {
      CertMetaKept(st.objects, u.objects, st.labels, st.descriptions, st.certs[c]);
    }
  }

  lemma OthersAfterPut(st: State, p: nat, k: Key, a: Artifact, q: nat)
    requires Inv(st) && p in st.procs && q in st.procs && p != q && JobOf(st.procs[p].pc) == Some(k.job)
    ensures ProcOk(PutObject(st, k, a), st.procs[q])
  {
    assert ProcOk(st, st.procs[p]) && ProcOk(st, st.procs[q]);
    var u := PutObject(st, k, a);
    assert Extends(st.objects, u.objects);
    assert JobOf(st.procs[p].pc) != JobOf(st.procs[q].pc);
  }

  /** A run writes its artifact under its own job and gives the job up. */
  lemma PutKeeps(st: State, p: nat, k: Key, a: Artifact, pc: PC)
    requires Inv(st) && p in st.procs && JobOf(st.procs[p].pc) == Some(k.job) && JobOf(pc).None?
    requires PcOk(PutObject(st, k, a), st.procs[p].(pc := pc))
    ensures Inv(Goto(PutObject(st, k, a), p, pc))
  {
    assert ProcOk(st, st.procs[p]);
    StoreAfterPut(st, k, a);
    var u := Goto(PutObject(st, k, a), p, pc);
    forall q | q in u.procs ensures ProcOk(u, u.procs[q]) {
      if q != p {
        OthersAfterPut(st, p, k, a, q);
      }
    }
  }

  lemma WriteReportKeeps(st: State, p: nat, job: nat, a: Artifact, lost: bool)
    requires Inv(st) && p in st.procs && st.procs[p].pc == WriteReport(job, a)
    ensures Inv(WriteReportStep(st, p, job, a, lost))
  {
    assert ProcOk(st, st.procs[p]);
    PutKeeps(st, p, ReportKeyOf(st.procs[p].combo, job), a, if lost then FailMeta else CompleteJob(job, a));
  }

  lemma CompleteMetaKeeps(st: State, p: nat, job: nat, a: Artifact)
    requires Inv(st) && p in st.procs && st.procs[p].pc == CompleteMeta(job, a) && a.ReportArtifact?
    ensures Inv(CompleteMetaStep(st, p, job, a))
  {
    var c := st.procs[p].combo;
    assert ProcOk(st, st.procs[p]);
    if c !in st.reports {
      GotoKeeps(st, p, Done);
    } else {
      var m := st.reports[c].(status := Complete, report := Some(ProducedBy(c, job, a)));
      MetaKeeps(st, c, m);
      GotoKeeps(StoreMeta(st, c, m), p, Done);
    }
  }

  /** What the examination issues is a proper certificate. */
  lemma IssuedOk(st: State, r: Produced, results: seq<C.DomainResult>)
    requires ProducedOk(st.objects, r)
    requires C.DetermineTerminalState(results).Certified? ==>
               var body := st.objects[r.ref].body;
               exists others :: results == Results(st, body, r.endpointCount, others)
    ensures CertificateOk(st.objects, st.labels, st.descriptions, Issue(st, r, results))
  {
  }

  lemma BlockedNotCertified()
    ensures !C.DetermineTerminalState(AllBlocked()).Certified?
  {
    assert !AllBlocked()[0].status.Passed?;
  }

  lemma ExamineKeeps(st: State, p: nat, r: Produced, job: nat, others: Option<seq<C.DomainResult>>)
    requires Inv(st) && p in st.procs && st.procs[p].pc == Examine(r, job)
    ensures ProducedOk(st.objects, r)
    ensures var results := if others.Some? then Results(st, st.objects[r.ref].body, r.endpointCount, others.value) else AllBlocked();
            Inv(Goto(Bump(st), p, WriteCert(job, Issue(st, r, results))))
  {
    assert ProcOk(st, st.procs[p]);
    BlockedNotCertified();
    var results := if others.Some? then Results(st, st.objects[r.ref].body, r.endpointCount, others.value) else AllBlocked();
    IssuedOk(st, r, results);
    FreshId(st, p, WriteCert(job, Issue(st, r, results)));
  }

  lemma WriteCertKeeps(st: State, p: nat, job: nat, c: Certificate, lost: bool)
    requires Inv(st) && p in st.procs && st.procs[p].pc == WriteCert(job, c)
    ensures Inv(WriteCertStep(st, p, job, c, lost))
  {
    var q := st.procs[p];
    var k := CertKey(q.combo, q.version, job);
    assert ProcOk(st, q);
    var u := PutObject(st, k, CertArtifact(c));
    assert k !in st.objects;
    CertificateKept(st.objects, u.objects, st.labels, st.descriptions, c);
    PutKeeps(st, p, k, CertArtifact(c), if lost then Done else WriteCertMeta(job, c));
  }

  lemma WriteCertMetaKeeps(st: State, p: nat, job: nat, c: Certificate)
    requires Inv(st) && p in st.procs && st.procs[p].pc == WriteCertMeta(job, c)
    ensures Inv(WriteCertMetaStep(st, p, job, c))
  {
    var q := st.procs[p];
    assert ProcOk(st, q);
    var m := CertMeta(c.verdict, c.id, CertKey(q.combo, q.version, job), c.reportRef, c.reportId, job);
    assert Stored(st.objects, st.labels, st.descriptions, m.ref, c);
    var u := st.(certs := st.certs[(q.combo, q.version) := m]);
    forall x | x in u.procs ensures ProcOk(u, u.procs[x]) { assert ProcOk(st, st.procs[x]); }
    GotoKeeps(u, p, Done);
  }

  lemma ReportStartKeeps(st: State, p: nat, a: Answer)
    requires Inv(st) && p in st.procs && !a.Error?
    requires st.procs[p].pc.ReadMeta? || st.procs[p].pc.CheckIntelligence? || st.procs[p].pc.PutReportJob?
    ensures Inv(Next(st, p, a))
  {
    var q := st.procs[p];
    match (q.pc, a)
    case (ReadMeta, SawMeta(m)) => GotoKeeps(st, p, AfterMeta(q, m));
    case (CheckIntelligence(existing), Ack(_)) => FreshJob(st, p, PutReportJob(st.next, existing));
    case (PutReportJob(job, existing), Ack(lost)) => GotoKeeps(st, p, if lost then Done else PutMeta(job, existing));
    case _ =>
  }

  lemma ReportStepKeeps(st: State, p: nat, a: Answer)
    requires Inv(st) && p in st.procs && !a.Error?
    requires st.procs[p].pc.PutMeta? || st.procs[p].pc.ProgressJob? || st.procs[p].pc.ProgressMeta?
    ensures Inv(Next(st, p, a))
  {
    var q := st.procs[p];
    match (q.pc, a)
    case (PutMeta(job, existing), Ack(lost)) => PutMetaKeeps(st, p, job, existing, lost);
    case (ProgressJob(job), Ack(lost)) => GotoKeeps(st, p, if lost then Done else ProgressMeta(job));
    case (ProgressMeta(job), Ack(lost)) =>
      StatusKeeps(st, q.combo, InProgress);
      GotoKeeps(SetStatus(st, q.combo, InProgress), p, if lost then Done else Build(job));
    case _ =>
  }

  lemma ReportEndKeeps(st: State, p: nat, a: Answer)
    requires Inv(st) && p in st.procs && !a.Error?
    requires st.procs[p].pc.Build? || st.procs[p].pc.WriteReport? || st.procs[p].pc.CompleteJob?
             || st.procs[p].pc.CompleteMeta? || st.procs[p].pc.FailMeta?
    ensures Inv(Next(st, p, a))
  {
    var q := st.procs[p];
    assert ProcOk(st, q);
    match (q.pc, a)
    case (Build(job), Built(body)) => FreshId(st, p, WriteReport(job, ReportArtifact(st.next, body)));
    case (WriteReport(job, artifact), Ack(lost)) => WriteReportKeeps(st, p, job, artifact, lost);
    case (CompleteJob(job, artifact), Ack(lost)) => GotoKeeps(st, p, if lost then Done else CompleteMeta(job, artifact));
    case (CompleteMeta(job, artifact), Ack(_)) => CompleteMetaKeeps(st, p, job, artifact);
    case (FailMeta, Ack(_)) =>
      StatusKeeps(st, q.combo, Failed);
      GotoKeeps(SetStatus(st, q.combo, Failed), p, Done);
    case _ =>
  }

  lemma CertStartKeeps(st: State, p: nat, a: Answer)
    requires Inv(st) && p in st.procs && !a.Error?
    requires st.procs[p].pc.ReadReport? || st.procs[p].pc.ReadCert? || st.procs[p].pc.PutCertJob?
    ensures Inv(Next(st, p, a))
  {
    var q := st.procs[p];
    assert ProcOk(st, q);
    match (q.pc, a)
    case (ReadReport, SawMeta(m)) =>
      if m.None? || (q.combo, m.value) in st.pasts {
        GotoKeeps(st, p, AfterReport(m));
      }
    case (ReadCert(r), SawCert(certified)) =>
      if certified && !q.force { GotoKeeps(st, p, Done); } else { FreshJob(st, p, PutCertJob(r, st.next)); }
    case (PutCertJob(r, job), Ack(lost)) => GotoKeeps(st, p, if lost then Done else Examine(r, job));
    case _ =>
  }

  lemma CertEndKeeps(st: State, p: nat, a: Answer)
    requires Inv(st) && p in st.procs && !a.Error?
    requires st.procs[p].pc.Examine? || st.procs[p].pc.WriteCert? || st.procs[p].pc.WriteCertMeta?
    ensures Inv(Next(st, p, a))
  {
    match (st.procs[p].pc, a)
    case (Examine(r, job), Unreadable) => ExamineKeeps(st, p, r, job, None);
    case (Examine(r, job), Checked(others)) => ExamineKeeps(st, p, r, job, Some(others));
    case (WriteCert(job, c), Ack(lost)) => WriteCertKeeps(st, p, job, c, lost);
    case (WriteCertMeta(job, c), Ack(_)) => WriteCertMetaKeeps(st, p, job, c);
    case _ =>
  }

  lemma StepKeepsInv(st: State, p: nat, a: Answer)
    requires Inv(st)
    ensures Inv(Next(st, p, a))
  {
    if p in st.procs {
      var pc := st.procs[p].pc;
      if a.Error? {
        GotoKeeps(st, p, OnError(pc));
      } else if pc.ReadMeta? || pc.CheckIntelligence? || pc.PutReportJob? {
        ReportStartKeeps(st, p, a);
      } else if pc.PutMeta? || pc.ProgressJob? || pc.ProgressMeta? {
        ReportStepKeeps(st, p, a);
      } else if pc.Build? || pc.WriteReport? || pc.CompleteJob? || pc.CompleteMeta? || pc.FailMeta? {
        ReportEndKeeps(st, p, a);
      } else if pc.ReadReport? || pc.ReadCert? || pc.PutCertJob? {
        CertStartKeeps(st, p, a);
      } else if !pc.Done? {
        CertEndKeeps(st, p, a);
      }
    }
  }

  lemma {:induction false} Reachable(st: State, steps: seq<(nat, Answer)>)
    requires Initial(st)
    ensures Inv(Exec(st, steps))
    decreases |steps|
  {
    if steps != [] {
      Reachable(st, steps[..|steps| - 1]);
      StepKeepsInv(Exec(st, steps[..|steps| - 1]), steps[|steps| - 1].0, steps[|steps| - 1].1);
    }
  }

  // ---- the chain ----

  /** Report metadata with status COMPLETE points at a stored report artifact that carries its
      report id. */
  lemma {:induction false} CompleteReportIsStored(st: State, steps: seq<(nat, Answer)>, c: Combo)
    requires Initial(st) && c in Exec(st, steps).reports && Exec(st, steps).reports[c].status.Complete?
    ensures var u := Exec(st, steps);
            && u.reports[c].report.Some?
            && var r := u.reports[c].report.value;
            r.ref in u.objects && u.objects[r.ref].ReportArtifact? && u.objects[r.ref].id == r.id
  {
    Reachable(st, steps);
    assert MetaOk(Exec(st, steps).objects, Exec(st, steps).reports[c]);
  }

  /** Any certification metadata points at a stored certificate that carries its certificate
      id and verdict, and at the stored report of that certificate. */
  lemma {:induction false} CertificateIsStored(st: State, steps: seq<(nat, Answer)>, k: (Combo, string)) returns (c: Certificate)
    requires Initial(st) && k in Exec(st, steps).certs
    ensures var u := Exec(st, steps);
            var m := u.certs[k];
            && m.ref in u.objects && u.objects[m.ref] == CertArtifact(c)
            && c.id == m.certificateId && c.verdict == m.verdict && c.reportRef == m.reportRef && c.reportId == m.reportId
            && m.reportRef in u.objects && u.objects[m.reportRef].ReportArtifact? && u.objects[m.reportRef].id == m.reportId
  {
    Reachable(st, steps);
    var u := Exec(st, steps);
    var m := u.certs[k];
    assert CertMetaOk(u.objects, u.labels, u.descriptions, m);
    c :| Stored(u.objects, u.labels, u.descriptions, m.ref, c) && c.id == m.certificateId && c.verdict == m.verdict
         && c.reportRef == m.reportRef && c.reportId == m.reportId;
  }

  /** No artifact is ever overwritten. */
  lemma {:induction false} ArtifactsWrittenOnce(st: State, steps: seq<(nat, Answer)>, i: nat, j: nat)
    requires Initial(st) && i < j < |Exec(st, steps).puts|
    ensures Exec(st, steps).puts[i] != Exec(st, steps).puts[j]
  {
    Reachable(st, steps);
  }

  /** Endpoint ids strictly increase, counts sum to the total and are even, and exactly
      the remainder of them stand one above the floor of the mean. */
  ghost predicate Promised(body: C.Report) {
    && body.summary.Some? && body.endpoints.Some? && |body.endpoints.value| > 0
    && var es, total := body.endpoints.value, body.summary.value.total;
    && (forall i, j :: 0 <= i < j < |es| ==> C.StringLess(es[i].id, es[j].id))
    && (forall i :: 0 <= i < |es| ==> es[i].id != "")
    && (forall i :: 0 <= i < |es| ==> es[i].executions == Some(total / |es|) || es[i].executions == Some(total / |es| + 1))
    && C.SumExecutions(es) == total
    && C.AtCount(es, total / |es| + 1) == total % |es|
  }

  /** The stored report behind CERTIFIED metadata satisfies what certification promises about
      its endpoint list. */
  lemma {:induction false} CertifiedReportHolds(st: State, steps: seq<(nat, Answer)>, k: (Combo, string))
    requires Initial(st) && k in Exec(st, steps).certs && Exec(st, steps).certs[k].verdict.Certified?
    ensures var u := Exec(st, steps);
            && u.certs[k].reportRef in u.objects && u.objects[u.certs[k].reportRef].ReportArtifact?
            && Promised(u.objects[u.certs[k].reportRef].body)
  {
    Reachable(st, steps);
    var u := Exec(st, steps);
    CertifiedBody(u.objects, u.labels, u.descriptions, u.certs[k]);
  }

  lemma CertifiedBody(o: Objects, labels: set<string>, descriptions: set<string>, m: CertMeta)
    requires CertMetaOk(o, labels, descriptions, m) && m.verdict.Certified?
    ensures m.reportRef in o && o[m.reportRef].ReportArtifact? && Promised(o[m.reportRef].body)
  {
    var c :| Stored(o, labels, descriptions, m.ref, c) && c.id == m.certificateId && c.verdict == m.verdict
             && c.reportRef == m.reportRef && c.reportId == m.reportId;
    var body := o[c.reportRef].body;
    C.CertifiedEndpoints(body, Some(CountIn(body)), labels, descriptions, c.results);
  }
}
