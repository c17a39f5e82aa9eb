/** Report generation and certification interleaved: artifacts are written under fresh keys
    before any metadata refers to them. */
module ArtifactChain {
  import opened Wrappers
  import C = Certification

  /** What a report is generated for; the artifact key leaves the configuration version out. */
  datatype Combo = Combo(client: string, audit: string, exec: string, cfg: string, agg: string, intel: string, rpt: string)

  datatype Key =
    | ReportKey(client: string, audit: string, exec: string, agg: string, intel: string, rpt: string, job: nat)
    | CertKey(combo: Combo, version: string, job: nat)

  /** A certificate as stored: its own id, the report it names, the domain results, the verdict. */
  datatype Certificate = Certificate(
    id: nat, reportRef: Key, reportId: nat, results: seq<C.DomainResult>, verdict: C.Verdict)

  datatype Artifact = ReportArtifact(id: nat, body: C.Report) | CertArtifact(certificate: Certificate)

  datatype Status = Pending | InProgress | Complete | Failed

  /** `report` is what a completed generation stores in one update: id, artifact key and
      endpoint count. Other updates touch the status only. */
  datatype Produced = Produced(id: nat, ref: Key, endpointCount: int)

  datatype ReportMeta = ReportMeta(status: Status, job: nat, report: Option<Produced>)

  datatype CertMeta = CertMeta(verdict: C.Verdict, certificateId: nat, ref: Key, reportRef: Key, reportId: nat, job: nat)

  type Objects = map<Key, Artifact>

  datatype PC =
    // report generation
    | ReadMeta
    | CheckIntelligence(existing: bool)
    | PutReportJob(job: nat, existing: bool)
    | PutMeta(job: nat, existing: bool)
    | ProgressJob(job: nat)
    | ProgressMeta(job: nat)
    | Build(job: nat)
    | WriteReport(job: nat, artifact: Artifact)
    | CompleteJob(job: nat, artifact: Artifact)
    | CompleteMeta(job: nat, artifact: Artifact)
    | FailMeta
    // certification
    | ReadReport
    | ReadCert(report: Produced)
    | PutCertJob(report: Produced, job: nat)
    | Examine(report: Produced, job: nat)
    | WriteCert(job: nat, certificate: Certificate)
    | WriteCertMeta(job: nat, certificate: Certificate)
    | Done

  datatype Proc = Proc(combo: Combo, version: string, force: bool, pc: PC)

  /** `next` is the source of fresh ids. `pasts` holds every report metadata ever stored, for
      stale reads. `puts` are the artifact keys in the order they were written. */
  datatype State = State(
    reports: map<Combo, ReportMeta>, certs: map<(Combo, string), CertMeta>, objects: Objects, procs: map<nat, Proc>,
    pasts: set<(Combo, ReportMeta)>, next: nat, puts: seq<Key>, labels: set<string>, descriptions: set<string>)

  /** `lost` is a write that took effect and still reported an error. */
  datatype Answer =
    | Ack(lost: bool)
    | SawMeta(meta: Option<ReportMeta>)
    | SawCert(certified: bool)
    | Built(body: C.Report)
    | Checked(others: seq<C.DomainResult>)
    | Unreadable
    | Error

  function ReportKeyOf(c: Combo, job: nat): Key {
    ReportKey(c.client, c.audit, c.exec, c.agg, c.intel, c.rpt, job)
  }

  function CountIn(body: C.Report): int {
    if body.summary.Some? then body.summary.value.endpointCount else 0
  }

  function ProducedBy(c: Combo, job: nat, a: Artifact): Produced
    requires a.ReportArtifact?
  {
    Produced(a.id, ReportKeyOf(c, job), CountIn(a.body))
  }

  function Goto(st: State, p: nat, pc: PC): State
    requires p in st.procs
  {
    st.(procs := st.procs[p := st.procs[p].(pc := pc)])
  }

  function StoreMeta(st: State, c: Combo, m: ReportMeta): State {
    st.(reports := st.reports[c := m], pasts := st.pasts + {(c, m)})
  }

  /** A status update of a stored record; without a record it is an error. */
  function SetStatus(st: State, c: Combo, status: Status): State {
    if c in st.reports then StoreMeta(st, c, st.reports[c].(status := status)) else st
  }

  /** IN_PROGRESS refuses, COMPLETE is returned as it is unless forced. */
  function AfterMeta(q: Proc, m: Option<ReportMeta>): PC {
    if m.None? then CheckIntelligence(false)
    else if m.value.status.InProgress? then Done
    else if m.value.status.Complete? && !q.force then Done
    else CheckIntelligence(true)
  }

  /** Only a COMPLETE report may be certified. */
  function AfterReport(m: Option<ReportMeta>): PC {
    if m.Some? && m.value.status.Complete? && m.value.report.Some? then ReadCert(m.value.report.value) else Done
  }

  /** The first generation creates the record, a later one resets its status and job. */
  function PutMetaStep(st: State, p: nat, job: nat, existing: bool, lost: bool): State
    requires p in st.procs
  {
    var c := st.procs[p].combo;
    var next := if lost then Done else ProgressJob(job);
    if !existing then
      if c in st.reports then Goto(st, p, Done)
      else Goto(StoreMeta(st, c, ReportMeta(Pending, job, None)), p, next)
    else if c !in st.reports then Goto(st, p, Done)
    else Goto(StoreMeta(st, c, st.reports[c].(status := Pending, job := job)), p, next)
  }

  function PutObject(st: State, k: Key, a: Artifact): State {
    st.(objects := st.objects[k := a], puts := st.puts + [k])
  }

  function WriteReportStep(st: State, p: nat, job: nat, a: Artifact, lost: bool): State
    requires p in st.procs
  {
    Goto(PutObject(st, ReportKeyOf(st.procs[p].combo, job), a), p, if lost then FailMeta else CompleteJob(job, a))
  }

  function CompleteMetaStep(st: State, p: nat, job: nat, a: Artifact): State
    requires p in st.procs && a.ReportArtifact?
  {
    var c := st.procs[p].combo;
    if c !in st.reports then Goto(st, p, Done)
    else
      Goto(StoreMeta(st, c, st.reports[c].(status := Complete, report := Some(ProducedBy(c, job, a)))), p, Done)
  }

  /** The results of the domains that read the endpoint list, followed by the others. */
  function Results(st: State, body: C.Report, count: int, others: seq<C.DomainResult>): seq<C.DomainResult> {
    [C.SchedulerResult(body), C.CoverageResult(body, Some(count)), C.IntegrityResult(body, st.labels, st.descriptions)] + others
  }

  function Issue(st: State, report: Produced, results: seq<C.DomainResult>): Certificate {
    Certificate(st.next, report.ref, report.id, results, C.DetermineTerminalState(results))
  }

  /** All eight domains when the report artifact cannot be read. */
  function AllBlocked(): seq<C.DomainResult> {
    var b := C.BlockedResult("artifact read failure");
    [b, b, b, b, b, b, b, b]
  }

  function WriteCertStep(st: State, p: nat, job: nat, c: Certificate, lost: bool): State
    requires p in st.procs
  {
    var q := st.procs[p];
    Goto(PutObject(st, CertKey(q.combo, q.version, job), CertArtifact(c)), p, if lost then Done else WriteCertMeta(job, c))
  }

  /** An unconditional put. */
  function WriteCertMetaStep(st: State, p: nat, job: nat, c: Certificate): State
    requires p in st.procs
  {
    var q := st.procs[p];
    var k := CertKey(q.combo, q.version, job);
    Goto(st.(certs := st.certs[(q.combo, q.version) := CertMeta(c.verdict, c.id, k, c.reportRef, c.reportId, job)]), p, Done)
  }

  /** After the pipeline proper begins a failure marks the records FAILED; before, it just
      propagates. */
  function OnError(pc: PC): PC {
    match pc
    case Build(_) => FailMeta
    case WriteReport(_, _) => FailMeta
    case _ => Done
  }

  function Bump(st: State): State {
    st.(next := st.next + 1)
  }

  function Next(st: State, p: nat, a: Answer): State {
    if p !in st.procs then st
    else
      var q := st.procs[p];
      match (q.pc, a)
      case (_, Error) => Goto(st, p, OnError(q.pc))
      case (ReadMeta, SawMeta(m)) =>
        if m.None? || (q.combo, m.value) in st.pasts then Goto(st, p, AfterMeta(q, m)) else st
      case (CheckIntelligence(existing), Ack(_)) => Goto(Bump(st), p, PutReportJob(st.next, existing))
      case (PutReportJob(job, existing), Ack(lost)) => Goto(st, p, if lost then Done else PutMeta(job, existing))
      case (PutMeta(job, existing), Ack(lost)) => PutMetaStep(st, p, job, existing, lost)
      case (ProgressJob(job), Ack(lost)) => Goto(st, p, if lost then Done else ProgressMeta(job))
      case (ProgressMeta(job), Ack(lost)) => Goto(SetStatus(st, q.combo, InProgress), p, if lost then Done else Build(job))
      case (Build(job), Built(body)) => Goto(Bump(st), p, WriteReport(job, ReportArtifact(st.next, body)))
      case (WriteReport(job, artifact), Ack(lost)) => WriteReportStep(st, p, job, artifact, lost)
      case (CompleteJob(job, artifact), Ack(lost)) => Goto(st, p, if lost then Done else CompleteMeta(job, artifact))
      case (CompleteMeta(job, artifact), Ack(_)) => if artifact.ReportArtifact? then CompleteMetaStep(st, p, job, artifact) else st
      case (FailMeta, Ack(_)) => Goto(SetStatus(st, q.combo, Failed), p, Done)
      case (ReadReport, SawMeta(m)) =>
        if m.None? || (q.combo, m.value) in st.pasts then Goto(st, p, AfterReport(m)) else st
      case (ReadCert(report), SawCert(certified)) =>
        if certified && !q.force then Goto(st, p, Done) else Goto(Bump(st), p, PutCertJob(report, st.next))
      case (PutCertJob(report, job), Ack(lost)) => Goto(st, p, if lost then Done else Examine(report, job))
      case (Examine(report, job), Unreadable) => Goto(Bump(st), p, WriteCert(job, Issue(st, report, AllBlocked())))
      case (Examine(report, job), Checked(others)) =>
        if report.ref in st.objects && st.objects[report.ref].ReportArtifact?
        then Goto(Bump(st), p,
                  WriteCert(job, Issue(st, report, Results(st, st.objects[report.ref].body, report.endpointCount, others))))
        else st
      case (WriteCert(job, c), Ack(lost)) => WriteCertStep(st, p, job, c, lost)
      case (WriteCertMeta(job, c), Ack(_)) => WriteCertMetaStep(st, p, job, c)
      case _ => st
  }

  function Exec(st: State, steps: seq<(nat, Answer)>): State
    decreases |steps|
  {
    if steps == [] then st
    else
      var last := steps[|steps| - 1];
      Next(Exec(st, steps[..|steps| - 1]), last.0, last.1)
  }

  ghost predicate Initial(st: State) {
    && st.reports == map[] && st.certs == map[] && st.objects == map[] && st.pasts == {} && st.puts == []
    && forall p :: p in st.procs ==> st.procs[p].pc.ReadMeta? || st.procs[p].pc.ReadReport?
  }
}
