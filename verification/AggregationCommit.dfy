/** Any number of aggregation runs over one metadata table. Each store call is one step;
    between two steps other runs may move, a call may fail with or without taking effect,
    and a run may stop for ever. Reads may be stale unless the table is declared consistent. */
module AggregationCommit {
  import opened Wrappers
  import opened AggregationRecords
  import opened LineageManifest
  import opened AggregationKeys
  import opened AggregateSet
  import opened AggregationRepository

  datatype Event = Event(client: string, audit: string, ver: string, job: string)

  datatype Reason = NoReason | WriteConflict | SetIncomplete | PageHashMismatch | OtherReason

  /** How a run ends; `s` is the set it speaks about, when it got that far. */
  datatype Verdict = Verdict(status: JobStatus, reason: Reason, s: Option<SetId>)

  datatype PC =
    | PutJob
    | ReadJob
    | ClaimJob
    | ReReadJob
    | ReadAudit
    | ReadIdentity(cfg: Option<string>)
    | PutIdentity(cfg: Option<string>)
    | ReReadIdentity(cfg: Option<string>)
    | SaveIdentity(exec: string, cfg: Option<string>)
    | CheckMarker(s: SetId, after: Option<Work>)
    | CheckRequired(s: SetId, marker: Marker, i: nat, after: Option<Work>)
    | CheckQuery(s: SetId, marker: Marker, after: Option<Work>)
    | Load(s: SetId)
    | WritePages(w: Work, i: nat)
    | ReadPage(w: Work, i: nat)
    | Commit(w: Work)
    | Finish(verdict: Verdict)
    | Done(verdict: Verdict)
    | Crashed

  /** `candidate` is the identity the run would generate; `resolved` what it settled on. */
  datatype Proc = Proc(event: Event, candidate: string, pc: PC, resolved: Option<string>)

  /** What the environment answers to the next call of a run. */
  datatype Answer =
    | Ack
    | Seen(item: Option<Item>)
    | SeenAudit(cfg: Option<string>)
    | Found(keys: set<RecordKey>)
    | Evidence(records: seq<RawRecord>, at: int)
    | NotEligible
    | Error
    | ErrorAfter

  datatype Effect =
    | Nothing
    | RecordJob(key: RecordKey, status: JobStatus)
    | AddIdentity(key: RecordKey, exec: string)
    | AddPage(placed: Placed)
    | AddBatch(w: Work)

  /** `audits` gives the execution id an audit record already carries. `statuses` and
      `commits` are history: every job status ever stored, and every transaction that went
      through, by the set it wrote. */
  datatype State = State(
    table: Table, consistent: bool, audits: map<(string, string), string>, procs: map<nat, Proc>,
    statuses: set<(RecordKey, JobStatus)>, commits: map<SetId, Work>)

  datatype Action = Run(p: nat, answer: Answer) | Trigger(client: string, audit: string, job: string, status: JobStatus)

  function JobOf(e: Event): RecordKey {
    JobKey(e.client, e.audit, e.job)
  }

  function IdentityOf(e: Event): RecordKey {
    IdentityKey(e.client, e.audit)
  }

  function SetOf(e: Event, exec: string, cfg: string): SetId {
    SetId(e.client, e.audit, exec, cfg, e.ver)
  }

  predicate Claimable(status: JobStatus) {
    status.IntentRecorded? || status.InvocationRequested? || status.InvocationFailed?
  }

  function Failure(reason: Reason): PC {
    Finish(Verdict(Failed, reason, None))
  }

  /** Whether the transaction finds one of its keys taken. */
  ghost predicate Blocked(t: Table, w: Work) {
    exists k :: Writes(w, k) && k in t
  }

  // ---- one step of one run ----

  ghost function EffectOf(p: Proc, t: Table): Effect {
    match p.pc
    case PutJob => if JobOf(p.event) in t then Nothing else RecordJob(JobOf(p.event), Started)
    case ClaimJob => if JobOf(p.event) in t then RecordJob(JobOf(p.event), Started) else Nothing
    case PutIdentity(_) =>
      if IdentityOf(p.event) in t then Nothing else AddIdentity(IdentityOf(p.event), p.candidate)
    case WritePages(w, i) =>
      if i < |PageList(w)| && PageList(w)[i].key !in t then AddPage(PageList(w)[i]) else Nothing
    case Commit(w) => if Blocked(t, w) then Nothing else AddBatch(w)
    case Finish(v) => if JobOf(p.event) in t then RecordJob(JobOf(p.event), v.status) else Nothing
    case _ => Nothing
  }

  /** Verdicts that are recorded by an exception handler. */
  predicate InHandler(v: Verdict) {
    v.status.Failed? || v.status.Ineligible?
  }

  /** Where a run goes when its call raises. Only the identity write has a handler of its
      own; everything else is recorded as a failure, also an update that was to record
      another verdict. A handler whose own update raises ends the run. */
  function OnError(p: Proc): PC {
    match p.pc
    case PutIdentity(cfg) => ReReadIdentity(cfg)
    case Finish(v) => if InHandler(v) then Crashed else Failure(OtherReason)
    case Done(_) => p.pc
    case Crashed => p.pc
    case _ => Failure(OtherReason)
  }

  function AfterMissing(s: SetId, after: Option<Work>): PC {
    if after.None? then Load(s) else Finish(Verdict(Conflict, SetIncomplete, Some(s)))
  }

  function AfterQuery(t: Table, s: SetId, m: Marker, after: Option<Work>, keys: set<RecordKey>): PC {
    var rows := set k | k in keys && k in t && t[k].AggregateItem? && t[k].row.EndpointRow?;
    if |rows| == m.endpointCount && 2 + |keys| == m.aggregateCount
    then Finish(Verdict(DuplicateCompleted, NoReason, Some(s)))
    else AfterMissing(s, after)
  }

  predicate Admissible(w: Work) {
    w.records != [] && 4 + 3 * |EndpointSet(w.records)| <= MAX_AGGREGATE_RECORDS
  }

  ghost predicate Accepted(w: Work) {
    Admissible(w) && DistinctRefs(w.records)
  }

  ghost function AfterLoad(p: Proc, s: SetId, records: seq<RawRecord>, at: int): PC {
    var w := Work(s, p.event.job, at, records);
    if Accepted(w) then WritePages(w, 0) else Failure(OtherReason)
  }

  function AfterSeen(p: Proc, item: Option<Item>): Proc {
    match p.pc
    case ReadJob =>
      p.(pc := if item.Some? && item.value.JobItem? && Claimable(item.value.status) then ClaimJob else ReReadJob)
    case ReReadJob =>
      p.(pc := if item.Some? && item.value.JobItem? && (item.value.status.Completed? || item.value.status.DuplicateCompleted?)
               then Finish(Verdict(DuplicateCompleted, NoReason, None))
               else Finish(Verdict(Conflict, WriteConflict, None)))
    case ReadIdentity(cfg) =>
      if item.Some? && item.value.IdentityItem?
      then p.(pc := SaveIdentity(item.value.exec, cfg), resolved := Some(item.value.exec))
      else p.(pc := PutIdentity(cfg))
    case ReReadIdentity(cfg) =>
      if item.Some? && item.value.IdentityItem?
      then p.(pc := SaveIdentity(item.value.exec, cfg), resolved := Some(item.value.exec))
      else p.(pc := Failure(OtherReason))
    case CheckMarker(s, after) =>
      p.(pc := if item.Some? && item.value.SetItem? && item.value.marker.complete
               then CheckRequired(s, item.value.marker, 0, after)
               else AfterMissing(s, after))
    case CheckRequired(s, m, i, after) =>
      p.(pc := if item.None? then AfterMissing(s, after)
               else if i < 2 then CheckRequired(s, m, i + 1, after)
               else CheckQuery(s, m, after))
    case ReadPage(w, i) =>
      p.(pc := if i < |PageList(w)| && item.Some? && item.value.PageItem? && item.value.page.hash == PageList(w)[i].page.hash
               then WritePages(w, i + 1)
               else Failure(PageHashMismatch))
    case _ => p
  }

  ghost function AfterAck(p: Proc, t: Table): Proc {
    match p.pc
    case PutJob => p.(pc := if JobOf(p.event) in t then ReadJob else ReadAudit)
    case ClaimJob => p.(pc := if JobOf(p.event) in t then ReadAudit else Failure(OtherReason))
    case PutIdentity(cfg) =>
      if IdentityOf(p.event) in t then p.(pc := ReReadIdentity(cfg))
      else p.(pc := SaveIdentity(p.candidate, cfg), resolved := Some(p.candidate))
    case SaveIdentity(exec, cfg) =>
      p.(pc := if cfg.None? then Failure(OtherReason) else CheckMarker(SetOf(p.event, exec, cfg.value), None))
    case WritePages(w, i) =>
      p.(pc := if i >= |PageList(w)| then Commit(w)
               else if PageList(w)[i].key in t then ReadPage(w, i)
               else WritePages(w, i + 1))
    case Commit(w) =>
      p.(pc := if Blocked(t, w) then CheckMarker(w.s, Some(w)) else Finish(Verdict(Completed, NoReason, Some(w.s))))
    case Finish(v) => p.(pc := if JobOf(p.event) in t then Done(v) else OnError(p))
    case _ => p
  }

  ghost function Advance(st: State, p: Proc, a: Answer): Proc {
    match a
    case Error => p.(pc := OnError(p))
    case ErrorAfter => p.(pc := OnError(p))
    case Ack => AfterAck(p, st.table)
    case Seen(item) => AfterSeen(p, item)
    case SeenAudit(cfg) =>
      if !p.pc.ReadAudit? then p
      else if (p.event.client, p.event.audit) in st.audits then
        var exec := st.audits[(p.event.client, p.event.audit)];
        p.(pc := SaveIdentity(exec, cfg), resolved := Some(exec))
      else p.(pc := ReadIdentity(cfg))
    case Found(keys) =>
      if p.pc.CheckQuery? then p.(pc := AfterQuery(st.table, p.pc.s, p.pc.marker, p.pc.after, keys)) else p
    case Evidence(records, at) =>
      if p.pc.Load? then p.(pc := AfterLoad(p, p.pc.s, records, at)) else p
    case NotEligible =>
      if p.pc.Load? then p.(pc := Finish(Verdict(Ineligible, OtherReason, None))) else p
  }

  // ---- what the environment may answer ----

  /** The key the next read asks for. */
  function KeyRead(p: Proc): Option<RecordKey> {
    match p.pc
    case ReadJob => Some(JobOf(p.event))
    case ReReadJob => Some(JobOf(p.event))
    case ReadIdentity(_) => Some(IdentityOf(p.event))
    case ReReadIdentity(_) => Some(IdentityOf(p.event))
    case CheckMarker(s, _) => Some(SetKey(s))
    case CheckRequired(s, _, i, _) => if i < 3 then Some(Required(s)[i]) else None
    case ReadPage(w, i) => if i < |PageList(w)| then Some(PageList(w)[i].key) else None
    case _ => None
  }

  function Lookup(t: Table, k: RecordKey): Option<Item> {
    if k in t then Some(t[k]) else None
  }

  /** A consistent read returns the stored item; a stale one may miss it, or return a job status
      stored earlier. */
  predicate MaySee(st: State, k: RecordKey, item: Option<Item>) {
    || item == Lookup(st.table, k)
    || (!st.consistent && (item.None? || (k.JobKey? && item.value.JobItem? && (k, item.value.status) in st.statuses)))
  }

  predicate MayFind(st: State, s: SetId, keys: set<RecordKey>) {
    if st.consistent then keys == EndpointRecords(st.table, s) else keys <= EndpointRecords(st.table, s)
  }

  predicate Legal(st: State, p: Proc, a: Answer) {
    match a
    case Error => true
    case ErrorAfter => true
    case Seen(item) => KeyRead(p).Some? && MaySee(st, KeyRead(p).value, item)
    case SeenAudit(_) => p.pc.ReadAudit?
    case Found(keys) => p.pc.CheckQuery? && MayFind(st, p.pc.s, keys)
    case Evidence(_, _) => p.pc.Load?
    case NotEligible => p.pc.Load?
    case Ack =>
      p.pc.PutJob? || p.pc.ClaimJob? || p.pc.PutIdentity? || p.pc.SaveIdentity? || p.pc.WritePages? || p.pc.Commit? || p.pc.Finish?
  }

  ghost function Apply(t: Table, e: Effect): Table {
    match e
    case Nothing => t
    case RecordJob(k, status) => t[k := JobItem(status)]
    case AddIdentity(k, exec) => t[k := IdentityItem(exec)]
    case AddPage(placed) => t[placed.key := PageItem(placed.page)]
    case AddBatch(w) => t + Batch(w)
  }

  /** The state after a run's call took effect. */
  ghost function Affected(st: State, e: Effect): State {
    var u := st.(table := Apply(st.table, e));
    match e
    case RecordJob(k, status) => u.(statuses := st.statuses + {(k, status)})
    case AddBatch(w) => u.(commits := st.commits[w.s := w])
    case _ => u
  }

  ghost function Next(st: State, a: Action): State {
    match a
    case Run(i, answer) =>
      if i !in st.procs || !Legal(st, st.procs[i], answer) then st
      else
        var p := st.procs[i];
        var e := if answer.Ack? || answer.ErrorAfter? then EffectOf(p, st.table) else Nothing;
        Affected(st, e).(procs := st.procs[i := Advance(st, p, answer)])
    case Trigger(client, audit, job, status) =>
      if Claimable(status) then Affected(st, RecordJob(JobKey(client, audit, job), status)) else st
  }

  ghost function Exec(st: State, actions: seq<Action>): State
    decreases |actions|
  {
    if actions == [] then st else Next(Exec(st, actions[..|actions| - 1]), actions[|actions| - 1])
  }

  /** Nothing is stored yet, and every run is about to create its job. */
  ghost predicate Initial(st: State) {
    && st.table == map[] && st.statuses == {} && st.commits == map[]
    && forall i :: i in st.procs ==> st.procs[i].pc.PutJob? && st.procs[i].resolved.None?
  }
}
