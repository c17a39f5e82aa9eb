/** Any number of finalization events for one audit, redelivered, raced and killed between
    any two calls, next to callers that schedule, run, cancel, fail and force-recreate it. */
module FinalizationProtocol {
  import opened Wrappers
  import opened Lifecycle
  import Runs = RunRecords
  import Gate = FinalizationGate

  datatype PC =
    | Read
    | Enter(snapshot: Audit)
    | Refresh
    | FailFrom(actual: LState)
    | Record(snapshot: Audit, count: nat)
    | FailZero
    | CheckGate(snapshot: Audit, count: nat, retry: bool)
    | Complete(count: nat, retry: bool, input: Gate.Input)
    | FailGate
    | PutIntent
    | Done
    | Stopped

  /** `entered` is the finalizer that last moved the audit to FINALIZING, with its count;
      `completion` the one that moved it to COMPLETED, with what its gate saw. `versions` are
      all audit records ever stored: a stale read returns one of them. */
  datatype Entering = Entering(p: nat, count: nat)

  datatype Completion = Completion(p: nat, count: nat, retry: bool, input: Gate.Input)

  datatype State = State(
    client: string, auditId: string, audit: Option<Audit>, versions: set<Audit>, procs: map<nat, PC>,
    intents: map<string, nat>, entered: Option<Entering>, completion: Option<Completion>)

  datatype Answer =
    | Saw(audit: Audit)
    | Listed(runs: seq<Runs.RunRecord>, keys: seq<string>)
    | Ack(job: string, lost: bool)
    | Error

  datatype Action = Env(op: Op) | Finalizer(p: nat, answer: Answer)

  const HANDLER := "finalization_handler"

  /** Callers other than the finalizer never ask for FINALIZING or COMPLETED. */
  predicate External(op: Op) {
    match op
    case Transition(_, next, _, _) => next.Scheduled? || next.Running? || next.Cancelled? || next.Failed?
    case RecordFinalization(_) => false
    case _ => true
  }

  function CountOf(a: Audit): nat {
    if a.completed.Some? then a.completed.value else 0
  }

  /** An audit already FINALIZING is completed, failed or skipped by what was recorded. */
  function Retry(a: Audit): PC {
    match a.finalization
    case None => Done
    case Some(f) => if f.count > 0 then CheckGate(a, f.count, true) else FailZero
  }

  function GateInput(client: string, auditId: string, a: Audit, count: nat, runs: seq<Runs.RunRecord>, keys: seq<string>): Gate.Input {
    var terminal := Runs.TerminalCount(runs);
    Gate.Input(client, auditId, if terminal > 0 then terminal else count,
               match a.completed case Some(n) => Some(n) case None => None, runs, keys)
  }

  /** The write of a finalizer at this point, if it writes the audit record. */
  function OpOf(pc: PC): Option<Op> {
    match pc
    case Enter(a) => Some(Transition(a.state, Finalizing, "finalization_trigger", HANDLER))
    case FailFrom(s) => Some(Transition(s, Failed, "unexpected_state_after_lifecycle_conflict", HANDLER))
    case Record(_, n) => Some(RecordFinalization(Finalization(n, n == 0)))
    case FailZero => Some(Transition(Finalizing, Failed, "zero_executions_at_finalization", HANDLER))
    case Complete(_, retry, _) =>
      Some(Transition(Finalizing, Completed, if retry then "finalization_retry_completed" else "finalization_completed", HANDLER))
    case FailGate => Some(Transition(Finalizing, Failed, "evidence_integrity_gate_failure", HANDLER))
    case _ => None
  }

  /** Where the finalizer goes when its write returns. */
  function AfterWrite(pc: PC, r: Result<Audit, Lifecycle.Error>): PC {
    match pc
    case Enter(a) =>
      if r.Ok? then Record(a, CountOf(a)) else if r.error.Conflict? then Refresh else Stopped
    case FailFrom(_) => if r.Ok? || r.error.Conflict? then Done else Stopped
    case Record(a, n) => if r.Err? then Stopped else if n == 0 then FailZero else CheckGate(a, n, false)
    case Complete(_, _, _) => if r.Ok? then PutIntent else Stopped
    case _ => if r.Ok? then Done else Stopped
  }

  function AfterSaw(pc: PC, a: Audit): PC {
    match pc
    case Read => if Terminal(a.state) then Done else if a.state.Finalizing? then Retry(a) else Enter(a)
    case Refresh => if Terminal(a.state) then Done else if a.state.Finalizing? then Retry(a) else FailFrom(a.state)
    case _ => pc
  }

  function AfterListed(st: State, pc: PC, runs: seq<Runs.RunRecord>, keys: seq<string>): PC {
    match pc
    case CheckGate(a, n, retry) =>
      var i := GateInput(st.client, st.auditId, a, n, runs, keys);
      if Gate.Passes(i) then Complete(n, retry, i) else FailGate
    case _ => pc
  }

  /** A write of the audit record, and what it says about who entered and who completed. */
  function Written(st: State, op: Op, by_: Option<nat>): State {
    match Apply(st.audit, op)
    case Err(_) => st
    case Ok(b) =>
      var u := st.(audit := Some(b), versions := st.versions + {b});
      if by_.None? || by_.value !in st.procs then u
      else
        match st.procs[by_.value]
        case Enter(a) => u.(entered := Some(Entering(by_.value, CountOf(a))))
        case Complete(n, retry, i) => u.(completion := Some(Completion(by_.value, n, retry, i)))
        case _ => u
  }

  function WriteStep(st: State, p: nat, job: string, lost: bool): State
    requires p in st.procs
  {
    var pc := st.procs[p];
    if pc.PutIntent? then
      if job in st.intents then st.(procs := st.procs[p := Stopped])
      else st.(intents := st.intents[job := p], procs := st.procs[p := if lost then Stopped else Done])
    else if OpOf(pc).None? then st
    else
      var op := OpOf(pc).value;
      Written(st, op, Some(p)).(procs := st.procs[p := if lost then Stopped else AfterWrite(pc, Apply(st.audit, op))])
  }

  function Next(st: State, act: Action): State {
    match act
    case Env(op) => if External(op) then Written(st, op, None) else st
    case Finalizer(p, answer) =>
      if p !in st.procs then st
      else
        match answer
        case Saw(a) =>
          if (st.procs[p].Read? || st.procs[p].Refresh?) && a in st.versions
          then st.(procs := st.procs[p := AfterSaw(st.procs[p], a)]) else st
        case Listed(runs, keys) => st.(procs := st.procs[p := AfterListed(st, st.procs[p], runs, keys)])
        case Ack(job, lost) => WriteStep(st, p, job, lost)
        case Error => if st.procs[p].Done? then st else st.(procs := st.procs[p := Stopped])
  }

  function Exec(st: State, acts: seq<Action>): State
    decreases |acts|
  {
    if acts == [] then st else Next(Exec(st, acts[..|acts| - 1]), acts[|acts| - 1])
  }

  predicate Initial(st: State) {
    && st.audit.None? && st.versions == {} && st.intents == map[] && st.entered.None? && st.completion.None?
    && forall p :: p in st.procs ==> st.procs[p].Read?
  }
}
