/** The lifecycle of an audit: a transition table, a compare-and-set on the stored state with
    an appended history, and the force-recreate exception. */
module Lifecycle {
  import opened Wrappers

  datatype LState = Draft | Scheduled | Running | Finalizing | Analyzing | Reporting | Completed | Failed | Cancelled

  predicate Terminal(s: LState) {
    s.Completed? || s.Failed? || s.Cancelled?
  }

  function Transitions(s: LState): set<LState> {
    match s
    case Draft => {Scheduled, Cancelled, Failed}
    case Scheduled => {Running, Cancelled, Failed, Finalizing}
    case Running => {Finalizing, Failed, Cancelled}
    case Finalizing => {Analyzing, Completed, Failed}
    case Analyzing => {Reporting, Failed}
    case Reporting => {Completed, Failed}
    case _ => {}
  }

  /** Where an entry says the audit came from; a forced entry does not know. */
  datatype Origin = From(state: LState) | DraftOrFailed

  datatype Entry = Entry(origin: Origin, to: LState, reason: string, actor: string)

  datatype Finalization = Finalization(count: nat, zero: bool)

  /** `completed` is execution_counters.total_completed. */
  datatype Audit = Audit(state: LState, history: seq<Entry>, completed: Option<nat>, finalization: Option<Finalization>)

  datatype Error = InvalidTransition | Conflict | Exists | Missing | ForceBlocked

  /** The calls that write an audit record. Callers take `expected` from any earlier read. */
  datatype Op =
    | Create(completed: Option<nat>)
    | Transition(expected: LState, next: LState, reason: string, actor: string)
    | ForceRecreate
    | SetCounters(completed: Option<nat>)
    | RecordFinalization(finalization: Finalization)

  function ForcedEntry(): Entry {
    Entry(DraftOrFailed, Draft, "force_recreate", "operator_cli")
  }

  /** What a call does to the stored record. */
  function Apply(a: Option<Audit>, op: Op): Result<Audit, Error> {
    match op
    case Create(n) => if a.Some? then Err(Exists) else Ok(Audit(Draft, [], n, None))
    case Transition(expected, next, reason, actor) =>
      if next !in Transitions(expected) then Err(InvalidTransition)
      else if a.None? || a.value.state != expected then Err(Conflict)
      else Ok(a.value.(state := next, history := a.value.history + [Entry(From(expected), next, reason, actor)]))
    case ForceRecreate =>
      if a.None? || !(a.value.state.Draft? || a.value.state.Failed?) then Err(ForceBlocked)
      else Ok(a.value.(state := Draft, history := a.value.history + [ForcedEntry()]))
    case SetCounters(n) => if a.None? then Err(Missing) else Ok(a.value.(completed := n))
    case RecordFinalization(f) => if a.None? then Err(Missing) else Ok(a.value.(finalization := Some(f)))
  }

  function After(a: Option<Audit>, op: Op): Option<Audit> {
    match Apply(a, op)
    case Ok(b) => Some(b)
    case Err(_) => a
  }

  function AfterAll(a: Option<Audit>, ops: seq<Op>): Option<Audit>
    decreases |ops|
  {
    if ops == [] then a else AfterAll(After(a, ops[0]), ops[1..])
  }

  class AuditMetadataRepository {
    var audit: Option<Audit>

    constructor ()
      ensures audit.None?
    {
      audit := None;
    }

    method PutAuditMetadataOnce(completed: Option<nat>) returns (r: Result<Audit, Error>)
      modifies this
      ensures r == Apply(old(audit), Create(completed))
      ensures audit == After(old(audit), Create(completed))
      ensures r.Ok? <==> old(audit).None?
      ensures r.Ok? ==> audit == Some(Audit(Draft, [], completed, None))
      ensures r.Err? ==> audit == old(audit)
    {
      if audit.Some? {
        return Err(Exists);
      }
      audit := Some(Audit(Draft, [], completed, None));
      r := Ok(audit.value);
    }

    /** The conditional update of state and history together. */
    method AppendLifecycleTransition(expected: LState, next: LState, entry: Entry) returns (r: Result<Audit, Error>)
      modifies this
      ensures r.Ok? <==> old(audit).Some? && old(audit).value.state == expected
      ensures r.Err? ==> r == Err(Conflict) && audit == old(audit)
      ensures r.Ok? ==> audit == Some(r.value)
                        && r.value == old(audit).value.(state := next, history := old(audit).value.history + [entry])
    {
      if audit.None? || audit.value.state != expected {
        return Err(Conflict);
      }
      audit := Some(audit.value.(state := next, history := audit.value.history + [entry]));
      r := Ok(audit.value);
    }

    method UpdateForForceRecreate() returns (r: Result<Audit, Error>)
      modifies this
      ensures r == Apply(old(audit), ForceRecreate)
      ensures audit == After(old(audit), ForceRecreate)
      ensures r.Ok? <==> old(audit).Some? && old(audit).value.state in {Draft, Failed}
      ensures r.Ok? ==> audit == Some(old(audit).value.(state := Draft, history := old(audit).value.history + [ForcedEntry()]))
      ensures r.Err? ==> audit == old(audit)
    {
      if audit.None? || (audit.value.state != Draft && audit.value.state != Failed) {
        return Err(ForceBlocked);
      }
      audit := Some(audit.value.(state := Draft, history := audit.value.history + [ForcedEntry()]));
      r := Ok(audit.value);
    }

    method SetFields(op: Op) returns (r: Result<Audit, Error>)
      requires op.SetCounters? || op.RecordFinalization?
      modifies this
      ensures r == Apply(old(audit), op)
      ensures audit == After(old(audit), op)
      ensures r.Ok? <==> old(audit).Some?
      ensures r.Ok? && op.SetCounters? ==> audit == Some(old(audit).value.(completed := op.completed))
      ensures r.Ok? && op.RecordFinalization? ==> audit == Some(old(audit).value.(finalization := Some(op.finalization)))
    {
      if audit.None? {
        return Err(Missing);
      }
      match op {
        case SetCounters(n) => audit := Some(audit.value.(completed := n));
        case RecordFinalization(f) => audit := Some(audit.value.(finalization := Some(f)));
      }
      r := Ok(audit.value);
    }
  }

  class AuditLifecycleService {
    const repository: AuditMetadataRepository

    constructor (repository: AuditMetadataRepository)
      ensures this.repository == repository
    {
      this.repository := repository;
    }

    /** Check the table first, then compare and set. */
    method Move(expected: LState, next: LState, reason: string, actor: string) returns (r: Result<Audit, Error>)
      modifies repository
      ensures r == Apply(old(repository.audit), Transition(expected, next, reason, actor))
      ensures repository.audit == After(old(repository.audit), Transition(expected, next, reason, actor))
      ensures r == Err(InvalidTransition) <==> next !in Transitions(expected)
      ensures r.Ok? <==> next in Transitions(expected) && old(repository.audit).Some? && old(repository.audit).value.state == expected
      ensures r.Ok? ==> var a := old(repository.audit).value;
                        repository.audit == Some(a.(state := next, history := a.history + [Entry(From(expected), next, reason, actor)]))
      ensures r.Err? ==> repository.audit == old(repository.audit)
    {
      if next !in Transitions(expected) {
        return Err(InvalidTransition);
      }
      r := repository.AppendLifecycleTransition(expected, next, Entry(From(expected), next, reason, actor));
    }
  }

  // ---- replaying the history ----

  /** Follow one entry from state s: a table transition out of s, or a forced return to DRAFT. */
  function Follow(s: LState, e: Entry): Option<LState> {
    match e.origin
    case From(f) => if f == s && e.to in Transitions(s) then Some(e.to) else None
    case DraftOrFailed => if (s.Draft? || s.Failed?) && e.to.Draft? then Some(Draft) else None
  }

  function Replay(s: LState, history: seq<Entry>): Option<LState>
    decreases |history|
  {
    if history == [] then Some(s)
    else
      var next := Follow(s, history[0]);
      if next.None? then None else Replay(next.value, history[1..])
  }

  lemma {:induction false} ReplayAppend(s: LState, history: seq<Entry>, e: Entry)
    requires Replay(s, history).Some?
    ensures Replay(s, history + [e]) == Follow(Replay(s, history).value, e)
    decreases |history|
  {
    if history == [] {
      assert history + [e] == [e] && [e][1..] == [];
    } else {
      assert (history + [e])[1..] == history[1..] + [e];
      ReplayAppend(Follow(s, history[0]).value, history[1..], e);
    }
  }

  predicate Replays(a: Option<Audit>) {
    a.Some? ==> Replay(Draft, a.value.history) == Some(a.value.state)
  }

  lemma StepReplays(a: Option<Audit>, op: Op)
    requires Replays(a)
    ensures Replays(After(a, op))
  {
    if a.Some? {
      match op
      case Transition(expected, next, reason, actor) =>
        ReplayAppend(Draft, a.value.history, Entry(From(expected), next, reason, actor));
      case ForceRecreate => ReplayAppend(Draft, a.value.history, ForcedEntry());
      case _ =>
    }
  }

  /** Whatever calls are made, in whatever order and from however stale a read, the history
      replays from DRAFT to the stored state by table transitions and forced entries. */
  lemma {:induction false} HistoryReplays(a: Option<Audit>, ops: seq<Op>)
    requires Replays(a)
    ensures Replays(AfterAll(a, ops))
    decreases |ops|
  {
    if ops != [] {
      StepReplays(a, ops[0]);
      HistoryReplays(After(a, ops[0]), ops[1..]);
    }
  }

  /** The history only grows, at the end. */
  lemma {:induction false} HistoryGrows(a: Option<Audit>, ops: seq<Op>)
    requires a.Some?
    ensures AfterAll(a, ops).Some? && a.value.history <= AfterAll(a, ops).value.history
    decreases |ops|
  {
    if ops != [] {
      HistoryGrows(After(a, ops[0]), ops[1..]);
    }
  }

  /** COMPLETED and CANCELLED are final: state and history never change again. */
  lemma {:induction false} Absorbing(a: Option<Audit>, ops: seq<Op>)
    requires a.Some? && (a.value.state.Completed? || a.value.state.Cancelled?)
    ensures AfterAll(a, ops).Some?
    ensures AfterAll(a, ops).value.state == a.value.state && AfterAll(a, ops).value.history == a.value.history
    decreases |ops|
  {
    if ops != [] {
      Absorbing(After(a, ops[0]), ops[1..]);
    }
  }

  /** A terminal state is left in exactly one way: FAILED, by force, to DRAFT. */
  lemma LeavingTerminal(a: Audit, op: Op)
    requires Terminal(a.state)
    ensures After(Some(a), op).value.state != a.state <==> a.state.Failed? && op.ForceRecreate?
    ensures After(Some(a), op).value.state != a.state ==> After(Some(a), op).value.state == Draft
  {
  }

  predicate Forced(history: seq<Entry>) {
    exists i :: 0 <= i < |history| && history[i].origin.DraftOrFailed?
  }

  /** How far along a state is on a path without forced entries. */
  function Stage(s: LState): nat {
    match s
    case Draft => 0
    case Scheduled => 1
    case Running => 2
    case Finalizing => 3
    case Analyzing => 4
    case Reporting => 5
    case _ => 6
  }

  /** The table: every state that is not terminal may fail, the first three may be cancelled, and
      otherwise an audit moves to the next stage, or from SCHEDULED straight to FINALIZING, or
      from FINALIZING straight to COMPLETED. */
  lemma TableLaws(s: LState, t: LState)
    ensures t in Transitions(s) <==>
            if t == Failed then s !in {Completed, Failed, Cancelled}
            else if t == Cancelled then s in {Draft, Scheduled, Running}
            else Stage(t) == Stage(s) + 1 || (s == Scheduled && t == Finalizing) || (s == Finalizing && t == Completed)
  {
    match s
    case Draft => assert Transitions(s) == {Scheduled, Cancelled, Failed};
    case Scheduled => assert Transitions(s) == {Running, Cancelled, Failed, Finalizing};
    case Running =>
    case Finalizing =>
    case Analyzing =>
    case Reporting =>
    case _ =>
  }

  lemma {:induction false} StagesRise(s: LState, history: seq<Entry>)
    requires !Forced(history) && Replay(s, history).Some?
    ensures Stage(s) + |history| <= Stage(Replay(s, history).value)
    decreases |history|
  {
    if history != [] {
      var t := Follow(s, history[0]).value;
      assert !history[0].origin.DraftOrFailed?;
      assert Stage(t) > Stage(s);
      forall i | 0 <= i < |history[1..]| ensures !history[1..][i].origin.DraftOrFailed? {
        assert !history[i + 1].origin.DraftOrFailed?;
      }
      StagesRise(t, history[1..]);
    }
  }

  /** Without force an audit makes at most six transitions. */
  lemma UnforcedHistoryIsShort(a: Audit)
    requires Replays(Some(a)) && !Forced(a.history)
    ensures |a.history| <= 6
  {
    StagesRise(Draft, a.history);
  }
}
