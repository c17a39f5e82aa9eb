/** A finalizer that nobody gets in the way of: from any state reached by any interleaving it
    does what the handler by itself does. */
module FinalizationAlone {
  import opened Wrappers
  import opened Lifecycle
  import Runs = RunRecords
  import Gate = FinalizationGate
  import opened FinalizationProtocol
  import opened FinalizationHandler

  ghost function Solo(st: State, p: nat, answers: seq<Answer>): State
    decreases |answers|
  {
    if answers == [] then st else Next(Solo(st, p, answers[..|answers| - 1]), Finalizer(p, answers[|answers| - 1]))
  }

  ghost predicate ReachedAlone(st: State, u: State, p: nat) {
    exists answers :: Solo(st, p, answers) == u
  }

  /** Finalizer p alone has got from st to u, where it is pc and the audit is a. */
  ghost predicate On(st: State, u: State, p: nat, pc: PC, a: Audit) {
    && ReachedAlone(st, u, p)
    && p in st.procs && u.procs == st.procs[p := pc] && u.audit == Some(a) && u.intents == st.intents
    && u.client == st.client && u.auditId == st.auditId
  }

  lemma Start(st: State, p: nat)
    requires p in st.procs && st.audit.Some?
    ensures On(st, st, p, st.procs[p], st.audit.value)
  {
    assert Solo(st, p, []) == st && ReachedAlone(st, st, p);
    assert st.procs[p := st.procs[p]] == st.procs;
  }

  lemma OneMore(st: State, u: State, p: nat, answer: Answer)
    requires ReachedAlone(st, u, p)
    ensures ReachedAlone(st, Next(u, Finalizer(p, answer)), p)
  {
    var answers :| Solo(st, p, answers) == u;
    assert (answers + [answer])[..|answers|] == answers;
    assert Solo(st, p, answers + [answer]) == Next(u, Finalizer(p, answer));
  }

  lemma Overwrite(m: map<nat, PC>, p: nat, x: PC, y: PC)
    ensures m[p := x][p := y] == m[p := y]
  {
  }

  /** The read of a finalizer, answered with what is stored. */
  lemma Sees(st: State, u: State, p: nat, pc: PC, a: Audit) returns (v: State)
    requires On(st, u, p, pc, a) && (pc.Read? || pc.Refresh?) && a in u.versions
    ensures On(st, v, p, AfterSaw(pc, a), a)
  {
    v := Next(u, Finalizer(p, Saw(a)));
    OneMore(st, u, p, Saw(a));
    Overwrite(st.procs, p, pc, AfterSaw(pc, a));
  }

  /** A write of the audit record that is acknowledged. */
  lemma Writes(st: State, u: State, p: nat, pc: PC, a: Audit, op: Op) returns (v: State)
    requires On(st, u, p, pc, a) && OpOf(pc) == Some(op) && !pc.PutIntent?
    ensures var r := Apply(Some(a), op);
            On(st, v, p, AfterWrite(pc, r), if r.Ok? then r.value else a)
  {
    v := Next(u, Finalizer(p, Ack("", false)));
    OneMore(st, u, p, Ack("", false));
    Overwrite(st.procs, p, pc, AfterWrite(pc, Apply(Some(a), op)));
  }

  lemma Lists(st: State, u: State, p: nat, pc: PC, a: Audit, runs: seq<Runs.RunRecord>, keys: seq<string>) returns (v: State)
    requires On(st, u, p, pc, a) && pc.CheckGate?
    ensures var i := GateInput(st.client, st.auditId, pc.snapshot, pc.count, runs, keys);
            On(st, v, p, if Gate.Passes(i) then Complete(pc.count, pc.retry, i) else FailGate, a)
  {
    var i := GateInput(st.client, st.auditId, pc.snapshot, pc.count, runs, keys);
    var next := if Gate.Passes(i) then Complete(pc.count, pc.retry, i) else FailGate;
    v := Next(u, Finalizer(p, Listed(runs, keys)));
    OneMore(st, u, p, Listed(runs, keys));
    assert AfterListed(u, pc, runs, keys) == next;
    Overwrite(st.procs, p, pc, next);
  }

  /** Where a finalizer is when the handler would return r: about to put the intent exactly when
      it completed the audit. */
  predicate EndsAt(pc: PC, r: Response) {
    match r
    case Finished => pc == PutIntent
    case Refused => pc == Stopped
    case _ => pc == Done
  }

  function CompletionReason(retry: bool): string {
    if retry then "finalization_retry_completed" else "finalization_completed"
  }

  lemma Completes(st: State, u: State, p: nat, n: nat, retry: bool, i: Gate.Input, a: Audit) returns (v: State)
    requires On(st, u, p, Complete(n, retry, i), a) && a.state.Finalizing?
    ensures On(st, v, p, PutIntent, Moved(a, Completed, CompletionReason(retry)))
  {
    v := Writes(st, u, p, Complete(n, retry, i), a, OpOf(Complete(n, retry, i)).value);
  }

  lemma Fails(st: State, u: State, p: nat, pc: PC, a: Audit) returns (v: State)
    requires On(st, u, p, pc, a) && a.state.Finalizing? && (pc.FailZero? || pc.FailGate?)
    ensures On(st, v, p, Done, Moved(a, Failed, if pc.FailZero? then "zero_executions_at_finalization"
                                                else "evidence_integrity_gate_failure"))
  {
    v := Writes(st, u, p, pc, a, OpOf(pc).value);
  }

  /** From a count on: none fails the audit, otherwise the gate decides. */
  lemma Decides(st: State, u: State, p: nat, snapshot: Audit, a: Audit, n: nat, retry: bool, runs: seq<Runs.RunRecord>, keys: seq<string>)
    returns (v: State, pc: PC, b: Audit, r: Response)
    requires On(st, u, p, if n == 0 then FailZero else CheckGate(snapshot, n, retry), a) && a.state.Finalizing?
    ensures On(st, v, p, pc, b) && EndsAt(pc, r)
    ensures Decided(st.client, st.auditId, snapshot, a, n, CompletionReason(retry), runs, keys, r, b)
  {
    if n == 0 {
      v := Fails(st, u, p, FailZero, a);
      pc, b, r := Done, Moved(a, Failed, "zero_executions_at_finalization"), ZeroExecutions;
    } else {
      var i := GateInput(st.client, st.auditId, snapshot, n, runs, keys);
      v := Lists(st, u, p, CheckGate(snapshot, n, retry), a, runs, keys);
      if Gate.Passes(i) {
        v := Completes(st, v, p, n, retry, i, a);
        pc, b, r := PutIntent, Moved(a, Completed, CompletionReason(retry)), Finished;
      } else {
        v := Fails(st, v, p, FailGate, a);
        pc, b, r := Done, Moved(a, Failed, "evidence_integrity_gate_failure"), GateFailure;
      }
    }
  }

  /** A FINALIZING audit seen by a first read, or by the one after a conflict. */
  lemma Retries(st: State, u: State, p: nat, a: Audit, runs: seq<Runs.RunRecord>, keys: seq<string>)
    returns (v: State, pc: PC, b: Audit, r: Response)
    requires On(st, u, p, Retry(a), a) && a.state.Finalizing?
    ensures On(st, v, p, pc, b) && EndsAt(pc, r) && RetryEnds(st.client, st.auditId, a, b, runs, keys, r)
  {
    if a.finalization.None? {
      v, pc, b, r := u, Done, a, Skipped;
    } else {
      v, pc, b, r := Decides(st, u, p, a, a, a.finalization.value.count, true, runs, keys);
    }
  }

  lemma Enters(st: State, u: State, p: nat, a: Audit, runs: seq<Runs.RunRecord>, keys: seq<string>)
    returns (v: State, pc: PC, b: Audit, r: Response)
    requires On(st, u, p, Enter(a), a) && (a.state.Scheduled? || a.state.Running?)
    ensures On(st, v, p, pc, b) && EndsAt(pc, r) && EntryEnds(st.client, st.auditId, a, b, runs, keys, r)
  {
    var n := CountOf(a);
    var in_ := Moved(a, Finalizing, "finalization_trigger");
    v := Writes(st, u, p, Enter(a), a, OpOf(Enter(a)).value);
    assert On(st, v, p, Record(a, n), in_);
    v := Writes(st, v, p, Record(a, n), in_, OpOf(Record(a, n)).value);
    var recorded := in_.(finalization := Some(Finalization(n, n == 0)));
    v, pc, b, r := Decides(st, v, p, a, recorded, n, false, runs, keys);
  }

  /** A finalizer about to read, left alone from here on with its read fresh and no call failing,
      leaves the audit as the handler does, and goes on to put the intent exactly when the
      handler would. */
  lemma EndsAsHandler(st: State, p: nat, runs: seq<Runs.RunRecord>, keys: seq<string>) returns (v: State, pc: PC, b: Audit, r: Response)
    requires p in st.procs && st.procs[p] == Read && st.audit.Some? && st.audit.value in st.versions
    ensures On(st, v, p, pc, b) && EndsAt(pc, r) && HandleEnds(st.client, st.auditId, st.audit.value, b, runs, keys, r)
  {
    var a := st.audit.value;
    Start(st, p);
    var seen := Sees(st, st, p, Read, a);
    if Terminal(a.state) {
      v, pc, b, r := seen, Done, a, Skipped;
    } else if a.state.Finalizing? {
      v, pc, b, r := Retries(st, seen, p, a, runs, keys);
    } else if a.state.Scheduled? || a.state.Running? {
      v, pc, b, r := Enters(st, seen, p, a, runs, keys);
    } else {
      v := Writes(st, seen, p, Enter(a), a, OpOf(Enter(a)).value);
      pc, b, r := Stopped, a, Refused;
    }
  }

  /** One whose entry met a conflict reads again: a terminal audit is left alone, a FINALIZING one
      decided by what is on record, and any other, which somebody else has moved, fails. */
  lemma EndsAfterConflict(st: State, p: nat, runs: seq<Runs.RunRecord>, keys: seq<string>) returns (v: State, pc: PC, b: Audit, r: Response)
    requires p in st.procs && st.procs[p] == Refresh && st.audit.Some? && st.audit.value in st.versions
    ensures On(st, v, p, pc, b)
    ensures var a := st.audit.value;
            if a.state in {Completed, Failed, Cancelled} then pc == Done && b == a
            else if a.state == Finalizing then EndsAt(pc, r) && RetryEnds(st.client, st.auditId, a, b, runs, keys, r)
            else pc == Done && b == Moved(a, Failed, "unexpected_state_after_lifecycle_conflict")
  {
    var a := st.audit.value;
    Start(st, p);
    v := Sees(st, st, p, Refresh, a);
    pc, b, r := Done, a, Skipped;
    if a.state.Finalizing? {
      v, pc, b, r := Retries(st, v, p, a, runs, keys);
    } else if !Terminal(a.state) {
      v := Writes(st, v, p, FailFrom(a.state), a, OpOf(FailFrom(a.state)).value);
      b := Moved(a, Failed, "unexpected_state_after_lifecycle_conflict");
    }
  }

  /** The intent of a completed audit is put under a fresh job. */
  lemma PutsIntent(st: State, u: State, p: nat, a: Audit, job: string) returns (v: State)
    requires On(st, u, p, PutIntent, a) && job !in u.intents
    ensures ReachedAlone(st, v, p) && v.procs == st.procs[p := Done] && v.audit == Some(a) && v.intents == st.intents[job := p]
  {
    v := Next(u, Finalizer(p, Ack(job, false)));
    OneMore(st, u, p, Ack(job, false));
    Overwrite(st.procs, p, PutIntent, Done);
  }

  // ---- in any reachable state ----

  lemma StepKeepsCurrent(st: State, act: Action)
    requires st.audit.Some? ==> st.audit.value in st.versions
    ensures Next(st, act).audit.Some? ==> Next(st, act).audit.value in Next(st, act).versions
  {
  }

  lemma {:induction false} CurrentIsVersion(start: State, acts: seq<Action>)
    requires Initial(start)
    ensures Exec(start, acts).audit.Some? ==> Exec(start, acts).audit.value in Exec(start, acts).versions
    decreases |acts|
  {
    if acts != [] {
      CurrentIsVersion(start, acts[..|acts| - 1]);
      StepKeepsCurrent(Exec(start, acts[..|acts| - 1]), acts[|acts| - 1]);
    }
  }

  lemma {:induction false} SoloIsExec(start: State, acts: seq<Action>, p: nat, answers: seq<Answer>) returns (more: seq<Action>)
    ensures Solo(Exec(start, acts), p, answers) == Exec(start, acts + more)
    decreases |answers|
  {
    if answers == [] {
      more := [];
      assert acts + more == acts;
    } else {
      var init := SoloIsExec(start, acts, p, answers[..|answers| - 1]);
      var last := Finalizer(p, answers[|answers| - 1]);
      more := init + [last];
      assert (acts + more)[..|acts + more| - 1] == acts + init;
    }
  }

  /** Whatever finalizers and other callers have done before, there are further steps of this
      finalizer alone that end as the handler would. */
  lemma AnyFinalizerEnds(start: State, acts: seq<Action>, p: nat, runs: seq<Runs.RunRecord>, keys: seq<string>)
    returns (more: seq<Action>, pc: PC, b: Audit, r: Response)
    requires Initial(start)
    requires p in Exec(start, acts).procs && Exec(start, acts).procs[p] == Read && Exec(start, acts).audit.Some?
    ensures var st, v := Exec(start, acts), Exec(start, acts + more);
            && v.audit == Some(b) && v.procs == st.procs[p := pc] && EndsAt(pc, r)
            && HandleEnds(st.client, st.auditId, st.audit.value, b, runs, keys, r)
  {
    CurrentIsVersion(start, acts);
    var st := Exec(start, acts);
    var v;
    v, pc, b, r := EndsAsHandler(st, p, runs, keys);
    var answers :| Solo(st, p, answers) == v;
    more := SoloIsExec(start, acts, p, answers);
  }
}
