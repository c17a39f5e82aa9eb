/** One finalization event handled with nobody else about. */
module FinalizationHandler {
  import opened Wrappers
  import opened Lifecycle
  import Runs = RunRecords
  import opened FinalizationProtocol
  import Gate = FinalizationGate

  datatype Response = Skipped | Finished | GateFailure | ZeroExecutions | Refused

  /** The audit after one more transition by the handler. */
  function Moved(a: Audit, next: LState, reason: string): Audit {
    a.(state := next, history := a.history + [Entry(From(a.state), next, reason, HANDLER)])
  }

  /** What the gate makes of an audit and a positive count: it passes exactly when there are
      runs, all ended, every completed one with its evidence key, every key naming exactly one
      of them, and the counter, when present, is their number. */
  lemma GateDecides(client: string, audit: string, a: Audit, count: nat, runs: seq<Runs.RunRecord>, keys: seq<string>)
    requires count > 0
    ensures Gate.Passes(GateInput(client, audit, a, count, runs, keys)) <==>
            && runs != [] && (forall r :: r in runs ==> r.status != Runs.Started)
            && (forall k :: 0 <= k < |runs| && runs[k].status == Runs.Completed ==>
                  Runs.EvidenceKey(client, audit, runs[k].runId) in keys)
            && (forall k :: 0 <= k < |keys| ==> |Runs.Matching(runs, Runs.ExtractRunId(keys[k]))| == 1)
            && (a.completed.Some? ==> a.completed.value == |runs|)
  {
    var i := GateInput(client, audit, a, count, runs, keys);
    Gate.PassesIff(i);
    Gate.NoneStartedIff(runs);
    assert forall k :: 0 <= k < |keys| ==> Gate.RunIdsOf(keys)[k] == Runs.ExtractRunId(keys[k]);
  }

  /** A count is decided: none fails the audit; otherwise the gate completes it or fails it. */
  predicate Decided(client: string, audit: string, snapshot: Audit, a: Audit, n: nat, reason: string,
                    runs: seq<Runs.RunRecord>, keys: seq<string>, r: Response, b: Audit)
  {
    if n == 0 then r == ZeroExecutions && b == Moved(a, Failed, "zero_executions_at_finalization")
    else if Gate.Passes(GateInput(client, audit, snapshot, n, runs, keys)) then r == Finished && b == Moved(a, Completed, reason)
    else r == GateFailure && b == Moved(a, Failed, "evidence_integrity_gate_failure")
  }

  /** A FINALIZING audit is decided by the count on record, and left alone without one. */
  predicate RetryEnds(client: string, audit: string, a: Audit, b: Audit, runs: seq<Runs.RunRecord>, keys: seq<string>, r: Response) {
    match a.finalization
    case None => r == Skipped && b == a
    case Some(f) => Decided(client, audit, a, a, f.count, "finalization_retry_completed", runs, keys, r, b)
  }

  /** A terminal audit is left alone. One already FINALIZING is decided by what was recorded
      before. SCHEDULED and RUNNING ones are entered, the completed counter recorded as their
      count, and decided by count and gate; from DRAFT, ANALYZING and REPORTING the table
      refuses the entry. */
  predicate HandleEnds(client: string, audit: string, a: Audit, b: Audit, runs: seq<Runs.RunRecord>, keys: seq<string>, r: Response) {
    match a.state
    case Completed => r == Skipped && b == a
    case Failed => r == Skipped && b == a
    case Cancelled => r == Skipped && b == a
    case Finalizing => RetryEnds(client, audit, a, b, runs, keys, r)
    case Scheduled => EntryEnds(client, audit, a, b, runs, keys, r)
    case Running => EntryEnds(client, audit, a, b, runs, keys, r)
    case _ => r == Refused && b == a
  }

  predicate EntryEnds(client: string, audit: string, a: Audit, b: Audit, runs: seq<Runs.RunRecord>, keys: seq<string>, r: Response) {
    var n := if a.completed.Some? then a.completed.value else 0;
    var entered := Moved(a, Finalizing, "finalization_trigger").(finalization := Some(Finalization(n, n == 0)));
    Decided(client, audit, a, entered, n, "finalization_completed", runs, keys, r, b)
  }

  class AuditFinalizationHandler {
    const repository: AuditMetadataRepository
    const lifecycle: AuditLifecycleService

    constructor (repository: AuditMetadataRepository, lifecycle: AuditLifecycleService)
      requires lifecycle.repository == repository
      ensures this.repository == repository && this.lifecycle == lifecycle
    {
      this.repository := repository;
      this.lifecycle := lifecycle;
    }

    /** Run the gate over a FINALIZING audit; it ends COMPLETED exactly when the gate passes,
        and FAILED otherwise. */
    method CompleteFinalization(client: string, audit: string, snapshot: Audit, count: nat, reason: string,
                                runs: seq<Runs.RunRecord>, keys: seq<string>) returns (r: Response)
      requires lifecycle.repository == repository && count > 0
      requires repository.audit.Some? && repository.audit.value.state.Finalizing?
      modifies repository
      ensures var a := old(repository.audit).value;
              if Gate.Passes(GateInput(client, audit, snapshot, count, runs, keys))
              then r == Finished && repository.audit == Some(Moved(a, Completed, reason))
              else r == GateFailure && repository.audit == Some(Moved(a, Failed, "evidence_integrity_gate_failure"))
    {
      var input := GateInput(client, audit, snapshot, count, runs, keys);
      var outcome := Gate.FinalizationIntegrityGate(input);
      if outcome == Ok([]) {
        var moved := lifecycle.Move(Finalizing, Completed, reason, HANDLER);
        return Finished;
      }
      var moved := lifecycle.Move(Finalizing, Failed, "evidence_integrity_gate_failure", HANDLER);
      return GateFailure;
    }

    /** One event; the intent is put exactly when it completed the audit. */
    method Handle(client: string, audit: string, runs: seq<Runs.RunRecord>, keys: seq<string>) returns (r: Response, triggered: bool)
      requires lifecycle.repository == repository && repository.audit.Some?
      modifies repository
      ensures repository.audit.Some?
      ensures triggered <==> r.Finished?
      ensures HandleEnds(client, audit, old(repository.audit).value, repository.audit.value, runs, keys, r)
    {
      var a := repository.audit.value;
      if Terminal(a.state) {
        return Skipped, false;
      }
      if a.state.Finalizing? {
        r := HandleFinalizingRetry(client, audit, a, runs, keys);
        return r, r.Finished?;
      }
      var count := CountOf(a);
      var entered := lifecycle.Move(a.state, Finalizing, "finalization_trigger", HANDLER);
      if entered.Err? {
        return Refused, false;
      }
      var recorded := repository.SetFields(RecordFinalization(Finalization(count, count == 0)));
      if count == 0 {
        var failed := lifecycle.Move(Finalizing, Failed, "zero_executions_at_finalization", HANDLER);
        return ZeroExecutions, false;
      }
      r := CompleteFinalization(client, audit, a, count, "finalization_completed", runs, keys);
      triggered := r.Finished?;
    }

    method HandleFinalizingRetry(client: string, audit: string, a: Audit, runs: seq<Runs.RunRecord>, keys: seq<string>) returns (r: Response)
      requires lifecycle.repository == repository && repository.audit == Some(a) && a.state.Finalizing?
      modifies repository
      ensures repository.audit.Some? && RetryEnds(client, audit, a, repository.audit.value, runs, keys, r)
    {
      if a.finalization.None? {
        return Skipped;
      }
      if a.finalization.value.count == 0 {
        var failed := lifecycle.Move(Finalizing, Failed, "zero_executions_at_finalization", HANDLER);
        return ZeroExecutions;
      }
      r := CompleteFinalization(client, audit, a, a.finalization.value.count, "finalization_retry_completed", runs, keys);
    }
  }
}
