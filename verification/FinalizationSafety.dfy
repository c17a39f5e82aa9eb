/** What holds of an audit after any interleaving of finalization events and other callers. */
module FinalizationSafety {
  import opened Wrappers
  import opened Lifecycle
  import opened FinalizationProtocol
  import Gate = FinalizationGate

  // ---- the invariant ----

  predicate Unforced(st: State) {
    st.audit.Some? ==> !Forced(st.audit.value.history)
  }

  /** A version once stored is a past of the current record. */
  predicate VersionOk(st: State, v: Audit) {
    && st.audit.Some? && v.history <= st.audit.value.history
    && (Unforced(st) && v.finalization.Some? ==> st.audit.value.finalization == v.finalization)
  }

  /** On an audit never forced the recorded count is that of the one finalizer that entered. */
  predicate EnteringOk(st: State) {
    st.audit.Some? && Unforced(st) ==>
      var a := st.audit.value;
      && (a.finalization.Some? ==>
            st.entered.Some? && a.finalization.value == Finalization(st.entered.value.count, st.entered.value.count == 0))
      && (st.entered.Some? ==> a.state.Finalizing? || a.state.Completed? || a.state.Failed?)
      && (a.state.Finalizing? || a.state.Completed? ==> st.entered.Some?)
  }

  predicate Recorded(st: State, count: nat) {
    Unforced(st) ==> st.audit.Some? && st.audit.value.finalization == Some(Finalization(count, false))
  }

  /** The transition to COMPLETED is on record with the finalization handler as its actor. */
  predicate HandlerCompleted(history: seq<Entry>) {
    exists i :: 0 <= i < |history| && history[i].to.Completed? && history[i].actor == HANDLER
  }

  lemma HandlerCompletedStays(h: seq<Entry>, k: seq<Entry>)
    requires h <= k && HandlerCompleted(h)
    ensures HandlerCompleted(k)
  {
    var i :| 0 <= i < |h| && h[i].to.Completed? && h[i].actor == HANDLER;
    assert k[i] == h[i];
  }

  predicate CompletionOk(st: State) {
    && (st.completion.Some? <==> st.audit.Some? && st.audit.value.state.Completed?)
    && (st.completion.Some? ==>
          var c := st.completion.value;
          && c.count > 0 && Gate.Passes(c.input) && c.input.client == st.client && c.input.audit == st.auditId
          && (!c.retry ==> c.input.counter == Some(c.count))
          && HandlerCompleted(st.audit.value.history)
          && Recorded(st, c.count))
  }

  predicate PcOk(st: State, p: nat, pc: PC) {
    match pc
    case Record(a, n) =>
      st.audit.Some? && n == CountOf(a)
      && (Unforced(st) ==> st.entered == Some(Entering(p, n)) && st.audit.value.finalization.None?)
    case CheckGate(a, n, retry) => n > 0 && Recorded(st, n) && (!retry ==> n == CountOf(a))
    case Complete(n, retry, i) =>
      n > 0 && Recorded(st, n) && Gate.Passes(i) && i.client == st.client && i.audit == st.auditId
      && (!retry ==> i.counter == Some(n))
    case PutIntent => st.completion.Some? && st.completion.value.p == p && st.intents == map[]
    case _ => true
  }

  predicate IntentsOk(st: State) {
    forall j :: j in st.intents ==>
      && st.completion.Some? && st.intents[j] == st.completion.value.p
      && (forall k :: k in st.intents ==> k == j)
  }

  ghost predicate Inv(st: State) {
    && (forall v :: v in st.versions ==> VersionOk(st, v))
    && (st.audit.None? ==> st.entered.None?)
    && EnteringOk(st)
    && CompletionOk(st)
    && IntentsOk(st)
    && forall p :: p in st.procs ==> PcOk(st, p, st.procs[p])
  }

  // ---- writes of the audit record ----

  /** A record that follows another: it keeps the history and, unless forced, a finalization
      already recorded. */
  predicate Follows(a: Option<Audit>, b: Audit) {
    a.Some? ==>
      && a.value.history <= b.history
      && (!Forced(b.history) && a.value.finalization.Some? ==> b.finalization == a.value.finalization)
  }

  lemma ForcedStays(h: seq<Entry>, k: seq<Entry>)
    requires h <= k && Forced(h)
    ensures Forced(k)
  {
    var i :| 0 <= i < |h| && h[i].origin.DraftOrFailed?;
    assert k[i].origin.DraftOrFailed?;
  }

  lemma UnforcedBefore(st: State, b: Audit)
    requires Follows(st.audit, b) && !Forced(b.history)
    ensures Unforced(st)
  {
    if st.audit.Some? && Forced(st.audit.value.history) {
      ForcedStays(st.audit.value.history, b.history);
    }
  }

  ghost predicate VersionsOk(st: State) {
    forall v :: v in st.versions ==> VersionOk(st, v)
  }

  /** Storing a record that follows the current one keeps the versions in order. */
  lemma VersionsKept(st: State, u: State, b: Audit)
    requires VersionsOk(st) && Follows(st.audit, b)
    requires u.audit == Some(b) && u.versions == st.versions + {b}
    ensures VersionsOk(u)
  {
    forall v | v in u.versions ensures VersionOk(u, v) {
      if v != b {
        assert VersionOk(st, v);
        if Unforced(u) {
          UnforcedBefore(st, b);
        }
      }
    }
  }

  /** A run of the finalizer whose point is unaffected by what another caller stored. */
  lemma PcKept(st: State, u: State, b: Audit, p: nat, pc: PC)
    requires PcOk(st, p, pc) && Follows(st.audit, b)
    requires u.audit == Some(b) && u.client == st.client && u.auditId == st.auditId
    requires pc.Record? && !Forced(b.history) ==> u.entered == st.entered && (st.audit.Some? ==> b.finalization == st.audit.value.finalization)
    requires pc.PutIntent? ==> u.completion == st.completion && u.intents == st.intents
    ensures PcOk(u, p, pc)
  {
    if !Forced(b.history) {
      UnforcedBefore(st, b);
    }
  }

  lemma CompletionKept(st: State, u: State, b: Audit)
    requires CompletionOk(st) && Follows(st.audit, b)
    requires u.audit == Some(b) && u.completion == st.completion && u.client == st.client && u.auditId == st.auditId
    requires b.state.Completed? <==> st.audit.Some? && st.audit.value.state.Completed?
    ensures CompletionOk(u)
  {
    if st.completion.Some? {
      HandlerCompletedStays(st.audit.value.history, b.history);
    }
    if !Forced(b.history) {
      UnforcedBefore(st, b);
    }
  }

  predicate Plain(op: Op) {
    match op
    case Transition(_, next, _, _) => !next.Finalizing? && !next.Completed? && !next.Analyzing? && !next.Reporting?
    case RecordFinalization(_) => false
    case _ => true
  }

  lemma UnforcedAppend(h: seq<Entry>, e: Entry)
    ensures Forced(h + [e]) <==> Forced(h) || e.origin.DraftOrFailed?
  {
    if Forced(h) {
      ForcedStays(h, h + [e]);
    }
    if e.origin.DraftOrFailed? {
      assert (h + [e])[|h|].origin.DraftOrFailed?;
    }
    if Forced(h + [e]) {
      var i :| 0 <= i < |h + [e]| && (h + [e])[i].origin.DraftOrFailed?;
      assert i < |h| ==> h[i].origin.DraftOrFailed?;
    }
  }

  lemma PlainFollows(st: State, op: Op)
    requires Plain(op) && Apply(st.audit, op).Ok?
    ensures Follows(st.audit, Apply(st.audit, op).value)
  {
  }

  lemma PlainEntering(st: State, op: Op, u: State)
    requires EnteringOk(st) && Plain(op) && Apply(st.audit, op).Ok?
    requires u.audit == Some(Apply(st.audit, op).value) && u.entered == st.entered
    requires st.audit.None? ==> st.entered.None?
    ensures EnteringOk(u)
  {
    var b := Apply(st.audit, op).value;
    if !Forced(b.history) {
      PlainFollows(st, op);
      UnforcedBefore(st, b);
      if op.ForceRecreate? {
        UnforcedAppend(st.audit.value.history, ForcedEntry());
      }
    }
  }

  lemma PlainState(a: Option<Audit>, op: Op)
    requires Plain(op) && Apply(a, op).Ok?
    ensures Apply(a, op).value.state.Completed? <==> a.Some? && a.value.state.Completed?
  {
  }

  lemma PlainProc(st: State, op: Op, u: State, b: Audit, p: nat)
    requires Inv(st) && Follows(st.audit, b) && p in st.procs && Plain(op) && Apply(st.audit, op) == Ok(b)
    requires u == st.(audit := Some(b), versions := st.versions + {b})
    ensures PcOk(u, p, st.procs[p])
  {
    PcKept(st, u, b, p, st.procs[p]);
  }

  /** The store after a write that neither enters, records nor completes. */
  lemma PlainStored(st: State, op: Op, u: State)
    requires Inv(st) && Plain(op) && Apply(st.audit, op).Ok?
    requires var b := Apply(st.audit, op).value;
             u == st.(audit := Some(b), versions := st.versions + {b})
    ensures Inv(u)
  {
    var b := Apply(st.audit, op).value;
    PlainFollows(st, op);
    VersionsKept(st, u, b);
    PlainEntering(st, op, u);
    PlainState(st.audit, op);
    CompletionKept(st, u, b);
    forall p | p in u.procs ensures PcOk(u, p, u.procs[p]) {
      PlainProc(st, op, u, b, p);
    }
  }

  // ---- the finalizer's own steps ----

  lemma MovedKeeps(st: State, p: nat, pc: PC)
    requires Inv(st) && p in st.procs && PcOk(st, p, pc)
    ensures Inv(st.(procs := st.procs[p := pc]))
  {
    var u := st.(procs := st.procs[p := pc]);
    forall v | v in u.versions ensures VersionOk(u, v) { assert VersionOk(st, v); }
    forall q | q in u.procs ensures PcOk(u, q, u.procs[q]) {
      assert q != p ==> PcOk(st, q, st.procs[q]);
    }
  }

  lemma RetryOk(st: State, p: nat, a: Audit)
    requires Inv(st) && a in st.versions
    ensures PcOk(st, p, Retry(a))
  {
    assert VersionOk(st, a);
  }

  lemma SawKeeps(st: State, p: nat, a: Audit)
    requires Inv(st) && p in st.procs && a in st.versions
    ensures Inv(st.(procs := st.procs[p := AfterSaw(st.procs[p], a)]))
  {
    RetryOk(st, p, a);
    MovedKeeps(st, p, AfterSaw(st.procs[p], a));
  }

  lemma ListedKeeps(st: State, p: nat, runs: seq<Runs.RunRecord>, keys: seq<string>)
    requires Inv(st) && p in st.procs
    ensures Inv(st.(procs := st.procs[p := AfterListed(st, st.procs[p], runs, keys)]))
  {
    MovedKeeps(st, p, AfterListed(st, st.procs[p], runs, keys));
  }

  lemma EnterFollows(a: Option<Audit>, expected: LState)
    requires Apply(a, Transition(expected, Finalizing, "finalization_trigger", HANDLER)).Ok?
    ensures var b := Apply(a, Transition(expected, Finalizing, "finalization_trigger", HANDLER)).value;
            Follows(a, b) && a.Some? && b.state.Finalizing? && b.finalization == a.value.finalization
            && (a.value.state.Scheduled? || a.value.state.Running?)
  {
  }

  /** Nobody else is about to record or to trigger when an audit is entered. */
  lemma EnterOthers(st: State, u: State, b: Audit, q: nat)
    requires Inv(st) && q in st.procs && Follows(st.audit, b) && st.audit.Some?
    requires st.audit.value.state.Scheduled? || st.audit.value.state.Running?
    requires u.audit == Some(b) && u.client == st.client && u.auditId == st.auditId && b.finalization == st.audit.value.finalization
    requires u.completion == st.completion && u.intents == st.intents
    ensures PcOk(u, q, st.procs[q])
  {
    assert PcOk(st, q, st.procs[q]);
    if !Forced(b.history) {
      UnforcedBefore(st, b);
      assert !st.procs[q].Record?;
    }
    PcKept(st, u, b, q, st.procs[q]);
  }

  lemma EnterEntering(st: State, u: State, b: Audit, p: nat, n: nat)
    requires Inv(st) && Follows(st.audit, b) && st.audit.Some? && b.state.Finalizing?
    requires st.audit.value.state.Scheduled? || st.audit.value.state.Running?
    requires b.finalization == st.audit.value.finalization && u.audit == Some(b) && u.entered == Some(Entering(p, n))
    ensures EnteringOk(u)
    ensures !Forced(b.history) ==> b.finalization.None?
  {
    if !Forced(b.history) {
      UnforcedBefore(st, b);
    }
  }

  lemma EnterStored(st: State, p: nat, a: Audit, u: State)
    requires Inv(st) && p in st.procs && st.procs[p] == Enter(a)
    requires var r := Apply(st.audit, OpOf(Enter(a)).value);
             && r.Ok?
             && u == st.(audit := Some(r.value), versions := st.versions + {r.value}, entered := Some(Entering(p, CountOf(a))),
                         procs := st.procs[p := Stopped])
    ensures Inv(u)
    ensures PcOk(u, p, Record(a, CountOf(a)))
  {
    var b := Apply(st.audit, OpOf(Enter(a)).value).value;
    EnterFollows(st.audit, a.state);
    VersionsKept(st, u, b);
    CompletionKept(st, u, b);
    EnterEntering(st, u, b, p, CountOf(a));
    forall q | q in u.procs ensures PcOk(u, q, u.procs[q]) {
      if q != p {
        EnterOthers(st, u, b, q);
      }
    }
  }

  lemma RecordStored(st: State, p: nat, a: Audit, n: nat, u: State)
    requires Inv(st) && p in st.procs && st.procs[p] == Record(a, n)
    requires var b := st.audit.value.(finalization := Some(Finalization(n, n == 0)));
             u == st.(audit := Some(b), versions := st.versions + {b}, procs := st.procs[p := Stopped])
    ensures Inv(u)
    ensures n > 0 ==> PcOk(u, p, CheckGate(a, n, false))
  {
    var b := st.audit.value.(finalization := Some(Finalization(n, n == 0)));
    VersionsKept(st, u, b);
    CompletionKept(st, u, b);
    forall q | q in u.procs ensures PcOk(u, q, u.procs[q]) {
      if q != p {
        assert PcOk(st, q, st.procs[q]);
        PcKept(st, u, b, q, st.procs[q]);
      }
    }
  }

  lemma CompleteStored(st: State, p: nat, n: nat, retry: bool, i: Gate.Input, u: State)
    requires Inv(st) && p in st.procs && st.procs[p] == Complete(n, retry, i)
    requires var r := Apply(st.audit, OpOf(Complete(n, retry, i)).value);
             && r.Ok?
             && u == st.(audit := Some(r.value), versions := st.versions + {r.value},
                         completion := Some(Completion(p, n, retry, i)), procs := st.procs[p := Stopped])
    ensures Inv(u)
    ensures PcOk(u, p, PutIntent)
  {
    var b := Apply(st.audit, OpOf(Complete(n, retry, i)).value).value;
    assert st.completion.None?;
    assert b.history[|b.history| - 1].to.Completed? && b.history[|b.history| - 1].actor == HANDLER;
    VersionsKept(st, u, b);
    if !Forced(b.history) {
      UnforcedBefore(st, b);
    }
    forall q | q in u.procs ensures PcOk(u, q, u.procs[q]) {
      if q != p {
        assert PcOk(st, q, st.procs[q]);
        PcKept(st, u, b, q, st.procs[q]);
      }
    }
  }

  lemma IntentStored(st: State, p: nat, job: string, next: PC)
    requires Inv(st) && p in st.procs && st.procs[p].PutIntent? && job !in st.intents && (next.Stopped? || next.Done?)
    ensures Inv(st.(intents := st.intents[job := p], procs := st.procs[p := next]))
  {
    var u := st.(intents := st.intents[job := p], procs := st.procs[p := next]);
    assert PcOk(st, p, st.procs[p]);
    forall v | v in u.versions ensures VersionOk(u, v) { assert VersionOk(st, v); }
    forall q | q in u.procs ensures PcOk(u, q, u.procs[q]) {
      assert PcOk(st, q, st.procs[q]);
    }
  }

  lemma WriteKeeps(st: State, p: nat, job: string, lost: bool)
    requires Inv(st) && p in st.procs
    ensures Inv(WriteStep(st, p, job, lost))
  {
    if st.procs[p].PutIntent? {
      IntentKeeps(st, p, job, lost);
    } else if OpOf(st.procs[p]).Some? {
      AuditWriteKeeps(st, p, lost);
    }
  }

  lemma IntentKeeps(st: State, p: nat, job: string, lost: bool)
    requires Inv(st) && p in st.procs && st.procs[p].PutIntent?
    ensures Inv(WriteStep(st, p, job, lost))
  {
    if job in st.intents {
      MovedKeeps(st, p, Stopped);
    } else {
      IntentStored(st, p, job, if lost then Stopped else Done);
    }
  }

  /** After an audit write that went through, the finalizer may move on or be lost. */
  lemma Landed(st: State, p: nat)
    requires Inv(st) && p in st.procs && OpOf(st.procs[p]).Some?
    requires Apply(st.audit, OpOf(st.procs[p]).value).Ok?
    ensures var op := OpOf(st.procs[p]).value;
            var u := Written(st, op, Some(p)).(procs := st.procs[p := Stopped]);
            Inv(u) && PcOk(u, p, AfterWrite(st.procs[p], Apply(st.audit, op)))
  {
    var pc := st.procs[p];
    var op := OpOf(pc).value;
    var u := Written(st, op, Some(p)).(procs := st.procs[p := Stopped]);
    assert PcOk(st, p, pc);
    match pc {
      case Enter(a) => EnterStored(st, p, a, u);
      case Record(a, n) => RecordStored(st, p, a, n, u);
      case Complete(n, retry, i) => CompleteStored(st, p, n, retry, i, u);
      case _ => PlainLanded(st, p, u);
    }
  }

  lemma PlainLanded(st: State, p: nat, u: State)
    requires Inv(st) && p in st.procs && OpOf(st.procs[p]).Some? && Plain(OpOf(st.procs[p]).value)
    requires var r := Apply(st.audit, OpOf(st.procs[p]).value);
             && r.Ok?
             && u == st.(audit := Some(r.value), versions := st.versions + {r.value}, procs := st.procs[p := Stopped])
    ensures Inv(u)
  {
    var op := OpOf(st.procs[p]).value;
    var b := Apply(st.audit, op).value;
    var w := st.(audit := Some(b), versions := st.versions + {b});
    PlainStored(st, op, w);
    MovedKeeps(w, p, Stopped);
  }

  lemma AuditWriteKeeps(st: State, p: nat, lost: bool)
    requires Inv(st) && p in st.procs && OpOf(st.procs[p]).Some?
    ensures Inv(WriteStep(st, p, "", lost))
  {
    var pc := st.procs[p];
    var op := OpOf(pc).value;
    var r := Apply(st.audit, op);
    var next := if lost then Stopped else AfterWrite(pc, r);
    if r.Err? {
      MovedKeeps(st, p, next);
    } else {
      Landed(st, p);
      var u := Written(st, op, Some(p)).(procs := st.procs[p := Stopped]);
      MovedKeeps(u, p, next);
      assert u.procs[p := next] == st.procs[p := next];
    }
  }

  lemma StepKeepsInv(st: State, act: Action)
    requires Inv(st)
    ensures Inv(Next(st, act))
  {
    match act
    case Env(op) =>
      if External(op) && Apply(st.audit, op).Ok? {
        PlainStored(st, op, Written(st, op, None));
      }
    case Finalizer(p, answer) =>
      if p in st.procs {
        match answer
        case Saw(a) => if a in st.versions { SawKeeps(st, p, a); }
        case Listed(runs, keys) => ListedKeeps(st, p, runs, keys);
        case Ack(job, lost) => WriteKeeps(st, p, job, lost);
        case Error => MovedKeeps(st, p, Stopped);
      }
  }

  lemma {:induction false} Reachable(st: State, acts: seq<Action>)
    requires Initial(st)
    ensures Inv(Exec(st, acts))
    decreases |acts|
  {
    if acts != [] {
      Reachable(st, acts[..|acts| - 1]);
      StepKeepsInv(Exec(st, acts[..|acts| - 1]), acts[|acts| - 1]);
    }
  }

  // ---- what the rest of the platform may rely on ----

  /** At most one aggregation intent is ever recorded for an audit, and only for one that is
      COMPLETED. */
  lemma AtMostOneIntent(st: State, acts: seq<Action>, j: string, k: string)
    requires Initial(st) && j in Exec(st, acts).intents && k in Exec(st, acts).intents
    ensures j == k
    ensures Exec(st, acts).audit.Some? && Exec(st, acts).audit.value.state.Completed?
  {
    Reachable(st, acts);
  }

  /** An audit never force-recreated is COMPLETED only with a positive count on record, the
      one its completing finalizer used, after a gate that passed. */
  lemma CompletedMeansRecorded(st: State, acts: seq<Action>)
    requires Initial(st)
    requires Exec(st, acts).audit.Some? && Exec(st, acts).audit.value.state.Completed?
    ensures var u := Exec(st, acts);
            && u.completion.Some? && Gate.Passes(u.completion.value.input)
            && u.completion.value.count > 0
            && u.completion.value.input.client == st.client && u.completion.value.input.audit == st.auditId
            && HandlerCompleted(u.audit.value.history)
            && (!u.completion.value.retry ==> u.completion.value.input.counter == Some(u.completion.value.count))
            && (!Forced(u.audit.value.history) ==>
                  u.audit.value.finalization == Some(Finalization(u.completion.value.count, false)))
  {
    Reachable(st, acts);
    NamesFixed(st, acts);
  }

  lemma {:induction false} NamesFixed(st: State, acts: seq<Action>)
    ensures Exec(st, acts).client == st.client && Exec(st, acts).auditId == st.auditId
    decreases |acts|
  {
    if acts != [] {
      NamesFixed(st, acts[..|acts| - 1]);
    }
  }
}
