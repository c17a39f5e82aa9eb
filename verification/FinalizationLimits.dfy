/** What the finalization protocol does not give, and exactly when. */
module FinalizationLimits {
  import opened Wrappers
  import opened Lifecycle
  import opened FinalizationProtocol
  import opened FinalizationSafety
  import Gate = FinalizationGate
  import Runs = RunRecords
  import Text

  // ---- a trigger lost after COMPLETED is never made up for ----

  predicate NobodyTriggers(st: State) {
    && st.audit.Some? && st.audit.value.state.Completed?
    && forall p :: p in st.procs ==> !st.procs[p].PutIntent?
  }

  lemma CompletedStays(a: Option<Audit>, op: Op)
    requires a.Some? && a.value.state.Completed?
    ensures After(a, op).Some? && After(a, op).value.state.Completed?
    ensures op.Transition? ==> Apply(a, op).Err?
  {
  }

  lemma WriteUntriggered(st: State, p: nat, job: string, lost: bool)
    requires NobodyTriggers(st) && p in st.procs
    ensures NobodyTriggers(WriteStep(st, p, job, lost)) && WriteStep(st, p, job, lost).intents == st.intents
  {
    assert !st.procs[p].PutIntent?;
    if OpOf(st.procs[p]).Some? {
      CompletedStays(st.audit, OpOf(st.procs[p]).value);
    }
  }

  lemma StaysUntriggered(st: State, act: Action)
    requires NobodyTriggers(st)
    ensures NobodyTriggers(Next(st, act)) && Next(st, act).intents == st.intents
  {
    match act
    case Env(op) => CompletedStays(st.audit, op);
    case Finalizer(p, answer) =>
      if p in st.procs && answer.Ack? {
        WriteUntriggered(st, p, answer.job, answer.lost);
      }
  }

  /** Once an audit is COMPLETED and no finalizer is about to record the intent, for instance
      because the one that completed it was killed in between, none is ever recorded again. */
  lemma {:induction false} LostTriggerIsFinal(start: State, before: seq<Action>, after: seq<Action>)
    requires NobodyTriggers(Exec(start, before))
    ensures NobodyTriggers(Exec(start, before + after))
    ensures Exec(start, before + after).intents == Exec(start, before).intents
    decreases |after|
  {
    if after == [] {
      assert before + after == before;
    } else {
      var init, last := after[..|after| - 1], after[|after| - 1];
      LostTriggerIsFinal(start, before, init);
      assert (before + after)[..|before + after| - 1] == before + init;
      StaysUntriggered(Exec(start, before + init), last);
    }
  }

  predicate AtIntent(st: State, p: nat) {
    p in st.procs && st.procs[p].PutIntent?
  }

  ghost predicate CanStillTrigger(start: State, before: seq<Action>) {
    exists after :: Exec(start, before + after).intents != Exec(start, before).intents
  }

  lemma PendingTriggers(start: State, before: seq<Action>, p: nat)
    requires Inv(Exec(start, before)) && AtIntent(Exec(start, before), p)
    ensures CanStillTrigger(start, before)
  {
    var st, act := Exec(start, before), Finalizer(p, Ack("job", false));
    assert PcOk(st, p, PutIntent);
    assert (before + [act])[..|before|] == before;
    assert Exec(start, before + [act]) == WriteStep(st, p, "job", false);
    assert "job" in Exec(start, before + [act]).intents;
  }

  /** On a COMPLETED audit an intent can still appear exactly when the finalizer that completed
      it is about to record one. */
  lemma IntentIffPending(start: State, before: seq<Action>)
    requires Initial(start)
    requires Exec(start, before).audit.Some? && Exec(start, before).audit.value.state.Completed?
    ensures Exec(start, before).completion.Some?
    ensures CanStillTrigger(start, before) <==> AtIntent(Exec(start, before), Exec(start, before).completion.value.p)
  {
    var st := Exec(start, before);
    Reachable(start, before);
    var p := st.completion.value.p;
    if AtIntent(st, p) {
      PendingTriggers(start, before, p);
    } else {
      forall q | q in st.procs ensures !st.procs[q].PutIntent? {
        assert PcOk(st, q, st.procs[q]);
      }
      forall after ensures Exec(start, before + after).intents == st.intents {
        LostTriggerIsFinal(start, before, after);
      }
    }
  }

  // ---- the recorded count of a COMPLETED audit ----

  /** The count a step records on the audit, if it records one. */
  function Recording(st: State, act: Action): Option<nat> {
    match act
    case Finalizer(p, Ack(_, _)) =>
      if p in st.procs && st.procs[p].Record? && st.audit.Some? then Some(st.procs[p].count) else None
    case _ => None
  }

  /** What a COMPLETED audit has recorded changes exactly when a finalizer that entered
      earlier records another count. */
  lemma CompletedRecordChanges(st: State, act: Action)
    requires st.audit.Some? && st.audit.value.state.Completed?
    ensures Next(st, act).audit.Some?
    ensures Next(st, act).audit.value.finalization != st.audit.value.finalization <==>
            var r := Recording(st, act);
            r.Some? && st.audit.value.finalization != Some(Finalization(r.value, r.value == 0))
  {
  }

  /** Beside a COMPLETED audit there is such a finalizer only if the audit was force-recreated. */
  lemma LateRecorderMeansForced(st: State, p: nat)
    requires Inv(st) && st.audit.Some? && st.audit.value.state.Completed?
    requires p in st.procs && st.procs[p].Record?
    ensures Forced(st.audit.value.history)
  {
    assert PcOk(st, p, st.procs[p]);
  }

  /** The count recorded last, by any finalizer. */
  function LastRecording(start: State, acts: seq<Action>): Option<nat>
    decreases |acts|
  {
    if acts == [] then None
    else
      var init := acts[..|acts| - 1];
      var r := Recording(Exec(start, init), acts[|acts| - 1]);
      if r.Some? then r else LastRecording(start, init)
  }

  function RecordedOn(a: Option<Audit>): Option<Finalization> {
    if a.Some? then a.value.finalization else None
  }

  function OfCount(r: Option<nat>): Option<Finalization> {
    match r
    case Some(n) => Some(Finalization(n, n == 0))
    case None => None
  }

  lemma AuditAfter(st: State, act: Action)
    ensures var op := match act
                      case Env(op) => if External(op) then Some(op) else None
                      case Finalizer(p, Ack(_, _)) => if p in st.procs then OpOf(st.procs[p]) else None
                      case _ => None;
            Next(st, act).audit == if op.Some? then After(st.audit, op.value) else st.audit
  {
  }

  lemma StepRecords(st: State, act: Action)
    ensures st.audit.Some? ==> Next(st, act).audit.Some?
    ensures Recording(st, act).Some? ==> st.audit.Some?
    ensures var r := Recording(st, act);
            RecordedOn(Next(st, act).audit) == if r.Some? then OfCount(r) else RecordedOn(st.audit)
  {
    AuditAfter(st, act);
  }

  lemma {:induction false} RecordedLast(start: State, acts: seq<Action>)
    requires Initial(start)
    ensures RecordedOn(Exec(start, acts).audit) == OfCount(LastRecording(start, acts))
    decreases |acts|
  {
    if acts != [] {
      var init := acts[..|acts| - 1];
      RecordedLast(start, init);
      StepRecords(Exec(start, init), acts[|acts| - 1]);
    }
  }

  // ---- a COMPLETED audit has something recorded ----

  predicate RecordedNeeded(pc: PC) {
    pc.CheckGate? || pc.Complete? || pc.FailZero?
  }

  /** Whatever presupposes a recorded count has one. */
  ghost predicate RecordedFirst(st: State) {
    RecordedOn(st.audit).Some? ||
    (&& (forall v :: v in st.versions ==> v.finalization.None?)
     && (forall p :: p in st.procs ==> !RecordedNeeded(st.procs[p]))
     && (st.audit.Some? ==> !st.audit.value.state.Completed?))
  }

  lemma StepRecordsFirst(st: State, act: Action)
    requires RecordedFirst(st)
    ensures RecordedFirst(Next(st, act))
  {
    StepRecords(st, act);
    if RecordedOn(Next(st, act).audit).None? {
      AuditAfter(st, act);
    }
  }

  lemma {:induction false} ReachableRecorded(start: State, acts: seq<Action>)
    requires Initial(start)
    ensures RecordedFirst(Exec(start, acts))
    decreases |acts|
  {
    if acts != [] {
      ReachableRecorded(start, acts[..|acts| - 1]);
      StepRecordsFirst(Exec(start, acts[..|acts| - 1]), acts[|acts| - 1]);
    }
  }

  /** A COMPLETED audit has a count on record, the one recorded last. It is zero exactly when
      the finalizer that recorded last had counted none; and then the audit was
      force-recreated. */
  lemma CompletedOnZeroIff(start: State, acts: seq<Action>)
    requires Initial(start)
    requires Exec(start, acts).audit.Some? && Exec(start, acts).audit.value.state.Completed?
    ensures var a := Exec(start, acts).audit.value;
            && a.finalization.Some? && LastRecording(start, acts) == Some(a.finalization.value.count)
            && (a.finalization.value.zero <==> LastRecording(start, acts) == Some(0))
            && (a.finalization.value.zero ==> Forced(a.history))
  {
    Reachable(start, acts);
    RecordedLast(start, acts);
    ReachableRecorded(start, acts);
  }

  // ---- a run in which force-recreate breaks the link ----

  function Start(): State {
    State("c", "a", None, {}, map[0 := Read, 1 := Read, 2 := Read], map[], None, None)
  }

  ghost predicate Reached(st: State) {
    exists acts :: Exec(Start(), acts) == st
  }

  lemma ReachedStep(st: State, act: Action)
    requires Reached(st)
    ensures Reached(Next(st, act))
  {
    var acts :| Exec(Start(), acts) == st;
    assert (acts + [act])[..|acts|] == acts;
    assert Exec(Start(), acts + [act]) == Next(st, act);
  }

  /** The parts of a state the run below depends on. */
  ghost predicate Is(st: State, a: Audit, m: map<nat, PC>) {
    && Reached(st)
    && st.client == "c" && st.auditId == "a" && st.audit == Some(a) && a in st.versions && st.procs == m
    && st.intents == map[]
  }

  lemma EnvStep(st: State, a: Audit, m: map<nat, PC>, op: Op, b: Audit) returns (u: State)
    requires Is(st, a, m) && External(op) && Apply(Some(a), op) == Ok(b)
    ensures Is(u, b, m)
  {
    u := Next(st, Env(op));
    ReachedStep(st, Env(op));
  }

  lemma SawStep(st: State, a: Audit, m: map<nat, PC>, p: nat) returns (u: State)
    requires Is(st, a, m) && p in m && m[p].Read?
    ensures Is(u, a, m[p := AfterSaw(Read, a)])
  {
    u := Next(st, Finalizer(p, Saw(a)));
    ReachedStep(st, Finalizer(p, Saw(a)));
  }

  lemma ListedStep(st: State, a: Audit, m: map<nat, PC>, p: nat, runs: seq<Runs.RunRecord>, keys: seq<string>, q: PC)
    returns (u: State)
    requires Is(st, a, m) && p in m && AfterListed(st, m[p], runs, keys) == q
    ensures Is(u, a, m[p := q])
  {
    u := Next(st, Finalizer(p, Listed(runs, keys)));
    ReachedStep(st, Finalizer(p, Listed(runs, keys)));
  }

  lemma WrittenStep(st: State, a: Audit, m: map<nat, PC>, p: nat, op: Op, b: Audit) returns (u: State)
    requires Is(st, a, m) && p in m && OpOf(m[p]) == Some(op) && Apply(Some(a), op) == Ok(b)
    ensures Is(u, b, m[p := AfterWrite(m[p], Ok(b))])
  {
    u := Next(st, Finalizer(p, Ack("", false)));
    ReachedStep(st, Finalizer(p, Ack("", false)));
    WrittenBy(st, op, p, b);
  }

  lemma WrittenBy(st: State, op: Op, p: nat, b: Audit)
    requires Apply(st.audit, op) == Ok(b)
    ensures var u := Written(st, op, Some(p));
            u.client == st.client && u.auditId == st.auditId && u.audit == Some(b) && b in u.versions && u.procs == st.procs
            && u.intents == st.intents
  {
  }

  function Once(): Runs.RunRecord {
    Runs.RunRecord("r", Runs.Completed, Some("v1"), Some(Runs.EvidenceKey("c", "a", "r")))
  }

  function Moved(from_: LState, to: LState, reason: string, actor: string): Entry {
    Entry(From(from_), to, reason, actor)
  }

  function Life(): seq<Entry> {
    [Moved(Draft, Scheduled, "", ""), Moved(Scheduled, Finalizing, "finalization_trigger", HANDLER)]
  }

  function FirstLife(): seq<Entry> {
    Life() + [Moved(Finalizing, LState.Failed, "evidence_integrity_gate_failure", HANDLER), ForcedEntry()]
  }

  lemma EmptyGateFails(count: nat, counter: Option<int>)
    requires count > 0
    ensures !Gate.Passes(Gate.Input("c", "a", count, counter, [], []))
  {
    Gate.PassesIff(Gate.Input("c", "a", count, counter, [], []));
  }

  lemma OneRunPasses()
    ensures Gate.Passes(OneRun())
  {
    Gate.PassesIff(OneRun());
    OneRunSingle();
    NamesOne();
  }

  lemma NamesOne()
    ensures Runs.SlashFree("c") && Runs.SlashFree("a") && Runs.SlashFree("r")
    ensures Gate.RunIdsOf([Runs.EvidenceKey("c", "a", "r")])[0] == "r"
  {
    Runs.ExtractRoundTrip("c", "a", "r");
  }

  lemma OneRunSingle()
    ensures Gate.Single([Once()], "r") && Gate.NoneStarted([Once()])
  {
    assert [Once()][..0] == [];
    assert Runs.Matching([Once()], "r") == [Once()];
  }

  function Enters(a: Audit): Op {
    Transition(a.state, Finalizing, "finalization_trigger", HANDLER)
  }

  function Completes(): Op {
    Transition(Finalizing, LState.Completed, "finalization_retry_completed", HANDLER)
  }

  lemma ScheduledFirst(n: nat) returns (st: State, m: map<nat, PC>)
    ensures Is(st, Audit(Scheduled, Life()[..1], Some(n), None), m) && m == map[0 := Read, 1 := Read, 2 := Read]
  {
    m := map[0 := Read, 1 := Read, 2 := Read];
    var a0 := Audit(Draft, [], Some(n), None);
    var s1 := Next(Start(), Env(Create(Some(n))));
    assert Exec(Start(), []) == Start();
    assert [] + [Moved(Draft, Scheduled, "", "")] == Life()[..1];
    ReachedStep(Start(), Env(Create(Some(n))));
    st := EnvStep(s1, a0, m, Transition(Draft, Scheduled, "", ""), Audit(Scheduled, Life()[..1], Some(n), None));
  }

  /** A first finalizer counts one run, enters, records the count, and fails the gate because
      it finds no runs; the audit is then recreated by force. */
  lemma FirstLifeEnds() returns (st: State, m: map<nat, PC>)
    ensures Is(st, Audit(Draft, FirstLife(), Some(1), Some(Finalization(1, false))), m)
    ensures 1 in m && m[1] == Read && 2 in m && m[2] == Read
  {
    var a1 := Audit(Scheduled, Life()[..1], Some(1), None);
    var a2 := Audit(Finalizing, Life(), Some(1), None);
    var a3 := a2.(finalization := Some(Finalization(1, false)));
    st, m := ScheduledFirst(1);
    st := SawStep(st, a1, m, 0);
    m := m[0 := Enter(a1)];
    assert Life()[..1] + [Life()[1]] == Life();
    st := WrittenStep(st, a1, m, 0, Enters(a1), a2);
    m := m[0 := Record(a1, 1)];
    st := WrittenStep(st, a2, m, 0, RecordFinalization(Finalization(1, false)), a3);
    m := m[0 := CheckGate(a1, 1, false)];
    st, m := GateFails(st, a3, a1, m);
    st, m := FailsAndReturns(st, a3, m);
  }

  lemma GateFails(st: State, a3: Audit, a1: Audit, m: map<nat, PC>) returns (u: State, n: map<nat, PC>)
    requires Is(st, a3, m) && 0 in m && m[0] == CheckGate(a1, 1, false) && a1.completed == Some(1)
    ensures n == m[0 := FailGate] && Is(u, a3, n)
  {
    EmptyGateFails(1, Some(1));
    assert GateInput(st.client, st.auditId, a1, 1, [], []) == Gate.Input("c", "a", 1, Some(1), [], []);
    n := m[0 := FailGate];
    u := ListedStep(st, a3, m, 0, [], [], FailGate);
  }

  lemma FailsAndReturns(st: State, a3: Audit, m: map<nat, PC>) returns (u: State, n: map<nat, PC>)
    requires a3 == Audit(Finalizing, Life(), Some(1), Some(Finalization(1, false)))
    requires Is(st, a3, m) && 0 in m && m[0] == FailGate
    ensures n == m[0 := Done] && Is(u, a3.(state := Draft, history := FirstLife()), n)
  {
    assert Life() + [FirstLife()[2]] == FirstLife()[..3];
    assert FirstLife()[..3] + [ForcedEntry()] == FirstLife();
    var a4 := a3.(state := LState.Failed, history := FirstLife()[..3]);
    n := m[0 := Done];
    u := WrittenStep(st, a3, m, 0, Transition(Finalizing, LState.Failed, "evidence_integrity_gate_failure", HANDLER), a4);
    u := EnvStep(u, a4, n, ForceRecreate, a4.(state := Draft, history := FirstLife()));
  }

  function SecondAudit(): Audit {
    Audit(Scheduled, FirstLife() + [Moved(Draft, Scheduled, "", "")], Some(0), Some(Finalization(1, false)))
  }

  function Entered(): Audit {
    SecondAudit().(state := Finalizing, completed := Some(1),
                   history := SecondAudit().history + [Moved(Scheduled, Finalizing, "finalization_trigger", HANDLER)])
  }

  /** The second life up to a finalizer that has entered with a count of zero. */
  lemma SecondLifeEnters() returns (st: State, m: map<nat, PC>)
    ensures Is(st, Entered(), m) && 1 in m && m[1] == Record(SecondAudit(), 0) && 2 in m && m[2] == Read
  {
    st, m := FirstLifeEnds();
    var a := Audit(Draft, FirstLife(), Some(1), Some(Finalization(1, false)));
    st, m := SecondLifeStarts(st, a, m);
    var c := SecondAudit();
    st := SawStep(st, c, m, 1);
    m := m[1 := Enter(c)];
    var d := Entered().(completed := Some(0));
    st := WrittenStep(st, c, m, 1, Enters(c), d);
    m := m[1 := Record(c, 0)];
    st := EnvStep(st, d, m, SetCounters(Some(1)), Entered());
  }

  lemma SecondLifeStarts(st: State, a: Audit, m: map<nat, PC>) returns (u: State, n: map<nat, PC>)
    requires a == Audit(Draft, FirstLife(), Some(1), Some(Finalization(1, false))) && Is(st, a, m)
    ensures Is(u, SecondAudit(), n) && n == m
  {
    n := m;
    var b := a.(completed := Some(0));
    u := EnvStep(st, a, m, SetCounters(Some(0)), b);
    u := EnvStep(u, b, m, Transition(Draft, Scheduled, "", ""), SecondAudit());
  }

  /** In the second life a finalizer enters with a count of zero and pauses before recording
      it; a redelivered event finds the count of the first life and completes the audit; then
      the first one records its zero. */
  lemma ForcedAuditCompletesOnZero() returns (st: State)
    ensures Reached(st) && Initial(Start())
    ensures st.audit.Some? && st.audit.value.state.Completed?
    ensures st.audit.value.finalization == Some(Finalization(0, true))
  {
    var m: map<nat, PC>;
    st, m := SecondLifeEnters();
    st := CompletesThenRecords(st, Entered(), SecondAudit(), m);
  }

  lemma CompletesThenRecords(st: State, e: Audit, c: Audit, m: map<nat, PC>) returns (u: State)
    requires Is(st, e, m) && 1 in m && m[1] == Record(c, 0) && 2 in m && m[2] == Read
    requires e.state.Finalizing? && e.completed == Some(1) && e.finalization == Some(Finalization(1, false))
    ensures Reached(u) && u.audit == Some(Completing(e).(finalization := Some(Finalization(0, true))))
  {
    var i := GateOpens(st, e);
    u := ThenRecords(st, e, c, m, i.runs, i.keys, i);
  }

  lemma ThenRecords(st: State, e: Audit, c: Audit, m: map<nat, PC>, runs: seq<Runs.RunRecord>, keys: seq<string>, i: Gate.Input)
    returns (u: State)
    requires Is(st, e, m) && 1 in m && m[1] == Record(c, 0) && 2 in m && m[2] == Read
    requires e.state.Finalizing? && e.completed == Some(1) && e.finalization == Some(Finalization(1, false))
    requires GateInput(st.client, st.auditId, e, 1, runs, keys) == i && Gate.Passes(i)
    ensures Reached(u) && u.audit == Some(Completing(e).(finalization := Some(Finalization(0, true))))
  {
    var n: map<nat, PC>;
    u, n := SecondFinalizer(st, e, m, runs, keys, i);
    u := WrittenStep(u, Completing(e), n, 1, RecordFinalization(Finalization(0, true)),
                     Completing(e).(finalization := Some(Finalization(0, true))));
  }

  lemma SecondFinalizer(st: State, e: Audit, m: map<nat, PC>, runs: seq<Runs.RunRecord>, keys: seq<string>, i: Gate.Input)
    returns (u: State, n: map<nat, PC>)
    requires Is(st, e, m) && 2 in m && m[2] == Read
    requires e.state.Finalizing? && e.completed == Some(1) && e.finalization == Some(Finalization(1, false))
    requires GateInput(st.client, st.auditId, e, 1, runs, keys) == i && Gate.Passes(i)
    ensures Is(u, Completing(e), n) && n == m[2 := PutIntent]
  {
    u := SawStep(st, e, m, 2);
    n := m[2 := CheckGate(e, 1, true)];
    assert AfterSaw(Read, e) == CheckGate(e, 1, true);
    Opens(u, e, 1, true, runs, keys, i);
    u := ListedStep(u, e, n, 2, runs, keys, Complete(1, true, i));
    n := n[2 := Complete(1, true, i)];
    u := WrittenStep(u, e, n, 2, Completes(), Completing(e));
    assert n[2 := PutIntent] == m[2 := PutIntent];
    n := m[2 := PutIntent];
  }

  function Completing(e: Audit): Audit {
    e.(state := LState.Completed,
       history := e.history + [Moved(Finalizing, LState.Completed, "finalization_retry_completed", HANDLER)])
  }

  function OneRun(): Gate.Input {
    Gate.Input("c", "a", 1, Some(1), [Once()], [Runs.EvidenceKey("c", "a", "r")])
  }

  lemma Opens(u: State, a: Audit, n: nat, retry: bool, runs: seq<Runs.RunRecord>, keys: seq<string>, i: Gate.Input)
    requires i == GateInput(u.client, u.auditId, a, n, runs, keys) && Gate.Passes(i)
    ensures AfterListed(u, CheckGate(a, n, retry), runs, keys) == Complete(n, retry, i)
  {
  }

  lemma InputIs(u: State, e: Audit)
    requires u.client == "c" && u.auditId == "a" && e.completed == Some(1)
    ensures GateInput(u.client, u.auditId, e, 1, [Once()], [Runs.EvidenceKey("c", "a", "r")]) == OneRun()
  {
    OneTerminal();
  }

  lemma GateOpens(u: State, e: Audit) returns (i: Gate.Input)
    requires u.client == "c" && u.auditId == "a" && e.completed == Some(1)
    ensures GateInput(u.client, u.auditId, e, 1, i.runs, i.keys) == i && Gate.Passes(i)
  {
    i := OneRun();
    InputIs(u, e);
    OneRunPasses();
  }

  lemma OneTerminal()
    ensures Runs.TerminalCount([Once()]) == 1
  {
    assert [Once()][..0] == [];
  }

  // ---- a run in which the trigger is lost ----

  lemma LostStep(st: State, a: Audit, m: map<nat, PC>, p: nat, op: Op, b: Audit) returns (u: State)
    requires Is(st, a, m) && p in m && OpOf(m[p]) == Some(op) && Apply(Some(a), op) == Ok(b)
    ensures Is(u, b, m[p := Stopped])
  {
    u := Next(st, Finalizer(p, Ack("", true)));
    ReachedStep(st, Finalizer(p, Ack("", true)));
    WrittenBy(st, op, p, b);
  }

  /** The first finalizer up to an opened gate. */
  lemma FirstFinalizerPasses(n: nat, i: Gate.Input) returns (st: State, e: Audit, m: map<nat, PC>)
    requires Gate.Passes(i) && i == Gate.Input("c", "a", n, Some(n), i.runs, i.keys) && n > 0
    ensures Is(st, e, m) && e == Audit(Finalizing, Life(), Some(n), Some(Finalization(n, false)))
    ensures m == map[0 := Complete(n, false, i), 1 := Read, 2 := Read]
  {
    var a1 := Audit(Scheduled, Life()[..1], Some(n), None);
    var a2 := Audit(Finalizing, Life(), Some(n), None);
    e := a2.(finalization := Some(Finalization(n, false)));
    st, m := ScheduledFirst(n);
    st := SawStep(st, a1, m, 0);
    m := m[0 := Enter(a1)];
    assert Life()[..1] + [Life()[1]] == Life();
    st := WrittenStep(st, a1, m, 0, Enters(a1), a2);
    m := m[0 := Record(a1, n)];
    st := WrittenStep(st, a2, m, 0, RecordFinalization(Finalization(n, false)), e);
    m := m[0 := CheckGate(a1, n, false)];
    st := GateListed(st, e, a1, m, n, i);
    m := m[0 := Complete(n, false, i)];
  }

  lemma GateListed(st: State, e: Audit, a1: Audit, m: map<nat, PC>, n: nat, i: Gate.Input) returns (u: State)
    requires Is(st, e, m) && 0 in m && m[0] == CheckGate(a1, n, false) && a1.completed == Some(n)
    requires Gate.Passes(i) && i == Gate.Input("c", "a", n, Some(n), i.runs, i.keys)
    ensures Is(u, e, m[0 := Complete(n, false, i)])
  {
    Gate.PassesIff(i);
    Gate.NoneStartedIff(i.runs);
    Opens(st, a1, n, false, i.runs, i.keys, i);
    u := ListedStep(st, e, m, 0, i.runs, i.keys, Complete(n, false, i));
  }

  function Closed(e: Audit): Audit {
    e.(state := LState.Completed,
       history := e.history + [Moved(Finalizing, LState.Completed, "finalization_completed", HANDLER)])
  }

  function Closes(): Op {
    Transition(Finalizing, LState.Completed, "finalization_completed", HANDLER)
  }

  lemma LostOn(n: nat, i: Gate.Input) returns (st: State)
    requires Gate.Passes(i) && i == Gate.Input("c", "a", n, Some(n), i.runs, i.keys) && n > 0
    ensures Reached(st) && NobodyTriggers(st) && st.intents == map[]
  {
    var e: Audit, m: map<nat, PC>;
    st, e, m := FirstFinalizerPasses(n, i);
    st := LostStep(st, e, m, 0, Closes(), Closed(e));
  }

  /** A finalizer completes the audit and is killed before it records the intent: the audit is
      COMPLETED, and whatever happens afterwards, no intent is ever recorded. */
  lemma TriggerLost() returns (acts: seq<Action>)
    ensures Initial(Start())
    ensures NobodyTriggers(Exec(Start(), acts))
    ensures forall after :: Exec(Start(), acts + after).intents == map[]
  {
    var i := OneRun();
    OneRunPasses();
    var st := LostOn(1, i);
    acts :| Exec(Start(), acts) == st;
    forall after ensures Exec(Start(), acts + after).intents == map[] {
      LostTriggerIsFinal(Start(), acts, after);
    }
  }

  // ---- a run that completes on what the gate was given ----

  lemma CompletingStep(st: State, e: Audit, m: map<nat, PC>, n: nat, i: Gate.Input) returns (u: State)
    requires Is(st, e, m) && e.state.Finalizing? && 0 in m && m[0] == Complete(n, false, i)
    ensures Reached(u) && u.audit == Some(Closed(e)) && u.completion == Some(Completion(0, n, false, i))
  {
    var act := Finalizer(0, Ack("", false));
    u := Next(st, act);
    ReachedStep(st, act);
    assert OpOf(m[0]) == Some(Closes()) && Apply(st.audit, Closes()) == Ok(Closed(e));
    assert u == Written(st, Closes(), Some(0)).(procs := st.procs[0 := PutIntent]);
  }

  /** A single finalizer on the direct path, with any gate input that passes. */
  lemma CompletesOn(n: nat, i: Gate.Input) returns (acts: seq<Action>)
    requires Gate.Passes(i) && i == Gate.Input("c", "a", n, Some(n), i.runs, i.keys) && n > 0
    ensures Initial(Start())
    ensures var end := Exec(Start(), acts);
            && end.audit == Some(Closed(Audit(Finalizing, Life(), Some(n), Some(Finalization(n, false)))))
            && end.completion == Some(Completion(0, n, false, i))
  {
    var st, e, m := FirstFinalizerPasses(n, i);
    st := CompletingStep(st, e, m, n, i);
    acts :| Exec(Start(), acts) == st;
  }
}
