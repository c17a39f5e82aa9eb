/** Any number of run invocations, some with the same run id, writing run records and
    evidence objects: created STARTED once, evidence written once, then COMPLETED or FAILED. */
module RunProtocol {
  import opened Wrappers
  import opened RunRecords
  import opened LatencySummary
  import RunExecution

  datatype RunRef = RunRef(client: string, audit: string, run: string)

  /** One endpoint result as the aggregation stage reads it back. */
  datatype EndpointResult = EndpointResult(
    endpointId: string, timestamp: Option<string>, time: Option<int>, duration: Sample, statusCode: Option<int>,
    failureType: string)

  datatype Evidence = Evidence(version: string, client: string, audit: string, run: string, results: seq<EndpointResult>)

  datatype Rec = Rec(status: RunStatus, rawKey: Option<string>)

  datatype PC =
    | HeadEvidence
    | ReadRecord
    | PutStarted
    | Execute
    | HeadAgain(results: seq<EndpointResult>)
    | PutEvidence(results: seq<EndpointResult>)
    | MarkCompleted
    | MarkFailed
    | Done

  datatype Proc = Proc(ref: RunRef, pc: PC)

  /** `creators` and `puts` are history: which invocation created a record, and the evidence
      keys in the order they were written. */
  datatype State = State(
    records: map<RunRef, Rec>, evidence: map<string, Evidence>, procs: map<nat, Proc>,
    creators: map<RunRef, nat>, puts: seq<string>)

  /** `missed` is a stale read that does not see a record; `lost` a write that took effect
      but reported an error. */
  datatype Answer = Ack(lost: bool) | Seen(missed: bool) | Ran(results: seq<EndpointResult>) | Error

  function KeyOf(r: RunRef): string {
    EvidenceKey(r.client, r.audit, r.run)
  }

  predicate ValidRef(r: RunRef) {
    SlashFree(r.client) && SlashFree(r.audit) && SlashFree(r.run)
  }

  function EvidenceOf(r: RunRef, results: seq<EndpointResult>): Evidence {
    Evidence(RAW_RESULT_VERSION, r.client, r.audit, r.run, results)
  }

  function Goto(st: State, p: nat, pc: PC): State
    requires p in st.procs
  {
    st.(procs := st.procs[p := st.procs[p].(pc := pc)])
  }

  // ---- steps ----

  /** object_exists, before anything is written: a hit ends the invocation. */
  function HeadStep(st: State, p: nat): State
    requires p in st.procs
  {
    Goto(st, p, if KeyOf(st.procs[p].ref) in st.evidence then Done else ReadRecord)
  }

  function ReadStep(st: State, p: nat, missed: bool): State
    requires p in st.procs
  {
    Goto(st, p, if st.procs[p].ref in st.records && !missed then Done else PutStarted)
  }

  /** put_started_once: the loser goes on to the failure path like any other error, because
      its own started item is already set. */
  function StartStep(st: State, p: nat, lost: bool): State
    requires p in st.procs
  {
    var ref := st.procs[p].ref;
    if ref in st.records then Goto(st, p, MarkFailed)
    else
      Goto(st.(records := st.records[ref := Rec(Started, None)], creators := st.creators[ref := p]), p,
           if lost then MarkFailed else Execute)
  }

  function HeadAgainStep(st: State, p: nat, results: seq<EndpointResult>): State
    requires p in st.procs
  {
    Goto(st, p, if KeyOf(st.procs[p].ref) in st.evidence then MarkFailed else PutEvidence(results))
  }

  function PutStep(st: State, p: nat, results: seq<EndpointResult>, lost: bool): State
    requires p in st.procs
  {
    var ref := st.procs[p].ref;
    Goto(st.(evidence := st.evidence[KeyOf(ref) := EvidenceOf(ref, results)], puts := st.puts + [KeyOf(ref)]), p,
         if lost then MarkFailed else MarkCompleted)
  }

  function CompleteStep(st: State, p: nat, lost: bool): State
    requires p in st.procs
  {
    var ref := st.procs[p].ref;
    if ref !in st.records then Goto(st, p, MarkFailed)
    else
      Goto(st.(records := st.records[ref := Rec(Completed, Some(KeyOf(ref)))]), p, if lost then MarkFailed else Done)
  }

  /** Errors of this last update are swallowed; the stored evidence key is left as it is. */
  function FailStep(st: State, p: nat): State
    requires p in st.procs
  {
    var ref := st.procs[p].ref;
    if ref !in st.records then Goto(st, p, Done)
    else Goto(st.(records := st.records[ref := st.records[ref].(status := Failed)]), p, Done)
  }

  /** An error before the started item exists ends the invocation; later ones lead to the
      failure update. */
  function ErrorStep(st: State, p: nat): State
    requires p in st.procs
  {
    match st.procs[p].pc
    case HeadEvidence => Goto(st, p, Done)
    case ReadRecord => Goto(st, p, Done)
    case MarkFailed => Goto(st, p, Done)
    case Done => st
    case _ => Goto(st, p, MarkFailed)
  }

  /** An execution that raises nothing hands over at least one result; see ExecutionHandsOver. */
  function Next(st: State, p: nat, a: Answer): State {
    if p !in st.procs then st
    else
      match (st.procs[p].pc, a)
      case (_, Error) => ErrorStep(st, p)
      case (HeadEvidence, Ack(_)) => HeadStep(st, p)
      case (ReadRecord, Seen(missed)) => ReadStep(st, p, missed)
      case (PutStarted, Ack(lost)) => StartStep(st, p, lost)
      case (Execute, Ran(results)) => if results == [] then st else Goto(st, p, HeadAgain(results))
      case (HeadAgain(results), Ack(_)) => HeadAgainStep(st, p, results)
      case (PutEvidence(results), Ack(lost)) => PutStep(st, p, results, lost)
      case (MarkCompleted, Ack(lost)) => CompleteStep(st, p, lost)
      case (MarkFailed, Ack(_)) => FailStep(st, p)
      case _ => st
  }

  function Exec(st: State, steps: seq<(nat, Answer)>): State
    decreases |steps|
  {
    if steps == [] then st
    else
      var last := steps[|steps| - 1];
      Next(Exec(st, steps[..|steps| - 1]), last.0, last.1)
  }

  ghost predicate Initial(st: State) {
    && st.records == map[] && st.evidence == map[] && st.creators == map[] && st.puts == []
    && forall p :: p in st.procs ==> st.procs[p].pc.HeadEvidence? && ValidRef(st.procs[p].ref)
  }

  // ---- the invariant ----

  /** Points only the creator of the record reaches. */
  predicate Inside(pc: PC) {
    pc.Execute? || pc.HeadAgain? || pc.PutEvidence? || pc.MarkCompleted?
  }

  ghost predicate ProcOk(st: State, p: nat, c: Proc) {
    && ValidRef(c.ref)
    && (Inside(c.pc) ==> c.ref in st.creators && st.creators[c.ref] == p)
    && (c.pc.Execute? || c.pc.HeadAgain? || c.pc.PutEvidence? ==> KeyOf(c.ref) !in st.evidence)
    && (c.pc.HeadAgain? || c.pc.PutEvidence? ==> c.pc.results != [])
    && (c.pc.MarkCompleted? ==> KeyOf(c.ref) in st.evidence)
  }

  /** An evidence object is at its own key, names its own run, has results, and has a record. */
  ghost predicate EvidenceOk(st: State, key: string)
    requires key in st.evidence
  {
    var e := st.evidence[key];
    var ref := RunRef(e.client, e.audit, e.run);
    && key == KeyOf(ref) && ValidRef(ref) && ref in st.records
    && e.version == RAW_RESULT_VERSION && e.results != []
  }

  ghost predicate RecordOk(st: State, ref: RunRef)
    requires ref in st.records
  {
    && ValidRef(ref)
    && (st.records[ref].status.Completed? ==> st.records[ref].rawKey.Some?)
    && (st.records[ref].rawKey.Some? ==> st.records[ref].rawKey.value == KeyOf(ref) && KeyOf(ref) in st.evidence)
  }

  ghost predicate PutsOk(st: State) {
    && (forall i :: 0 <= i < |st.puts| ==> st.puts[i] in st.evidence)
    && (forall i, j :: 0 <= i < j < |st.puts| ==> st.puts[i] != st.puts[j])
  }

  ghost predicate Inv(st: State) {
    && (forall p :: p in st.procs ==> ProcOk(st, p, st.procs[p]))
    && (forall key :: key in st.evidence ==> EvidenceOk(st, key))
    && (forall ref :: ref in st.records ==> RecordOk(st, ref))
    && (forall ref :: ref in st.creators <==> ref in st.records)
    && PutsOk(st)
  }

  lemma GotoKeeps(st: State, p: nat, pc: PC)
    requires Inv(st) && p in st.procs && ProcOk(st, p, st.procs[p].(pc := pc))
    ensures Inv(Goto(st, p, pc))
  {
    var u := Goto(st, p, pc);
    forall q | q in u.procs ensures ProcOk(u, q, u.procs[q]) {
      assert q != p ==> ProcOk(st, q, st.procs[q]);
    }
    forall key | key in u.evidence ensures EvidenceOk(u, key) { assert EvidenceOk(st, key); }
    forall ref | ref in u.records ensures RecordOk(u, ref) { assert RecordOk(st, ref); }
  }

  lemma StartKeeps(st: State, p: nat, lost: bool)
    requires Inv(st) && p in st.procs && st.procs[p].pc.PutStarted?
    ensures Inv(StartStep(st, p, lost))
  {
    var ref := st.procs[p].ref;
    assert ProcOk(st, p, st.procs[p]);
    if ref in st.records {
      GotoKeeps(st, p, MarkFailed);
    } else {
      var u := st.(records := st.records[ref := Rec(Started, None)], creators := st.creators[ref := p]);
      NoEvidenceYet(st, ref);
      forall q | q in u.procs ensures ProcOk(u, q, u.procs[q]) { assert ProcOk(st, q, st.procs[q]); }
      forall key | key in u.evidence ensures EvidenceOk(u, key) { assert EvidenceOk(st, key); }
      forall r | r in u.records ensures RecordOk(u, r) { assert r != ref ==> RecordOk(st, r); }
      GotoKeeps(u, p, if lost then MarkFailed else Execute);
    }
  }

  /** Without a record there is no evidence. */
  lemma NoEvidenceYet(st: State, ref: RunRef)
    requires Inv(st) && ValidRef(ref) && ref !in st.records
    ensures KeyOf(ref) !in st.evidence
  {
    if KeyOf(ref) in st.evidence {
      assert EvidenceOk(st, KeyOf(ref));
      var e := st.evidence[KeyOf(ref)];
      EvidenceKeyInjective(ref.client, ref.audit, ref.run, e.client, e.audit, e.run);
    }
  }

  lemma PutKeeps(st: State, p: nat, results: seq<EndpointResult>, lost: bool)
    requires Inv(st) && p in st.procs && st.procs[p].pc == PutEvidence(results)
    ensures Inv(PutStep(st, p, results, lost))
  {
    var ref := st.procs[p].ref;
    var key := KeyOf(ref);
    assert ProcOk(st, p, st.procs[p]);
    var pc := if lost then MarkFailed else MarkCompleted;
    var u := PutStep(st, p, results, lost);
    forall q | q in u.procs ensures ProcOk(u, q, u.procs[q]) {
      if q != p {
        assert ProcOk(st, q, st.procs[q]);
        var other := st.procs[q].ref;
        EvidenceKeyInjective(other.client, other.audit, other.run, ref.client, ref.audit, ref.run);
      }
    }
    forall k | k in u.evidence ensures EvidenceOk(u, k) { assert k != key ==> EvidenceOk(st, k); }
    forall r | r in u.records ensures RecordOk(u, r) { assert RecordOk(st, r); }
    assert key !in st.evidence;
  }

  lemma RecordKeeps(st: State, ref: RunRef, rec: Rec)
    requires Inv(st) && ref in st.records
    requires rec.rawKey.Some? ==> rec.rawKey.value == KeyOf(ref) && KeyOf(ref) in st.evidence
    requires rec.status.Completed? ==> rec.rawKey.Some?
    ensures Inv(st.(records := st.records[ref := rec]))
  {
    var u := st.(records := st.records[ref := rec]);
    assert RecordOk(st, ref);
    forall q | q in u.procs ensures ProcOk(u, q, u.procs[q]) { assert ProcOk(st, q, st.procs[q]); }
    forall k | k in u.evidence ensures EvidenceOk(u, k) { assert EvidenceOk(st, k); }
    forall r | r in u.records ensures RecordOk(u, r) { assert RecordOk(st, r); }
  }

  lemma MarkKeeps(st: State, p: nat, lost: bool)
    requires Inv(st) && p in st.procs && (st.procs[p].pc.MarkCompleted? || st.procs[p].pc.MarkFailed?)
    ensures Inv(if st.procs[p].pc.MarkCompleted? then CompleteStep(st, p, lost) else FailStep(st, p))
  {
    var ref := st.procs[p].ref;
    assert ProcOk(st, p, st.procs[p]);
    if ref !in st.records {
      GotoKeeps(st, p, if st.procs[p].pc.MarkCompleted? then MarkFailed else Done);
    } else {
      assert RecordOk(st, ref);
      var rec := if st.procs[p].pc.MarkCompleted? then Rec(Completed, Some(KeyOf(ref))) else st.records[ref].(status := Failed);
      RecordKeeps(st, ref, rec);
      var u := st.(records := st.records[ref := rec]);
      assert ProcOk(u, p, u.procs[p]);
      GotoKeeps(u, p, if st.procs[p].pc.MarkCompleted? && lost then MarkFailed else Done);
    }
  }

  lemma StepKeepsInv(st: State, p: nat, a: Answer)
    requires Inv(st)
    ensures Inv(Next(st, p, a))
  {
    if p in st.procs {
      assert ProcOk(st, p, st.procs[p]);
      match (st.procs[p].pc, a)
      case (Done, Error) =>
      case (HeadEvidence, Error) => GotoKeeps(st, p, Done);
      case (ReadRecord, Error) => GotoKeeps(st, p, Done);
      case (MarkFailed, Error) => GotoKeeps(st, p, Done);
      case (_, Error) => GotoKeeps(st, p, MarkFailed);
      case (HeadEvidence, Ack(_)) => GotoKeeps(st, p, if KeyOf(st.procs[p].ref) in st.evidence then Done else ReadRecord);
      case (ReadRecord, Seen(missed)) =>
        GotoKeeps(st, p, if st.procs[p].ref in st.records && !missed then Done else PutStarted);
      case (PutStarted, Ack(lost)) => StartKeeps(st, p, lost);
      case (Execute, Ran(results)) => if results != [] { GotoKeeps(st, p, HeadAgain(results)); }
      case (HeadAgain(results), Ack(_)) =>
        GotoKeeps(st, p, if KeyOf(st.procs[p].ref) in st.evidence then MarkFailed else PutEvidence(results));
      case (PutEvidence(results), Ack(lost)) => PutKeeps(st, p, results, lost);
      case (MarkCompleted, Ack(lost)) => MarkKeeps(st, p, lost);
      case (MarkFailed, Ack(lost)) => MarkKeeps(st, p, lost);
      case _ =>
    }
  }

  lemma {:induction false} Reachable(st: State, steps: seq<(nat, Answer)>)
    requires Initial(st)
    ensures Inv(Exec(st, steps))
    decreases |steps|
  {
    if steps != [] {
      Reachable(st, steps[..|steps| - 1]);
      StepKeepsInv(Exec(st, steps[..|steps| - 1]), steps[|steps| - 1].0, steps[|steps| - 1].1);
    }
  }

  // ---- what the later stages rely on ----

  /** A COMPLETED run has its evidence stored at its own key, naming its client, audit and
      run, and never empty. */
  lemma {:induction false} CompletedHasEvidence(st: State, steps: seq<(nat, Answer)>, ref: RunRef)
    requires Initial(st)
    requires ref in Exec(st, steps).records && Exec(st, steps).records[ref].status.Completed?
    ensures var u := Exec(st, steps);
            && u.records[ref].rawKey == Some(KeyOf(ref)) && KeyOf(ref) in u.evidence
            && u.evidence[KeyOf(ref)] == EvidenceOf(ref, u.evidence[KeyOf(ref)].results)
            && u.evidence[KeyOf(ref)].results != []
  {
    Reachable(st, steps);
    CompletedHasEvidenceIn(Exec(st, steps), ref);
  }

  lemma CompletedHasEvidenceIn(u: State, ref: RunRef)
    requires Inv(u) && ref in u.records && u.records[ref].status.Completed?
    ensures u.records[ref].rawKey == Some(KeyOf(ref)) && KeyOf(ref) in u.evidence
    ensures u.evidence[KeyOf(ref)] == EvidenceOf(ref, u.evidence[KeyOf(ref)].results)
    ensures u.evidence[KeyOf(ref)].results != []
  {
    assert RecordOk(u, ref);
    assert EvidenceOk(u, KeyOf(ref));
    var e := u.evidence[KeyOf(ref)];
    EvidenceKeyInjective(ref.client, ref.audit, ref.run, e.client, e.audit, e.run);
  }

  /** Every evidence object belongs to a recorded run. */
  lemma {:induction false} EvidenceHasRecord(st: State, steps: seq<(nat, Answer)>, key: string)
    requires Initial(st) && key in Exec(st, steps).evidence
    ensures var e := Exec(st, steps).evidence[key];
            var ref := RunRef(e.client, e.audit, e.run);
            key == KeyOf(ref) && ref in Exec(st, steps).records
  {
    Reachable(st, steps);
    assert EvidenceOk(Exec(st, steps), key);
  }

  /** No evidence key is written twice, so no evidence object is ever replaced. */
  lemma {:induction false} EvidenceWrittenOnce(st: State, steps: seq<(nat, Answer)>, i: nat, j: nat)
    requires Initial(st) && i < j < |Exec(st, steps).puts|
    ensures Exec(st, steps).puts[i] != Exec(st, steps).puts[j]
  {
    Reachable(st, steps);
  }

  lemma EvidenceKept(st: State, p: nat, a: Answer, key: string)
    requires Inv(st) && key in st.evidence
    ensures key in Next(st, p, a).evidence && Next(st, p, a).evidence[key] == st.evidence[key]
  {
    if p in st.procs {
      assert ProcOk(st, p, st.procs[p]);
    }
  }

  /** Run status is not monotone: an invocation that is refused by the conditional create
      marks the winner's COMPLETED record FAILED. The evidence stays. */
  lemma LoserMarksWinnerFailed(st: State, p: nat)
    requires Inv(st) && p in st.procs && st.procs[p].pc.PutStarted?
    requires st.procs[p].ref in st.records && st.records[st.procs[p].ref].status.Completed?
    ensures var u := Next(Next(st, p, Ack(false)), p, Ack(false));
            && u.records[st.procs[p].ref].status.Failed?
            && KeyOf(st.procs[p].ref) in u.evidence && u.evidence == st.evidence
  {
    assert RecordOk(st, st.procs[p].ref);
  }

  /** A COMPLETED record changes exactly by the failure update of an invocation of the same
      run id, the one that completed it or another. */
  lemma LeavingCompleted(st: State, p: nat, a: Answer, ref: RunRef)
    requires Inv(st) && ref in st.records && st.records[ref].status.Completed?
    ensures ref in Next(st, p, a).records
    ensures Next(st, p, a).records[ref] != st.records[ref] <==>
            p in st.procs && st.procs[p] == Proc(ref, MarkFailed) && a.Ack?
  {
    assert RecordOk(st, ref);
  }

  // ---- exactly when a COMPLETED record becomes FAILED ----

  /** Answers that send an invocation to its failure update: the create is refused, or it or a
      later call raises, with or without effect. */
  predicate Trouble(st: State, p: nat, a: Answer) {
    p in st.procs &&
    match (st.procs[p].pc, a)
    case (PutStarted, Ack(lost)) => lost || st.procs[p].ref in st.records
    case (PutEvidence(_), Ack(lost)) => lost
    case (MarkCompleted, Ack(lost)) => lost
    case (PutStarted, Error) => true
    case (Execute, Error) => true
    case (HeadAgain(_), Error) => true
    case (PutEvidence(_), Error) => true
    case (MarkCompleted, Error) => true
    case _ => false
  }

  /** Whether p has run into trouble and its next call, the failure update, has not been
      answered yet. */
  predicate Pending(start: State, steps: seq<(nat, Answer)>, p: nat)
    decreases |steps|
  {
    steps != [] &&
    var init, last := steps[..|steps| - 1], steps[|steps| - 1];
    if last.0 != p then Pending(start, init, p)
    else Trouble(Exec(start, init), p, last.1) || (Pending(start, init, p) && !last.1.Ack? && !last.1.Error?)
  }

  /** A step moves one invocation and leaves its run and all others as they are. */
  predicate Moved(st: State, u: State, p: nat)
    requires p in st.procs
  {
    p in u.procs && u.procs == st.procs[p := Proc(st.procs[p].ref, u.procs[p].pc)]
  }

  lemma ErrorMoves(st: State, p: nat)
    requires p in st.procs
    ensures Moved(st, ErrorStep(st, p), p)
    ensures ErrorStep(st, p).procs[p].pc.MarkFailed? <==> Trouble(st, p, Error)
  {
  }

  lemma EarlyMoves(st: State, p: nat, a: Answer)
    requires p in st.procs && !a.Error?
    requires st.procs[p].pc.HeadEvidence? || st.procs[p].pc.ReadRecord? || st.procs[p].pc.PutStarted? || st.procs[p].pc.Execute?
    ensures Moved(st, Next(st, p, a), p)
    ensures Next(st, p, a).procs[p].pc.MarkFailed? <==> Trouble(st, p, a)
  {
    match (st.procs[p].pc, a)
    case (HeadEvidence, Ack(_)) =>
    case (ReadRecord, Seen(_)) =>
    case (PutStarted, Ack(_)) =>
    case (Execute, Ran(_)) =>
    case _ =>
  }

  lemma LateMoves(st: State, p: nat, a: Answer)
    requires Inv(st) && p in st.procs && !a.Error?
    requires st.procs[p].pc.HeadAgain? || st.procs[p].pc.PutEvidence?
    ensures Moved(st, Next(st, p, a), p)
    ensures Next(st, p, a).procs[p].pc.MarkFailed? <==> Trouble(st, p, a)
  {
    assert ProcOk(st, p, st.procs[p]);
    match (st.procs[p].pc, a)
    case (HeadAgain(_), Ack(_)) =>
    case (PutEvidence(_), Ack(_)) =>
    case _ =>
  }

  lemma EndMoves(st: State, p: nat, a: Answer)
    requires Inv(st) && p in st.procs && !a.Error?
    requires st.procs[p].pc.MarkCompleted? || st.procs[p].pc.MarkFailed? || st.procs[p].pc.Done?
    ensures Moved(st, Next(st, p, a), p)
    ensures Next(st, p, a).procs[p].pc.MarkFailed? <==> Trouble(st, p, a) || (st.procs[p].pc.MarkFailed? && !a.Ack?)
  {
    assert ProcOk(st, p, st.procs[p]);
    match (st.procs[p].pc, a)
    case (MarkCompleted, Ack(_)) =>
    case (MarkFailed, Ack(_)) =>
    case _ =>
  }

  lemma StepMoves(st: State, p: nat, a: Answer)
    requires Inv(st) && p in st.procs
    ensures Moved(st, Next(st, p, a), p)
    ensures Next(st, p, a).procs[p].pc.MarkFailed? <==>
            Trouble(st, p, a) || (st.procs[p].pc.MarkFailed? && !a.Ack? && !a.Error?)
  {
    var pc := st.procs[p].pc;
    if a.Error? {
      ErrorMoves(st, p);
    } else if pc.HeadAgain? || pc.PutEvidence? {
      LateMoves(st, p, a);
    } else if pc.MarkCompleted? || pc.MarkFailed? || pc.Done? {
      EndMoves(st, p, a);
    } else {
      EarlyMoves(st, p, a);
    }
  }

  lemma {:induction false} PendingIff(start: State, steps: seq<(nat, Answer)>, p: nat)
    requires Initial(start) && p in start.procs
    ensures p in Exec(start, steps).procs
    ensures Pending(start, steps, p) <==> Exec(start, steps).procs[p].pc.MarkFailed?
    decreases |steps|
  {
    if steps != [] {
      var init, last := steps[..|steps| - 1], steps[|steps| - 1];
      PendingIff(start, init, p);
      Reachable(start, init);
      if last.0 in Exec(start, init).procs {
        StepMoves(Exec(start, init), last.0, last.1);
      }
    }
  }

  predicate IsCompleted(st: State, ref: RunRef) {
    ref in st.records && st.records[ref].status.Completed?
  }

  /** At some step the record goes from COMPLETED to FAILED. */
  predicate EverDowngraded(start: State, steps: seq<(nat, Answer)>, ref: RunRef)
    decreases |steps|
  {
    steps != [] &&
    var init := steps[..|steps| - 1];
    || EverDowngraded(start, init, ref)
    || (IsCompleted(Exec(start, init), ref) && ref in Exec(start, steps).records && Exec(start, steps).records[ref].status.Failed?)
  }

  /** At some step an invocation of the run that is in trouble has its failure update
      acknowledged, while the record is COMPLETED. */
  predicate EverFailsLate(start: State, steps: seq<(nat, Answer)>, ref: RunRef)
    decreases |steps|
  {
    steps != [] &&
    var init, last := steps[..|steps| - 1], steps[|steps| - 1];
    || EverFailsLate(start, init, ref)
    || (&& IsCompleted(Exec(start, init), ref) && last.1.Ack?
        && last.0 in start.procs && start.procs[last.0].ref == ref && Pending(start, init, last.0))
  }

  lemma {:induction false} RefsFixed(start: State, steps: seq<(nat, Answer)>)
    requires Initial(start)
    ensures Exec(start, steps).procs.Keys == start.procs.Keys
    ensures forall p :: p in start.procs ==> Exec(start, steps).procs[p].ref == start.procs[p].ref
    decreases |steps|
  {
    if steps != [] {
      var init, last := steps[..|steps| - 1], steps[|steps| - 1];
      RefsFixed(start, init);
      Reachable(start, init);
      if last.0 in start.procs {
        StepMoves(Exec(start, init), last.0, last.1);
      }
    }
  }

  lemma DowngradeStep(st: State, p: nat, a: Answer, ref: RunRef)
    requires Inv(st) && IsCompleted(st, ref)
    ensures ref in Next(st, p, a).records
    ensures Next(st, p, a).records[ref].status.Failed? <==> p in st.procs && st.procs[p] == Proc(ref, MarkFailed) && a.Ack?
  {
    LeavingCompleted(st, p, a, ref);
  }

  /** Over whole runs: a COMPLETED record ever becomes FAILED exactly when an invocation of that
      run, refused by the create or answered with a raising call after it, has its failure
      update acknowledged while the record is COMPLETED. */
  lemma {:induction false} DowngradedIff(start: State, steps: seq<(nat, Answer)>, ref: RunRef)
    requires Initial(start)
    ensures EverDowngraded(start, steps, ref) <==> EverFailsLate(start, steps, ref)
    decreases |steps|
  {
    if steps != [] {
      var init, last := steps[..|steps| - 1], steps[|steps| - 1];
      DowngradedIff(start, init, ref);
      if IsCompleted(Exec(start, init), ref) {
        Reachable(start, init);
        RefsFixed(start, init);
        if last.0 in start.procs {
          PendingIff(start, init, last.0);
        }
        DowngradeStep(Exec(start, init), last.0, last.1, ref);
      }
    }
  }

  // ---- the results an execution hands over ----

  function Read(raw: seq<RunExecution.RawResult>, read: RunExecution.RawResult -> EndpointResult): seq<EndpointResult> {
    seq(|raw|, i requires 0 <= i < |raw| => read(raw[i]))
  }

  /** Whatever the runner returns over a validated configuration, its results take an
      executing invocation on to the evidence. A burst has as many results as requests. */
  lemma ExecutionHandsOver(
    st: State, p: nat, iterations: seq<nat>, es: seq<RunExecution.Endpoint>, runner: RunExecution.Runner,
    read: RunExecution.RawResult -> EndpointResult)
    requires p in st.procs && st.procs[p].pc.Execute?
    requires iterations != [] && es != [] && es[0].payloadIterations >= 1
    requires RunExecution.Results(RunExecution.Plan(iterations, es), es, runner).Some?
    ensures var results := Read(RunExecution.Results(RunExecution.Plan(iterations, es), es, runner).value, read);
            Next(st, p, Ran(results)) == Goto(st, p, HeadAgain(results))
  {
    RunExecution.FinishedRunHasResults(iterations, es, runner);
  }

  // ---- a run of the protocol that ends so ----

  /** Two invocations of one run. */
  function Twice(ref: RunRef): State {
    State(map[], map[], map[0 := Proc(ref, HeadEvidence), 1 := Proc(ref, HeadEvidence)], map[], [])
  }

  ghost predicate ReachedFrom(start: State, st: State) {
    exists steps :: Exec(start, steps) == st
  }

  lemma ReachedStep(start: State, st: State, p: nat, a: Answer) returns (u: State)
    requires ReachedFrom(start, st)
    ensures u == Next(st, p, a) && ReachedFrom(start, u)
  {
    u := Next(st, p, a);
    var steps :| Exec(start, steps) == st;
    assert (steps + [(p, a)])[..|steps|] == steps;
    assert Exec(start, steps + [(p, a)]) == u;
  }

  /** Both invocations find neither evidence nor a record. */
  lemma BothPastReads(ref: RunRef) returns (st: State)
    ensures ReachedFrom(Twice(ref), st)
    ensures st == Twice(ref).(procs := map[0 := Proc(ref, PutStarted), 1 := Proc(ref, PutStarted)])
  {
    assert Exec(Twice(ref), []) == Twice(ref);
    st := ReachedStep(Twice(ref), Twice(ref), 0, Ack(false));
    st := ReachedStep(Twice(ref), st, 1, Ack(false));
    st := ReachedStep(Twice(ref), st, 0, Seen(false));
    st := ReachedStep(Twice(ref), st, 1, Seen(false));
  }

  /** The first invocation has created the record and is at pc. */
  function Winning(ref: RunRef, pc: PC): State {
    State(map[ref := Rec(Started, None)], map[], map[0 := Proc(ref, pc), 1 := Proc(ref, PutStarted)], map[ref := 0], [])
  }

  lemma FirstExecutes(ref: RunRef, results: seq<EndpointResult>) returns (st: State)
    requires results != []
    ensures ReachedFrom(Twice(ref), st) && st == Winning(ref, PutEvidence(results))
  {
    st := BothPastReads(ref);
    st := ReachedStep(Twice(ref), st, 0, Ack(false));
    assert st == Winning(ref, Execute);
    st := ReachedStep(Twice(ref), st, 0, Ran(results));
    assert st == Winning(ref, HeadAgain(results));
    st := ReachedStep(Twice(ref), st, 0, Ack(false));
  }

  /** The first one creates the record, stores its evidence and completes. */
  lemma FirstCompletes(ref: RunRef, results: seq<EndpointResult>) returns (st: State)
    requires results != []
    ensures ReachedFrom(Twice(ref), st) && st.procs == map[0 := Proc(ref, Done), 1 := Proc(ref, PutStarted)]
    ensures ref in st.records && st.records[ref].status.Completed?
  {
    st := FirstExecutes(ref, results);
    st := ReachedStep(Twice(ref), st, 0, Ack(false));
    st := ReachedStep(Twice(ref), st, 0, Ack(false));
  }

  /** Whatever run is invoked twice: both invocations may pass their reads before the first
      creates the record, and then the second marks it FAILED after the first has completed
      it, evidence and all. */
  lemma CompletedRunMarkedFailed(ref: RunRef, results: seq<EndpointResult>) returns (before: State, after: State)
    requires ValidRef(ref) && results != []
    ensures Initial(Twice(ref)) && ReachedFrom(Twice(ref), before) && ReachedFrom(Twice(ref), after)
    ensures ref in before.records && before.records[ref].status.Completed?
    ensures ref in after.records && after.records[ref].status.Failed?
    ensures KeyOf(ref) in after.evidence && after.evidence == before.evidence
    ensures forall p :: p in after.procs ==> after.procs[p].pc.Done?
  {
    before := FirstCompletes(ref, results);
    var steps :| Exec(Twice(ref), steps) == before;
    Reachable(Twice(ref), steps);
    LoserMarksWinnerFailed(before, 1);
    after := ReachedStep(Twice(ref), before, 1, Ack(false));
    after := ReachedStep(Twice(ref), after, 1, Ack(false));
  }

  // ---- and one by a single invocation ----

  function Once(ref: RunRef): State {
    State(map[], map[], map[0 := Proc(ref, HeadEvidence)], map[], [])
  }

  function Alone(ref: RunRef, pc: PC): State {
    State(map[ref := Rec(Started, None)], map[], map[0 := Proc(ref, pc)], map[ref := 0], [])
  }

  lemma StoresEvidence(ref: RunRef, results: seq<EndpointResult>) returns (st: State)
    requires results != []
    ensures ReachedFrom(Once(ref), st) && st == Alone(ref, PutEvidence(results))
  {
    assert Exec(Once(ref), []) == Once(ref);
    st := ReachedStep(Once(ref), Once(ref), 0, Ack(false));
    st := ReachedStep(Once(ref), st, 0, Seen(false));
    st := ReachedStep(Once(ref), st, 0, Ack(false));
    assert st == Alone(ref, Execute);
    st := ReachedStep(Once(ref), st, 0, Ran(results));
    assert st == Alone(ref, HeadAgain(results));
    st := ReachedStep(Once(ref), st, 0, Ack(false));
  }

  /** Nobody else is needed: the completing update of a run takes effect and raises, and the
      invocation marks its own COMPLETED record FAILED. */
  lemma RunMarksItselfFailed(ref: RunRef, results: seq<EndpointResult>) returns (before: State, after: State)
    requires ValidRef(ref) && results != []
    ensures Initial(Once(ref)) && ReachedFrom(Once(ref), before) && ReachedFrom(Once(ref), after)
    ensures IsCompleted(before, ref) && before.procs == map[0 := Proc(ref, MarkFailed)]
    ensures ref in after.records && after.records[ref].status.Failed? && after.procs == map[0 := Proc(ref, Done)]
    ensures KeyOf(ref) in after.evidence
  {
    before := StoresEvidence(ref, results);
    before := ReachedStep(Once(ref), before, 0, Ack(false));
    before := ReachedStep(Once(ref), before, 0, Ack(true));
    after := ReachedStep(Once(ref), before, 0, Ack(false));
  }
}
