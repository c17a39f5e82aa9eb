/** What becomes of a run whose own transaction went through, and of the record of its job. */
module AggregationVerdicts {
  import opened Wrappers
  import opened AggregationKeys
  import opened AggregateSet
  import opened AggregationRepository
  import opened AggregationCommit
  import opened AggregationSafety
  import opened AggregationGuarantees

  // ---- the steps of one run ----

  predicate Acts(st: State, act: Action, i: nat) {
    act.Run? && act.p == i && i in st.procs && Legal(st, st.procs[i], act.answer)
  }

  lemma StepOf(st: State, act: Action, i: nat)
    requires i in st.procs
    ensures i in Next(st, act).procs
    ensures Next(st, act).procs[i] == if Acts(st, act, i) then Advance(st, st.procs[i], act.answer) else st.procs[i]
  {
  }

  /** The transaction of run i takes effect, whether or not the call returns. */
  ghost predicate Commits(st: State, act: Action, i: nat) {
    && Acts(st, act, i) && st.procs[i].pc.Commit? && !Blocked(st.table, st.procs[i].pc.w)
    && (act.answer.Ack? || act.answer.ErrorAfter?)
  }

  predicate Succeeded(pc: PC) {
    (pc.Finish? || pc.Done?) && pc.verdict.status.Completed?
  }

  predicate Failing(pc: PC) {
    (pc.Finish? || pc.Done?) && pc.verdict.status.Failed?
  }

  /** A run that commits and does not get to know it, or does not get to say it: its
      transaction takes effect and raises, or the update with its verdict raises. */
  ghost predicate Unheard(st: State, act: Action, i: nat) {
    || (Commits(st, act, i) && act.answer.ErrorAfter?)
    || (Acts(st, act, i) && st.procs[i].pc.Finish? && Succeeded(st.procs[i].pc) && (act.answer.Error? || act.answer.ErrorAfter?))
  }

  ghost predicate EverCommits(start: State, actions: seq<Action>, i: nat)
    decreases |actions|
  {
    actions != [] &&
    var init := actions[..|actions| - 1];
    EverCommits(start, init, i) || Commits(Exec(start, init), actions[|actions| - 1], i)
  }

  ghost predicate EverUnheard(start: State, actions: seq<Action>, i: nat)
    decreases |actions|
  {
    actions != [] &&
    var init := actions[..|actions| - 1];
    EverUnheard(start, init, i) || Unheard(Exec(start, init), actions[|actions| - 1], i)
  }

  predicate FailsIn(st: State, i: nat) {
    i in st.procs && Failing(st.procs[i].pc)
  }

  /** Whether run i ever goes on to record FAILED. */
  ghost predicate EverFails(start: State, actions: seq<Action>, i: nat)
    decreases |actions|
  {
    FailsIn(Exec(start, actions), i) || (actions != [] && EverFails(start, actions[..|actions| - 1], i))
  }

  // ---- the job of a run that got past creating it is stored ----

  predicate Lost(pc: PC) {
    Failing(pc) || pc.Crashed?
  }

  predicate HasJob(t: Table, p: Proc) {
    p.pc.PutJob? || Lost(p.pc) || JobOf(p.event) in t
  }

  lemma JobCreated(st: State, p: Proc, a: Answer)
    requires p.pc.PutJob? && Legal(st, p, a)
    ensures HasJob(Affected(st, EffectOfStep(st, p, a)).table, Advance(st, p, a))
  {
  }

  lemma EventFixed(st: State, p: Proc, a: Answer)
    ensures Advance(st, p, a).event == p.event
  {
  }

  /** A run that has lost stays so; one that is at its verdict keeps it or loses it. */
  lemma LostStays(st: State, p: Proc, a: Answer)
    requires Lost(p.pc)
    ensures Lost(Advance(st, p, a).pc)
  {
  }

  lemma HasJobStep(st: State, act: Action, i: nat)
    requires Inv(st) && i in st.procs && HasJob(st.table, st.procs[i])
    ensures i in Next(st, act).procs && HasJob(Next(st, act).table, Next(st, act).procs[i])
  {
    StepOf(st, act, i);
    StepGrows(st, act);
    if Acts(st, act, i) {
      var p := st.procs[i];
      EventFixed(st, p, act.answer);
      if p.pc.PutJob? {
        JobCreated(st, p, act.answer);
      } else if Lost(p.pc) {
        LostStays(st, p, act.answer);
      }
    }
  }

  // ---- verdicts ----

  lemma SucceededStep(st: State, p: Proc, a: Answer)
    requires Legal(st, p, a) && Succeeded(p.pc) && JobOf(p.event) in st.table
    ensures var pc := Advance(st, p, a).pc;
            if p.pc.Finish? && (a.Error? || a.ErrorAfter?) then Failing(pc) else Succeeded(pc)
  {
  }

  lemma CommitStepOf(st: State, p: Proc, a: Answer)
    requires Legal(st, p, a) && p.pc.Commit? && !Blocked(st.table, p.pc.w)
    ensures var pc := Advance(st, p, a).pc;
            if a.Ack? then Succeeded(pc) else Failing(pc)
  {
  }

  /** No other step leads to a verdict of COMPLETED. */
  lemma OnlyByCommit(st: State, p: Proc, a: Answer)
    requires Legal(st, p, a) && !Succeeded(p.pc) && (p.pc.Commit? ==> Blocked(st.table, p.pc.w))
    ensures !Succeeded(Advance(st, p, a).pc)
  {
    match a
    case Ack => AckNotSucceeded(p, st.table);
    case Seen(item) => SeenNotSucceeded(p, item);
    case _ =>
  }

  lemma AckNotSucceeded(p: Proc, t: Table)
    requires !Succeeded(p.pc) && (p.pc.Commit? ==> Blocked(t, p.pc.w))
    ensures !Succeeded(AfterAck(p, t).pc)
  {
  }

  lemma SeenNotSucceeded(p: Proc, item: Option<Item>)
    requires !Succeeded(p.pc)
    ensures !Succeeded(AfterSeen(p, item).pc)
  {
  }

  /** How the history of a run and its program point belong together. */
  ghost predicate Told(commits: bool, unheard: bool, fails: bool, pc: PC) {
    && (unheard ==> commits && fails)
    && (fails && !commits ==> Lost(pc))
    && (commits && unheard ==> Lost(pc))
    && (commits && !unheard ==> Succeeded(pc) && !fails)
    && (!commits ==> !Succeeded(pc))
  }

  lemma ToldStep(st: State, act: Action, i: nat, commits: bool, unheard: bool, fails: bool)
    requires i in st.procs && HasJob(st.table, st.procs[i]) && Told(commits, unheard, fails, st.procs[i].pc)
    ensures i in Next(st, act).procs
    ensures var u := Next(st, act);
            Told(commits || Commits(st, act, i), unheard || Unheard(st, act, i), fails || FailsIn(u, i), u.procs[i].pc)
  {
    StepOf(st, act, i);
    if Acts(st, act, i) {
      var p, a := st.procs[i], act.answer;
      if Lost(p.pc) {
        LostStays(st, p, a);
      } else if Succeeded(p.pc) {
        SucceededStep(st, p, a);
      } else if p.pc.Commit? && !Blocked(st.table, p.pc.w) {
        CommitStepOf(st, p, a);
      } else {
        OnlyByCommit(st, p, a);
        if FailsIn(Next(st, act), i) {
          assert Lost(Next(st, act).procs[i].pc);
        }
      }
    }
  }

  lemma {:induction false} ToldAlong(start: State, actions: seq<Action>, i: nat)
    requires Initial(start) && i in start.procs
    ensures i in Exec(start, actions).procs && HasJob(Exec(start, actions).table, Exec(start, actions).procs[i])
    ensures Told(EverCommits(start, actions, i), EverUnheard(start, actions, i), EverFails(start, actions, i),
                 Exec(start, actions).procs[i].pc)
    decreases |actions|
  {
    if actions != [] {
      var init, last := actions[..|actions| - 1], actions[|actions| - 1];
      ToldAlong(start, init, i);
      Reachable(start, init);
      HasJobStep(Exec(start, init), last, i);
      ToldStep(Exec(start, init), last, i, EverCommits(start, init, i), EverUnheard(start, init, i), EverFails(start, init, i));
    }
  }

  /** Over whole runs: a run whose own transaction went through ever goes on to record FAILED
      exactly when that transaction was answered with an error, or the update with its verdict
      was. */
  lemma CommittedRunFailsIff(start: State, actions: seq<Action>, i: nat)
    requires Initial(start) && i in start.procs && EverCommits(start, actions, i)
    ensures EverFails(start, actions, i) <==> EverUnheard(start, actions, i)
  {
    ToldAlong(start, actions, i);
  }

  // ---- the record of a job ----

  /** The status a step stores for job k, if it stores one. */
  ghost function Stores(st: State, act: Action, k: RecordKey): Option<JobStatus> {
    match act
    case Trigger(client, audit, job, status) =>
      if Claimable(status) && k == JobKey(client, audit, job) then Some(status) else None
    case Run(i, answer) =>
      if Acts(st, act, i) && EffectOfStep(st, st.procs[i], answer).RecordJob? && EffectOfStep(st, st.procs[i], answer).key == k
      then Some(EffectOfStep(st, st.procs[i], answer).status) else None
  }

  lemma StoredStep(st: State, act: Action, k: RecordKey)
    requires Inv(st) && k.JobKey?
    ensures var u, s := Next(st, act).table, Stores(st, act, k);
            if s.Some? then k in u && u[k] == JobItem(s.value) else (k in u <==> k in st.table) && (k in u ==> u[k] == st.table[k])
  {
    match act
    case Trigger(_, _, _, _) =>
    case Run(i, answer) =>
      if Acts(st, act, i) {
        EffectOnJob(st, EffectOfStep(st, st.procs[i], answer), st.procs[i], answer, k);
      }
  }

  lemma EffectOnJob(st: State, e: Effect, p: Proc, a: Answer, k: RecordKey)
    requires StoreOk(st) && ProcOk(st, p) && k.JobKey? && e == EffectOfStep(st, p, a)
    ensures var u := Apply(st.table, e);
            if e.RecordJob? && e.key == k then k in u && u[k] == JobItem(e.status)
            else (k in u <==> k in st.table) && (k in u ==> u[k] == st.table[k])
  {
    StepEffectOk(st, p);
    if e.AddBatch? {
      assert k in Batch(e.w) ==> Writes(e.w, k);
    }
  }

  /** Which steps replace COMPLETED on the record of a job: a run of the job, the one that
      completed it or another, claims it or records another verdict, or the intent is recorded
      anew. */
  lemma CompletedRecordLostIff(st: State, act: Action, k: RecordKey)
    requires Inv(st) && k.JobKey? && k in st.table && st.table[k] == JobItem(Completed)
    ensures k in Next(st, act).table
    ensures Next(st, act).table[k] != JobItem(Completed) <==> OverwritesCompleted(st, act, k)
  {
    StoredStep(st, act, k);
    if act.Run? && Acts(st, act, act.p) {
      OverwriteEffect(st, st.procs[act.p], act.answer, k);
    }
  }

  ghost predicate OverwritesCompleted(st: State, act: Action, k: RecordKey) {
    match act
    case Trigger(client, audit, job, status) => Claimable(status) && k == JobKey(client, audit, job)
    case Run(i, answer) =>
      && Acts(st, act, i) && JobOf(st.procs[i].event) == k && (answer.Ack? || answer.ErrorAfter?)
      && (st.procs[i].pc.ClaimJob? || (st.procs[i].pc.Finish? && !st.procs[i].pc.verdict.status.Completed?))
  }

  lemma OverwriteEffect(st: State, p: Proc, a: Answer, k: RecordKey)
    requires k.JobKey? && k in st.table
    ensures var e := EffectOfStep(st, p, a);
            e.RecordJob? && e.key == k && !e.status.Completed? <==>
            JobOf(p.event) == k && (a.Ack? || a.ErrorAfter?)
            && (p.pc.ClaimJob? || (p.pc.Finish? && !p.pc.verdict.status.Completed?))
  {
  }
}
