/** What becomes of an occurrence, told by the answers its deliveries got: who claims it, how
    many runs the claimant has started, and where each delivery stands. */
module OccurrenceRuns {
  import opened Wrappers
  import opened Scheduling
  import opened OccurrenceClaims

  type Steps = seq<(nat, Answer)>

  /** The answers the calls of delivery p got, in order. */
  function AnswersTo(steps: Steps, p: nat): (answers: seq<Answer>)
    ensures |answers| <= |steps|
  {
    if steps == [] then []
    else
      var last := steps[|steps| - 1];
      AnswersTo(steps[..|steps| - 1], p) + if last.0 == p then [last.1] else []
  }

  function LeadingAcks(answers: seq<Answer>): (n: nat)
    ensures n <= |answers|
  {
    if answers != [] && answers[0].Ack? then 1 + LeadingAcks(answers[1..]) else 0
  }

  /** Runs due to an occurrence: one, or for a repeated one its iterations when there are 1 to
      100 of them. */
  function Due(d: Definition): nat {
    if !d.kind.RepeatedKind? then 1 else if 1 <= d.iterations <= 100 then d.iterations else 0
  }

  /** Runs a claimant has started: none when its claim was lost or the first safeguard did not
      pass; then one for each acknowledged call, until one is not or all due are started. */
  function RunsAfter(d: Definition, answers: seq<Answer>): nat {
    if |answers| < 2 || !answers[0].Ack? || answers[0].lost || !answers[1].Ack? then 0
    else
      var n := LeadingAcks(answers[2..]);
      if n <= Due(d) then n else Due(d)
  }

  function PcAfter(d: Definition, answers: seq<Answer>): PC {
    if answers == [] then Claim
    else if !answers[0].Ack? || answers[0].lost then Settled
    else if |answers| == 1 then Guard
    else if !answers[1].Ack? then Settled
    else
      var n := LeadingAcks(answers[2..]);
      if n < |answers| - 2 || n > Due(d) then Settled else Running(n)
  }

  predicate Claimant(st: State, p: nat)
    requires p in st.deliveries
  {
    var id := st.deliveries[p].definition.id;
    id in st.claims && st.claims[id] == p
  }

  /** Where delivery p stands after its answers: not begun; refused; a duplicate; or the
      claimant, with its runs started. */
  ghost predicate Told(st: State, p: nat, answers: seq<Answer>)
    requires p in st.deliveries
  {
    var d := st.deliveries[p].definition;
    if answers == [] then st.deliveries[p].pc.Claim? && !Claimant(st, p)
    else if !answers[0].Ack? then st.deliveries[p].pc.Settled? && !Claimant(st, p)
    else if Claimant(st, p) then
      st.deliveries[p].pc == PcAfter(d, answers) && Count(st.runs, d.id) == RunsAfter(d, answers)
    else st.deliveries[p].pc.Settled? && d.id in st.claims
  }

  /** A claim belongs to a delivery of its id; an unclaimed id never ran. */
  ghost predicate ClaimHeld(st: State, id: OccurrenceId) {
    if id in st.claims
    then st.claims[id] in st.deliveries && st.deliveries[st.claims[id]].definition.id == id
    else Count(st.runs, id) == 0
  }

  ghost predicate SameDeliveries(st: State, u: State) {
    && st.deliveries.Keys == u.deliveries.Keys
    && forall p :: p in st.deliveries ==> u.deliveries[p].definition == st.deliveries[p].definition
  }

  ghost predicate AllTold(start: State, steps: Steps) {
    var st := Exec(start, steps);
    && SameDeliveries(start, st)
    && (forall p :: p in st.deliveries ==> Told(st, p, AnswersTo(steps, p)))
    && (forall id :: ClaimHeld(st, id))
  }

  lemma {:induction false} LeadingAppend(answers: seq<Answer>, a: Answer)
    ensures LeadingAcks(answers + [a])
            == if LeadingAcks(answers) == |answers| && a.Ack? then |answers| + 1 else LeadingAcks(answers)
  {
    if answers != [] && answers[0].Ack? {
      LeadingAppend(answers[1..], a);
      assert (answers + [a])[1..] == answers[1..] + [a];
    }
  }

  /** One more answer moves the claimant as the machine does. */
  lemma OneMoreAnswer(d: Definition, answers: seq<Answer>, a: Answer)
    requires answers != []
    ensures var pc, more := PcAfter(d, answers), answers + [a];
            match pc
            case Settled => PcAfter(d, more) == Settled && RunsAfter(d, more) == RunsAfter(d, answers)
            case Guard => RunsAfter(d, more) == 0 && PcAfter(d, more) == (if a.Ack? then Running(0) else Settled)
            case Running(n) =>
              if a.Ack? && n < Due(d) then PcAfter(d, more) == Running(n + 1) && RunsAfter(d, more) == n + 1
              else PcAfter(d, more) == Settled && RunsAfter(d, more) == n == RunsAfter(d, answers)
            case Claim => false
  {
    if |answers| >= 2 {
      LeadingAppend(answers[2..], a);
      assert (answers + [a])[2..] == answers[2..] + [a];
    } else {
      assert (answers + [a])[2..] == [];
    }
  }

  lemma DueIsLimit(d: Definition)
    ensures Due(d) == Limit(d)
  {
  }

  /** The step of another delivery does not touch where delivery q stands. */
  lemma OthersTold(st: State, p: nat, a: Answer, q: nat, answersP: seq<Answer>, answersQ: seq<Answer>)
    requires p in st.deliveries && q in st.deliveries && p != q
    requires Told(st, p, answersP) && Told(st, q, answersQ)
    ensures q in Next(st, p, a).deliveries && Told(Next(st, p, a), q, answersQ)
  {
    var d := st.deliveries[p].definition;
    if st.deliveries[p].pc.Running? && a.Ack? {
      CountAppend(st.runs, d.id, st.deliveries[q].definition.id);
    }
  }

  lemma OwnTold(st: State, p: nat, a: Answer, answers: seq<Answer>)
    requires p in st.deliveries && Told(st, p, answers) && ClaimHeld(st, st.deliveries[p].definition.id)
    ensures p in Next(st, p, a).deliveries && Told(Next(st, p, a), p, answers + [a])
  {
    var d := st.deliveries[p].definition;
    DueIsLimit(d);
    if answers != [] {
      OneMoreAnswer(d, answers, a);
      CountAppend(st.runs, d.id, d.id);
    }
  }

  lemma ClaimStaysHeld(st: State, p: nat, a: Answer, id: OccurrenceId, answers: seq<Answer>)
    requires p in st.deliveries && Told(st, p, answers) && ClaimHeld(st, id)
    ensures ClaimHeld(Next(st, p, a), id)
  {
    CountAppend(st.runs, st.deliveries[p].definition.id, id);
  }

  lemma AnswersStep(init: Steps, p: nat, a: Answer, q: nat)
    ensures AnswersTo(init + [(p, a)], q) == AnswersTo(init, q) + if p == q then [a] else []
  {
    assert (init + [(p, a)])[..|init|] == init;
  }

  lemma NextDeliveries(st: State, p: nat, a: Answer)
    ensures SameDeliveries(st, Next(st, p, a))
  {
  }

  lemma ToldNext(st: State, init: Steps, p: nat, a: Answer, q: nat)
    requires q in st.deliveries && Told(st, q, AnswersTo(init, q))
    requires p in st.deliveries ==> Told(st, p, AnswersTo(init, p)) && ClaimHeld(st, st.deliveries[p].definition.id)
    ensures q in Next(st, p, a).deliveries && Told(Next(st, p, a), q, AnswersTo(init + [(p, a)], q))
  {
    AnswersStep(init, p, a, q);
    if p == q {
      OwnTold(st, p, a, AnswersTo(init, p));
    } else if p in st.deliveries {
      OthersTold(st, p, a, q, AnswersTo(init, p), AnswersTo(init, q));
    } else {
      assert AnswersTo(init + [(p, a)], q) == AnswersTo(init, q);
    }
  }

  lemma ExecStep(start: State, init: Steps, p: nat, a: Answer)
    ensures Exec(start, init + [(p, a)]) == Next(Exec(start, init), p, a)
  {
    assert (init + [(p, a)])[..|init|] == init;
  }

  lemma StepTold(start: State, init: Steps, p: nat, a: Answer)
    requires AllTold(start, init)
    ensures AllTold(start, init + [(p, a)])
  {
    var st := Exec(start, init);
    var u := Next(st, p, a);
    ExecStep(start, init, p, a);
    NextDeliveries(st, p, a);
    forall q | q in u.deliveries ensures Told(u, q, AnswersTo(init + [(p, a)], q)) {
      ToldNext(st, init, p, a, q);
    }
    forall id ensures ClaimHeld(u, id) {
      assert ClaimHeld(st, id);
      if p in st.deliveries {
        ClaimStaysHeld(st, p, a, id, AnswersTo(init, p));
      }
    }
  }

  lemma {:induction false} EveryStateTold(start: State, steps: Steps, definitions: seq<Definition>)
    requires Initial(start, definitions)
    ensures AllTold(start, steps)
    decreases |steps|
  {
    if steps != [] {
      var init, last := steps[..|steps| - 1], steps[|steps| - 1];
      EveryStateTold(start, init, definitions);
      assert steps == init + [(last.0, last.1)];
      StepTold(start, init, last.0, last.1);
    }
  }

  /** The answers decide everything, whatever the interleaving. An id is claimed exactly when
      the first call of some delivery of it was acknowledged; then one such delivery is the
      claimant, and as many runs of the id were started as the claimant's answers say; every
      other delivery that got an answer has ended without a run. */
  lemma RunsByAnswers(start: State, steps: Steps, definitions: seq<Definition>, id: OccurrenceId)
    requires Initial(start, definitions)
    ensures var st := Exec(start, steps);
            && (id in st.claims <==> exists p :: p in start.deliveries && start.deliveries[p].definition.id == id
                                                 && Acknowledged(AnswersTo(steps, p)))
            && (id !in st.claims ==> Count(st.runs, id) == 0)
            && (id in st.claims ==>
                  var p := st.claims[id];
                  && p in start.deliveries && start.deliveries[p].definition.id == id && Acknowledged(AnswersTo(steps, p))
                  && Count(st.runs, id) == RunsAfter(start.deliveries[p].definition, AnswersTo(steps, p))
                  && p in st.deliveries
                  && st.deliveries[p].pc == PcAfter(start.deliveries[p].definition, AnswersTo(steps, p)))
            && (forall p :: p in start.deliveries && AnswersTo(steps, p) != [] && !(id in st.claims && st.claims[id] == p)
                            && start.deliveries[p].definition.id == id ==>
                  p in st.deliveries && st.deliveries[p].pc.Settled?)
  {
    EveryStateTold(start, steps, definitions);
    var st := Exec(start, steps);
    assert ClaimHeld(st, id);
    if p :| p in start.deliveries && start.deliveries[p].definition.id == id && Acknowledged(AnswersTo(steps, p)) {
      assert Told(st, p, AnswersTo(steps, p));
    }
    if id in st.claims {
      assert Told(st, st.claims[id], AnswersTo(steps, st.claims[id]));
    }
  }

  /** The first call was acknowledged. */
  predicate Acknowledged(answers: seq<Answer>) {
    answers != [] && answers[0].Ack?
  }

  // ---- a delivery that gets through ----

  /** The delivery of an unclaimed id whose claim is acknowledged becomes its claimant. */
  lemma FirstToClaim(start: State, before: Steps, p: nat, lost: bool, after: Steps, definitions: seq<Definition>)
    requires Initial(start, definitions) && p in start.deliveries && AnswersTo(before, p) == []
    requires start.deliveries[p].definition.id !in Exec(start, before).claims
    ensures var id := start.deliveries[p].definition.id;
            var st := Exec(start, before + [(p, Ack(lost))] + after);
            id in st.claims && st.claims[id] == p
  {
    var id := start.deliveries[p].definition.id;
    EveryStateTold(start, before, definitions);
    assert Told(Exec(start, before), p, []);
    ExecStep(start, before, p, Ack(lost));
    ClaimsStay(start, before + [(p, Ack(lost))], after, id);
  }

  lemma {:induction false} ClaimsStay(start: State, before: Steps, after: Steps, id: OccurrenceId)
    requires id in Exec(start, before).claims
    ensures var st := Exec(start, before + after);
            id in st.claims && st.claims[id] == Exec(start, before).claims[id]
    decreases |after|
  {
    if after == [] {
      assert before + after == before;
    } else {
      var init, last := after[..|after| - 1], after[|after| - 1];
      ClaimsStay(start, before, init, id);
      assert before + after == (before + init) + [(last.0, last.1)];
      ExecStep(start, before + init, last.0, last.1);
    }
  }

  lemma {:induction false} AnswersSplit(before: Steps, after: Steps, p: nat)
    ensures AnswersTo(before + after, p) == AnswersTo(before, p) + AnswersTo(after, p)
    decreases |after|
  {
    if after == [] {
      assert before + after == before;
    } else {
      var init, last := after[..|after| - 1], after[|after| - 1];
      AnswersSplit(before, init, p);
      assert before + after == (before + init) + [last];
      assert (before + after)[..|before + after| - 1] == before + init;
    }
  }

  lemma {:induction false} AllLeading(answers: seq<Answer>)
    requires forall i :: 0 <= i < |answers| ==> answers[i].Ack?
    ensures LeadingAcks(answers) == |answers|
  {
    if answers != [] {
      AllLeading(answers[1..]);
    }
  }

  /** Take a delivery of an id nobody holds. When its claim is acknowledged and not lost, and
      so is every further call, of which there are enough, then, whatever the steps of other
      deliveries before, between and after, it ends, and its id has run exactly once, or for a
      repeated definition exactly its iterations, or never when those are not 1 to 100. */
  lemma AcknowledgedDeliveryRuns(start: State, before: Steps, p: nat, after: Steps, definitions: seq<Definition>)
    requires Initial(start, definitions) && p in start.deliveries && AnswersTo(before, p) == []
    requires start.deliveries[p].definition.id !in Exec(start, before).claims
    requires var answers := AnswersTo(after, p);
             && |answers| >= 2 + Due(start.deliveries[p].definition)
             && forall i :: 0 <= i < |answers| ==> answers[i].Ack?
    ensures var d := start.deliveries[p].definition;
            var st := Exec(start, before + [(p, Ack(false))] + after);
            && p in st.deliveries && st.deliveries[p].pc.Settled?
            && (!d.kind.RepeatedKind? ==> Count(st.runs, d.id) == 1)
            && (d.kind.RepeatedKind? ==> Count(st.runs, d.id) == if 1 <= d.iterations <= 100 then d.iterations else 0)
  {
    var d, answers := start.deliveries[p].definition, AnswersTo(after, p);
    var steps := before + [(p, Ack(false))] + after;
    FirstToClaim(start, before, p, false, after, definitions);
    AnswersStep(before, p, Ack(false), p);
    AnswersSplit(before + [(p, Ack(false))], after, p);
    var all := AnswersTo(steps, p);
    assert all == [Ack(false)] + answers;
    assert all[2..] == answers[1..];
    AllLeading(answers[1..]);
    EveryStateTold(start, steps, definitions);
    assert Told(Exec(start, steps), p, all);
  }
}
