/** Scheduled executions under redelivery: every delivery of an occurrence tries to claim its
    id, and only the one that creates the claim runs it. */
module OccurrenceClaims {
  import opened Wrappers
  import opened Scheduling

  const MAX_REPEATED_ITERATIONS := 100

  datatype Refusal = Invalid | NotAllowed

  /** The bounded coordinator: `allowed` is the safeguard before each iteration. */
  method RepeatedRuns(iterations: int, allowed: nat -> bool, outcome: nat -> string) returns (r: Result<seq<string>, Refusal>, started: nat)
    ensures r == Err(Invalid) <==> iterations <= 0 || iterations > MAX_REPEATED_ITERATIONS
    ensures r.Ok? ==> |r.value| == iterations == started && forall i :: 0 <= i < iterations ==> r.value[i] == outcome(i + 1)
    ensures r == Err(NotAllowed) <==>
            0 < iterations <= MAX_REPEATED_ITERATIONS && exists i :: 1 <= i <= iterations && !allowed(i)
    ensures started <= MAX_REPEATED_ITERATIONS
    ensures r == Err(NotAllowed) ==> started < iterations && !allowed(started + 1)
  {
    started := 0;
    if iterations <= 0 || iterations > MAX_REPEATED_ITERATIONS {
      return Err(Invalid), 0;
    }
    var results := [];
    for index := 1 to iterations + 1
      invariant started == index - 1 == |results|
      invariant forall i :: 1 <= i < index ==> allowed(i)
      invariant forall i :: 0 <= i < |results| ==> results[i] == outcome(i + 1)
    {
      if !allowed(index) {
        return Err(NotAllowed), started;
      }
      results := results + [outcome(index)];
      started := started + 1;
    }
    r := Ok(results);
  }

  // ---- deliveries ----

  datatype PC = Claim | Guard | Running(done: nat) | Settled

  /** A delivery of a definition. */
  datatype Delivery = Delivery(definition: Definition, pc: PC)

  /** `claims` says which delivery holds an id; `runs` lists the ids of all runs started. */
  datatype State = State(claims: map<OccurrenceId, nat>, deliveries: map<nat, Delivery>, runs: seq<OccurrenceId>)

  datatype Answer = Ack(lost: bool) | Refused | Error

  predicate IsRepeated(d: Definition) {
    d.kind.RepeatedKind?
  }

  /** How many runs a delivery may start; an invalid repeat count starts none. */
  function Limit(d: Definition): nat {
    if !IsRepeated(d) then 1 else if d.iterations > MAX_REPEATED_ITERATIONS then 0 else d.iterations
  }

  function Goto(st: State, p: nat, pc: PC): State
    requires p in st.deliveries
  {
    st.(deliveries := st.deliveries[p := st.deliveries[p].(pc := pc)])
  }

  /** claim_occurrence is a conditional put; a duplicate ends the delivery. A put that took
      effect but failed to answer leaves the id claimed and never run. */
  function ClaimStep(st: State, p: nat, lost: bool): State
    requires p in st.deliveries
  {
    var id := st.deliveries[p].definition.id;
    if id in st.claims then Goto(st, p, Settled)
    else Goto(st.(claims := st.claims[id := p]), p, if lost then Settled else Guard)
  }

  /** Start the next run; a repeated one asks the safeguard again before each. */
  function RunStep(st: State, p: nat, done: nat): State
    requires p in st.deliveries
  {
    var d := st.deliveries[p].definition;
    if done >= Limit(d) then Goto(st, p, Settled)
    else Goto(st.(runs := st.runs + [d.id]), p, Running(done + 1))
  }

  function Next(st: State, p: nat, a: Answer): State {
    if p !in st.deliveries then st
    else
      match (st.deliveries[p].pc, a)
      case (Settled, _) => st
      case (_, Error) => Goto(st, p, Settled)
      case (_, Refused) => Goto(st, p, Settled)
      case (Claim, Ack(lost)) => ClaimStep(st, p, lost)
      case (Guard, Ack(_)) => Goto(st, p, Running(0))
      case (Running(done), Ack(_)) => RunStep(st, p, done)
  }

  function Exec(st: State, steps: seq<(nat, Answer)>): State
    decreases |steps|
  {
    if steps == [] then st
    else
      var last := steps[|steps| - 1];
      Next(Exec(st, steps[..|steps| - 1]), last.0, last.1)
  }

  /** Any number of deliveries of the definitions built for one audit. */
  ghost predicate Initial(st: State, definitions: seq<Definition>) {
    && st.claims == map[] && st.runs == []
    && forall p :: p in st.deliveries ==> st.deliveries[p].pc.Claim? && st.deliveries[p].definition in definitions
  }

  function Count(runs: seq<OccurrenceId>, id: OccurrenceId): nat {
    if runs == [] then 0 else Count(runs[..|runs| - 1], id) + if runs[|runs| - 1] == id then 1 else 0
  }

  function Started(pc: PC): nat {
    if pc.Running? then pc.done else 0
  }

  ghost predicate DeliveryOk(st: State, p: nat)
    requires p in st.deliveries
  {
    var d := st.deliveries[p];
    && (d.pc.Guard? || d.pc.Running? ==> d.definition.id in st.claims && st.claims[d.definition.id] == p)
    && (d.pc.Guard? ==> Count(st.runs, d.definition.id) == 0)
    && (d.pc.Running? ==> Count(st.runs, d.definition.id) == d.pc.done <= Limit(d.definition))
  }

  ghost predicate IdOk(st: State, id: OccurrenceId, definitions: seq<Definition>) {
    && (id !in st.claims ==> Count(st.runs, id) == 0)
    && forall d :: d in definitions && d.id == id ==> Count(st.runs, id) <= Limit(d)
  }

  ghost predicate Inv(st: State, definitions: seq<Definition>) {
    && (forall p :: p in st.deliveries ==> st.deliveries[p].definition in definitions && DeliveryOk(st, p))
    && (forall id :: IdOk(st, id, definitions))
  }

  lemma GotoKeeps(st: State, p: nat, pc: PC, definitions: seq<Definition>)
    requires Inv(st, definitions) && p in st.deliveries && (pc.Settled? || (pc == Running(0) && st.deliveries[p].pc.Guard?))
    ensures Inv(Goto(st, p, pc), definitions)
  {
    var u := Goto(st, p, pc);
    forall q | q in u.deliveries ensures u.deliveries[q].definition in definitions && DeliveryOk(u, q) {
      assert DeliveryOk(st, q);
    }
    forall id ensures IdOk(u, id, definitions) { assert IdOk(st, id, definitions); }
  }

  lemma ClaimKeeps(st: State, p: nat, lost: bool, definitions: seq<Definition>)
    requires Inv(st, definitions) && p in st.deliveries && st.deliveries[p].pc.Claim?
    ensures Inv(ClaimStep(st, p, lost), definitions)
  {
    var id := st.deliveries[p].definition.id;
    if id in st.claims {
      GotoKeeps(st, p, Settled, definitions);
    } else {
      var u := ClaimStep(st, p, lost);
      assert IdOk(st, id, definitions);
      forall q | q in u.deliveries ensures u.deliveries[q].definition in definitions && DeliveryOk(u, q) {
        assert DeliveryOk(st, q);
      }
      forall i ensures IdOk(u, i, definitions) { assert IdOk(st, i, definitions); }
    }
  }

  lemma CountAppend(runs: seq<OccurrenceId>, id: OccurrenceId, i: OccurrenceId)
    ensures Count(runs + [id], i) == Count(runs, i) + if id == i then 1 else 0
  {
    assert (runs + [id])[..|runs|] == runs;
  }

  lemma RunKeeps(st: State, p: nat, definitions: seq<Definition>)
    requires Inv(st, definitions) && IdsDistinct(definitions) && p in st.deliveries && st.deliveries[p].pc.Running?
    ensures Inv(RunStep(st, p, st.deliveries[p].pc.done), definitions)
  {
    var d, done := st.deliveries[p].definition, st.deliveries[p].pc.done;
    if done >= Limit(d) {
      GotoKeeps(st, p, Settled, definitions);
    } else {
      var u := RunStep(st, p, done);
      assert DeliveryOk(st, p);
      forall q | q in u.deliveries ensures u.deliveries[q].definition in definitions && DeliveryOk(u, q) {
        assert DeliveryOk(st, q);
        CountAppend(st.runs, d.id, u.deliveries[q].definition.id);
      }
      forall i ensures IdOk(u, i, definitions) {
        assert IdOk(st, i, definitions);
        CountAppend(st.runs, d.id, i);
        SameDefinition(definitions, d, i);
      }
    }
  }

  /** An id belongs to one definition. */
  lemma SameDefinition(definitions: seq<Definition>, d: Definition, id: OccurrenceId)
    requires IdsDistinct(definitions) && d in definitions
    ensures d.id == id ==> forall e :: e in definitions && e.id == id ==> e == d
  {
    var i :| 0 <= i < |definitions| && definitions[i] == d;
    forall e | e in definitions && e.id == id && d.id == id ensures e == d {
      var j :| 0 <= j < |definitions| && definitions[j] == e;
    }
  }

  lemma StepKeepsInv(st: State, p: nat, a: Answer, definitions: seq<Definition>)
    requires Inv(st, definitions) && IdsDistinct(definitions)
    ensures Inv(Next(st, p, a), definitions)
  {
    if p in st.deliveries {
      match (st.deliveries[p].pc, a)
      case (Settled, _) =>
      case (_, Error) => GotoKeeps(st, p, Settled, definitions);
      case (_, Refused) => GotoKeeps(st, p, Settled, definitions);
      case (Claim, Ack(lost)) => ClaimKeeps(st, p, lost, definitions);
      case (Guard, Ack(_)) => GotoKeeps(st, p, Running(0), definitions);
      case (Running(_), Ack(_)) => RunKeeps(st, p, definitions);
    }
  }

  lemma {:induction false} Reachable(st: State, steps: seq<(nat, Answer)>, definitions: seq<Definition>)
    requires Initial(st, definitions) && IdsDistinct(definitions)
    ensures Inv(Exec(st, steps), definitions)
    decreases |steps|
  {
    if steps != [] {
      Reachable(st, steps[..|steps| - 1], definitions);
      StepKeepsInv(Exec(st, steps[..|steps| - 1]), steps[|steps| - 1].0, steps[|steps| - 1].1, definitions);
    }
  }

  /** Over all redeliveries of the definitions built for an audit, in any interleaving, each
      occurrence is executed at most once: one run, or for a repeated one at most its
      iteration count, never more than 100. */
  lemma {:induction false} ExecutedAtMostOnce(c: Config, iso: int -> string, st: State, steps: seq<(nat, Answer)>, d: Definition)
    requires ValidConfig(c, iso) && AllDefinitions(c, iso).Ok?
    requires Initial(st, AllDefinitions(c, iso).value) && d in AllDefinitions(c, iso).value
    ensures var n := Count(Exec(st, steps).runs, d.id);
            && n <= MAX_REPEATED_ITERATIONS
            && (IsRepeated(d) ==> n <= d.iterations)
            && (!IsRepeated(d) ==> n <= 1)
  {
    var definitions := AllDefinitions(c, iso).value;
    OccurrenceIdsDistinct(c, iso);
    Reachable(st, steps, definitions);
    assert IdOk(Exec(st, steps), d.id, definitions);
  }
}
