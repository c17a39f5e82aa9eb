/** The results of a non-burst run, one by one. */
module RunResults {
  import opened Wrappers
  import opened RunExecution

  /** Payload iterations of the endpoints before e. */
  function Before(es: seq<Endpoint>, e: nat): nat
    requires e <= |es|
  {
    if e == 0 then 0 else Before(es, e - 1) + es[e - 1].payloadIterations
  }

  predicate Position(iterations: seq<nat>, es: seq<Endpoint>, i: nat, e: nat, k: nat) {
    i < |iterations| && e < |es| && 1 <= k <= es[e].payloadIterations
  }

  /** The request of payload iteration k of endpoint e in schedule iteration i. */
  function Request(iterations: seq<nat>, i: nat, e: nat, k: nat): Slot
    requires i < |iterations|
  {
    Slot(iterations[i], e, k)
  }

  /** Where it stands among all requests of the run. */
  function Place(es: seq<Endpoint>, i: nat, e: nat, k: nat): int
    requires e <= |es|
  {
    i * Before(es, |es|) + Before(es, e) + k - 1
  }

  // ---- the plan ----

  lemma {:induction false} PayloadAt(schedule: nat, endpoint: nat, from_: nat, n: nat, k: nat)
    requires from_ <= k <= n
    ensures PayloadSlots(schedule, endpoint, from_, n)[k - from_] == Slot(schedule, endpoint, k)
    decreases n - from_
  {
    if from_ < k {
      PayloadAt(schedule, endpoint, from_ + 1, n, k);
    }
  }

  lemma {:induction false} TotalIsBefore(es: seq<Endpoint>, from_: nat)
    requires from_ <= |es|
    ensures Before(es, from_) + PayloadTotal(es, from_) == Before(es, |es|)
    decreases |es| - from_
  {
    if from_ < |es| {
      TotalIsBefore(es, from_ + 1);
    }
  }

  lemma {:induction false} BeforeGrows(es: seq<Endpoint>, a: nat, b: nat)
    requires a <= b <= |es|
    ensures Before(es, a) <= Before(es, b)
  {
    if a < b {
      BeforeGrows(es, a, b - 1);
    }
  }

  lemma {:induction false} EndpointAt(schedule: nat, es: seq<Endpoint>, from_: nat, e: nat, k: nat)
    requires from_ <= e < |es| && 1 <= k <= es[e].payloadIterations
    ensures var at := Before(es, e) - Before(es, from_) + k - 1;
            && 0 <= at < |EndpointSlots(schedule, es, from_)|
            && EndpointSlots(schedule, es, from_)[at] == Slot(schedule, e, k)
    decreases |es| - from_
  {
    var first := PayloadSlots(schedule, from_, 1, es[from_].payloadIterations);
    var rest := EndpointSlots(schedule, es, from_ + 1);
    if from_ == e {
      PayloadAt(schedule, e, 1, es[e].payloadIterations, k);
    } else {
      EndpointAt(schedule, es, from_ + 1, e, k);
      BeforeGrows(es, from_ + 1, e);
      var at := Before(es, e) - Before(es, from_ + 1) + k - 1;
      assert (first + rest)[|first| + at] == rest[at];
    }
  }

  lemma {:induction false} PlanAt(iterations: seq<nat>, es: seq<Endpoint>, i: nat, e: nat, k: nat)
    requires Position(iterations, es, i, e, k)
    ensures 0 <= Place(es, i, e, k) < |Plan(iterations, es)|
    ensures Plan(iterations, es)[Place(es, i, e, k)] == Request(iterations, i, e, k)
    decreases |iterations|
  {
    var total := Before(es, |es|);
    var first := EndpointSlots(iterations[0], es, 0);
    EndpointSlotCount(iterations[0], es, 0);
    TotalIsBefore(es, 0);
    if i == 0 {
      EndpointAt(iterations[0], es, 0, e, k);
      assert 0 * total == 0;
    } else {
      PlanAt(iterations[1..], es, i - 1, e, k);
      assert i * total == total + (i - 1) * total;
      assert (first + Plan(iterations[1..], es))[|first| + Place(es, i - 1, e, k)]
          == Plan(iterations[1..], es)[Place(es, i - 1, e, k)];
    }
  }

  // ---- every request of the plan is one of those ----

  lemma {:induction false} PayloadMember(schedule: nat, endpoint: nat, from_: nat, n: nat, s: Slot)
    requires s in PayloadSlots(schedule, endpoint, from_, n)
    ensures s.schedule == schedule && s.endpoint == endpoint && from_ <= s.payload <= n
    decreases n + 1 - from_
  {
    if s != Slot(schedule, endpoint, from_) {
      PayloadMember(schedule, endpoint, from_ + 1, n, s);
    }
  }

  lemma {:induction false} EndpointMember(schedule: nat, es: seq<Endpoint>, from_: nat, s: Slot)
    requires from_ <= |es| && s in EndpointSlots(schedule, es, from_)
    ensures s.schedule == schedule && s.endpoint < |es| && 1 <= s.payload <= es[s.endpoint].payloadIterations
    decreases |es| - from_
  {
    var first := PayloadSlots(schedule, from_, 1, es[from_].payloadIterations);
    if s in first {
      PayloadMember(schedule, from_, 1, es[from_].payloadIterations, s);
    } else {
      EndpointMember(schedule, es, from_ + 1, s);
    }
  }

  lemma {:induction false} PlanMember(iterations: seq<nat>, es: seq<Endpoint>, s: Slot) returns (i: nat)
    requires s in Plan(iterations, es)
    ensures Position(iterations, es, i, s.endpoint, s.payload) && s == Request(iterations, i, s.endpoint, s.payload)
    decreases |iterations|
  {
    if s in EndpointSlots(iterations[0], es, 0) {
      EndpointMember(iterations[0], es, 0, s);
      i := 0;
    } else {
      var j := PlanMember(iterations[1..], es, s);
      i := j + 1;
    }
  }

  // ---- the results ----

  lemma {:induction false} ResultAt(slots: seq<Slot>, es: seq<Endpoint>, runner: Runner, n: nat)
    requires Results(slots, es, runner).Some? && n < |slots|
    ensures |Results(slots, es, runner).value| == |slots| && slots[n].endpoint < |es|
    ensures var e := es[slots[n].endpoint];
            runner(e, slots[n]).Some?
            && Results(slots, es, runner).value[n] == RawResult(slots[n], e.id, runner(e, slots[n]).value)
    decreases |slots|
  {
    ResultsLength(slots, es, runner);
    if n > 0 {
      ResultAt(slots[1..], es, runner, n - 1);
    }
  }

  lemma {:induction false} ResultsIff(slots: seq<Slot>, es: seq<Endpoint>, runner: Runner)
    ensures Results(slots, es, runner).Some? <==>
            forall s :: s in slots ==> s.endpoint < |es| && runner(es[s.endpoint], s).Some?
  {
    if slots != [] {
      ResultsIff(slots[1..], es, runner);
      assert forall s :: s in slots <==> s == slots[0] || s in slots[1..];
    }
  }

  ghost predicate AllAnswer(iterations: seq<nat>, es: seq<Endpoint>, runner: Runner) {
    forall i: nat, e: nat, k: nat :: Position(iterations, es, i, e, k) ==> runner(es[e], Request(iterations, i, e, k)).Some?
  }

  /** A run has results exactly when every request of it returns; then there is one for each
      schedule iteration, endpoint and payload iteration, in this order of nesting, and it
      holds what that request returned. */
  lemma RunHasResults(iterations: seq<nat>, es: seq<Endpoint>, runner: Runner)
    ensures var r := Results(Plan(iterations, es), es, runner);
            && (r.Some? <==> AllAnswer(iterations, es, runner))
            && (r.Some? ==> |r.value| == |iterations| * Before(es, |es|))
  {
    var plan := Plan(iterations, es);
    ResultsIff(plan, es, runner);
    RunLength(iterations, es);
    TotalIsBefore(es, 0);
    if Results(plan, es, runner).Some? {
      ResultsLength(plan, es, runner);
      forall i: nat, e: nat, k: nat | Position(iterations, es, i, e, k) ensures runner(es[e], Request(iterations, i, e, k)).Some? {
        PlanAt(iterations, es, i, e, k);
        assert Request(iterations, i, e, k) in plan;
      }
    }
    if AllAnswer(iterations, es, runner) {
      forall s | s in plan ensures s.endpoint < |es| && runner(es[s.endpoint], s).Some? {
        var i := PlanMember(iterations, es, s);
      }
    }
  }

  lemma RunResultAt(iterations: seq<nat>, es: seq<Endpoint>, runner: Runner, i: nat, e: nat, k: nat)
    requires Position(iterations, es, i, e, k) && Results(Plan(iterations, es), es, runner).Some?
    ensures var r := Results(Plan(iterations, es), es, runner).value;
            var slot := Request(iterations, i, e, k);
            && 0 <= Place(es, i, e, k) < |r| && runner(es[e], slot).Some?
            && r[Place(es, i, e, k)] == RawResult(slot, es[e].id, runner(es[e], slot).value)
  {
    PlanAt(iterations, es, i, e, k);
    ResultAt(Plan(iterations, es), es, runner, Place(es, i, e, k));
  }
}
