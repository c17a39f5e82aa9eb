/** The results of one run: nested iterations over the endpoints, or a burst of requests
    shared out over them by concurrent workers. */
module RunExecution {
  import opened Wrappers

  datatype Endpoint = Endpoint(id: string, payloadIterations: nat)

  /** Which request of a run a result belongs to. */
  datatype Slot = Slot(schedule: nat, endpoint: nat, payload: nat)

  datatype Outcome = Outcome(body: string)

  datatype RawResult = RawResult(slot: Slot, endpointId: string, outcome: Outcome)

  // ---- sequential scenarios ----

  /** Payload iterations from..n of one endpoint. */
  function PayloadSlots(schedule: nat, endpoint: nat, from_: nat, n: nat): (s: seq<Slot>)
    ensures |s| == if from_ <= n then n + 1 - from_ else 0
    decreases n + 1 - from_
  {
    if from_ > n then [] else [Slot(schedule, endpoint, from_)] + PayloadSlots(schedule, endpoint, from_ + 1, n)
  }

  function EndpointSlots(schedule: nat, es: seq<Endpoint>, from_: nat): seq<Slot>
    requires from_ <= |es|
    decreases |es| - from_
  {
    if from_ == |es| then []
    else PayloadSlots(schedule, from_, 1, es[from_].payloadIterations) + EndpointSlots(schedule, es, from_ + 1)
  }

  /** Every schedule iteration, in each every endpoint, for each every payload iteration. */
  function Plan(iterations: seq<nat>, es: seq<Endpoint>): seq<Slot> {
    if iterations == [] then [] else EndpointSlots(iterations[0], es, 0) + Plan(iterations[1..], es)
  }

  type Runner = (Endpoint, Slot) -> Option<Outcome>

  /** The results of the slots in order, as long as the runner returns. */
  function Results(slots: seq<Slot>, es: seq<Endpoint>, runner: Runner): Option<seq<RawResult>> {
    if slots == [] then Some([])
    else if slots[0].endpoint >= |es| then None
    else
      var o := runner(es[slots[0].endpoint], slots[0]);
      var rest := Results(slots[1..], es, runner);
      if o.None? || rest.None? then None
      else Some([RawResult(slots[0], es[slots[0].endpoint].id, o.value)] + rest.value)
  }

  lemma {:induction false} ResultsAppend(a: seq<Slot>, b: seq<Slot>, es: seq<Endpoint>, runner: Runner)
    ensures var x, y := Results(a, es, runner), Results(b, es, runner);
            Results(a + b, es, runner) == if x.Some? && y.Some? then Some(x.value + y.value) else None
  {
    if a == [] {
      assert a + b == b;
      assert Results(b, es, runner).Some? ==> [] + Results(b, es, runner).value == Results(b, es, runner).value;
    } else {
      assert (a + b)[0] == a[0] && (a + b)[1..] == a[1..] + b;
      ResultsAppend(a[1..], b, es, runner);
      var rest, y := Results(a[1..], es, runner), Results(b, es, runner);
      if a[0].endpoint < |es| && rest.Some? && y.Some? {
        var o := runner(es[a[0].endpoint], a[0]);
        assert o.Some? ==> ([RawResult(a[0], es[a[0].endpoint].id, o.value)] + rest.value) + y.value
                           == [RawResult(a[0], es[a[0].endpoint].id, o.value)] + (rest.value + y.value);
      }
    }
  }

  /** Results so far, followed by the results of what is left to do. */
  function Followed(done: seq<RawResult>, rest: Option<seq<RawResult>>): Option<seq<RawResult>> {
    if rest.None? then None else Some(done + rest.value)
  }

  lemma FollowedTwice(a: seq<RawResult>, b: seq<RawResult>, r: Option<seq<RawResult>>)
    ensures Followed(a, Followed(b, r)) == Followed(a + b, r)
  {
    assert r.Some? ==> a + (b + r.value) == (a + b) + r.value;
  }

  lemma FollowedAppend(done: seq<RawResult>, a: seq<Slot>, b: seq<Slot>, es: seq<Endpoint>, runner: Runner)
    ensures Followed(done, Results(a + b, es, runner)) ==
            if Results(a, es, runner).None? then None
            else Followed(done + Results(a, es, runner).value, Results(b, es, runner))
  {
    ResultsAppend(a, b, es, runner);
    if Results(a, es, runner).Some? {
      FollowedTwice(done, Results(a, es, runner).value, Results(b, es, runner));
    }
  }

  method RunPayloads(schedule: nat, endpoint: nat, es: seq<Endpoint>, runner: Runner) returns (r: Option<seq<RawResult>>)
    requires endpoint < |es|
    ensures r == Results(PayloadSlots(schedule, endpoint, 1, es[endpoint].payloadIterations), es, runner)
  {
    var n := es[endpoint].payloadIterations;
    var results := [];
    ghost var whole := Results(PayloadSlots(schedule, endpoint, 1, n), es, runner);
    assert whole == Followed([], whole) by { assert whole.Some? ==> [] + whole.value == whole.value; }
    for k := 1 to n + 1
      invariant whole == Followed(results, Results(PayloadSlots(schedule, endpoint, k, n), es, runner))
    {
      var slot := Slot(schedule, endpoint, k);
      var o := runner(es[endpoint], slot);
      if o.None? {
        return None;
      }
      FollowedTwice(results, [RawResult(slot, es[endpoint].id, o.value)], Results(PayloadSlots(schedule, endpoint, k + 1, n), es, runner));
      results := results + [RawResult(slot, es[endpoint].id, o.value)];
    }
    assert results + [] == results;
    r := Some(results);
  }

  method RunEndpoints(schedule: nat, es: seq<Endpoint>, runner: Runner) returns (r: Option<seq<RawResult>>)
    ensures r == Results(EndpointSlots(schedule, es, 0), es, runner)
  {
    var results := [];
    ghost var whole := Results(EndpointSlots(schedule, es, 0), es, runner);
    assert whole == Followed([], whole) by { assert whole.Some? ==> [] + whole.value == whole.value; }
    for e := 0 to |es|
      invariant whole == Followed(results, Results(EndpointSlots(schedule, es, e), es, runner))
    {
      var one := RunPayloads(schedule, e, es, runner);
      FollowedAppend(results, PayloadSlots(schedule, e, 1, es[e].payloadIterations), EndpointSlots(schedule, es, e + 1), es, runner);
      if one.None? {
        return None;
      }
      results := results + one.value;
    }
    assert results + [] == results;
    r := Some(results);
  }

  /** The three loops of a non-burst run: all results in plan order, or none when a request
      raises. */
  method ExecuteIterations(iterations: seq<nat>, es: seq<Endpoint>, runner: Runner) returns (r: Option<seq<RawResult>>)
    ensures r == Results(Plan(iterations, es), es, runner)
  {
    var results := [];
    ghost var whole := Results(Plan(iterations, es), es, runner);
    assert iterations[0..] == iterations;
    assert whole == Followed([], whole) by { assert whole.Some? ==> [] + whole.value == whole.value; }
    for i := 0 to |iterations|
      invariant whole == Followed(results, Results(Plan(iterations[i..], es), es, runner))
    {
      var one := RunEndpoints(iterations[i], es, runner);
      assert iterations[i..][1..] == iterations[i + 1..];
      FollowedAppend(results, EndpointSlots(iterations[i], es, 0), Plan(iterations[i + 1..], es), es, runner);
      if one.None? {
        return None;
      }
      results := results + one.value;
    }
    assert results + [] == results;
    r := Some(results);
  }

  function PayloadTotal(es: seq<Endpoint>, from_: nat): nat
    requires from_ <= |es|
    decreases |es| - from_
  {
    if from_ == |es| then 0 else es[from_].payloadIterations + PayloadTotal(es, from_ + 1)
  }

  lemma {:induction false} EndpointSlotCount(schedule: nat, es: seq<Endpoint>, from_: nat)
    requires from_ <= |es|
    ensures |EndpointSlots(schedule, es, from_)| == PayloadTotal(es, from_)
    decreases |es| - from_
  {
    if from_ < |es| {
      EndpointSlotCount(schedule, es, from_ + 1);
    }
  }

  lemma {:induction false} ResultsLength(slots: seq<Slot>, es: seq<Endpoint>, runner: Runner)
    requires Results(slots, es, runner).Some?
    ensures |Results(slots, es, runner).value| == |slots|
    ensures forall i :: 0 <= i < |slots| ==>
              Results(slots, es, runner).value[i].slot == slots[i] && slots[i].endpoint < |es|
              && Results(slots, es, runner).value[i].endpointId == es[slots[i].endpoint].id
  {
    if slots != [] {
      ResultsLength(slots[1..], es, runner);
    }
  }

  lemma OneMore(m: nat, t: nat)
    ensures (m + 1) * t == t + m * t
  {
  }

  /** A run over validated configuration that raises nothing has one result for every
      iteration, endpoint and payload iteration: never none. */
  lemma {:induction false} RunLength(iterations: seq<nat>, es: seq<Endpoint>)
    ensures |Plan(iterations, es)| == |iterations| * PayloadTotal(es, 0)
    ensures iterations != [] && es != [] && es[0].payloadIterations >= 1 ==> Plan(iterations, es) != []
    decreases |iterations|
  {
    if iterations != [] {
      EndpointSlotCount(iterations[0], es, 0);
      RunLength(iterations[1..], es);
      OneMore(|iterations| - 1, PayloadTotal(es, 0));
    }
  }

  /** Such a run is never without results. */
  lemma FinishedRunHasResults(iterations: seq<nat>, es: seq<Endpoint>, runner: Runner)
    requires iterations != [] && es != [] && es[0].payloadIterations >= 1
    requires Results(Plan(iterations, es), es, runner).Some?
    ensures |Results(Plan(iterations, es), es, runner).value| == |iterations| * PayloadTotal(es, 0)
    ensures Results(Plan(iterations, es), es, runner).value != []
  {
    RunLength(iterations, es);
    ResultsLength(Plan(iterations, es), es, runner);
  }

  // ---- bursts ----

  function BurstEndpoint(number: nat, n: nat): (e: nat)
    requires number >= 1 && n > 0
    ensures e < n
  {
    (number - 1) % n
  }

  ghost predicate Completion(order: seq<nat>, count: nat) {
    && (forall k :: k in order <==> 1 <= k <= count)
    && (forall i, j :: 0 <= i < j < |order| ==> order[i] != order[j])
  }

  function BurstResult(es: seq<Endpoint>, runner: Runner, number: nat): Option<RawResult>
    requires es != [] && number >= 1
  {
    var e := BurstEndpoint(number, |es|);
    match runner(es[e], Slot(number, e, 1))
    case None => None
    case Some(o) => Some(RawResult(Slot(number, e, 1), es[e].id, o))
  }

  /** Outcomes are collected by request number as workers finish, in any order, and listed
      by request number: the result does not depend on the order of completion. */
  method ExecuteBurst(count: nat, es: seq<Endpoint>, runner: Runner, order: seq<nat>) returns (r: Option<seq<RawResult>>)
    requires es != [] && Completion(order, count)
    ensures r.None? <==> exists k :: 1 <= k <= count && BurstResult(es, runner, k).None?
    ensures r.Some? ==> |r.value| == count
                        && forall k :: 1 <= k <= count ==> BurstResult(es, runner, k) == Some(r.value[k - 1])
  {
    var outcomes: map<nat, Outcome> := map[];
    for i := 0 to |order|
      invariant forall k :: k in outcomes <==> k in order[..i]
      invariant forall k :: k in outcomes && 1 <= k ==>
                  BurstResult(es, runner, k) ==
                  Some(RawResult(Slot(k, BurstEndpoint(k, |es|), 1), es[BurstEndpoint(k, |es|)].id, outcomes[k]))
    {
      var k := order[i];
      assert k in order;
      var e := BurstEndpoint(k, |es|);
      var o := runner(es[e], Slot(k, e, 1));
      if o.None? {
        assert BurstResult(es, runner, k).None?;
        return None;
      }
      outcomes := outcomes[k := o.value];
    }
    var results := [];
    assert order[..|order|] == order;
    for k := 1 to count + 1
      invariant |results| == k - 1
      invariant forall j :: 1 <= j < k ==> BurstResult(es, runner, j) == Some(results[j - 1])
    {
      assert k in outcomes;
      var e := BurstEndpoint(k, |es|);
      results := results + [RawResult(Slot(k, e, 1), es[e].id, outcomes[k])];
    }
    r := Some(results);
  }

  /** How many of the first `count` requests go to endpoint e. */
  function Share(count: nat, n: nat, e: nat): nat
    requires n > 0
  {
    if count == 0 then 0 else Share(count - 1, n, e) + if BurstEndpoint(count, n) == e then 1 else 0
  }

  /** Requests are shared out evenly: every endpoint gets the quotient, and the first
      `count % n` endpoints one more. */
  lemma {:induction false} SharesEven(count: nat, n: nat, e: nat)
    requires e < n
    ensures Share(count, n, e) == count / n + if e < count % n then 1 else 0
  {
    if count == 0 {
      assert 0 / n == 0 && 0 % n == 0;
    } else {
      SharesEven(count - 1, n, e);
      NextQuotient(count - 1, n);
    }
  }

  lemma NextQuotient(m: nat, n: nat)
    requires n > 0
    ensures m % n == n - 1 ==> (m + 1) % n == 0 && (m + 1) / n == m / n + 1
    ensures m % n < n - 1 ==> (m + 1) % n == m % n + 1 && (m + 1) / n == m / n
  {
    var q, r := m / n, m % n;
    assert m == q * n + r;
    if r == n - 1 {
      assert m + 1 == (q + 1) * n;
      Divide(m + 1, n, q + 1, 0);
    } else {
      Divide(m + 1, n, q, r + 1);
    }
  }

  lemma Divide(m: nat, n: nat, q: nat, r: nat)
    requires n > 0 && m == q * n + r && r < n
    ensures m / n == q && m % n == r
  {
    var d := m / n - q;
    assert m == (m / n) * n + m % n;
    assert d * n == r - m % n;
    assert (d >= 1 ==> d * n >= n) && (d <= -1 ==> d * n <= 0 - n);
  }
}
