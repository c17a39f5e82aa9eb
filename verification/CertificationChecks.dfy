/** Which checks of a report fail, in terms of the report. */
module CertificationChecks {
  import opened Wrappers
  import opened Ordering
  import opened Certification

  // ---- the list of failures ----

  /** The failures a domain names, of the checks it performs, in order. */
  predicate Names(d: DomainResult, checks: seq<(string, bool)>) {
    && d.failures == Failing(checks) && d.performed == |checks| && d.passed + |d.failures| == d.performed
    && d.status == if d.failures == [] then Passed else Failed
  }

  function Failing(checks: seq<(string, bool)>): (names: seq<string>)
    ensures |names| <= |checks|
  {
    if checks == [] then []
    else
      var last := checks[|checks| - 1];
      Failing(checks[..|checks| - 1]) + if last.1 then [] else [last.0]
  }

  lemma AddNames(d: DomainResult, checks: seq<(string, bool)>, name: string, holds: bool)
    requires Names(d, checks)
    ensures Names(Add(d, name, holds), checks + [(name, holds)])
  {
    assert (checks + [(name, holds)])[..|checks|] == checks;
  }

  // ---- what the checks ask ----

  /** x is less than one away from total / n. */
  predicate NearMean(x: int, total: int, n: int) {
    total - n < n * x < total + n
  }

  lemma NearMeanIff(x: int, total: int, n: int)
    requires n > 0
    ensures NearMean(x, total, n) <==> total / n <= x <= CeilDiv(total, n)
  {
    var q, r := total / n, total % n;
    assert total == n * q + r;
    if x < q {
      Below(n, x, q - 1);
    } else if x == q + 1 {
      assert n * x == n * q + n;
    } else if x > q + 1 {
      Below(n, q + 2, x);
      assert n * (q + 2) == n * q + 2 * n;
    }
    assert n * (q - 1) == n * q - n;
  }

  lemma Below(n: int, x: int, y: int)
    requires n > 0 && x <= y
    ensures n * x <= n * y
  {
  }

  /** The endpoints that have a count have one less than one away from the mean. */
  ghost predicate EvenlySpread(es: seq<Endpoint>, s: Summary) {
    && s.endpointCount > 0 && s.total > 0
    && forall i :: 0 <= i < |es| && es[i].executions.Some? ==> NearMean(es[i].executions.value, s.total, s.endpointCount)
  }

  lemma EvenlySpreadIff(es: seq<Endpoint>, s: Summary)
    ensures EvenlySpread(es, s) <==> Dense(es, s)
  {
    if s.endpointCount > 0 && s.total > 0 {
      forall i | 0 <= i < |es| && es[i].executions.Some?
        ensures NearMean(es[i].executions.value, s.total, s.endpointCount) <==>
                s.total / s.endpointCount <= es[i].executions.value <= CeilDiv(s.total, s.endpointCount)
      {
        NearMeanIff(es[i].executions.value, s.total, s.endpointCount);
      }
    }
  }

  predicate Near(v: real, n: int) {
    -0.000000001 < v - n as real / 1000.0 < 0.000000001
  }

  /** A score from 0 to 1 with at most three decimals. */
  ghost predicate Score(v: real) {
    0.0 <= v <= 1.0 && exists n: int :: Near(v, n)
  }

  lemma ScoreIff(v: real)
    ensures Score(v) <==> UnitScore(v)
  {
    var m := (v * 1000.0 + 0.5).Floor;
    if UnitScore(v) {
      assert Near(v, m);
    }
    if n: int :| Near(v, n) {
      assert n as real <= v * 1000.0 + 0.5 < n as real + 1.0;
      assert m == n;
    }
  }

  ghost predicate Scored(e: Endpoint) {
    e.scores.Some? && forall i :: 0 <= i < |e.scores.value| ==> e.scores.value[i].Some? && Score(e.scores.value[i].value)
  }

  lemma ScoredIff(e: Endpoint)
    ensures Scored(e) <==> ScoresInRange(e)
  {
    if e.scores.Some? {
      forall i | 0 <= i < |e.scores.value| && e.scores.value[i].Some?
        ensures Score(e.scores.value[i].value) <==> UnitScore(e.scores.value[i].value)
      {
        ScoreIff(e.scores.value[i].value);
      }
    }
  }

  /** Every endpoint has scores, an execution count and the three assessments. */
  predicate Complete(es: seq<Endpoint>) {
    forall i :: 0 <= i < |es| ==>
      es[i].scores.Some? && es[i].executions.Some? && es[i].stability && es[i].burst && es[i].consistency
  }

  lemma CompleteIff(es: seq<Endpoint>)
    ensures Complete(es) <==> AllObserved(es)
  {
    assert forall i :: 0 <= i < |es| ==> (Observed(es[i]) <==>
      es[i].scores.Some? && es[i].executions.Some? && es[i].stability && es[i].burst && es[i].consistency);
  }

  // ---- the domains ----

  function AddThree(d: DomainResult, x: (string, bool), y: (string, bool), z: (string, bool)): DomainResult {
    Add(Add(Add(d, x.0, x.1), y.0, y.1), z.0, z.1)
  }

  lemma ThreeNames(d: DomainResult, before: seq<(string, bool)>, c: seq<(string, bool)>)
    requires Names(d, before) && |before| + 3 <= |c| && before == c[..|before|]
    ensures var n := |before|; Names(AddThree(d, c[n], c[n + 1], c[n + 2]), c[..n + 3])
  {
    var n := |before|;
    var one := Add(d, c[n].0, c[n].1);
    AddNames(d, before, c[n].0, c[n].1);
    assert c[..n + 1] == before + [(c[n].0, c[n].1)];
    OneName(one, c, n + 1);
    OneName(Add(one, c[n + 1].0, c[n + 1].1), c, n + 2);
  }

  lemma OneName(d: DomainResult, c: seq<(string, bool)>, n: nat)
    requires n < |c| && Names(d, c[..n])
    ensures Names(Add(d, c[n].0, c[n].1), c[..n + 1])
  {
    AddNames(d, c[..n], c[n].0, c[n].1);
    assert c[..n + 1] == c[..n] + [(c[n].0, c[n].1)];
  }

  /** The scheduler domain is blocked without its sections, and otherwise fails on no executions
      at all, on counts a full execution or more away from the mean, and on missing methodology. */
  lemma SchedulerFailures(r: Report)
    ensures var d := SchedulerResult(r);
            if r.methodology.None? || r.summary.None? || r.endpoints.None? then d == BlockedResult("section absent")
            else Names(d, [("SI-1", r.summary.value.total > 0), ("SI-2", EvenlySpread(r.endpoints.value, r.summary.value)),
                           ("SI-3", r.methodology.value)])
  {
    if r.methodology.Some? && r.summary.Some? && r.endpoints.Some? {
      var s, es := r.summary.value, r.endpoints.value;
      EvenlySpreadIff(es, s);
      var c := [("SI-1", s.total > 0), ("SI-2", EvenlySpread(es, s)), ("SI-3", r.methodology.value)];
      ThreeNames(NONE, [], c);
      assert c[..3] == c;
    }
  }

  /** The coverage domain is blocked without the recorded count or its sections, and otherwise
      fails on endpoints lacking an observation, on counts of endpoints that are not the number
      listed, on a success rate that is no score, and on a total that is not the sum. */
  lemma CoverageFailures(r: Report, recorded: Option<int>)
    ensures var d := CoverageResult(r, recorded);
            if recorded.None? then d == BlockedResult("metadata keys absent")
            else if r.endpoints.None? || r.summary.None? then d == BlockedResult("section absent")
            else
              var s, es := r.summary.value, r.endpoints.value;
              Names(d, [("OC-1", Complete(es)), ("OC-2", s.endpointCount == |es|), ("OC-3", recorded.value == |es|),
                        ("OC-4", Score(s.successRate)), ("OC-5", s.total == SumExecutions(es))])
  {
    if recorded.Some? && r.endpoints.Some? && r.summary.Some? {
      var s, es := r.summary.value, r.endpoints.value;
      ScoreIff(s.successRate);
      CompleteIff(es);
      var c := [("OC-1", Complete(es)), ("OC-2", s.endpointCount == |es|), ("OC-3", recorded.value == |es|),
                ("OC-4", Score(s.successRate)), ("OC-5", s.total == SumExecutions(es))];
      var three := AddThree(NONE, c[0], c[1], c[2]);
      ThreeNames(NONE, [], c);
      OneName(three, c, 3);
      OneName(Add(three, c[3].0, c[3].1), c, 4);
      assert c[..5] == c;
    }
  }

  ghost predicate AllScored(es: seq<Endpoint>) {
    forall i :: 0 <= i < |es| ==> Scored(es[i])
  }

  lemma AllScoredIff(es: seq<Endpoint>)
    ensures AllScored(es) <==> AllScoresInRange(es)
  {
    forall i | 0 <= i < |es| ensures Scored(es[i]) <==> ScoresInRange(es[i]) { ScoredIff(es[i]); }
  }

  /** Endpoint ids in order, each once, none empty. */
  predicate IdsRise(es: seq<Endpoint>) {
    forall i :: 0 <= i < |es| - 1 ==> StringLe(es[i].id, es[i + 1].id)
  }

  predicate IdsDiffer(es: seq<Endpoint>) {
    forall i, j :: 0 <= i < j < |es| ==> es[i].id != es[j].id
  }

  predicate IdsPresent(es: seq<Endpoint>) {
    forall i :: 0 <= i < |es| ==> es[i].id != ""
  }

  /** The nine checks of the integrity domain, and what each of them asks. */
  ghost function IntegrityChecks(r: Report, labels: set<string>, descriptions: set<string>): (c: seq<(string, bool)>)
    requires r.reportVersion.Some? && r.summary.Some? && r.endpoints.Some?
    ensures |c| == 9
  {
    var s, es := r.summary.value, r.endpoints.value;
    [("RI-1", r.reportVersion.value == Some("report_v1")), ("RI-2", r.intelligenceVersion == Some("intel_v1")),
     ("RI-3", s.label_ in labels), ("RI-4", s.composite.Some? && Score(s.composite.value)), ("RI-5", IdsRise(es)),
     ("RI-6", IdsDiffer(es)), ("RI-7", IdsPresent(es)), ("RI-8", AllScored(es)), ("RI-9", s.description in descriptions)]
  }

  function AddNine(c: seq<(string, bool)>): DomainResult
    requires |c| == 9
  {
    AddThree(AddThree(AddThree(NONE, c[0], c[1], c[2]), c[3], c[4], c[5]), c[6], c[7], c[8])
  }

  lemma NineNames(c: seq<(string, bool)>)
    requires |c| == 9
    ensures Names(AddNine(c), c)
  {
    var three := AddThree(NONE, c[0], c[1], c[2]);
    ThreeNames(NONE, [], c);
    LastSix(three, c);
  }

  lemma LastSix(three: DomainResult, c: seq<(string, bool)>)
    requires |c| == 9 && Names(three, c[..3])
    ensures Names(AddThree(AddThree(three, c[3], c[4], c[5]), c[6], c[7], c[8]), c)
  {
    ThreeNames(three, c[..3], c);
    LastThree(AddThree(three, c[3], c[4], c[5]), c);
  }

  lemma LastThree(six: DomainResult, c: seq<(string, bool)>)
    requires |c| == 9 && Names(six, c[..6])
    ensures Names(AddThree(six, c[6], c[7], c[8]), c)
  {
    ThreeNames(six, c[..6], c);
    assert c[..9] == c;
  }

  lemma IntegrityAdds(r: Report, labels: set<string>, descriptions: set<string>)
    requires r.reportVersion.Some? && r.summary.Some? && r.endpoints.Some?
    ensures IntegrityResult(r, labels, descriptions) == AddNine(IntegrityChecks(r, labels, descriptions))
  {
    var s, es := r.summary.value, r.endpoints.value;
    if s.composite.Some? {
      ScoreIff(s.composite.value);
    }
    AllScoredIff(es);
    assert IdsRise(es) <==> SortedIds(es);
    assert IdsDiffer(es) <==> NoDuplicateIds(es);
    assert IdsPresent(es) <==> NoEmptyIds(es);
  }

  /** The integrity domain is blocked without its sections, and otherwise performs nine checks
      and fails on those that do not hold. */
  lemma IntegrityFailures(r: Report, labels: set<string>, descriptions: set<string>)
    ensures var d := IntegrityResult(r, labels, descriptions);
            if r.reportVersion.None? || r.summary.None? || r.endpoints.None? then d == BlockedResult("section absent")
            else Names(d, IntegrityChecks(r, labels, descriptions))
  {
    if r.reportVersion.Some? && r.summary.Some? && r.endpoints.Some? {
      IntegrityAdds(r, labels, descriptions);
      NineNames(IntegrityChecks(r, labels, descriptions));
    }
  }
}
