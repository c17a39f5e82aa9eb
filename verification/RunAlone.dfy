/** An invocation of a run that nobody gets in the way of, from any state. */
module RunAlone {
  import opened Wrappers
  import opened RunRecords
  import opened RunProtocol

  function Solo(st: State, p: nat, answers: seq<Answer>): State
    decreases |answers|
  {
    if answers == [] then st else Next(Solo(st, p, answers[..|answers| - 1]), p, answers[|answers| - 1])
  }

  lemma {:induction false} SoloIsExec(start: State, steps: seq<(nat, Answer)>, p: nat, answers: seq<Answer>)
    returns (more: seq<(nat, Answer)>)
    ensures Solo(Exec(start, steps), p, answers) == Exec(start, steps + more)
    decreases |answers|
  {
    if answers == [] {
      more := [];
      assert steps + more == steps;
    } else {
      var init := SoloIsExec(start, steps, p, answers[..|answers| - 1]);
      var last := answers[|answers| - 1];
      more := init + [(p, last)];
      assert (steps + more)[..|steps + more| - 1] == steps + init;
    }
  }

  lemma Onward(st: State, p: nat, before: seq<Answer>, a: Answer)
    ensures Solo(st, p, before + [a]) == Next(Solo(st, p, before), p, a)
  {
    assert (before + [a])[..|before|] == before;
  }

  /** The invocation has got to pc, with its record and the evidence of its run as given. */
  ghost predicate At(st: State, u: State, p: nat, pc: PC, rec: Option<Rec>, stored: Option<Evidence>)
    requires p in st.procs
  {
    var ref := st.procs[p].ref;
    && u.procs == st.procs[p := Proc(ref, pc)]
    && u.records == (if rec.Some? then st.records[ref := rec.value] else st.records)
    && u.evidence == (if stored.Some? then st.evidence[KeyOf(ref) := stored.value] else st.evidence)
  }

  /** Nothing of the run is stored yet. */
  predicate New(st: State, ref: RunRef) {
    ref !in st.records && KeyOf(ref) !in st.evidence
  }

  const PREFLIGHT: seq<Answer> := [Ack(false)] + [Seen(false)] + [Ack(false)]

  lemma Heads(st: State, p: nat)
    requires p in st.procs && st.procs[p].pc == HeadEvidence && KeyOf(st.procs[p].ref) !in st.evidence
    ensures At(st, Next(st, p, Ack(false)), p, ReadRecord, None, None)
  {
  }

  lemma Looks(st: State, u: State, p: nat)
    requires p in st.procs && At(st, u, p, ReadRecord, None, None) && st.procs[p].ref !in st.records
    ensures At(st, Next(u, p, Seen(false)), p, PutStarted, None, None)
  {
  }

  lemma Starts(st: State, u: State, p: nat)
    requires p in st.procs && At(st, u, p, PutStarted, None, None) && st.procs[p].ref !in st.records
    ensures At(st, Next(u, p, Ack(false)), p, Execute, Some(Rec(Started, None)), None)
  {
  }

  lemma Raises(st: State, u: State, p: nat)
    requires p in st.procs && At(st, u, p, Execute, Some(Rec(Started, None)), None)
    ensures At(st, Next(u, p, Error), p, MarkFailed, Some(Rec(Started, None)), None)
  {
  }

  lemma Fails(st: State, u: State, p: nat)
    requires p in st.procs && At(st, u, p, MarkFailed, Some(Rec(Started, None)), None)
    ensures At(st, Next(u, p, Ack(false)), p, Done, Some(Rec(Failed, None)), None)
  {
  }

  /** A run of which nothing is stored gets its record. */
  lemma Begins(st: State, p: nat)
    requires p in st.procs && st.procs[p].pc == HeadEvidence && New(st, st.procs[p].ref)
    ensures At(st, Solo(st, p, PREFLIGHT), p, Execute, Some(Rec(Started, None)), None)
  {
    var one := [Ack(false)];
    Onward(st, p, [], Ack(false));
    assert [] + one == one && Solo(st, p, []) == st;
    Heads(st, p);
    Onward(st, p, one, Seen(false));
    Looks(st, Solo(st, p, one), p);
    var two := one + [Seen(false)];
    Starts(st, Solo(st, p, two), p);
    Onward(st, p, two, Ack(false));
  }

  lemma Executes(st: State, u: State, p: nat, results: seq<EndpointResult>)
    requires p in st.procs && At(st, u, p, Execute, Some(Rec(Started, None)), None) && results != []
    ensures At(st, Next(u, p, Ran(results)), p, HeadAgain(results), Some(Rec(Started, None)), None)
  {
  }

  lemma LooksAgain(st: State, u: State, p: nat, results: seq<EndpointResult>)
    requires p in st.procs && At(st, u, p, HeadAgain(results), Some(Rec(Started, None)), None)
    requires KeyOf(st.procs[p].ref) !in st.evidence
    ensures At(st, Next(u, p, Ack(false)), p, PutEvidence(results), Some(Rec(Started, None)), None)
  {
  }

  lemma Stores(st: State, u: State, p: nat, results: seq<EndpointResult>)
    requires p in st.procs && At(st, u, p, PutEvidence(results), Some(Rec(Started, None)), None)
    ensures var ref := st.procs[p].ref;
            At(st, Next(u, p, Ack(false)), p, MarkCompleted, Some(Rec(Started, None)),
               Some(Evidence("v1", ref.client, ref.audit, ref.run, results)))
  {
  }

  lemma Records(st: State, u: State, p: nat, stored: Evidence)
    requires p in st.procs && At(st, u, p, MarkCompleted, Some(Rec(Started, None)), Some(stored))
    ensures At(st, Next(u, p, Ack(false)), p, Done, Some(Rec(Completed, Some(KeyOf(st.procs[p].ref)))), Some(stored))
  {
  }

  function Answers(results: seq<EndpointResult>): seq<Answer> {
    PREFLIGHT + [Ran(results)] + [Ack(false)] + [Ack(false)] + [Ack(false)]
  }

  /** An invocation of a run of which nothing is stored, with no call failing: its results are
      stored as they are, under the evidence key, and its record says COMPLETED and names that
      key. */
  lemma CompletesAlone(st: State, p: nat, results: seq<EndpointResult>)
    requires p in st.procs && st.procs[p].pc == HeadEvidence && New(st, st.procs[p].ref) && results != []
    ensures var ref := st.procs[p].ref;
            At(st, Solo(st, p, Answers(results)), p, Done, Some(Rec(Completed, Some(EvidenceKey(ref.client, ref.audit, ref.run)))),
               Some(Evidence("v1", ref.client, ref.audit, ref.run, results)))
  {
    var ref := st.procs[p].ref;
    Begins(st, p);
    Executes(st, Solo(st, p, PREFLIGHT), p, results);
    Onward(st, p, PREFLIGHT, Ran(results));
    var ran := PREFLIGHT + [Ran(results)];
    LooksAgain(st, Solo(st, p, ran), p, results);
    Onward(st, p, ran, Ack(false));
    var looked := ran + [Ack(false)];
    Stores(st, Solo(st, p, looked), p, results);
    Onward(st, p, looked, Ack(false));
    var stored := looked + [Ack(false)];
    Records(st, Solo(st, p, stored), p, Evidence("v1", ref.client, ref.audit, ref.run, results));
    Onward(st, p, stored, Ack(false));
  }

  /** One whose execution raises ends with a FAILED record and no evidence. */
  lemma FailsAlone(st: State, p: nat)
    requires p in st.procs && st.procs[p].pc == HeadEvidence && New(st, st.procs[p].ref)
    ensures At(st, Solo(st, p, PREFLIGHT + [Error] + [Ack(false)]), p, Done, Some(Rec(Failed, None)), None)
  {
    Begins(st, p);
    Onward(st, p, PREFLIGHT, Error);
    var raised := PREFLIGHT + [Error];
    Raises(st, Solo(st, p, PREFLIGHT), p);
    Fails(st, Solo(st, p, raised), p);
    Onward(st, p, raised, Ack(false));
  }

  /** One that finds its evidence or its record ends without storing anything. */
  lemma StopsAlone(st: State, p: nat)
    requires p in st.procs && st.procs[p].pc == HeadEvidence && !New(st, st.procs[p].ref)
    ensures At(st, Solo(st, p, [Ack(false)] + [Seen(false)]), p, Done, None, None)
  {
    var one := [Ack(false)];
    Onward(st, p, [], Ack(false));
    assert [] + one == one && Solo(st, p, []) == st;
    Onward(st, p, one, Seen(false));
  }

  /** So it is whatever other invocations have done before. */
  lemma AnyInvocationEnds(start: State, steps: seq<(nat, Answer)>, p: nat, results: seq<EndpointResult>)
    returns (more: seq<(nat, Answer)>)
    requires p in Exec(start, steps).procs && Exec(start, steps).procs[p].pc == HeadEvidence && results != []
    ensures var st, u := Exec(start, steps), Exec(start, steps + more);
            var ref := st.procs[p].ref;
            if New(st, ref)
            then At(st, u, p, Done, Some(Rec(Completed, Some(EvidenceKey(ref.client, ref.audit, ref.run)))),
                    Some(Evidence("v1", ref.client, ref.audit, ref.run, results)))
            else At(st, u, p, Done, None, None)
  {
    var st := Exec(start, steps);
    if New(st, st.procs[p].ref) {
      CompletesAlone(st, p, results);
      more := SoloIsExec(start, steps, p, Answers(results));
    } else {
      StopsAlone(st, p);
      more := SoloIsExec(start, steps, p, [Ack(false)] + [Seen(false)]);
    }
  }
}
