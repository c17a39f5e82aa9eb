/** Which attempt of a call succeeds, told by the table the call met. */
module PayloadRetries {
  import opened Wrappers
  import opened TemplateRendering
  import opened RenderedPayloads
  import opened PayloadGeneration

  /** Attempt n of a call over table t finds its prints free, also of what its own earlier
      attempts reserved. The record counts for data-pool requests without reuse, the payload
      for all but a static null one of a GET or HEAD request. */
  ghost predicate FreeAt(r: Request, t: Table, n: nat) {
    var e := r.endpoint;
    && Build(r, n).Ok?
    && (e.strategy.DataPool? && r.record.Some? && !e.strategy.allowReuse ==> n == 1 && RecordPrintOf(r) !in t)
    && (!(e.strategy.Static? && e.strategy.payload.Null? && e.safeMethod) ==>
          PrintOf(r, Build(r, n).value) !in t && forall j :: 1 <= j < n ==> !Repeats(r, j, n))
  }

  predicate Repeats(r: Request, j: nat, n: nat) {
    Build(r, j).Ok? && Build(r, n).Ok? && PrintOf(r, Build(r, j).value) == PrintOf(r, Build(r, n).value)
  }

  ghost predicate FirstFree(r: Request, t: Table, n: nat) {
    1 <= n && FreeAt(r, t, n) && forall j :: 1 <= j < n ==> !FreeAt(r, t, j)
  }

  /** The first free of five attempts, or none. */
  ghost predicate Regenerated(r: Request, t: Table, o: Outcome) {
    if exists m :: 1 <= m <= 5 && FreeAt(r, t, m)
    then o.Prepared? && o.attempt <= 5 && FirstFree(r, t, o.attempt) && !o.allowed && (o.duplicateSeen <==> o.attempt > 1)
    else o == Rejected(Exhausted)
  }

  /** A payload builds on all attempts or on none. */
  lemma BuildsAlways(r: Request, a: nat, b: nat)
    ensures Build(r, a).Ok? <==> Build(r, b).Ok?
  {
    BuildsIff(r, a);
    BuildsIff(r, b);
    match r.endpoint.strategy
    case Static(_) =>
    case Generated(v) => RenderableSame(v, ContextOf(r, a), ContextOf(r, b));
    case DataPool(body, _) =>
      if body.Some? {
        RenderableSame(body.value, ContextOf(r, a), ContextOf(r, b));
      }
  }

  /** The prints in the table before attempt n: those the call met, and its own. */
  ghost predicate TableBefore(r: Request, t: Table, u: Table, n: nat) {
    forall p :: p in u <==> p in t || Own(r, p, n)
  }

  ghost predicate Own(r: Request, p: Print, n: nat) {
    || (n > 1 && ChecksRecord(r) && p == RecordPrintOf(r))
    || (!Bypasses(r.endpoint) && exists j :: 1 <= j < n && Build(r, j).Ok? && p == PrintOf(r, Build(r, j).value))
  }

  lemma TakenIff(r: Request, t: Table, u: Table, n: nat)
    requires 1 <= n && Build(r, n).Ok? && TableBefore(r, t, u, n)
    ensures Taken(r, u, Build(r, n).value) <==> !FreeAt(r, t, n)
  {
    var p := Build(r, n).value;
    if ChecksRecord(r) {
      assert RecordPrintOf(r) in u <==> RecordPrintOf(r) in t || Own(r, RecordPrintOf(r), n);
    }
    assert PrintOf(r, p) in u <==> PrintOf(r, p) in t || Own(r, PrintOf(r, p), n);
    assert (exists j :: 1 <= j < n && Repeats(r, j, n))
      <==> (exists j :: 1 <= j < n && Build(r, j).Ok? && PrintOf(r, p) == PrintOf(r, Build(r, j).value)) by {
      forall j | 1 <= j < n
        ensures Repeats(r, j, n) <==> Build(r, j).Ok? && PrintOf(r, p) == PrintOf(r, Build(r, j).value) {
      }
    }
  }

  lemma ReservedBefore(r: Request, t: Table, u: Table, n: nat, h: Holder)
    requires 1 <= n && Build(r, n).Ok? && TableBefore(r, t, u, n)
    ensures TableBefore(r, t, ReservePayload(r, ReserveRecord(r, u, h), Build(r, n).value, h), n + 1)
  {
    var p, v := Build(r, n).value, ReservePayload(r, ReserveRecord(r, u, h), Build(r, n).value, h);
    forall x ensures x in v <==> x in t || Own(r, x, n + 1) {
      assert x in u <==> x in t || Own(r, x, n);
      assert Own(r, x, n + 1) <==> Own(r, x, n) || (ChecksRecord(r) && x == RecordPrintOf(r))
                                   || (!Bypasses(r.endpoint) && x == PrintOf(r, p)) by {
        OwnNext(r, x, n);
      }
    }
  }

  lemma OwnNext(r: Request, x: Print, n: nat)
    requires 1 <= n && Build(r, n).Ok?
    ensures Own(r, x, n + 1) <==> Own(r, x, n) || (ChecksRecord(r) && x == RecordPrintOf(r))
                                  || (!Bypasses(r.endpoint) && x == PrintOf(r, Build(r, n).value))
  {
  }

  /** The table after attempt n. */
  function TableAfter(r: Request, u: Table, caller: nat, n: nat): Table
    requires Build(r, n).Ok?
  {
    var h := Holder(caller, n);
    ReservePayload(r, ReserveRecord(r, u, h), Build(r, n).value, h)
  }

  /** What comes of attempt n and those after it. */
  function Tried(r: Request, u: Table, caller: nat, n: nat, seen: bool): Outcome
    requires Build(r, n).Ok?
  {
    if Taken(r, u, Build(r, n).value) then PrepareFrom(r, TableAfter(r, u, caller, n), caller, n + 1, true).outcome
    else Prepared(Build(r, n).value, n, seen, false)
  }

  lemma OneTry(r: Request, u: Table, caller: nat, n: nat, seen: bool)
    requires r.endpoint.policy.Regenerate? && Build(r, n).Ok?
    ensures n > 5 ==> PrepareFrom(r, u, caller, n, seen).outcome == Rejected(Exhausted)
    ensures n <= 5 ==> PrepareFrom(r, u, caller, n, seen).outcome == Tried(r, u, caller, n, seen)
  {
  }

  lemma Found(r: Request, t: Table, n: nat)
    requires 1 <= n <= 5 && FreeAt(r, t, n) && forall j :: 1 <= j < n ==> !FreeAt(r, t, j)
    ensures Regenerated(r, t, Prepared(Build(r, n).value, n, n > 1, false))
  {
  }

  lemma NoneFound(r: Request, t: Table)
    requires forall j :: 1 <= j < 6 ==> !FreeAt(r, t, j)
    ensures Regenerated(r, t, Rejected(Exhausted))
  {
  }

  lemma {:induction false} RetriesFrom(r: Request, t: Table, u: Table, caller: nat, n: nat)
    requires r.endpoint.policy.Regenerate? && 1 <= n <= 6 && Build(r, 1).Ok?
    requires TableBefore(r, t, u, n) && forall j :: 1 <= j < n ==> !FreeAt(r, t, j)
    ensures Regenerated(r, t, PrepareFrom(r, u, caller, n, n > 1).outcome)
    decreases 6 - n
  {
    BuildsAlways(r, 1, n);
    OneTry(r, u, caller, n, n > 1);
    if n == 6 {
      NoneFound(r, t);
    } else {
      TakenIff(r, t, u, n);
      if Taken(r, u, Build(r, n).value) {
        ReservedBefore(r, t, u, n, Holder(caller, n));
        RetriesFrom(r, t, TableAfter(r, u, caller, n), caller, n + 1);
      } else {
        Found(r, t, n);
      }
    }
  }

  /** A call under regenerate returns the first of its five attempts that is free, and says it
      saw a duplicate when that is a later one; without a free one it is exhausted. Under the
      other policies there is one attempt: free, it is returned; taken, it is returned as an
      allowed duplicate or rejected. What cannot be built is rejected at once. */
  lemma OutcomeByTable(r: Request, t: Table, caller: nat)
    ensures var o := PrepareFrom(r, t, caller, 1, false).outcome;
            if Build(r, 1).Err? then o == Rejected(Build(r, 1).error)
            else
              match r.endpoint.policy
              case Regenerate => Regenerated(r, t, o)
              case FailFast =>
                o == if FreeAt(r, t, 1) then Prepared(Build(r, 1).value, 1, false, false) else Rejected(Duplicate)
              case Allow =>
                o == if FreeAt(r, t, 1) then Prepared(Build(r, 1).value, 1, false, false)
                     else Prepared(Build(r, 1).value, 1, true, true)
  {
    if Build(r, 1).Ok? {
      assert TableBefore(r, t, t, 1);
      TakenIff(r, t, t, 1);
      if r.endpoint.policy.Regenerate? {
        RetriesFrom(r, t, t, caller, 1);
      }
    }
  }
}
