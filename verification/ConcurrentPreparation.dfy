/** Any interleaving of prepare calls over one reservation table: the lock makes each check
    one step, and everything between two checks is local to a call. */
module ConcurrentPreparation {
  import opened Wrappers
  import opened TemplatePaths
  import opened TemplateRendering
  import opened TemplateDeterminism
  import opened PayloadGeneration
  import opened PayloadPrints

  datatype PC =
    | AtRecord
    | AtPayload(payload: Json<Rendered>, recordTaken: bool)
    | Ended(outcome: Outcome)

  datatype Call = Call(request: Request, attempt: nat, seen: bool, pc: PC)

  datatype State = State(table: Table, calls: map<nat, Call>)

  /** Build the payload of the attempt and check the data-pool record. */
  function RecordStep(t: Table, i: nat, c: Call): (Table, Call) {
    match Build(c.request, c.attempt)
    case Err(f) => (t, c.(pc := Ended(Rejected(f))))
    case Ok(p) =>
      (ReserveRecord(c.request, t, Holder(i, c.attempt)),
       c.(pc := AtPayload(p, ChecksRecord(c.request) && RecordPrintOf(c.request) in t)))
  }

  /** Check the payload and decide the attempt. */
  function PayloadStep(t: Table, i: nat, c: Call): (Table, Call)
    requires c.pc.AtPayload?
  {
    var r, p := c.request, c.pc.payload;
    var u := ReservePayload(r, t, p, Holder(i, c.attempt));
    var duplicate := c.pc.recordTaken || (!Bypasses(r.endpoint) && PrintOf(r, p) in t);
    var seen := c.seen || duplicate;
    if !duplicate then (u, c.(seen := seen, pc := Ended(Prepared(p, c.attempt, seen, false))))
    else if r.endpoint.policy.Allow? then (u, c.(seen := seen, pc := Ended(Prepared(p, c.attempt, seen, true))))
    else if r.endpoint.policy.FailFast? then (u, c.(seen := seen, pc := Ended(Rejected(Duplicate))))
    else if c.attempt + 1 > MaxAttempts(r.endpoint) then (u, c.(seen := seen, pc := Ended(Rejected(Exhausted))))
    else (u, c.(seen := seen, attempt := c.attempt + 1, pc := AtRecord))
  }

  function CallStep(t: Table, i: nat, c: Call): (Table, Call) {
    match c.pc
    case AtRecord => RecordStep(t, i, c)
    case AtPayload(_, _) => PayloadStep(t, i, c)
    case Ended(_) => (t, c)
  }

  function Next(st: State, i: nat): State {
    if i !in st.calls then st
    else
      var (t, c) := CallStep(st.table, i, st.calls[i]);
      State(t, st.calls[i := c])
  }

  function Exec(st: State, schedule: seq<nat>): State
    decreases |schedule|
  {
    if schedule == [] then st else Next(Exec(st, schedule[..|schedule| - 1]), schedule[|schedule| - 1])
  }

  ghost predicate Initial(st: State) {
    st.table == map[] && forall i :: i in st.calls ==>
      st.calls[i].pc.AtRecord? && st.calls[i].attempt == 1 && !st.calls[i].seen
  }

  // ---- the invariant ----

  predicate Holds(t: Table, p: Print, i: nat, attempt: nat) {
    p in t && t[p] == Holder(i, attempt)
  }

  predicate RecordReserved(t: Table, r: Request) {
    ChecksRecord(r) ==> RecordPrintOf(r) in t
  }

  predicate RecordHeld(t: Table, r: Request, i: nat, attempt: nat) {
    ChecksRecord(r) ==> Holds(t, RecordPrintOf(r), i, attempt)
  }

  predicate PayloadHeld(t: Table, r: Request, p: Json<Rendered>, i: nat, attempt: nat) {
    !Bypasses(r.endpoint) ==> Holds(t, PrintOf(r, p), i, attempt)
  }

  predicate Tried(t: Table, r: Request, attempt: nat) {
    Build(r, attempt).Ok? && PrintOf(r, Build(r, attempt).value) in t
  }

  /** Every earlier attempt built a payload whose print is taken. */
  ghost predicate Past(t: Table, c: Call) {
    && 1 <= c.attempt
    && (c.attempt > 1 ==> !Bypasses(c.request.endpoint) && RecordReserved(t, c.request))
    && forall j :: 1 <= j < c.attempt ==> Tried(t, c.request, j)
  }

  ghost predicate Fresh(c: Call, p: Json<Rendered>) {
    forall j :: 1 <= j < c.attempt ==>
      Build(c.request, j).Ok? && PrintOf(c.request, Build(c.request, j).value) != PrintOf(c.request, p)
  }

  ghost predicate OutcomeOk(t: Table, i: nat, c: Call, o: Outcome) {
    o.Prepared? ==>
      && o.attempt == c.attempt && Build(c.request, c.attempt) == Ok(o.payload)
      && (!o.allowed ==>
            && PayloadHeld(t, c.request, o.payload, i, c.attempt)
            && RecordHeld(t, c.request, i, c.attempt)
            && Fresh(c, o.payload)
            && (c.attempt > 1 ==> !ChecksRecord(c.request))
            && (o.duplicateSeen <==> c.attempt > 1))
  }

  ghost predicate CallOk(t: Table, i: nat, c: Call) {
    && Past(t, c)
    && match c.pc
       case AtRecord => c.seen <==> c.attempt > 1
       case AtPayload(p, taken) =>
         && Build(c.request, c.attempt) == Ok(p)
         && (c.seen <==> c.attempt > 1)
         && RecordReserved(t, c.request)
         && (!taken ==> RecordHeld(t, c.request, i, c.attempt) && (c.attempt > 1 ==> !ChecksRecord(c.request)))
         && (taken ==> ChecksRecord(c.request))
       case Ended(o) => OutcomeOk(t, i, c, o)
  }

  ghost predicate Inv(st: State) {
    forall i :: i in st.calls ==> CallOk(st.table, i, st.calls[i])
  }

  ghost predicate Grows(t: Table, u: Table) {
    forall p :: p in t ==> p in u && u[p] == t[p]
  }

  lemma CallStable(t: Table, u: Table, i: nat, c: Call)
    requires Grows(t, u) && CallOk(t, i, c)
    ensures CallOk(u, i, c)
  {
    forall j | 1 <= j < c.attempt ensures Tried(u, c.request, j) {
      assert Tried(t, c.request, j);
    }
    assert Past(u, c);
  }

  lemma RecordStepOk(t: Table, i: nat, c: Call)
    requires CallOk(t, i, c) && c.pc.AtRecord?
    ensures var (u, d) := RecordStep(t, i, c); Grows(t, u) && CallOk(u, i, d)
  {
    var (u, d) := RecordStep(t, i, c);
    CallStable(t, u, i, c);
    assert Past(u, d);
  }

  lemma PayloadStepOk(t: Table, i: nat, c: Call)
    requires CallOk(t, i, c) && c.pc.AtPayload?
    ensures var (u, d) := PayloadStep(t, i, c); Grows(t, u) && CallOk(u, i, d)
  {
    var (u, d) := PayloadStep(t, i, c);
    CallStable(t, u, i, c);
    var p := c.pc.payload;
    if d.pc.AtRecord? {
      PastExtends(u, c, d);
    } else {
      assert Past(u, d);
      if d.pc.outcome.Prepared? && !d.pc.outcome.allowed {
        FreshPayload(t, c, p);
      }
    }
  }

  lemma FreshPayload(t: Table, c: Call, p: Json<Rendered>)
    requires Past(t, c) && (Bypasses(c.request.endpoint) || PrintOf(c.request, p) !in t)
    ensures Fresh(c, p)
  {
    forall j | 1 <= j < c.attempt
      ensures Build(c.request, j).Ok? && PrintOf(c.request, Build(c.request, j).value) != PrintOf(c.request, p)
    {
      assert Tried(t, c.request, j);
    }
  }

  lemma PastExtends(u: Table, c: Call, d: Call)
    requires Past(u, c) && d.request == c.request && d.attempt == c.attempt + 1
    requires Tried(u, c.request, c.attempt) && !Bypasses(c.request.endpoint) && RecordReserved(u, c.request)
    ensures Past(u, d)
  {
    forall j | 1 <= j < d.attempt ensures Tried(u, d.request, j) {
      assert j < c.attempt ==> Tried(u, c.request, j);
    }
  }

  lemma StepKeepsInv(st: State, i: nat)
    requires Inv(st)
    ensures Inv(Next(st, i)) && Grows(st.table, Next(st, i).table)
  {
    if i in st.calls {
      var c := st.calls[i];
      assert CallOk(st.table, i, c);
      match c.pc {
        case AtRecord => RecordStepOk(st.table, i, c);
        case AtPayload(_, _) => PayloadStepOk(st.table, i, c);
        case Ended(_) =>
      }
      var u := Next(st, i);
      forall j | j in u.calls ensures CallOk(u.table, j, u.calls[j]) {
        if j != i {
          CallStable(st.table, u.table, j, st.calls[j]);
        }
      }
    }
  }

  lemma {:induction false} Reachable(st: State, schedule: seq<nat>)
    requires Initial(st)
    ensures Inv(Exec(st, schedule))
    decreases |schedule|
  {
    if schedule != [] {
      Reachable(st, schedule[..|schedule| - 1]);
      StepKeepsInv(Exec(st, schedule[..|schedule| - 1]), schedule[|schedule| - 1]);
    }
  }

  // ---- what callers may rely on ----

  predicate Succeeded(c: Call) {
    c.pc.Ended? && c.pc.outcome.Prepared? && !c.pc.outcome.allowed
  }

  /** Successful calls that are neither bypassed nor allowed as duplicates never share a
      payload fingerprint. */
  lemma PayloadsDistinct(st: State, schedule: seq<nat>, i: nat, j: nat)
    requires Initial(st) && i != j
    requires var cs := Exec(st, schedule).calls;
             && i in cs && j in cs && Succeeded(cs[i]) && Succeeded(cs[j])
             && !Bypasses(cs[i].request.endpoint) && !Bypasses(cs[j].request.endpoint)
    ensures var cs := Exec(st, schedule).calls;
            PrintOf(cs[i].request, cs[i].pc.outcome.payload) != PrintOf(cs[j].request, cs[j].pc.outcome.payload)
  {
    Reachable(st, schedule);
    var end := Exec(st, schedule);
    assert CallOk(end.table, i, end.calls[i]) && CallOk(end.table, j, end.calls[j]);
  }

  /** The same for the fingerprints of data-pool records that may not be reused. */
  lemma RecordsDistinct(st: State, schedule: seq<nat>, i: nat, j: nat)
    requires Initial(st) && i != j
    requires var cs := Exec(st, schedule).calls;
             && i in cs && j in cs && Succeeded(cs[i]) && Succeeded(cs[j])
             && ChecksRecord(cs[i].request) && ChecksRecord(cs[j].request)
    ensures var cs := Exec(st, schedule).calls;
            RecordPrintOf(cs[i].request) != RecordPrintOf(cs[j].request)
  {
    Reachable(st, schedule);
    var end := Exec(st, schedule);
    assert CallOk(end.table, i, end.calls[i]) && CallOk(end.table, j, end.calls[j]);
  }

  /** A retry succeeds after the first attempt only through a uuid token under no sensitive key
      of the template, and never for a data-pool record that may not be reused. */
  lemma RetriesNeedUuid(st: State, schedule: seq<nat>, i: nat)
    requires Initial(st)
    requires var cs := Exec(st, schedule).calls;
             i in cs && Succeeded(cs[i]) && cs[i].pc.outcome.attempt > 1 && ValidOrigin(cs[i].request.origin)
    ensures var c := Exec(st, schedule).calls[i];
            TemplateShowsUuid(c.request) && !ChecksRecord(c.request) && c.pc.outcome.duplicateSeen
  {
    Reachable(st, schedule);
    var end := Exec(st, schedule);
    var c := end.calls[i];
    assert CallOk(end.table, i, c);
    assert Build(c.request, 1).Ok? && Build(c.request, c.attempt) == Ok(c.pc.outcome.payload);
    if !TemplateShowsUuid(c.request) {
      HiddenUuidsUnchanging(c.request);
    }
  }

  // ---- a call by itself ----

  /** n steps of call i with nobody in between. */
  function Alone(st: State, i: nat, n: nat): State
    decreases n
  {
    if n == 0 then st else Alone(Next(st, i), i, n - 1)
  }

  /** The two steps of one attempt. */
  lemma OneAttempt(st: State, i: nat, p: Json<Rendered>)
    requires i in st.calls && st.calls[i].pc.AtRecord? && Build(st.calls[i].request, st.calls[i].attempt) == Ok(p)
    ensures var c := st.calls[i];
            var taken := ChecksRecord(c.request) && RecordPrintOf(c.request) in st.table;
            var (t, d) := PayloadStep(ReserveRecord(c.request, st.table, Holder(i, c.attempt)), i, c.(pc := AtPayload(p, taken)));
            Next(Next(st, i), i) == State(t, st.calls[i := d])
  {
  }

  /** They do what the retry loop does in one round: end the call, or go on to the next. */
  lemma RoundIsAttempt(t0: Table, i: nat, c: Call, p: Json<Rendered>)
    requires c.pc.AtRecord? && Build(c.request, c.attempt) == Ok(p) && 1 <= c.attempt <= MaxAttempts(c.request.endpoint)
    ensures var taken := ChecksRecord(c.request) && RecordPrintOf(c.request) in t0;
            var (t, d) := PayloadStep(ReserveRecord(c.request, t0, Holder(i, c.attempt)), i, c.(pc := AtPayload(p, taken)));
            var whole := PrepareFrom(c.request, t0, i, c.attempt, c.seen);
            && (d.pc.Ended? ==> whole == Preparation(d.pc.outcome, t))
            && (!d.pc.Ended? ==> d == c.(seen := true, attempt := c.attempt + 1)
                                 && c.attempt < MaxAttempts(c.request.endpoint)
                                 && whole == PrepareFrom(c.request, t, i, c.attempt + 1, true))
  {
  }

  /** Left alone, a call does what the retry loop of the sequential service does. */
  lemma {:induction false} AloneIsPrepare(st: State, i: nat) returns (n: nat)
    requires i in st.calls && st.calls[i].pc.AtRecord?
    requires 1 <= st.calls[i].attempt <= MaxAttempts(st.calls[i].request.endpoint)
    ensures var c := st.calls[i];
            var result := PrepareFrom(c.request, st.table, i, c.attempt, c.seen);
            var end := Alone(st, i, n);
            && i in end.calls && end.calls[i].pc == Ended(result.outcome) && end.table == result.table
            && forall j :: j in st.calls && j != i ==> j in end.calls && end.calls[j] == st.calls[j]
    decreases MaxAttempts(st.calls[i].request.endpoint) - st.calls[i].attempt
  {
    var c := st.calls[i];
    var one := Next(st, i);
    assert Alone(one, i, 0) == one;
    if Build(c.request, c.attempt).Err? {
      n := 1;
    } else {
      OneAttempt(st, i, Build(c.request, c.attempt).value);
      RoundIsAttempt(st.table, i, c, Build(c.request, c.attempt).value);
      var two := Next(one, i);
      assert Alone(two, i, 0) == two && Alone(one, i, 1) == two;
      n := 2;
      if two.calls[i].pc.AtRecord? {
        var more := AloneIsPrepare(two, i);
        assert Alone(one, i, more + 1) == Alone(two, i, more);
        n := more + 2;
      }
    }
  }
}
