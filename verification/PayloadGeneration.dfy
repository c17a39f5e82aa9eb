/** Duplicate-free payload preparation: attempts at building a payload, each reserved in a
    table shared by all callers of a run. */
module PayloadGeneration {
  import opened Wrappers
  import opened Ordering
  import opened Redaction
  import opened TemplatePaths
  import opened TemplateTokens
  import opened TemplateRendering
  import opened TemplateDeterminism
  import opened RenderedPayloads

  const MAX_GENERATION_ATTEMPTS: nat := 5

  datatype Policy = Regenerate | FailFast | Allow

  datatype Strategy =
    | Static(payload: Json<string>)
    | Generated(template: Json<string>)
    | DataPool(body: Option<Json<string>>, allowReuse: bool)

  /** `safeMethod` says the method is GET or HEAD. */
  datatype Endpoint = Endpoint(id: string, strategy: Strategy, policy: Policy, safeMethod: bool)

  /** One call: the endpoint, where and for which iteration, the data-pool record that the
      selection picks, when there is one, and the sanitizer's patterns. */
  datatype Request = Request(
    endpoint: Endpoint, origin: Origin, timestamp: string, record: Option<Json<string>>, patterns: Patterns)

  /** Fingerprints are hashes of the canonical JSON of the sanitized value, kept as their
      preimages. The table keys payload and data-pool prints apart. */
  datatype Print = PayloadPrint(canonical: Json<Rendered>) | RecordPrint(canonicalRecord: Json<string>)

  function FieldLe<T>(): (Field<T>, Field<T>) -> bool {
    (a: Field<T>, b: Field<T>) => StringLe(a.key, b.key)
  }

  /** Objects with their keys in order, at every level. */
  function Canonical<T>(v: Json<T>): Json<T> {
    match v
    case Arr(items) => Arr(seq(|items|, i requires 0 <= i < |items| => Canonical(items[i])))
    case Obj(fields) =>
      Obj(Sort(seq(|fields|, i requires 0 <= i < |fields| => Field(fields[i].key, Canonical(fields[i].value))), FieldLe()))
    case _ => v
  }

  function PrintOf(r: Request, payload: Json<Rendered>): Print {
    PayloadPrint(Canonical(Sanitized(payload, r.patterns.rendered, Plainly(REDACTION_TOKEN))))
  }

  function RecordPrintOf(r: Request): Print
    requires r.record.Some?
  {
    RecordPrint(Canonical(Sanitized(r.record.value, r.patterns.plain, REDACTION_TOKEN)))
  }

  datatype Failure = Unbuildable(error: Error) | NoPool | Duplicate | Exhausted

  datatype Outcome =
    | Prepared(payload: Json<Rendered>, attempt: nat, duplicateSeen: bool, allowed: bool)
    | Rejected(failure: Failure)

  function ContextOf(r: Request, attempt: nat): Context {
    Context(r.origin, r.timestamp, attempt, if r.endpoint.strategy.DataPool? then r.record else None,
            r.endpoint.strategy.DataPool?)
  }

  function Rendering(template: Json<string>, ctx: Context): Result<Json<Rendered>, Failure> {
    match Render(template, ctx, "$")
    case Ok(p) => Ok(p)
    case Err(e) => Err(Unbuildable(e))
  }

  /** The payload of one attempt. */
  function Build(r: Request, attempt: nat): Result<Json<Rendered>, Failure> {
    match r.endpoint.strategy
    case Static(p) => Ok(Literal(p))
    case Generated(t) => Rendering(t, ContextOf(r, attempt))
    case DataPool(body, _) =>
      if r.record.None? then Err(NoPool)
      else if body.None? then Ok(Literal(r.record.value))
      else Rendering(body.value, ContextOf(r, attempt))
  }

  function MaxAttempts(e: Endpoint): (n: nat)
    ensures n >= 1
  {
    if e.policy.Regenerate? then MAX_GENERATION_ATTEMPTS else 1
  }

  predicate ChecksRecord(r: Request) {
    r.endpoint.strategy.DataPool? && r.record.Some? && !r.endpoint.strategy.allowReuse
  }

  /** A static null payload of a GET or HEAD request is not checked. */
  predicate Bypasses(e: Endpoint) {
    e.strategy.Static? && e.strategy.payload.Null? && e.safeMethod
  }

  /** Who reserved a print: the caller and its attempt. */
  datatype Holder = Holder(caller: nat, attempt: nat)

  type Table = map<Print, Holder>

  /** check_and_reserve: the first caller gets the reservation, everyone after it a duplicate. */
  function Reserve(t: Table, p: Print, h: Holder): Table {
    if p in t then t else t[p := h]
  }

  // ---- one call by itself ----

  function ReserveRecord(r: Request, t: Table, h: Holder): Table {
    if ChecksRecord(r) then Reserve(t, RecordPrintOf(r), h) else t
  }

  function ReservePayload(r: Request, t: Table, p: Json<Rendered>, h: Holder): Table {
    if Bypasses(r.endpoint) then t else Reserve(t, PrintOf(r, p), h)
  }

  /** Whether an attempt finds one of its prints taken. */
  predicate Taken(r: Request, t: Table, p: Json<Rendered>) {
    (ChecksRecord(r) && RecordPrintOf(r) in t) || (!Bypasses(r.endpoint) && PrintOf(r, p) in t)
  }

  datatype Preparation = Preparation(outcome: Outcome, table: Table)

  function PrepareFrom(r: Request, t: Table, caller: nat, attempt: nat, seen: bool): Preparation
    decreases MaxAttempts(r.endpoint) - attempt
  {
    if attempt > MaxAttempts(r.endpoint) then Preparation(Rejected(Exhausted), t)
    else
      match Build(r, attempt)
      case Err(f) => Preparation(Rejected(f), t)
      case Ok(p) =>
        var h := Holder(caller, attempt);
        var u := ReservePayload(r, ReserveRecord(r, t, h), p, h);
        if !Taken(r, t, p) then Preparation(Prepared(p, attempt, seen, false), u)
        else if r.endpoint.policy.Allow? then Preparation(Prepared(p, attempt, true, true), u)
        else if r.endpoint.policy.FailFast? then Preparation(Rejected(Duplicate), u)
        else PrepareFrom(r, u, caller, attempt + 1, true)
  }

  // ---- what is prepared ----

  /** What an attempt of a request is to send: a configured payload or bare data-pool record as
      it is, or the template rendered with the attempt's number. */
  ghost predicate PayloadOf(r: Request, attempt: nat, p: Json<Rendered>) {
    match r.endpoint.strategy
    case Static(v) => Mirrors(v, p)
    case Generated(t) => Renders(t, p, Context(r.origin, r.timestamp, attempt, None, false))
    case DataPool(body, _) =>
      && r.record.Some?
      && if body.None? then Mirrors(r.record.value, p)
         else Renders(body.value, p, Context(r.origin, r.timestamp, attempt, r.record, true))
  }

  lemma BuildsPayload(r: Request, attempt: nat)
    requires Build(r, attempt).Ok?
    ensures PayloadOf(r, attempt, Build(r, attempt).value)
  {
    match r.endpoint.strategy
    case Static(v) => LiteralMirrors(v);
    case Generated(t) => RenderRenders(t, ContextOf(r, attempt));
    case DataPool(body, _) =>
      if body.None? {
        LiteralMirrors(r.record.value);
      } else {
        RenderRenders(body.value, ContextOf(r, attempt));
      }
  }

  /** What a call returns is the payload of the attempt it names. */
  lemma {:induction false} PreparedIsPayload(r: Request, t: Table, caller: nat, attempt: nat, seen: bool)
    requires PrepareFrom(r, t, caller, attempt, seen).outcome.Prepared?
    ensures var o := PrepareFrom(r, t, caller, attempt, seen).outcome;
            && attempt <= o.attempt <= (if r.endpoint.policy.Regenerate? then 5 else 1)
            && Build(r, o.attempt) == Ok(o.payload) && PayloadOf(r, o.attempt, o.payload)
    decreases MaxAttempts(r.endpoint) - attempt
  {
    var p, h := Build(r, attempt).value, Holder(caller, attempt);
    BuildsPayload(r, attempt);
    if Taken(r, t, p) && r.endpoint.policy.Regenerate? {
      PreparedIsPayload(r, ReservePayload(r, ReserveRecord(r, t, h), p, h), caller, attempt + 1, true);
    }
  }

  /** A prepared payload is that of one of the attempts allowed. */
  ghost predicate IsPayload(r: Request, o: Outcome) {
    o.Prepared? ==> 1 <= o.attempt <= (if r.endpoint.policy.Regenerate? then 5 else 1) && PayloadOf(r, o.attempt, o.payload)
  }

  lemma CallReturnsPayload(r: Request, t: Table, caller: nat)
    ensures IsPayload(r, PrepareFrom(r, t, caller, 1, false).outcome)
  {
    if PrepareFrom(r, t, caller, 1, false).outcome.Prepared? {
      PreparedIsPayload(r, t, caller, 1, false);
    }
  }

  /** A static payload or bare record always builds; without a record no data-pool request
      does. */
  lemma BuildsIff(r: Request, attempt: nat)
    ensures Build(r, attempt).Ok? <==>
            match r.endpoint.strategy
            case Static(_) => true
            case Generated(t) => Renderable(t, Context(r.origin, r.timestamp, attempt, None, false))
            case DataPool(body, _) =>
              r.record.Some?
              && (body.None? || Renderable(body.value, Context(r.origin, r.timestamp, attempt, r.record, true)))
  {
    match r.endpoint.strategy
    case Static(_) =>
    case Generated(t) => RendersIff(t, ContextOf(r, attempt), "$");
    case DataPool(body, _) =>
      if body.Some? {
        RendersIff(body.value, ContextOf(r, attempt), "$");
      }
  }

  class DuplicateChecker {
    var reservations: Table

    constructor ()
      ensures reservations == map[]
    {
      reservations := map[];
    }

    method CheckAndReserve(p: Print, h: Holder) returns (duplicate: bool)
      modifies this
      ensures duplicate <==> p in old(reservations)
      ensures reservations == Reserve(old(reservations), p, h)
    {
      duplicate := p in reservations;
      if !duplicate {
        reservations := reservations[p := h];
      }
    }

    /** The retry loop. Both checks run on every attempt, the record's first. */
    method Prepare(r: Request, caller: nat) returns (o: Outcome)
      modifies this
      ensures Preparation(o, reservations) == PrepareFrom(r, old(reservations), caller, 1, false)
      ensures IsPayload(r, o)
    {
      CallReturnsPayload(r, reservations, caller);
      var max := MaxAttempts(r.endpoint);
      var seen := false;
      ghost var expected := PrepareFrom(r, reservations, caller, 1, false);
      for attempt := 1 to max + 1
        invariant expected == PrepareFrom(r, reservations, caller, attempt, seen)
      {
        var built := Build(r, attempt);
        if built.Err? {
          return Rejected(built.error);
        }
        var h := Holder(caller, attempt);
        var duplicate := false;
        if ChecksRecord(r) {
          duplicate := CheckAndReserve(RecordPrintOf(r), h);
        }
        if !Bypasses(r.endpoint) {
          var again := CheckAndReserve(PrintOf(r, built.value), h);
          duplicate := duplicate || again;
        }
        seen := seen || duplicate;
        if !duplicate {
          return Prepared(built.value, attempt, seen, false);
        }
        if r.endpoint.policy.Allow? {
          return Prepared(built.value, attempt, seen, true);
        }
        if r.endpoint.policy.FailFast? {
          return Rejected(Duplicate);
        }
      }
      o := Rejected(Exhausted);
    }
  }

  // ---- which requests can gain from another attempt ----

  predicate TemplateUsesUuid(r: Request) {
    match r.endpoint.strategy
    case Static(_) => false
    case Generated(t) => UsesUuid(t)
    case DataPool(body, _) => body.Some? && UsesUuid(body.value)
  }

  /** Two attempts of a request that builds at all differ exactly when its template holds a
      uuid token. */
  lemma AttemptsDiffer(r: Request, a: nat, b: nat)
    requires a != b && ValidOrigin(r.origin)
    ensures SameOutcome(Build(r, a), Build(r, b), TemplateUsesUuid(r))
  {
    match r.endpoint.strategy
    case Static(_) =>
    case Generated(t) => AttemptsDifferIffUuid(t, ContextOf(r, 0), "$", a, b);
    case DataPool(body, _) =>
      if body.Some? {
        AttemptsDifferIffUuid(body.value, ContextOf(r, 0), "$", a, b);
      }
  }

  /** No two attempts of the request get different fingerprints. */
  ghost predicate Unchanging(r: Request) {
    forall a, b :: Build(r, a).Ok? && Build(r, b).Ok? ==> PrintOf(r, Build(r, a).value) == PrintOf(r, Build(r, b).value)
  }

  /** A request whose fingerprint does not change with the attempt, or which is bound to an
      unshared data-pool record, and that is a duplicate on its first attempt is a duplicate
      on all of them. */
  lemma {:induction false} NothingToRegenerate(r: Request, t: Table, caller: nat, attempt: nat, seen: bool)
    requires ValidOrigin(r.origin) && r.endpoint.policy.Regenerate?
    requires Unchanging(r) || ChecksRecord(r)
    requires Build(r, attempt).Ok? && Taken(r, t, Build(r, attempt).value)
    requires !Unchanging(r) ==> RecordPrintOf(r) in t
    ensures PrepareFrom(r, t, caller, attempt, seen).outcome == Rejected(Exhausted)
    decreases MaxAttempts(r.endpoint) - attempt
  {
    if attempt <= MaxAttempts(r.endpoint) {
      AttemptsDiffer(r, attempt, attempt + 1);
      var p, h := Build(r, attempt).value, Holder(caller, attempt);
      var u := ReservePayload(r, ReserveRecord(r, t, h), p, h);
      NothingToRegenerate(r, u, caller, attempt + 1, true);
    }
  }

  /** A call succeeds without the duplicate allowance only on prints nobody held when it
      was called, and leaves them reserved. */
  lemma {:induction false} SuccessReserves(r: Request, t: Table, caller: nat, attempt: nat, seen: bool)
    requires var o := PrepareFrom(r, t, caller, attempt, seen).outcome; o.Prepared? && !o.allowed
    ensures var x := PrepareFrom(r, t, caller, attempt, seen);
            && x.outcome.attempt <= MaxAttempts(r.endpoint)
            && (!Bypasses(r.endpoint) ==> PrintOf(r, x.outcome.payload) !in t && PrintOf(r, x.outcome.payload) in x.table)
            && (ChecksRecord(r) ==> RecordPrintOf(r) !in t && RecordPrintOf(r) in x.table)
    decreases MaxAttempts(r.endpoint) - attempt
  {
    var p, h := Build(r, attempt).value, Holder(caller, attempt);
    var u := ReservePayload(r, ReserveRecord(r, t, h), p, h);
    if Taken(r, t, p) {
      SuccessReserves(r, u, caller, attempt + 1, true);
    }
  }
}
