/** One aggregation run by itself: pages first, then the transaction, then the verdict. */
module AggregationOrchestrator {
  import opened Wrappers
  import opened AggregationRecords
  import opened LineageManifest
  import opened AggregationKeys
  import opened AggregateSet
  import opened AggregationRepository
  import opened AggregationCommit

  /** The pages of the attempt do not clash with pages stored before. */
  ghost predicate PagesFit(t: Table, w: Work) {
    forall p :: p in PageList(w) ==> Fits(t, p)
  }

  /** Records of a set are present only when the whole set is: what every reachable table
      satisfies. */
  ghost predicate AllOrNothing(t: Table, s: SetId) {
    forall k :: k in t && InSet(k) && !k.PageKey? && k.s == s ==> SetExists(t, s)
  }

  lemma PagesAgree(w: Work)
    ensures forall p, q :: p in PageList(w) && q in PageList(w) && p.key == q.key ==> p.page.hash == q.page.hash
  {
    forall p, q | p in PageList(w) && q in PageList(w) && p.key == q.key ensures p.page.hash == q.page.hash {
      PageListShape(w, Scopes(w), p);
      PageListShape(w, Scopes(w), q);
    }
  }

  /** Pages added to a table change nothing the existence check looks at. */
  lemma PagesInvisible(t: Table, u: Table, s: SetId)
    requires Extends(t, u) && forall k :: k in u && k !in t ==> k.PageKey?
    ensures SetExists(t, s) <==> SetExists(u, s)
  {
    assert EndpointRecords(t, s) == EndpointRecords(u, s);
    assert EndpointRows(t, s) == EndpointRows(u, s);
    assert forall i :: 0 <= i < 3 ==> !Required(s)[i].PageKey?;
  }

  lemma OnlyPagesAdded(t: Table, u: Table, w: Work)
    requires forall k :: k in u && k !in t ==> exists p :: p in PageList(w) && p.key == k && u[k] == PageItem(p.page)
    ensures forall k :: k in u && k !in t ==> k.PageKey?
    ensures GrowsIn(t, u, w.s)
  {
    forall k | k in u && k !in t ensures k.PageKey? && k.s == w.s {
      var p :| p in PageList(w) && p.key == k;
      PageListShape(w, Scopes(w), p);
    }
  }

  /** Over a table without records of the set the transaction goes through and makes it
      complete; over one with them it finds the set complete. */
  lemma TransactionOutcome(t: Table, w: Work)
    requires AllOrNothing(t, w.s)
    ensures Batch(w).Keys !! t.Keys <==> !SetExists(t, w.s)
    ensures !SetExists(t, w.s) ==> SetExists(t + Batch(w), w.s) && Committed(t + Batch(w), w)
  {
    assert Writes(w, SetKey(w.s)) && SetKey(w.s) in Batch(w).Keys;
    if !SetExists(t, w.s) {
      forall k | k in Batch(w).Keys ensures k !in t.Keys { assert Writes(w, k); }
      TransactionCompletes(t, w);
    }
  }

  lemma TransactionCompletes(t: Table, w: Work)
    requires AllOrNothing(t, w.s) && !SetExists(t, w.s)
    ensures SetExists(t + Batch(w), w.s) && Committed(t + Batch(w), w)
  {
    var u := t + Batch(w);
    forall k | Writes(w, k) ensures k in u && u[k] == Written(w, k) { assert k in Batch(w); }
    assert OnlyWriter(u, w);
    CommittedSetExists(u, w);
  }

  // ---- records outside the sets ----

  /** Job and identity records are of their kind. */
  ghost predicate Typed(t: Table) {
    forall k :: k in t ==> (k.JobKey? ==> t[k].JobItem?) && (k.IdentityKey? ==> t[k].IdentityItem?)
  }

  ghost predicate WellFormed(t: Table) {
    Typed(t) && forall s: SetId :: AllOrNothing(t, s)
  }

  /** The tables hold the same sets. */
  ghost predicate SameSets(t: Table, u: Table) {
    forall k :: InSet(k) ==> (k in t <==> k in u) && (k in t ==> t[k] == u[k])
  }

  lemma SameSetsExist(t: Table, u: Table, s: SetId)
    requires SameSets(t, u)
    ensures SetExists(t, s) <==> SetExists(u, s)
    ensures AllOrNothing(t, s) ==> AllOrNothing(u, s)
  {
    assert EndpointRecords(t, s) == EndpointRecords(u, s);
    assert EndpointRows(t, s) == EndpointRows(u, s);
    assert forall i :: 0 <= i < 3 ==> InSet(Required(s)[i]);
  }

  lemma SameSetsWellFormed(t: Table, u: Table)
    requires WellFormed(t) && SameSets(t, u) && Typed(u)
    ensures WellFormed(u)
  {
    forall s: SetId ensures AllOrNothing(u, s) { SameSetsExist(t, u, s); }
  }

  /** Everything but one record is kept. */
  ghost predicate KeepsBut(t: Table, u: Table, but: RecordKey) {
    forall k :: k in t && k != but ==> k in u && u[k] == t[k]
  }

  /** The verdict on a job that is not claimed. */
  function Duplicate(status: JobStatus): JobStatus {
    if status.Completed? || status.DuplicateCompleted? then DuplicateCompleted else Conflict
  }

  /** What reading the evidence and its integrity gate give: an error, an audit that is not
      eligible, or records with the time they were aggregated at. */
  datatype Gathered = Unusable | NotEligible | Usable(records: seq<RawRecord>, at: int)

  /** How many records the transaction of an attempt has: at most 99 are allowed. */
  predicate Small(w: Work) {
    4 + 3 * |EndpointSet(w.records)| <= 99
  }

  /** Whether a run of the event goes on: its job is new, or recorded as an intent or as an
      invocation that was requested or failed. */
  predicate MayRun(t: Table, e: Event) {
    var key := JobKey(e.client, e.audit, e.job);
    key !in t || (t[key].JobItem? && t[key].status in {IntentRecorded, InvocationRequested, InvocationFailed})
  }

  /** The identity on the audit wins over the one on record, which wins over the candidate. */
  function Winner(t: Table, e: Event, existing: Option<string>, candidate: string): string {
    var key := IdentityKey(e.client, e.audit);
    if existing.Some? then existing.value
    else if key in t && t[key].IdentityItem? then t[key].exec
    else candidate
  }

  /** What a run makes of set s over table t: a duplicate when the set is there; else what the
      evidence allows, COMPLETED when the attempt is small and its pages fit, and then the
      table u left behind holds its transaction. */
  ghost predicate Aggregated(t: Table, u: Table, v: JobStatus, s: SetId, e: Event, evidence: Gathered) {
    if SetExists(t, s) then v.DuplicateCompleted?
    else
      match evidence
      case Unusable => v.Failed?
      case NotEligible => v.Ineligible?
      case Usable(records, at) =>
        var w := Work(s, e.job, at, records);
        if Small(w) && PagesFit(t, w) then v.Completed? && SetExists(u, s) && Committed(u, w) else v.Failed?
  }

  /** The audit's identity is on record. */
  predicate Identified(t: Table, e: Event, exec: string) {
    var key := IdentityKey(e.client, e.audit);
    key in t && t[key] == IdentityItem(exec)
  }

  /** How a run over table t ends with table u and verdict v. It goes on exactly when its job may
      run, and looks at a set, that of the winning identity, exactly when the audit has a
      configuration version besides; what comes of it is decided by t and the evidence. A run
      that does not go on is a duplicate or a conflict by the status on record. The job record
      ends up with the verdict. */
  ghost predicate RunEnds(t: Table, u: Table, e: Event, existing: Option<string>, candidate: string, cfg: Option<string>,
                          evidence: Gathered, v: JobStatus)
  {
    && JobOf(e) in u && u[JobOf(e)] == JobItem(v)
    && if !MayRun(t, e) then
         JobOf(e) in t && t[JobOf(e)].JobItem?
         && v == if t[JobOf(e)].status in {Completed, DuplicateCompleted} then DuplicateCompleted else Conflict
       else
         var exec := Winner(t, e, existing, candidate);
         && (existing.None? ==> Identified(u, e, exec))
         && if cfg.None? then v.Failed?
            else Aggregated(t, u, v, SetId(e.client, e.audit, exec, cfg.value, e.ver), e, evidence)
  }

  lemma SameSetsFit(t: Table, u: Table, w: Work)
    requires SameSets(t, u)
    ensures PagesFit(t, w) <==> PagesFit(u, w)
  {
    forall p | p in PageList(w) ensures Fits(t, p) <==> Fits(u, p) {
      PageListShape(w, Scopes(w), p);
    }
  }

  lemma SameSetsCommitted(t: Table, u: Table, w: Work)
    requires SameSets(t, u) && Committed(t, w)
    ensures Committed(u, w)
  {
    forall k | Writes(w, k) ensures k in u && u[k] == Written(w, k) {
      assert InSet(k);
    }
  }

  lemma AggregatedElsewhere(t: Table, u: Table, t': Table, u': Table, v: JobStatus, s: SetId, e: Event, evidence: Gathered)
    requires SameSets(t, t') && SameSets(u, u') && Aggregated(t, u, v, s, e, evidence)
    ensures Aggregated(t', u', v, s, e, evidence)
  {
    SameSetsExist(t, t', s);
    SameSetsExist(u, u', s);
    if evidence.Usable? {
      var w := Work(s, e.job, evidence.at, evidence.records);
      SameSetsFit(t, t', w);
      if Committed(u, w) {
        SameSetsCommitted(u, u', w);
      }
    }
  }

  /** New keys are those of set s. */
  ghost predicate GrowsIn(t: Table, u: Table, s: SetId) {
    forall k :: k in u && k !in t ==> InSet(k) && k.s == s
  }

  lemma OtherSetExists(t: Table, u: Table, s: SetId, other: SetId)
    requires Extends(t, u) && GrowsIn(t, u, s) && other != s
    ensures SetExists(t, other) <==> SetExists(u, other)
  {
    assert EndpointRecords(t, other) == EndpointRecords(u, other);
    assert EndpointRows(t, other) == EndpointRows(u, other);
    assert forall i :: 0 <= i < 3 ==> Required(other)[i].s == other;
    assert SetKey(other).s == other;
  }

  /** Pages of a set, or the whole of it, leave no set in part. */
  lemma GrowsWellFormed(t: Table, u: Table, s: SetId)
    requires WellFormed(t) && Extends(t, u) && GrowsIn(t, u, s)
    requires SetExists(u, s) || forall k :: k in u && k !in t ==> k.PageKey?
    ensures WellFormed(u)
  {
    forall other: SetId ensures AllOrNothing(u, other) {
      assert AllOrNothing(t, other);
      if other != s {
        OtherSetExists(t, u, s, other);
      } else if !SetExists(u, s) {
        PagesInvisible(t, u, s);
      }
    }
  }

  class Orchestrator {
    const repository: Repository

    constructor (repository: Repository)
      ensures this.repository == repository
    {
      this.repository := repository;
    }

    /** Persisting an attempt: COMPLETED exactly when the set was not there and the pages
        fit; DUPLICATE_COMPLETED, and nothing but missing pages added, when it was. */
    method Persist(w: Work) returns (v: JobStatus, reason: Reason)
      requires AllOrNothing(repository.items, w.s)
      modifies repository
      ensures v.Completed? <==>
              Small(w) && PagesFit(old(repository.items), w) && !SetExists(old(repository.items), w.s)
      ensures v.DuplicateCompleted? <==>
              Small(w) && PagesFit(old(repository.items), w) && SetExists(old(repository.items), w.s)
      ensures v.Completed? || v.DuplicateCompleted? || v.Failed?
      ensures reason.PageHashMismatch? <==> Small(w) && !PagesFit(old(repository.items), w)
      ensures v.Completed? ==> SetExists(repository.items, w.s) && Committed(repository.items, w)
      ensures Extends(old(repository.items), repository.items)
      ensures !Small(w) ==> repository.items == old(repository.items)
      ensures !v.Completed? ==> forall k :: k in repository.items && k !in old(repository.items) ==> k.PageKey?
      ensures v.Completed? || v.DuplicateCompleted? ==> forall p :: p in PageList(w) ==> HasPage(repository.items, p)
      ensures GrowsIn(old(repository.items), repository.items, w.s)
    {
      var items, pages, tooLarge := BuildPersistedRecords(w);
      ItemKeysExact(w);
      if tooLarge {
        return Failed, OtherReason;
      }
      PagesAgree(w);
      var fit := repository.WriteLineagePages(pages);
      OnlyPagesAdded(old(repository.items), repository.items, w);
      if !fit {
        return Failed, PageHashMismatch;
      }
      PagesInvisible(old(repository.items), repository.items, w.s);
      EmittedIsBatch(w, items);
      TransactionOutcome(repository.items, w);
      ghost var paged := repository.items;
      var outcome := repository.PutRecordsOnce(items);
      PagesKept(paged, repository.items, w);
      OnlySetsGrow(old(repository.items), paged, repository.items, w);
      if outcome.Conflicting? {
        var found := repository.AggregateSetExists(w.s);
        if found {
          return DuplicateCompleted, NoReason;
        }
        return Conflict, SetIncomplete;
      }
      return Completed, NoReason;
    }

    /** A new job is created STARTED; one recorded as an intent is taken over; any other is a
        duplicate, COMPLETED or not. */
    method ClaimJob(e: Event) returns (claimed: bool, v: JobStatus)
      requires WellFormed(repository.items)
      modifies repository
      ensures WellFormed(repository.items) && SameSets(old(repository.items), repository.items)
      ensures JobOf(e) in repository.items
      ensures claimed <==> MayRun(old(repository.items), e)
      ensures claimed ==> repository.items == old(repository.items)[JobOf(e) := JobItem(Started)]
      ensures !claimed ==> repository.items == old(repository.items)
      ensures !claimed ==> v == if old(repository.items)[JobOf(e)].status in {Completed, DuplicateCompleted}
                                then DuplicateCompleted else Conflict
    {
      claimed := repository.PutOnce(JobOf(e), JobItem(Started));
      v := Started;
      if !claimed {
        var status := repository.items[JobOf(e)].status;
        if Claimable(status) {
          var found := repository.UpdateJob(JobOf(e), Started);
          claimed := true;
        } else {
          v := Duplicate(status);
        }
      }
      SameSetsWellFormed(old(repository.items), repository.items);
    }

    /** The identity already on the audit, or on record, or the candidate put on record. */
    method ResolveOrAssign(e: Event, existing: Option<string>, candidate: string) returns (exec: string)
      requires WellFormed(repository.items)
      modifies repository
      ensures WellFormed(repository.items) && SameSets(old(repository.items), repository.items)
      ensures exec == Winner(old(repository.items), e, existing, candidate)
      ensures repository.items == if existing.Some? || IdentityOf(e) in old(repository.items) then old(repository.items)
                                  else old(repository.items)[IdentityOf(e) := IdentityItem(candidate)]
    {
      if existing.Some? {
        return existing.value;
      }
      if IdentityOf(e) in repository.items {
        return repository.items[IdentityOf(e)].exec;
      }
      var ok := repository.PutOnce(IdentityOf(e), IdentityItem(candidate));
      SameSetsWellFormed(old(repository.items), repository.items);
      exec := candidate;
    }

    /** Look for the set, and persist the evidence if it is not there. */
    method Aggregate(s: SetId, e: Event, evidence: Gathered) returns (v: JobStatus)
      requires WellFormed(repository.items)
      modifies repository
      ensures Aggregated(old(repository.items), repository.items, v, s, e, evidence)
      ensures SetExists(old(repository.items), s) || !evidence.Usable? ==> repository.items == old(repository.items)
      ensures Extends(old(repository.items), repository.items) && WellFormed(repository.items)
      ensures GrowsIn(old(repository.items), repository.items, s)
    {
      var found := repository.AggregateSetExists(s);
      if found {
        return DuplicateCompleted;
      }
      match evidence
      case Unusable => v := Failed;
      case NotEligible => v := Ineligible;
      case Usable(records, at) =>
        var reason;
        v, reason := Persist(Work(s, e.job, at, records));
        GrowsWellFormed(old(repository.items), repository.items, s);
    }

    /** The rest of a run whose job is claimed: resolve the identity and the configuration
        version, and aggregate. */
    method RunClaimed(e: Event, existing: Option<string>, candidate: string, cfg: Option<string>, evidence: Gathered)
      returns (v: JobStatus, s: Option<SetId>)
      requires WellFormed(repository.items)
      modifies repository
      ensures var exec := Winner(old(repository.items), e, existing, candidate);
              s == if cfg.Some? then Some(SetId(e.client, e.audit, exec, cfg.value, e.ver)) else None
      ensures s.None? ==> v.Failed?
      ensures s.Some? ==> Aggregated(old(repository.items), repository.items, v, s.value, e, evidence)
      ensures existing.None? ==> Identified(repository.items, e, Winner(old(repository.items), e, existing, candidate))
      ensures Extends(old(repository.items), repository.items) && WellFormed(repository.items)
      ensures forall k :: k in repository.items && k !in old(repository.items) ==>
                (k == IdentityOf(e) && existing.None?) || (s.Some? && InSet(k) && k.s == s.value)
    {
      var exec := ResolveOrAssign(e, existing, candidate);
      s := None;
      if cfg.None? {
        v := Failed;
      } else {
        s := Some(SetOf(e, exec, cfg.value));
        ghost var before := repository.items;
        v := Aggregate(s.value, e, evidence);
        AggregatedElsewhere(before, repository.items, old(repository.items), repository.items, v, s.value, e, evidence);
      }
    }

    /** A whole run with nobody else about; `s` is the set it looked at. Nothing stored is
        changed, its job apart, and nothing is added but its job, the identity when the audit had
        none, and records of the set. */
    method Run(e: Event, existing: Option<string>, candidate: string, cfg: Option<string>, evidence: Gathered)
      returns (v: JobStatus, s: Option<SetId>)
      requires WellFormed(repository.items)
      modifies repository
      ensures RunEnds(old(repository.items), repository.items, e, existing, candidate, cfg, evidence, v)
      ensures var exec := Winner(old(repository.items), e, existing, candidate);
              s == if MayRun(old(repository.items), e) && cfg.Some?
                   then Some(SetId(e.client, e.audit, exec, cfg.value, e.ver)) else None
      ensures forall k :: k in repository.items && k !in old(repository.items) ==>
                || k == JobOf(e)
                || (MayRun(old(repository.items), e) && existing.None? && k == IdentityOf(e))
                || (s.Some? && InSet(k) && k.s == s.value)
      ensures KeepsBut(old(repository.items), repository.items, JobOf(e)) && WellFormed(repository.items)
    {
      s := None;
      var claimed: bool;
      claimed, v := ClaimJob(e);
      ghost var before := repository.items;
      if claimed {
        v, s := RunClaimed(e, existing, candidate, cfg, evidence);
      }
      ghost var after := repository.items;
      var done := repository.UpdateJob(JobOf(e), v);
      SameSetsWellFormed(after, repository.items);
      if s.Some? {
        AggregatedElsewhere(before, after, old(repository.items), repository.items, v, s.value, e, evidence);
      }
    }
  }

  lemma OnlySetsGrow(t: Table, paged: Table, u: Table, w: Work)
    requires GrowsIn(t, paged, w.s)
    requires u == paged || (u == paged + Batch(w))
    ensures GrowsIn(t, u, w.s)
  {
    forall k | k in u && k !in t ensures InSet(k) && k.s == w.s {
      assert k !in paged ==> Writes(w, k);
    }
  }

  lemma PagesKept(t: Table, u: Table, w: Work)
    requires forall p :: p in PageList(w) ==> HasPage(t, p)
    requires u == t || (u == t + Batch(w))
    ensures forall p :: p in PageList(w) ==> HasPage(u, p)
  {
    forall p | p in PageList(w) ensures HasPage(u, p) {
      PageListShape(w, Scopes(w), p);
      assert HasPage(t, p);
      assert p.key !in Batch(w);
    }
  }
}
