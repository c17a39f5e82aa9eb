/** Where the evidence gate and the commit machine meet. */
module EvidenceToCommit {
  import opened Wrappers
  import opened RunRecords
  import opened AggregationRecords
  import opened AggregateSet
  import opened AggregationCommit
  import I = EvidenceIntegrity
  import L = Lifecycle

  /** Evidence the gate accepts is work the commit machine takes, up to the size limit: a run
      that has loaded it goes on to the pages when 4 + 3N records fit one transaction, and
      fails otherwise. */
  lemma AcceptedEvidenceIsWritten(
    a: L.Audit, runs: seq<RunRecord>, records: seq<RawRecord>, exec: string, cfg: string, p: Proc, at: int)
    requires I.Validated(a, runs, records, exec, cfg).Ok?
    ensures var w := Work(SetOf(p.event, exec, cfg), p.event.job, at, records);
            && (Accepted(w) <==> 4 + 3 * |EndpointSet(records)| <= MAX_AGGREGATE_RECORDS)
            && AfterLoad(p, w.s, records, at) == if Accepted(w) then WritePages(w, 0) else Failure(OtherReason)
  {
    I.AcceptedIff(a, runs, records, exec, cfg);
  }

  /** What a run that has loaded its evidence gets to hear from the gate. */
  function AnswerOf(a: L.Audit, runs: seq<RunRecord>, records: seq<RawRecord>, exec: string, cfg: string, at: int): Answer {
    if I.Eligibility(a).Err? then NotEligible
    else if I.Validated(a, runs, records, exec, cfg).Err? then Error
    else Evidence(records, at)
  }

  /** The gate's verdict decides the run: an audit that is not eligible ends it INELIGIBLE, any
      other refusal or a set too large FAILED, and otherwise it writes exactly this evidence. */
  lemma GateDecidesRun(
    st: State, p: Proc, a: L.Audit, runs: seq<RunRecord>, records: seq<RawRecord>, exec: string, cfg: string, at: int)
    requires p.pc == Load(SetOf(p.event, exec, cfg))
    ensures var answer := AnswerOf(a, runs, records, exec, cfg, at);
            var w := Work(SetOf(p.event, exec, cfg), p.event.job, at, records);
            && Legal(st, p, answer)
            && Advance(st, p, answer).pc ==
               if I.Eligibility(a).Err? then Finish(Verdict(Ineligible, OtherReason, None))
               else if I.Validated(a, runs, records, exec, cfg).Ok? && 4 + 3 * |EndpointSet(records)| <= MAX_AGGREGATE_RECORDS
               then WritePages(w, 0)
               else Failure(OtherReason)
  {
    if I.Validated(a, runs, records, exec, cfg).Ok? {
      AcceptedEvidenceIsWritten(a, runs, records, exec, cfg, p, at);
    }
  }
}
