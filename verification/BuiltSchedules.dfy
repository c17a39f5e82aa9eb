/** What the definitions built for an audit are, one by one, and when none are built. */
module BuiltSchedules {
  import opened Wrappers
  import opened Scheduling
  import Text

  /** The fields of an occurrence id with ':' between them; over 256 characters they are kept
      as a digest; what follows is appended either way. */
  predicate Identifies(id: OccurrenceId, c: Config, kind: string, scenario: string, at: string, suffix: string) {
    var canonical := c.client + ":" + c.audit + ":" + kind + ":" + scenario + ":" + at;
    id == if |canonical| <= 256 then Plain(canonical + suffix) else Digested(canonical, suffix)
  }

  predicate IndexSuffix(suffix: string, i: nat) {
    suffix != "" && suffix[0] == '#' && Text.Numeral(suffix[1..], i)
  }

  predicate IsBaseline(d: Definition, c: Config, at: string)
    requires c.baseline.Some?
  {
    var b := c.baseline.value;
    && d.kind == BaselineKind && d.scenario == b.scenario && d.at == at && d.iterations == 1
    && Identifies(d.id, c, "baseline", b.scenario, at, "")
  }

  ghost predicate IsBurst(d: Definition, c: Config, i: nat, iso: int -> string)
    requires i < |c.bursts|
  {
    var b := c.bursts[i];
    && d.kind == BurstKind && d.scenario == b.scenario && d.at == iso(b.start) && d.iterations == 1
    && exists suffix :: IndexSuffix(suffix, i) && Identifies(d.id, c, "burst", b.scenario, iso(b.start), suffix)
  }

  ghost predicate IsRepeatedRun(d: Definition, c: Config, i: nat)
    requires i < |c.repeated|
  {
    var r := c.repeated[i];
    && d.kind == RepeatedKind && d.scenario == r.scenario && d.at == r.at && d.iterations == r.iterations
    && exists suffix :: IndexSuffix(suffix, i) && Identifies(d.id, c, "repeated", r.scenario, r.at, suffix)
  }

  /** The indices of the enabled repeated runs, in order. */
  ghost predicate Enabled(picks: seq<nat>, c: Config, n: nat)
    requires n <= |c.repeated|
  {
    && (forall k :: 0 <= k < |picks| ==> picks[k] < n && c.repeated[picks[k]].enabled)
    && (forall k, l :: 0 <= k < l < |picks| ==> picks[k] < picks[l])
    && (forall i :: 0 <= i < n && c.repeated[i].enabled ==> i in picks)
  }

  ghost predicate BaselineListed(d: seq<Definition>, c: Config, iso: int -> string) {
    if c.baseline.None? then d == []
    else
      var k := c.baseline.value.interval;
      && (forall i :: 0 <= i < |d| ==> IsBaseline(d[i], c, iso(c.start + i * k)))
      && k > 0 && (|d| - 1) * k < c.end - c.start <= |d| * k
  }

  ghost predicate BurstsListed(d: seq<Definition>, c: Config, iso: int -> string) {
    |d| == (if c.burstEnabled then |c.bursts| else 0) && forall i :: 0 <= i < |d| ==> IsBurst(d[i], c, i, iso)
  }

  ghost predicate RepeatedListed(d: seq<Definition>, c: Config, n: nat)
    requires n <= |c.repeated|
  {
    exists picks :: Enabled(picks, c, n) && |d| == |picks| && forall k :: 0 <= k < |picks| ==> IsRepeatedRun(d[k], c, picks[k])
  }

  /** A baseline execution every interval from the start of the window on, as long as the window
      lasts; then every burst window, if bursts are enabled; then every enabled repeated run. */
  ghost predicate Listed(d: seq<Definition>, c: Config, iso: int -> string) {
    exists base, bursts, repeated :: d == base + bursts + repeated && BaselineListed(base, c, iso)
                                     && BurstsListed(bursts, c, iso) && RepeatedListed(repeated, c, |c.repeated|)
  }

  lemma JoinMore(a: string, rest: seq<string>)
    requires rest != []
    ensures Text.Join([a] + rest, ':') == a + ":" + Text.Join(rest, ':')
  {
    assert ([a] + rest)[1..] == rest;
  }

  lemma JoinFive(a: string, b: string, c: string, d: string, e: string)
    ensures Text.Join([a, b, c, d, e], ':') == a + ":" + b + ":" + c + ":" + d + ":" + e
  {
    JoinMore(d, [e]);
    JoinMore(c, [d] + [e]);
    JoinMore(b, [c] + ([d] + [e]));
    JoinMore(a, [b] + ([c] + ([d] + [e])));
    assert [a, b, c, d, e] == [a] + ([b] + ([c] + ([d] + [e])));
    var three := c + ":" + (d + ":" + e);
    assert a + ":" + (b + ":" + three) == a + ":" + b + ":" + c + ":" + d + ":" + e;
  }

  lemma IdIdentifies(c: Config, k: Kind, scenario: string, at: string, suffix: string)
    ensures Identifies(IdOf(c, k, scenario, at, suffix), c, KindText(k), scenario, at, suffix)
  {
    JoinFive(c.client, c.audit, KindText(k), scenario, at);
  }

  lemma SuffixIndexes(i: nat)
    ensures IndexSuffix(Suffix(i), i)
  {
    Text.DecimalIsNumeral(i);
    assert Suffix(i)[1..] == Text.Decimal(i);
  }

  lemma BaselineIsListed(c: Config, iso: int -> string)
    requires BaselinePart(c, iso).Ok?
    ensures BaselineListed(BaselinePart(c, iso).value, c, iso)
  {
    if c.baseline.Some? {
      var b := c.baseline.value;
      var d := BaselinePart(c, iso).value;
      CountBounds(c.start, c.end, b.interval);
      forall i | 0 <= i < |d| ensures IsBaseline(d[i], c, iso(c.start + i * b.interval)) {
        IdIdentifies(c, BaselineKind, b.scenario, iso(c.start + i * b.interval), "");
      }
    }
  }

  lemma {:induction false} BurstAt(c: Config, n: nat, iso: int -> string, i: nat)
    requires i < n <= |c.bursts|
    ensures |BurstDefinitions(c, n, iso)| == n && IsBurst(BurstDefinitions(c, n, iso)[i], c, i, iso)
    decreases n
  {
    BurstsLength(c, n - 1, iso);
    if i < n - 1 {
      BurstAt(c, n - 1, iso, i);
    } else {
      IdIdentifies(c, BurstKind, c.bursts[i].scenario, iso(c.bursts[i].start), Suffix(i));
      SuffixIndexes(i);
    }
  }

  lemma {:induction false} BurstsLength(c: Config, n: nat, iso: int -> string)
    requires n <= |c.bursts|
    ensures |BurstDefinitions(c, n, iso)| == n
  {
    if n > 0 {
      BurstsLength(c, n - 1, iso);
    }
  }

  lemma RepeatedIs(c: Config, i: nat)
    requires i < |c.repeated|
    ensures IsRepeatedRun(RepeatedDefinition(c, i), c, i)
  {
    IdIdentifies(c, RepeatedKind, c.repeated[i].scenario, c.repeated[i].at, Suffix(i));
    SuffixIndexes(i);
  }

  lemma {:induction false} RepeatedIsListed(c: Config, n: nat) returns (picks: seq<nat>)
    requires n <= |c.repeated|
    ensures var d := RepeatedDefinitions(c, n);
            Enabled(picks, c, n) && |d| == |picks| && forall k :: 0 <= k < |picks| ==> IsRepeatedRun(d[k], c, picks[k])
  {
    if n == 0 {
      picks := [];
    } else {
      picks := RepeatedIsListed(c, n - 1);
      if c.repeated[n - 1].enabled {
        RepeatedIs(c, n - 1);
        picks := picks + [n - 1];
        assert picks[|picks| - 1] == n - 1;
      }
    }
  }

  /** Building succeeds exactly when the baseline has a positive interval, a window and at most
      192 firings, and the enabled bursts lie in the window; the definitions are then those
      listed. Too many firings are reported as such, everything else as an invalid schedule. */
  lemma BuiltIff(c: Config, iso: int -> string)
    ensures var r := AllDefinitions(c, iso);
            var valid := c.baseline.Some? ==> c.baseline.value.interval > 0 && c.start < c.end;
            var capped := c.baseline.Some? && c.end - c.start > 192 * c.baseline.value.interval;
            var inside := c.burstEnabled ==>
              forall i :: 0 <= i < |c.bursts| ==> c.start <= c.bursts[i].start && c.bursts[i].end <= c.end;
            && (r.Ok? <==> valid && !capped && inside)
            && (r == Err(CapExceeded) <==> valid && capped)
            && (r.Ok? ==> Listed(r.value, c, iso))
  {
    if c.baseline.Some? && c.baseline.value.interval > 0 && c.start < c.end {
      CapIff(c.start, c.end, c.baseline.value.interval);
    }
    if AllDefinitions(c, iso).Ok? {
      BaselineIsListed(c, iso);
      var bursts := if c.burstEnabled then BurstDefinitions(c, |c.bursts|, iso) else [];
      BurstsLength(c, |c.bursts|, iso);
      forall i | 0 <= i < |bursts| ensures IsBurst(bursts[i], c, i, iso) { BurstAt(c, |c.bursts|, iso, i); }
      var picks := RepeatedIsListed(c, |c.repeated|);
      assert RepeatedListed(RepeatedDefinitions(c, |c.repeated|), c, |c.repeated|);
      assert AllDefinitions(c, iso).value
          == BaselinePart(c, iso).value + bursts + RepeatedDefinitions(c, |c.repeated|);
    }
  }

  lemma CapIff(start: int, end: int, interval: int)
    requires interval > 0 && start < end
    ensures OccurrenceCount(start, end, interval) > MAX_BASELINE_OCCURRENCES <==> end - start > 192 * interval
  {
    CountBounds(start, end, interval);
    var n := OccurrenceCount(start, end, interval);
    if n > 192 {
      MulAtMost(192, n - 1, interval);
    } else {
      MulAtMost(n, 192, interval);
    }
  }
}
