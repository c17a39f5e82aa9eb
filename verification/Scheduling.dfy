/** Schedule definitions of an audit: when the baseline fires, and the occurrence id each
    execution is claimed under. */
module Scheduling {
  import opened Wrappers
  import opened Substrings
  import Text

  const MAX_BASELINE_OCCURRENCES := 192
  const MAX_OCCURRENCE_ID := 256

  datatype Error = InvalidScheduleConfig | CapExceeded

  datatype Baseline = Baseline(scenario: string, interval: int)
  datatype Burst = Burst(scenario: string, start: int, end: int)
  datatype Repeated = Repeated(scenario: string, at: string, enabled: bool, iterations: nat)

  /** `start` and `end` are the audit window. */
  datatype Config = Config(
    client: string, audit: string, start: int, end: int, baseline: Option<Baseline>, burstEnabled: bool,
    bursts: seq<Burst>, repeated: seq<Repeated>)

  datatype Kind = BaselineKind | BurstKind | RepeatedKind

  /** An occurrence id is its canonical text, or a digest of it when that is too long; burst
      and repeated ids get "#index" behind either. SHA-256 is a constructor. */
  datatype OccurrenceId = Plain(text: string) | Digested(canonical: string, suffix: string)

  datatype Definition = Definition(kind: Kind, scenario: string, at: string, id: OccurrenceId, iterations: nat)

  // ---- baseline times ----

  /** ceil((end - start) / interval) */
  function OccurrenceCount(start: int, end: int, interval: int): nat
    requires interval > 0
  {
    if end <= start then 0 else (end - start + interval - 1) / interval
  }

  lemma CountBounds(start: int, end: int, interval: int)
    requires interval > 0 && start < end
    ensures var n := OccurrenceCount(start, end, interval);
            n >= 1 && (n - 1) * interval < end - start <= n * interval
  {
    var m := end - start + interval - 1;
    var n := m / interval;
    assert m == n * interval + m % interval;
    assert (n - 1) * interval == n * interval - interval;
    assert n == 0 ==> m < interval;
  }

  lemma Distribute(i: int, d: int, k: int)
    ensures (i + d) * k == i * k + d * k
  {
  }

  lemma MulNat(d: nat, k: nat)
    ensures d * k >= 0
  {
  }

  lemma MulAtMost(i: int, j: int, k: int)
    requires i <= j && k > 0
    ensures i * k <= j * k
    ensures i < j ==> i * k + k <= j * k
  {
    Distribute(i, j - i, k);
    MulNat(j - i, k);
    if i < j {
      Distribute(1, j - i - 1, k);
      MulNat(j - i - 1, k);
    }
  }

  /** The first n firing times. */
  function Steps(start: int, interval: int, n: nat): (t: seq<int>)
    ensures |t| == n
  {
    seq(n, i => start + i * interval)
  }

  function Times(start: int, end: int, interval: int): seq<int>
    requires interval > 0
  {
    Steps(start, interval, OccurrenceCount(start, end, interval))
  }

  lemma StepsExtend(start: int, interval: int, n: nat)
    ensures Steps(start, interval, n + 1) == Steps(start, interval, n) + [start + n * interval]
  {
  }

  /** Step through the window; an empty one is an error. */
  method BaselineOccurrenceTimes(start: int, end: int, interval: int) returns (r: Result<seq<int>, Error>)
    requires interval > 0
    ensures r == if end <= start then Err(InvalidScheduleConfig) else Ok(Times(start, end, interval))
  {
    var current := start;
    var times: seq<int> := [];
    while current < end
      invariant current == start + |times| * interval
      invariant times == Steps(start, interval, |times|)
      invariant times != [] ==> current - interval < end
      decreases end - current
    {
      StepsExtend(start, interval, |times|);
      Distribute(|times|, 1, interval);
      times := times + [current];
      current := current + interval;
    }
    if times == [] {
      return Err(InvalidScheduleConfig);
    }
    CountIs(start, end, interval, |times|);
    r := Ok(times);
  }

  lemma CountIs(start: int, end: int, interval: int, n: nat)
    requires interval > 0 && n >= 1 && start + n * interval - interval < end <= start + n * interval
    ensures n == OccurrenceCount(start, end, interval) && start < end
  {
    Distribute(n - 1, 1, interval);
    MulNat(n - 1, interval);
    CountBounds(start, end, interval);
    var m := OccurrenceCount(start, end, interval);
    Distribute(m - 1, 1, interval);
    MulAtMost(if m < n then m else n, if m < n then n else m, interval);
  }

  /** The baseline fires ceil(window / interval) times, strictly later each time, always in
      the window [start, end); one more firing would be outside. */
  lemma BaselineTimes(start: int, end: int, interval: int)
    requires interval > 0 && start < end
    ensures var t := Times(start, end, interval);
            && |t| == (end - start + interval - 1) / interval && |t| >= 1
            && (forall i :: 0 <= i < |t| ==> start <= t[i] < end)
            && (forall i, j :: 0 <= i < j < |t| ==> t[i] < t[j])
            && t[0] == start && end <= t[|t| - 1] + interval
  {
    var t := Times(start, end, interval);
    CountBounds(start, end, interval);
    Distribute(|t| - 1, 1, interval);
    forall i | 0 <= i < |t| ensures start <= t[i] < end {
      MulNat(i, interval);
      MulAtMost(i, |t| - 1, interval);
    }
    forall i, j | 0 <= i < j < |t| ensures t[i] < t[j] { TimesRise(start, end, interval, i, j); }
  }

  lemma TimesRise(start: int, end: int, interval: int, i: nat, j: nat)
    requires interval > 0 && i < j < OccurrenceCount(start, end, interval)
    ensures Times(start, end, interval)[i] < Times(start, end, interval)[j]
  {
    MulAtMost(i, j, interval);
  }

  // ---- occurrence ids ----

  function KindText(k: Kind): string {
    match k
    case BaselineKind => "baseline"
    case BurstKind => "burst"
    case RepeatedKind => "repeated"
  }

  function Canonical(c: Config, k: Kind, scenario: string, at: string): string {
    Text.Join([c.client, c.audit, KindText(k), scenario, at], ':')
  }

  function IdOf(c: Config, k: Kind, scenario: string, at: string, suffix: string): OccurrenceId {
    var canonical := Canonical(c, k, scenario, at);
    if |canonical| <= MAX_OCCURRENCE_ID then Plain(canonical + suffix) else Digested(canonical, suffix)
  }

  function Suffix(index: nat): string {
    "#" + Text.Decimal(index)
  }

  /** `iso` prints a time; see ValidConfig for what is assumed of it. */
  function BaselineDefinitions(c: Config, b: Baseline, times: seq<int>, iso: int -> string): (d: seq<Definition>)
    ensures |d| == |times|
  {
    seq(|times|, i requires 0 <= i < |times| =>
      Definition(BaselineKind, b.scenario, iso(times[i]), IdOf(c, BaselineKind, b.scenario, iso(times[i]), ""), 1))
  }

  function BurstDefinition(c: Config, i: nat, iso: int -> string): Definition
    requires i < |c.bursts|
  {
    var w := c.bursts[i];
    Definition(BurstKind, w.scenario, iso(w.start), IdOf(c, BurstKind, w.scenario, iso(w.start), Suffix(i)), 1)
  }

  function RepeatedDefinition(c: Config, i: nat): Definition
    requires i < |c.repeated|
  {
    var r := c.repeated[i];
    Definition(RepeatedKind, r.scenario, r.at, IdOf(c, RepeatedKind, r.scenario, r.at, Suffix(i)), r.iterations)
  }

  function BurstDefinitions(c: Config, n: nat, iso: int -> string): seq<Definition>
    requires n <= |c.bursts|
  {
    if n == 0 then [] else BurstDefinitions(c, n - 1, iso) + [BurstDefinition(c, n - 1, iso)]
  }

  function RepeatedDefinitions(c: Config, n: nat): seq<Definition>
    requires n <= |c.repeated|
  {
    if n == 0 then []
    else RepeatedDefinitions(c, n - 1) + if c.repeated[n - 1].enabled then [RepeatedDefinition(c, n - 1)] else []
  }

  predicate BurstsInWindow(c: Config, n: nat)
    requires n <= |c.bursts|
  {
    forall i :: 0 <= i < n ==> c.start <= c.bursts[i].start && c.bursts[i].end <= c.end
  }

  function BaselinePart(c: Config, iso: int -> string): Result<seq<Definition>, Error> {
    match c.baseline
    case None => Ok([])
    case Some(b) =>
      if b.interval <= 0 || c.end <= c.start then Err(InvalidScheduleConfig)
      else
        var times := Times(c.start, c.end, b.interval);
        if |times| > MAX_BASELINE_OCCURRENCES then Err(CapExceeded) else Ok(BaselineDefinitions(c, b, times, iso))
  }

  function AllDefinitions(c: Config, iso: int -> string): Result<seq<Definition>, Error> {
    match BaselinePart(c, iso)
    case Err(e) => Err(e)
    case Ok(base) =>
      if c.burstEnabled && !BurstsInWindow(c, |c.bursts|) then Err(InvalidScheduleConfig)
      else
        Ok(base + (if c.burstEnabled then BurstDefinitions(c, |c.bursts|, iso) else [])
           + RepeatedDefinitions(c, |c.repeated|))
  }

  method BuildBaseline(c: Config, b: Baseline, iso: int -> string) returns (r: Result<seq<Definition>, Error>)
    requires c.baseline == Some(b)
    ensures r == BaselinePart(c, iso)
  {
    if b.interval <= 0 {
      return Err(InvalidScheduleConfig);
    }
    var times := BaselineOccurrenceTimes(c.start, c.end, b.interval);
    if times.Err? {
      return Err(times.error);
    }
    if |times.value| > MAX_BASELINE_OCCURRENCES {
      return Err(CapExceeded);
    }
    var definitions := [];
    for i := 0 to |times.value|
      invariant definitions == BaselineDefinitions(c, b, times.value, iso)[..i]
    {
      var at := iso(times.value[i]);
      definitions := definitions + [Definition(BaselineKind, b.scenario, at, IdOf(c, BaselineKind, b.scenario, at, ""), 1)];
    }
    assert definitions == BaselineDefinitions(c, b, times.value, iso);
    r := Ok(definitions);
  }

  /** Baseline, bursts, repeated runs, in this order. The finalization definition is not an
      execution and is left to the caller. */
  method BuildAll(c: Config, iso: int -> string) returns (r: Result<seq<Definition>, Error>)
    ensures r == AllDefinitions(c, iso)
  {
    var definitions: seq<Definition> := [];
    if c.baseline.Some? {
      var base := BuildBaseline(c, c.baseline.value, iso);
      if base.Err? {
        return base;
      }
      definitions := base.value;
    }
    var bursts := BuildBursts(c, iso);
    if bursts.Err? {
      return bursts;
    }
    var repeated := BuildRepeated(c);
    r := Ok(definitions + bursts.value + repeated);
  }

  /** Windows are looked at only when bursts are enabled. */
  method BuildBursts(c: Config, iso: int -> string) returns (r: Result<seq<Definition>, Error>)
    ensures r == if c.burstEnabled && !BurstsInWindow(c, |c.bursts|) then Err(InvalidScheduleConfig)
                 else Ok(if c.burstEnabled then BurstDefinitions(c, |c.bursts|, iso) else [])
  {
    var definitions := [];
    for i := 0 to |c.bursts|
      invariant c.burstEnabled ==> BurstsInWindow(c, i)
      invariant definitions == if c.burstEnabled then BurstDefinitions(c, i, iso) else []
    {
      if c.burstEnabled {
        if c.bursts[i].start < c.start || c.bursts[i].end > c.end {
          return Err(InvalidScheduleConfig);
        }
        definitions := definitions + [BurstDefinition(c, i, iso)];
      }
    }
    r := Ok(definitions);
  }

  method BuildRepeated(c: Config) returns (definitions: seq<Definition>)
    ensures definitions == RepeatedDefinitions(c, |c.repeated|)
  {
    definitions := [];
    for i := 0 to |c.repeated|
      invariant definitions == RepeatedDefinitions(c, i)
    {
      if c.repeated[i].enabled {
        definitions := definitions + [RepeatedDefinition(c, i)];
      }
    }
  }

  // ---- ids are distinct ----

  /** Identifiers hold no ':' and no '#'; different times print differently. */
  ghost predicate ValidConfig(c: Config, iso: int -> string) {
    && Text.Free(c.client, ':') && Text.Free(c.audit, ':')
    && (c.baseline.Some? ==> Text.Free(c.baseline.value.scenario, ':'))
    && (forall i :: 0 <= i < |c.bursts| ==> Text.Free(c.bursts[i].scenario, ':'))
    && (forall i :: 0 <= i < |c.repeated| ==> Text.Free(c.repeated[i].scenario, ':'))
    && (forall s, t :: iso(s) == iso(t) ==> s == t)
  }

  lemma CanonicalText(c: Config, k: Kind, scenario: string, at: string, suffix: string)
    ensures Canonical(c, k, scenario, at) + suffix ==
            c.client + [':'] + (c.audit + [':'] + (KindText(k) + [':'] + (scenario + [':'] + (at + suffix))))
  {
    var f := [c.client, c.audit, KindText(k), scenario, at];
    assert f[1..] == [c.audit, KindText(k), scenario, at] && f[1..][1..] == [KindText(k), scenario, at];
    assert [KindText(k), scenario, at][1..] == [scenario, at] && [scenario, at][1..] == [at];
    assert Text.Join([at], ':') == at;
    assert Text.Join([scenario, at], ':') == scenario + [':'] + at;
    assert Text.Join([KindText(k), scenario, at], ':') == KindText(k) + [':'] + (scenario + [':'] + at);
    var more := Text.Join(f[1..], ':');
    assert more == c.audit + [':'] + Text.Join([KindText(k), scenario, at], ':');
    assert Text.Join(f, ':') == c.client + [':'] + more;
  }

  lemma KindTextInjective(k: Kind, l: Kind)
    requires KindText(k) == KindText(l)
    ensures k == l
  {
    assert |KindText(BaselineKind)| == 8 && |KindText(BurstKind)| == 5 && |KindText(RepeatedKind)| == 8;
    assert KindText(BaselineKind)[1] == 'a' && KindText(RepeatedKind)[1] == 'e';
  }

  /** A canonical text with a suffix determines the kind, and the scenario, and the time with
      the suffix. */
  lemma CanonicalPeel(c: Config, k: Kind, s: string, at: string, x: string, l: Kind, t: string, bt: string, y: string)
    requires Text.Free(s, ':') && Text.Free(t, ':')
    requires Canonical(c, k, s, at) + x == Canonical(c, l, t, bt) + y
    ensures k == l && s == t && at + x == bt + y
  {
    CanonicalText(c, k, s, at, x);
    CanonicalText(c, l, t, bt, y);
    var z, w := ScenarioTail(s, at, x), ScenarioTail(t, bt, y);
    var a, b := KindText(k) + [':'] + z, KindText(l) + [':'] + w;
    assert c.client + [':'] + (c.audit + [':'] + a) == c.client + [':'] + (c.audit + [':'] + b);
    SamePrefix(c.client + [':'], c.audit + [':'] + a, c.audit + [':'] + b);
    SamePrefix(c.audit + [':'], a, b);
    KindFree(k);
    KindFree(l);
    Text.PeelLeft(KindText(k), z, KindText(l), w, ':');
    KindTextInjective(k, l);
    Text.PeelLeft(s, at + x, t, bt + y, ':');
  }

  function ScenarioTail(s: string, at: string, x: string): string {
    s + [':'] + (at + x)
  }

  lemma SamePrefix(p: string, x: string, y: string)
    requires p + x == p + y
    ensures x == y
  {
    assert x == (p + x)[|p|..] == (p + y)[|p|..] == y;
  }

  lemma KindFree(k: Kind)
    ensures Text.Free(KindText(k), ':')
  {
  }

  lemma SuffixPeel(at: string, i: nat, bt: string, j: nat)
    requires at + Suffix(i) == bt + Suffix(j)
    ensures i == j
  {
    Text.DecimalFree(i, '#');
    Text.DecimalFree(j, '#');
    assert at + Suffix(i) == at + ['#'] + Text.Decimal(i);
    assert bt + Suffix(j) == bt + ['#'] + Text.Decimal(j);
    Text.PeelRight(at, Text.Decimal(i), bt, Text.Decimal(j), '#');
    Text.DecimalInjective(i, j);
  }

  /** Ids of different kinds never coincide. */
  lemma IdsOfKinds(c: Config, k: Kind, s: string, at: string, x: string, l: Kind, t: string, bt: string, y: string)
    requires Text.Free(s, ':') && Text.Free(t, ':') && k != l
    ensures IdOf(c, k, s, at, x) != IdOf(c, l, t, bt, y)
  {
    if IdOf(c, k, s, at, x) == IdOf(c, l, t, bt, y) {
      if |Canonical(c, k, s, at)| <= MAX_OCCURRENCE_ID {
        CanonicalPeel(c, k, s, at, x, l, t, bt, y);
      } else {
        assert Canonical(c, k, s, at) + "" == Canonical(c, l, t, bt) + "";
        CanonicalPeel(c, k, s, at, "", l, t, bt, "");
      }
    }
  }

  lemma BaselineIds(c: Config, s: string, at: string, bt: string)
    requires Text.Free(s, ':') && at != bt
    ensures IdOf(c, BaselineKind, s, at, "") != IdOf(c, BaselineKind, s, bt, "")
  {
    assert at + "" == at && bt + "" == bt;
    if Canonical(c, BaselineKind, s, at) + "" == Canonical(c, BaselineKind, s, bt) + "" {
      CanonicalPeel(c, BaselineKind, s, at, "", BaselineKind, s, bt, "");
    }
  }

  lemma IndexedIds(c: Config, k: Kind, s: string, at: string, i: nat, t: string, bt: string, j: nat)
    requires Text.Free(s, ':') && Text.Free(t, ':') && i != j
    ensures IdOf(c, k, s, at, Suffix(i)) != IdOf(c, k, t, bt, Suffix(j))
  {
    if IdOf(c, k, s, at, Suffix(i)) == IdOf(c, k, t, bt, Suffix(j)) {
      if |Canonical(c, k, s, at)| <= MAX_OCCURRENCE_ID {
        CanonicalPeel(c, k, s, at, Suffix(i), k, t, bt, Suffix(j));
        SuffixPeel(at, i, bt, j);
      } else {
        assert "" + Suffix(i) == "" + Suffix(j);
        SuffixPeel("", i, "", j);
      }
    }
  }

  ghost predicate IdsDistinct(d: seq<Definition>) {
    forall i, j :: 0 <= i < j < |d| ==> d[i].id != d[j].id
  }

  ghost predicate OfKind(d: seq<Definition>, c: Config, k: Kind) {
    forall x :: x in d ==> exists suffix :: x.kind == k && Text.Free(x.scenario, ':') && x.id == IdOf(c, k, x.scenario, x.at, suffix)
  }

  lemma JoinKinds(c: Config, a: seq<Definition>, b: seq<Definition>)
    requires IdsDistinct(a) && IdsDistinct(b)
    requires forall x, y :: x in a && y in b ==> x.id != y.id
    ensures IdsDistinct(a + b)
  {
    forall i, j | 0 <= i < j < |a + b| ensures (a + b)[i].id != (a + b)[j].id {
      if i < |a| {
        assert (a + b)[i] in a;
        if j >= |a| {
          assert (a + b)[j] in b;
        }
      }
    }
  }

  lemma KindsDiffer(c: Config, a: seq<Definition>, k: Kind, b: seq<Definition>, l: Kind)
    requires OfKind(a, c, k) && OfKind(b, c, l) && k != l
    ensures forall x, y :: x in a && y in b ==> x.id != y.id
  {
    forall x, y | x in a && y in b ensures x.id != y.id {
      var u :| x.id == IdOf(c, k, x.scenario, x.at, u);
      var v :| y.id == IdOf(c, l, y.scenario, y.at, v);
      IdsOfKinds(c, k, x.scenario, x.at, u, l, y.scenario, y.at, v);
    }
  }

  lemma BaselineDistinct(c: Config, b: Baseline, times: seq<int>, iso: int -> string)
    requires ValidConfig(c, iso) && Text.Free(b.scenario, ':')
    requires forall i, j :: 0 <= i < j < |times| ==> times[i] < times[j]
    ensures IdsDistinct(BaselineDefinitions(c, b, times, iso)) && OfKind(BaselineDefinitions(c, b, times, iso), c, BaselineKind)
  {
    var d := BaselineDefinitions(c, b, times, iso);
    forall i, j | 0 <= i < j < |d| ensures d[i].id != d[j].id {
      assert iso(times[i]) != iso(times[j]);
      BaselineIds(c, b.scenario, iso(times[i]), iso(times[j]));
    }
    forall x | x in d
      ensures exists suffix :: x.kind == BaselineKind && Text.Free(x.scenario, ':') && x.id == IdOf(c, BaselineKind, x.scenario, x.at, suffix)
    {
      assert x.id == IdOf(c, BaselineKind, x.scenario, x.at, "");
    }
  }

  lemma {:induction false} BurstsDistinct(c: Config, n: nat, iso: int -> string)
    requires ValidConfig(c, iso) && n <= |c.bursts|
    ensures |BurstDefinitions(c, n, iso)| == n
    ensures forall i :: 0 <= i < n ==> BurstDefinitions(c, n, iso)[i] == BurstDefinition(c, i, iso)
    ensures IdsDistinct(BurstDefinitions(c, n, iso)) && OfKind(BurstDefinitions(c, n, iso), c, BurstKind)
  {
    if n > 0 {
      BurstsDistinct(c, n - 1, iso);
      var d, last := BurstDefinitions(c, n - 1, iso), BurstDefinition(c, n - 1, iso);
      forall i | 0 <= i < |d| ensures d[i].id != last.id {
        IndexedIds(c, BurstKind, d[i].scenario, d[i].at, i, last.scenario, last.at, n - 1);
      }
      assert last.id == IdOf(c, BurstKind, last.scenario, last.at, Suffix(n - 1));
    }
  }

  predicate RepeatedFrom(c: Config, d: Definition, n: nat) {
    exists i :: 0 <= i < n && i < |c.repeated| && d == RepeatedDefinition(c, i)
  }

  lemma {:induction false} RepeatedDistinct(c: Config, n: nat, iso: int -> string)
    requires ValidConfig(c, iso) && n <= |c.repeated|
    ensures forall x :: x in RepeatedDefinitions(c, n) ==> RepeatedFrom(c, x, n)
    ensures IdsDistinct(RepeatedDefinitions(c, n))
  {
    if n > 0 {
      RepeatedDistinct(c, n - 1, iso);
      var d, last := RepeatedDefinitions(c, n - 1), RepeatedDefinition(c, n - 1);
      forall x | x in d ensures x.id != last.id && RepeatedFrom(c, x, n) {
        assert RepeatedFrom(c, x, n - 1);
        var i :| 0 <= i < n - 1 && x == RepeatedDefinition(c, i);
        IndexedIds(c, RepeatedKind, x.scenario, x.at, i, last.scenario, last.at, n - 1);
      }
      assert RepeatedFrom(c, last, n);
    }
  }

  lemma RepeatedOfKind(c: Config, iso: int -> string)
    requires ValidConfig(c, iso)
    ensures OfKind(RepeatedDefinitions(c, |c.repeated|), c, RepeatedKind)
  {
    RepeatedDistinct(c, |c.repeated|, iso);
    forall x | x in RepeatedDefinitions(c, |c.repeated|)
      ensures exists suffix :: x.kind == RepeatedKind && Text.Free(x.scenario, ':') && x.id == IdOf(c, RepeatedKind, x.scenario, x.at, suffix)
    {
      var i :| 0 <= i < |c.repeated| && x == RepeatedDefinition(c, i);
      assert x.id == IdOf(c, RepeatedKind, x.scenario, x.at, Suffix(i));
    }
  }

  /** Every execution definition of an audit has an occurrence id of its own. */
  lemma OccurrenceIdsDistinct(c: Config, iso: int -> string)
    requires ValidConfig(c, iso) && AllDefinitions(c, iso).Ok?
    ensures IdsDistinct(AllDefinitions(c, iso).value)
  {
    var base := BaselinePart(c, iso).value;
    BaselinePartDistinct(c, iso);
    var bursts := if c.burstEnabled then BurstDefinitions(c, |c.bursts|, iso) else [];
    BurstsDistinct(c, |c.bursts|, iso);
    var repeated := RepeatedDefinitions(c, |c.repeated|);
    RepeatedDistinct(c, |c.repeated|, iso);
    RepeatedOfKind(c, iso);
    KindsDiffer(c, base, BaselineKind, bursts, BurstKind);
    KindsDiffer(c, base, BaselineKind, repeated, RepeatedKind);
    KindsDiffer(c, bursts, BurstKind, repeated, RepeatedKind);
    JoinKinds(c, base, bursts);
    JoinKinds(c, base + bursts, repeated);
  }

  lemma BaselinePartDistinct(c: Config, iso: int -> string)
    requires ValidConfig(c, iso) && BaselinePart(c, iso).Ok?
    ensures IdsDistinct(BaselinePart(c, iso).value) && OfKind(BaselinePart(c, iso).value, c, BaselineKind)
  {
    if c.baseline.Some? {
      var b := c.baseline.value;
      var times := Times(c.start, c.end, b.interval);
      forall i, j | 0 <= i < j < |times| ensures times[i] < times[j] { TimesRise(c.start, c.end, b.interval, i, j); }
      BaselineDistinct(c, b, times, iso);
    }
  }

  // ---- ids as stored text ----

  predicate Hex(s: string) {
    forall i :: 0 <= i < |s| ==> Text.IsDigit(s[i]) || 'a' <= s[i] <= 'f'
  }

  /** SHA-256 in hexadecimal, as far as ids depend on it. */
  ghost predicate HexDigest(hash: string -> string) {
    && (forall x :: |hash(x)| == 64 && Hex(hash(x)))
    && (forall x, y :: hash(x) == hash(y) ==> x == y)
  }

  function IdText(id: OccurrenceId, hash: string -> string): string {
    match id
    case Plain(text) => text
    case Digested(canonical, suffix) => DigestText(hash(canonical), suffix)
  }

  function DigestText(digest: string, suffix: string): string {
    "occurrence" + [':'] + (Prefix(digest, 10) + [':'] + (digest + suffix))
  }

  function Prefix(s: string, n: nat): string {
    if n <= |s| then s[..n] else s
  }

  /** A plain id starts with three ':'-free fields, a digest has two and a suffix without ':'. */
  ghost predicate Shaped(id: OccurrenceId) {
    match id
    case Plain(text) => exists a, b, k, rest :: FourParts(text, a, b, k, rest)
    case Digested(_, suffix) => Text.Free(suffix, ':')
  }

  predicate FourParts(text: string, a: string, b: string, k: string, rest: string) {
    && Text.Free(a, ':') && Text.Free(b, ':') && Text.Free(k, ':')
    && text == a + [':'] + (b + [':'] + (k + [':'] + rest))
  }

  lemma IdShaped(c: Config, k: Kind, s: string, at: string, suffix: string)
    requires Text.Free(c.client, ':') && Text.Free(c.audit, ':') && Text.Free(suffix, ':')
    ensures Shaped(IdOf(c, k, s, at, suffix))
  {
    CanonicalText(c, k, s, at, suffix);
    KindFree(k);
    assert FourParts(Canonical(c, k, s, at) + suffix, c.client, c.audit, KindText(k), s + [':'] + (at + suffix));
  }

  lemma SeparatorIn(k: string, rest: string, t: string)
    requires Text.Free(t, ':')
    ensures t != k + [':'] + rest
  {
    assert (k + [':'] + rest)[|k|] == ':';
  }

  lemma PlainIsNoDigest(text: string, digest: string, suffix: string)
    requires Shaped(Plain(text)) && |digest| == 64 && Hex(digest) && Text.Free(suffix, ':')
    ensures text != DigestText(digest, suffix)
  {
    var a, b, k, rest :| FourParts(text, a, b, k, rest);
    if text == DigestText(digest, suffix) {
      var x, y := b + [':'] + (k + [':'] + rest), Prefix(digest, 10) + [':'] + (digest + suffix);
      Text.PeelLeft(a, x, "occurrence", y, ':');
      Text.PeelLeft(b, k + [':'] + rest, Prefix(digest, 10), digest + suffix, ':');
      SeparatorIn(k, rest, digest + suffix);
    }
  }

  lemma DigestsDiffer(d: string, x: string, e: string, y: string)
    requires |d| == 64 && |e| == 64 && Hex(d) && Hex(e)
    requires DigestText(d, x) == DigestText(e, y)
    ensures d == e && x == y
  {
    var v, w := Prefix(d, 10) + [':'] + (d + x), Prefix(e, 10) + [':'] + (e + y);
    Text.PeelLeft("occurrence", v, "occurrence", w, ':');
    Text.PeelLeft(Prefix(d, 10), d + x, Prefix(e, 10), e + y, ':');
    assert d == (d + x)[..64] == (e + y)[..64] == e;
    assert x == (d + x)[64..] == (e + y)[64..] == y;
  }

  /** Different ids are stored as different texts: in particular no digest reads like the
      canonical text of another occurrence. */
  lemma IdTextInjective(a: OccurrenceId, b: OccurrenceId, hash: string -> string)
    requires Shaped(a) && Shaped(b) && HexDigest(hash) && IdText(a, hash) == IdText(b, hash)
    ensures a == b
  {
    match (a, b)
    case (Plain(_), Plain(_)) =>
    case (Plain(t), Digested(x, suffix)) => PlainIsNoDigest(t, hash(x), suffix);
    case (Digested(x, suffix), Plain(t)) => PlainIsNoDigest(t, hash(x), suffix);
    case (Digested(x, s), Digested(y, t)) => DigestsDiffer(hash(x), s, hash(y), t);
  }

  lemma {:induction false} IdsShaped(c: Config, m: nat, n: nat, iso: int -> string)
    requires ValidConfig(c, iso) && m <= |c.bursts| && n <= |c.repeated|
    ensures forall d :: d in BurstDefinitions(c, m, iso) || d in RepeatedDefinitions(c, n) ==> Shaped(d.id)
    decreases m + n
  {
    if m > 0 {
      IdsShaped(c, m - 1, n, iso);
      SuffixFree(m - 1);
      IdShaped(c, BurstKind, c.bursts[m - 1].scenario, iso(c.bursts[m - 1].start), Suffix(m - 1));
    } else if n > 0 {
      IdsShaped(c, m, n - 1, iso);
      SuffixFree(n - 1);
      IdShaped(c, RepeatedKind, c.repeated[n - 1].scenario, c.repeated[n - 1].at, Suffix(n - 1));
    }
  }

  lemma SuffixFree(i: nat)
    ensures Text.Free(Suffix(i), ':')
  {
    Text.DecimalFree(i, ':');
  }

  lemma BaselineShaped(c: Config, iso: int -> string)
    requires ValidConfig(c, iso) && BaselinePart(c, iso).Ok?
    ensures forall d :: d in BaselinePart(c, iso).value ==> Shaped(d.id)
  {
    forall d | d in BaselinePart(c, iso).value ensures Shaped(d.id) {
      var b := c.baseline.value;
      IdShaped(c, BaselineKind, b.scenario, d.at, "");
    }
  }

  /** Every execution definition of an audit is stored under an occurrence id of its own. */
  lemma OccurrenceTextsDistinct(c: Config, iso: int -> string, hash: string -> string, i: nat, j: nat)
    requires ValidConfig(c, iso) && HexDigest(hash) && AllDefinitions(c, iso).Ok?
    requires i < j < |AllDefinitions(c, iso).value|
    ensures var d := AllDefinitions(c, iso).value; IdText(d[i].id, hash) != IdText(d[j].id, hash)
  {
    var d := AllDefinitions(c, iso).value;
    OccurrenceIdsDistinct(c, iso);
    BaselineShaped(c, iso);
    IdsShaped(c, |c.bursts|, |c.repeated|, iso);
    assert d[i] in d && d[j] in d;
    assert Shaped(d[i].id) && Shaped(d[j].id);
    if IdText(d[i].id, hash) == IdText(d[j].id, hash) {
      IdTextInjective(d[i].id, d[j].id, hash);
    }
  }

  // ---- ids the event contract refuses ----

  const FORBIDDEN: seq<string> := ["token", "secret", "password"]

  predicate Marked(s: string) {
    exists m :: m in FORBIDDEN && Text.Contains(Lower(s), m)
  }

  /** validate_occurrence_id */
  predicate Refused(id: string) {
    id == "" || |id| > MAX_OCCURRENCE_ID || Marked(id)
  }

  /** What is appended to an id: nothing, or '#' and digits. */
  predicate IndexSuffix(s: string) {
    s == "" || (s[0] == '#' && forall i :: 1 <= i < |s| ==> Text.IsDigit(s[i]))
  }

  lemma SuffixIsIndex(i: nat)
    ensures IndexSuffix(Suffix(i))
  {
  }

  /** The length of the stored text: "occurrence:", ten digits, ":" and 64 digits for a digest. */
  function IdLength(id: OccurrenceId): nat {
    match id
    case Plain(text) => |text|
    case Digested(_, suffix) => 86 + |suffix|
  }

  lemma CanonicalLength(c: Config, k: Kind, s: string, at: string)
    ensures |Canonical(c, k, s, at)| == |c.client| + |c.audit| + |KindText(k)| + |s| + |at| + 4
  {
    CanonicalText(c, k, s, at, "");
    assert Canonical(c, k, s, at) + "" == Canonical(c, k, s, at);
    assert at + "" == at;
  }

  /** The builder applies the limit before it appends the index: an id is too long exactly
      when the five fields and their four separators are within the limit and the index is
      what exceeds it. (A digest takes 86 characters, so its index would need 171.) */
  lemma TooLongIff(c: Config, k: Kind, s: string, at: string, suffix: string)
    ensures IdLength(IdOf(c, k, s, at, suffix)) > MAX_OCCURRENCE_ID <==>
            var fields := |c.client| + |c.audit| + |KindText(k)| + |s| + |at|;
            if fields + 4 <= MAX_OCCURRENCE_ID then fields + 4 + |suffix| > MAX_OCCURRENCE_ID else |suffix| > 170
  {
    CanonicalLength(c, k, s, at);
  }

  // ---- which ids hold a forbidden word ----

  lemma KindUnmarked(k: Kind)
    ensures !Marked(KindText(k))
  {
    Lacks(Lower(KindText(k)), "token", 2);
    Lacks(Lower(KindText(k)), "secret", 2);
    Lacks(Lower(KindText(k)), "password", 4);
  }

  lemma WordsAre(m: string)
    requires m in FORBIDDEN
    ensures m != "" && Text.Free(m, ':') && Text.Free(m, '#') && LowerChar(m[0]) == m[0]
    ensures m[0] == 't' || m[0] == 's' || m[0] == 'p'
  {
  }

  /** Digits and hexadecimal digits spell none of the words. */
  lemma PlainlyUnmarked(s: string)
    requires forall i :: 0 <= i < |s| ==> Text.IsDigit(s[i]) || 'a' <= s[i] <= 'f' || s[i] == '#'
    ensures !Marked(s)
  {
    forall m | m in FORBIDDEN ensures !Text.Contains(Lower(s), m) {
      WordsAre(m);
      Lacks(Lower(s), m, 0);
    }
  }

  lemma WithSuffix(text: string, suffix: string, m: string)
    requires IndexSuffix(suffix) && m in FORBIDDEN
    ensures Text.Contains(Lower(text + suffix), m) <==> Text.Contains(Lower(text), m)
  {
    WordsAre(m);
    if suffix == "" {
      assert text + suffix == text;
    } else {
      LowerAppend(text, suffix);
      assert Lower(suffix) == ['#'] + Lower(suffix[1..]);
      assert Lower(text + suffix) == Lower(text) + ['#'] + Lower(suffix[1..]);
      ContainsAround(Lower(text), Lower(suffix[1..]), m, '#');
      Lacks(Lower(suffix[1..]), m, 0);
    }
  }

  lemma MarkedCanonical(c: Config, k: Kind, s: string, at: string, m: string)
    requires m in FORBIDDEN
    ensures Text.Contains(Lower(Canonical(c, k, s, at)), m) <==>
            (Text.Contains(Lower(c.client), m) || Text.Contains(Lower(c.audit), m)
             || Text.Contains(Lower(s), m) || Text.Contains(Lower(at), m))
  {
    var f := [c.client, c.audit, KindText(k), s, at];
    WordsAre(m);
    LowerJoin(f, ':');
    ContainsJoin(LowerAll(f), m, ':');
    KindUnmarked(k);
    var l := LowerAll(f);
    assert l[0] == Lower(c.client) && l[1] == Lower(c.audit) && l[2] == Lower(KindText(k)) && l[3] == Lower(s) && l[4] == Lower(at);
  }

  /** A plain id holds a forbidden word exactly when one of its four free fields does. */
  lemma MarkedPlain(c: Config, k: Kind, s: string, at: string, suffix: string)
    requires IndexSuffix(suffix)
    ensures Marked(Canonical(c, k, s, at) + suffix) <==> Marked(c.client) || Marked(c.audit) || Marked(s) || Marked(at)
  {
    forall m | m in FORBIDDEN
      ensures Text.Contains(Lower(Canonical(c, k, s, at) + suffix), m) <==>
              (Text.Contains(Lower(c.client), m) || Text.Contains(Lower(c.audit), m)
               || Text.Contains(Lower(s), m) || Text.Contains(Lower(at), m))
    {
      WithSuffix(Canonical(c, k, s, at), suffix, m);
      MarkedCanonical(c, k, s, at, m);
    }
  }

  /** A digest holds none. */
  lemma DigestUnmarked(digest: string, suffix: string)
    requires |digest| == 64 && Hex(digest) && IndexSuffix(suffix)
    ensures |DigestText(digest, suffix)| == 86 + |suffix| && !Marked(DigestText(digest, suffix))
  {
    var f := ["occurrence", Prefix(digest, 10), digest];
    assert f[1..] == [Prefix(digest, 10), digest] && f[1..][1..] == [digest];
    assert Text.Join([digest], ':') == digest;
    assert Text.Join(f[1..], ':') == Prefix(digest, 10) + [':'] + digest;
    assert Text.Join(f, ':') == "occurrence" + [':'] + (Prefix(digest, 10) + [':'] + digest);
    assert DigestText(digest, suffix) == Text.Join(f, ':') + suffix;
    forall m | m in FORBIDDEN ensures !Text.Contains(Lower(DigestText(digest, suffix)), m) {
      WithSuffix(Text.Join(f, ':'), suffix, m);
      WordsAre(m);
      LowerJoin(f, ':');
      ContainsJoin(LowerAll(f), m, ':');
      PlainlyUnmarked(digest);
      PlainlyUnmarked(Prefix(digest, 10));
      OccurrenceUnmarked();
      var l := LowerAll(f);
      assert l[0] == Lower("occurrence") && l[1] == Lower(Prefix(digest, 10)) && l[2] == Lower(digest);
    }
  }

  lemma OccurrenceUnmarked()
    ensures !Marked("occurrence")
  {
    Lacks(Lower("occurrence"), "token", 2);
    Lacks(Lower("occurrence"), "secret", 0);
    Lacks(Lower("occurrence"), "password", 0);
  }

  /** The event contract refuses a built id exactly when the index makes it too long, or when
      it is stored in plain and its client, audit, scenario or time holds a forbidden word. */
  lemma RefusedIff(c: Config, k: Kind, s: string, at: string, suffix: string, hash: string -> string)
    requires HexDigest(hash) && IndexSuffix(suffix)
    ensures Refused(IdText(IdOf(c, k, s, at, suffix), hash)) <==>
            var fields := |c.client| + |c.audit| + |KindText(k)| + |s| + |at|;
            if fields + 4 <= MAX_OCCURRENCE_ID
            then fields + 4 + |suffix| > MAX_OCCURRENCE_ID || Marked(c.client) || Marked(c.audit) || Marked(s) || Marked(at)
            else |suffix| > 170
  {
    var canonical := Canonical(c, k, s, at);
    CanonicalLength(c, k, s, at);
    if |canonical| <= MAX_OCCURRENCE_ID {
      MarkedPlain(c, k, s, at, suffix);
    } else {
      DigestUnmarked(hash(canonical), suffix);
    }
  }

  // ---- such ids are built ----

  /** A client id of 100 characters, an audit id of 112 and one burst window. */
  function LongNames(): Config {
    Config(seq(100, _ => 'c'), seq(112, _ => 'a'), 0, 1, None, true, [Burst("burst_stability", 0, 1)], [])
  }

  function OneBurst(client: string): Config {
    Config(client, "a", 0, 1, None, true, [Burst("burst_stability", 0, 1)], [])
  }

  lemma OneDefinition(c: Config, iso: int -> string)
    requires c.baseline.None? && c.burstEnabled && |c.bursts| == 1 && c.repeated == [] && BurstsInWindow(c, 1)
    ensures AllDefinitions(c, iso) == Ok([BurstDefinition(c, 0, iso)])
  {
    var d := BurstDefinition(c, 0, iso);
    assert BurstDefinitions(c, 0, iso) == [];
    assert BurstDefinitions(c, 1, iso) == [d];
    assert BurstsInWindow(c, |c.bursts|) && RepeatedDefinitions(c, |c.repeated|) == [];
    assert BaselinePart(c, iso) == Ok([]) && BurstDefinitions(c, |c.bursts|, iso) == [d];
    assert AllDefinitions(c, iso).value == [] + [d] + [] == [d];
  }

  /** The long names build, with a first burst whose id takes 256 characters and its index two
      more, whenever a time is printed in 20 characters. */
  lemma LongIdBuilt(iso: int -> string)
    requires (forall s, t :: iso(s) == iso(t) ==> s == t) && |iso(0)| == 20
    ensures ValidConfig(LongNames(), iso) && AllDefinitions(LongNames(), iso).Ok?
    ensures |AllDefinitions(LongNames(), iso).value| == 1
    ensures IdLength(AllDefinitions(LongNames(), iso).value[0].id) == MAX_OCCURRENCE_ID + 2
  {
    var c := LongNames();
    OneDefinition(c, iso);
    FirstSuffix();
    CanonicalLength(c, BurstKind, "burst_stability", iso(0));
  }

  lemma FirstSuffix()
    ensures |Suffix(0)| == 2
  {
    assert |Text.Decimal(0)| == 1;
  }

  /** So does a client called "token-corp", with a short id that is refused all the same. */
  lemma MarkedIdBuilt(iso: int -> string, hash: string -> string)
    requires (forall s, t :: iso(s) == iso(t) ==> s == t) && |iso(0)| == 20 && HexDigest(hash)
    ensures ValidConfig(OneBurst("token-corp"), iso) && AllDefinitions(OneBurst("token-corp"), iso).Ok?
    ensures |AllDefinitions(OneBurst("token-corp"), iso).value| == 1
    ensures var id := AllDefinitions(OneBurst("token-corp"), iso).value[0].id;
            IdLength(id) < 70 && Refused(IdText(id, hash))
  {
    var c := OneBurst("token-corp");
    OneDefinition(c, iso);
    FirstSuffix();
    SuffixIsIndex(0);
    CanonicalLength(c, BurstKind, "burst_stability", iso(0));
    TokenCorp(c.client);
    RefusedIff(c, BurstKind, "burst_stability", iso(0), Suffix(0), hash);
  }

  lemma TokenCorp(client: string)
    requires client == "token-corp"
    ensures Marked(client)
  {
    assert Lower(client) == client;
    assert client[0..][..5] == "token";
    assert Text.StartsWith(Lower(client)[0..], "token");
    assert "token" in FORBIDDEN;
  }
}
