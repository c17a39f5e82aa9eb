/** The paths printed for positions of a payload template, and the seeds built on them. */
module TemplatePaths {
  import Text

  /** One step down a template: into an object by key, or into a list by index. */
  datatype Step = Key(key: string) | Index(index: nat)

  // ---- escaping ----

  /** s.replace(c, by) for a single character c */
  function Replace(s: string, c: char, with_: string): string {
    if s == "" then ""
    else (if s[0] == c then with_ else [s[0]]) + Replace(s[1..], c, with_)
  }

  /** Backslashes are doubled first, then quotes get a backslash. */
  function Escaped(key: string): string {
    Replace(Replace(key, '\\', "\\\\"), '\'', "\\'")
  }

  function EscapedChar(c: char): string {
    if c == '\\' then "\\\\" else if c == '\'' then "\\'" else [c]
  }

  lemma {:induction false} ReplaceAppend(a: string, b: string, c: char, with_: string)
    ensures Replace(a + b, c, with_) == Replace(a, c, with_) + Replace(b, c, with_)
  {
    if a == "" {
      assert a + b == b;
    } else {
      assert (a + b)[1..] == a[1..] + b;
      ReplaceAppend(a[1..], b, c, with_);
    }
  }

  lemma ReplaceFree(s: string, c: char, with_: string)
    requires |s| <= 2 && forall i :: 0 <= i < |s| ==> s[i] != c
    ensures Replace(s, c, with_) == s
  {
    if |s| == 2 {
      assert Replace(s[1..], c, with_) == [s[1]] + Replace(s[1..][1..], c, with_);
    }
  }

  /** The two replacements together treat every character by itself. */
  lemma EscapedCons(key: string)
    requires key != ""
    ensures Escaped(key) == EscapedChar(key[0]) + Escaped(key[1..])
  {
    var head := if key[0] == '\\' then "\\\\" else [key[0]];
    var tail := Replace(key[1..], '\\', "\\\\");
    ReplaceAppend(head, tail, '\'', "\\'");
    if key[0] == '\'' {
      assert Replace(head, '\'', "\\'") == "\\'" + Replace(head[1..], '\'', "\\'");
    } else {
      ReplaceFree(head, '\'', "\\'");
    }
  }

  lemma EscapedFirst(key: string, x: string)
    ensures var s := Escaped(key) + ['\''] + x;
            s[0] == '\'' <==> key == ""
  {
    if key != "" {
      EscapedCons(key);
    }
  }

  lemma EscapedRest(key: string, x: string)
    requires key != ""
    ensures var s := Escaped(key) + ['\''] + x;
            && s[0] == EscapedChar(key[0])[0]
            && (|EscapedChar(key[0])| == 2 ==> |s| > 1 && s[1] == EscapedChar(key[0])[1])
            && |EscapedChar(key[0])| <= |s|
            && s[|EscapedChar(key[0])|..] == Escaped(key[1..]) + ['\''] + x
  {
    EscapedCons(key);
    ConcatParts(Escaped(key), EscapedChar(key[0]), Escaped(key[1..]), x);
  }

  lemma ConcatParts(e: string, head: string, rest: string, x: string)
    requires e == head + rest && 1 <= |head| <= 2
    ensures var s := e + ['\''] + x;
            && s[0] == head[0]
            && (|head| == 2 ==> |s| > 1 && s[1] == head[1])
            && |head| <= |s|
            && s[|head|..] == rest + ['\''] + x
  {
  }

  lemma {:induction false} EscapedPeel(j: string, k: string, x: string, y: string)
    requires Escaped(j) + ['\''] + x == Escaped(k) + ['\''] + y
    ensures j == k && x == y
    decreases |j|
  {
    var s := Escaped(j) + ['\''] + x;
    EscapedFirst(j, x);
    EscapedFirst(k, y);
    if j == "" {
      assert x == s[1..] == y;
    } else {
      EscapedRest(j, x);
      EscapedRest(k, y);
      assert j[0] == k[0];
      EscapedPeel(j[1..], k[1..], x, y);
      assert j == [j[0]] + j[1..] && k == [k[0]] + k[1..];
    }
  }

  // ---- segments ----

  predicate Letter(c: char) {
    'A' <= c <= 'Z' || 'a' <= c <= 'z' || c == '_'
  }

  predicate WordChar(c: char) {
    Letter(c) || Text.IsDigit(c) || c == '-'
  }

  /** Keys printed bare: a letter or underscore, then letters, digits, '_' and '-'. */
  predicate Plain(key: string) {
    key != "" && Letter(key[0]) && forall i :: 0 <= i < |key| ==> WordChar(key[i])
  }

  function Segment(step: Step): (s: string)
    ensures |s| > 0 && (s[0] == '.' || s[0] == '[')
  {
    match step
    case Key(k) => if Plain(k) then "." + k else "['" + Escaped(k) + "']"
    case Index(i) => "[" + Text.Decimal(i) + "]"
  }

  function Segments(steps: seq<Step>): (s: string)
    ensures s == "" || s[0] == '.' || s[0] == '['
  {
    if steps == [] then "" else Segment(steps[0]) + Segments(steps[1..])
  }

  /** The path of a position, from the root "$". */
  function PathOf(steps: seq<Step>): string {
    "$" + Segments(steps)
  }

  lemma {:induction false} SegmentsExtend(steps: seq<Step>, step: Step)
    ensures Segments(steps + [step]) == Segments(steps) + Segment(step)
    decreases |steps|
  {
    if steps == [] {
      assert steps + [step] == [step] && [step][1..] == [];
    } else {
      assert (steps + [step])[1..] == steps[1..] + [step];
      SegmentsExtend(steps[1..], step);
    }
  }

  /** What the recursion over the template does: extend the parent's path by one segment. */
  lemma PathExtends(steps: seq<Step>, step: Step)
    ensures PathOf(steps + [step]) == PathOf(steps) + Segment(step)
  {
    SegmentsExtend(steps, step);
  }

  /** What may follow a segment. */
  predicate Following(x: string) {
    x == "" || x[0] == '.' || x[0] == '['
  }

  /** The length of the longest prefix of word characters. */
  function WordRun(s: string): (n: nat)
    ensures n <= |s|
  {
    if s == "" || !WordChar(s[0]) then 0 else 1 + WordRun(s[1..])
  }

  lemma {:induction false} WordRunOf(w: string, x: string)
    requires Following(x) && forall i :: 0 <= i < |w| ==> WordChar(w[i])
    ensures WordRun(w + x) == |w|
  {
    if w == "" {
      assert w + x == x;
    } else {
      assert (w + x)[1..] == w[1..] + x;
      WordRunOf(w[1..], x);
    }
  }

  lemma WordPeel(j: string, k: string, x: string, y: string)
    requires Following(x) && Following(y) && j + x == k + y
    requires (forall i :: 0 <= i < |j| ==> WordChar(j[i])) && (forall i :: 0 <= i < |k| ==> WordChar(k[i]))
    ensures j == k && x == y
  {
    WordRunOf(j, x);
    WordRunOf(k, y);
    assert j == (j + x)[..|j|] && k == (k + y)[..|k|];
    assert x == (j + x)[|j|..] && y == (k + y)[|k|..];
  }

  lemma IndexText(i: nat, x: string)
    ensures (Segment(Index(i)) + x)[1..] == Text.Decimal(i) + [']'] + x
  {
  }

  lemma IndexPeel(i: nat, j: nat, x: string, y: string)
    requires Segment(Index(i)) + x == Segment(Index(j)) + y
    ensures i == j && x == y
  {
    IndexText(i, x);
    IndexText(j, y);
    Text.DecimalFree(i, ']');
    Text.DecimalFree(j, ']');
    Text.PeelLeft(Text.Decimal(i), x, Text.Decimal(j), y, ']');
    Text.DecimalInjective(i, j);
  }

  lemma QuotedText(key: string, x: string)
    requires !Plain(key)
    ensures (Segment(Key(key)) + x)[2..] == Escaped(key) + ['\''] + ("]" + x)
  {
    assert "['" + Escaped(key) + "']" == "['" + (Escaped(key) + ['\''] + "]");
  }

  lemma QuotedPeel(j: string, k: string, x: string, y: string)
    requires !Plain(j) && !Plain(k) && Segment(Key(j)) + x == Segment(Key(k)) + y
    ensures j == k && x == y
  {
    QuotedText(j, x);
    QuotedText(k, y);
    EscapedPeel(j, k, "]" + x, "]" + y);
    assert x == ("]" + x)[1..] && y == ("]" + y)[1..];
  }

  lemma PlainPeel(j: string, k: string, x: string, y: string)
    requires Plain(j) && Plain(k) && Following(x) && Following(y) && Segment(Key(j)) + x == Segment(Key(k)) + y
    ensures j == k && x == y
  {
    var s := Segment(Key(j)) + x;
    assert s[1..] == j + x && s[1..] == k + y;
    WordPeel(j, k, x, y);
  }

  /** The first segment of a path is recovered. */
  lemma SegmentPeel(a: Step, b: Step, x: string, y: string)
    requires Following(x) && Following(y) && Segment(a) + x == Segment(b) + y
    ensures a == b && x == y
  {
    SameKind(a, b, x, y);
    match a
    case Index(i) => IndexPeel(i, b.index, x, y);
    case Key(k) =>
      if Plain(k) {
        PlainPeel(k, b.key, x, y);
      } else {
        QuotedPeel(k, b.key, x, y);
      }
  }

  lemma SameKind(a: Step, b: Step, x: string, y: string)
    requires Segment(a) + x == Segment(b) + y
    ensures a.Index? <==> b.Index?
    ensures a.Key? && b.Key? ==> (Plain(a.key) <==> Plain(b.key))
  {
    var s, t := Segment(a) + x, Segment(b) + y;
    assert s[0] == Segment(a)[0] && t[0] == Segment(b)[0];
    assert s[1] == Segment(a)[1] && t[1] == Segment(b)[1];
    assert a.Index? ==> Segment(a)[1] == Text.Decimal(a.index)[0];
    assert b.Index? ==> Segment(b)[1] == Text.Decimal(b.index)[0];
  }

  lemma {:induction false} SegmentsInjective(p: seq<Step>, q: seq<Step>)
    requires Segments(p) == Segments(q)
    ensures p == q
    decreases |p|
  {
    if p != [] && q != [] {
      SegmentPeel(p[0], q[0], Segments(p[1..]), Segments(q[1..]));
      SegmentsInjective(p[1..], q[1..]);
      assert p == [p[0]] + p[1..] && q == [q[0]] + q[1..];
    } else {
      assert p != [] ==> Segments(p) != "";
      assert q != [] ==> Segments(q) != "";
    }
  }

  /** Distinct positions of a template get distinct path strings, whatever characters their
      keys contain. */
  lemma PathInjective(p: seq<Step>, q: seq<Step>)
    ensures PathOf(p) == PathOf(q) <==> p == q
  {
    if PathOf(p) == PathOf(q) {
      assert Segments(p) == PathOf(p)[1..] == PathOf(q)[1..] == Segments(q);
      SegmentsInjective(p, q);
    }
  }

  // ---- UUID seeds ----

  datatype Origin = Origin(client: string, audit: string, run: string, endpoint: string, iteration: nat)

  predicate ValidOrigin(o: Origin) {
    Text.Free(o.client, '|') && Text.Free(o.audit, '|') && Text.Free(o.run, '|') && Text.Free(o.endpoint, '|')
  }

  function SeedHead(o: Origin): seq<string> {
    ["phase2.uuid.v1", o.client, o.audit, o.run, o.endpoint, Text.Decimal(o.iteration)]
  }

  function Seed(o: Origin, path: string, tokenIndex: nat, attempt: nat): string {
    Text.Join(SeedHead(o), '|') + ['|'] + path + ['|'] + ("token_index=" + Text.Decimal(tokenIndex))
    + ['|'] + ("attempt=" + Text.Decimal(attempt))
  }

  lemma {:induction false} JoinPeel(a: seq<string>, b: seq<string>, x: string, y: string, sep: char)
    requires |a| == |b| > 0 && Text.AllFree(a, sep) && Text.AllFree(b, sep)
    requires Text.Join(a, sep) + [sep] + x == Text.Join(b, sep) + [sep] + y
    ensures a == b && x == y
    decreases |a|
  {
    if |a| == 1 {
      Text.PeelLeft(a[0], x, b[0], y, sep);
    } else {
      var ra, rb := Text.Join(a[1..], sep) + [sep] + x, Text.Join(b[1..], sep) + [sep] + y;
      assert Text.Join(a, sep) + [sep] + x == a[0] + [sep] + ra;
      assert Text.Join(b, sep) + [sep] + y == b[0] + [sep] + rb;
      Text.PeelLeft(a[0], ra, b[0], rb, sep);
      JoinPeel(a[1..], b[1..], x, y, sep);
      assert a == [a[0]] + a[1..] && b == [b[0]] + b[1..];
    }
  }

  lemma LabelledDecimal(label_: string, m: nat, n: nat)
    requires label_ + Text.Decimal(m) == label_ + Text.Decimal(n)
    ensures m == n
  {
    assert Text.Decimal(m) == (label_ + Text.Decimal(m))[|label_|..];
    assert Text.Decimal(n) == (label_ + Text.Decimal(n))[|label_|..];
    Text.DecimalInjective(m, n);
  }

  lemma SeedHeadInjective(o: Origin, q: Origin)
    requires SeedHead(o) == SeedHead(q)
    ensures o == q
  {
    assert forall i :: 0 <= i < 6 ==> SeedHead(o)[i] == SeedHead(q)[i];
    assert SeedHead(o)[1] == SeedHead(q)[1] && SeedHead(o)[2] == SeedHead(q)[2] && SeedHead(o)[3] == SeedHead(q)[3];
    assert SeedHead(o)[4] == SeedHead(q)[4] && SeedHead(o)[5] == SeedHead(q)[5];
    Text.DecimalInjective(o.iteration, q.iteration);
  }

  /** A seed determines every part of it, even when the path contains '|'. */
  lemma SeedInjective(o: Origin, p: seq<Step>, m: nat, a: nat, q: Origin, r: seq<Step>, n: nat, b: nat)
    requires ValidOrigin(o) && ValidOrigin(q)
    ensures Seed(o, PathOf(p), m, a) == Seed(q, PathOf(r), n, b) <==> o == q && p == r && m == n && a == b
  {
    if Seed(o, PathOf(p), m, a) == Seed(q, PathOf(r), n, b) {
      SeedParts(o, PathOf(p), m, a, q, PathOf(r), n, b);
      PathInjective(p, r);
    }
  }

  lemma SeedParts(o: Origin, x: string, m: nat, a: nat, q: Origin, y: string, n: nat, b: nat)
    requires ValidOrigin(o) && ValidOrigin(q)
    requires Seed(o, x, m, a) == Seed(q, y, n, b)
    ensures o == q && x == y && m == n && a == b
  {
    var h, k := Text.Join(SeedHead(o), '|'), Text.Join(SeedHead(q), '|');
    var tm, tn := "token_index=" + Text.Decimal(m), "token_index=" + Text.Decimal(n);
    Text.PeelRight(h + ['|'] + x + ['|'] + tm, "attempt=" + Text.Decimal(a),
                   k + ['|'] + y + ['|'] + tn, "attempt=" + Text.Decimal(b), '|');
    Text.PeelRight(h + ['|'] + x, tm, k + ['|'] + y, tn, '|');
    LabelledDecimal("attempt=", a, b);
    LabelledDecimal("token_index=", m, n);
    JoinPeel(SeedHead(o), SeedHead(q), x, y, '|');
    SeedHeadInjective(o, q);
  }
}
