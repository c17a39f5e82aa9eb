/** The tokeniser of payload templates: literals and {{token}} markers in a string. */
module TemplateTokens {
  import Text

  predicate Brace(c: char) {
    c == '{' || c == '}'
  }

  predicate BraceFree(s: string) {
    forall i :: 0 <= i < |s| ==> !Brace(s[i])
  }

  const OPEN: string := "{{"
  const CLOSE: string := "}}"

  /** A doubled brace at position i. */
  predicate MarkAt(s: string, i: nat) {
    i + 1 < |s| && s[i] == s[i + 1] && Brace(s[i])
  }

  /** "{{" in s or "}}" in s */
  predicate HasMark(s: string) {
    exists i :: 0 <= i < |s| && MarkAt(s, i)
  }

  /** [^{}]+ is greedy: the run of characters that are not braces. */
  function Run(s: string): (n: nat)
    ensures n <= |s| && BraceFree(s[..n])
    ensures n < |s| ==> Brace(s[n])
  {
    if s == "" || Brace(s[0]) then 0
    else
      var n := Run(s[1..]) + 1;
      assert s[..n] == [s[0]] + s[1..][..n - 1];
      n
  }

  /** The length of the token when the pattern {{([^{}]+)}} matches at the start of s; 0
      when it does not. */
  function TokenLen(s: string): (n: nat)
    ensures n > 0 ==> n + 4 <= |s| && s == OPEN + s[2..n + 2] + CLOSE + s[n + 4..] && BraceFree(s[2..n + 2])
    ensures n > 0 ==> MarkAt(s, 0)
  {
    if !Text.StartsWith(s, OPEN) then 0
    else
      var r := Run(s[2..]);
      if r > 0 && Text.StartsWith(s[r + 2..], CLOSE) then
        assert s[2..][..r] == s[2..r + 2];
        assert s == s[..2] + s[2..r + 2] + s[r + 2..][..2] + s[r + 4..];
        r
      else 0
  }

  /** A string cut at its markers. */
  datatype Parsed = Tail(literal: string) | Cons(literal: string, token: string, rest: Parsed)

  function Prepend(c: char, p: Parsed): Parsed {
    match p
    case Tail(l) => Tail([c] + l)
    case Cons(l, t, r) => Cons([c] + l, t, r)
  }

  /** Leftmost matching from left to right, as re.sub walks the string. */
  function Scan(s: string): Parsed
    decreases |s|
  {
    var n := TokenLen(s);
    if s == "" then Tail("")
    else if n > 0 then Cons("", s[2..n + 2], Scan(s[n + 4..]))
    else Prepend(s[0], Scan(s[1..]))
  }

  function Unparse(p: Parsed): string {
    match p
    case Tail(l) => l
    case Cons(l, t, r) => l + OPEN + t + CLOSE + Unparse(r)
  }

  /** Brace-free literals around brace-free, non-empty tokens. */
  predicate WellFormed(p: Parsed) {
    match p
    case Tail(l) => BraceFree(l)
    case Cons(l, t, r) => BraceFree(l) && BraceFree(t) && t != "" && WellFormed(r)
  }

  function Tokens(p: Parsed): seq<string> {
    match p
    case Tail(_) => []
    case Cons(_, t, r) => [t] + Tokens(r)
  }

  /** TOKEN_PATTERN.sub("", s) */
  function Stripped(p: Parsed): string {
    match p
    case Tail(l) => l
    case Cons(l, _, r) => l + Stripped(r)
  }

  /** _balanced_tokens */
  predicate Balanced(s: string) {
    BraceFree(Stripped(Scan(s)))
  }

  lemma UnparsePrepend(c: char, p: Parsed)
    ensures Unparse(Prepend(c, p)) == [c] + Unparse(p)
  {
    if p.Cons? {
      var more := OPEN + p.token + CLOSE + Unparse(p.rest);
      assert Unparse(p) == p.literal + more;
      assert Unparse(Prepend(c, p)) == ([c] + p.literal) + more;
    }
  }

  lemma UnparseMarker(t: string, rest: Parsed)
    ensures Unparse(Cons("", t, rest)) == OPEN + t + CLOSE + Unparse(rest)
  {
    assert "" + OPEN == OPEN;
  }

  /** The pieces put together again are the input. */
  lemma {:induction false} UnparseScan(s: string)
    ensures Unparse(Scan(s)) == s
    decreases |s|
  {
    var n := TokenLen(s);
    if s != "" {
      if n > 0 {
        var t, x := s[2..n + 2], s[n + 4..];
        UnparseScan(x);
        UnparseMarker(t, Scan(x));
      } else {
        UnparseScan(s[1..]);
        UnparsePrepend(s[0], Scan(s[1..]));
        assert s == [s[0]] + s[1..];
      }
    }
  }

  /** Only the literals of a scan can be malformed. */
  lemma {:induction false} ScanTokens(s: string)
    ensures WellFormed(Scan(s)) <==> BraceFree(Stripped(Scan(s)))
    decreases |s|
  {
    var n := TokenLen(s);
    if s != "" {
      if n > 0 {
        ScanTokens(s[n + 4..]);
        assert Stripped(Scan(s)) == Stripped(Scan(s[n + 4..]));
      } else {
        ScanTokens(s[1..]);
        StrippedPrepend(s[0], Scan(s[1..]));
        WellFormedPrepend(s[0], Scan(s[1..]));
      }
    }
  }

  lemma BraceFreeCons(c: char, s: string)
    ensures BraceFree([c] + s) <==> !Brace(c) && BraceFree(s)
  {
    assert ([c] + s)[0] == c;
    assert forall i :: 0 <= i < |s| ==> ([c] + s)[i + 1] == s[i];
  }

  lemma WellFormedPrepend(c: char, p: Parsed)
    ensures WellFormed(Prepend(c, p)) <==> !Brace(c) && WellFormed(p)
  {
    BraceFreeCons(c, p.literal);
  }

  lemma StrippedPrepend(c: char, p: Parsed)
    ensures BraceFree(Stripped(Prepend(c, p))) <==> !Brace(c) && BraceFree(Stripped(p))
  {
    BraceFreeCons(c, Stripped(p));
    if p.Cons? {
      assert Stripped(Prepend(c, p)) == [c] + Stripped(p);
    }
  }

  lemma {:induction false} RunOf(t: string, x: string)
    requires BraceFree(t) && (x == "" || Brace(x[0]))
    ensures Run(t + x) == |t|
  {
    if t == "" {
      assert t + x == x;
    } else {
      assert (t + x)[1..] == t[1..] + x;
      RunOf(t[1..], x);
    }
  }

  lemma TokenLenOf(t: string, x: string)
    requires BraceFree(t) && t != ""
    ensures TokenLen(OPEN + t + CLOSE + x) == |t|
  {
    var s := OPEN + t + CLOSE + x;
    assert s[2..] == t + (CLOSE + x);
    RunOf(t, CLOSE + x);
    assert s[|t| + 2..] == CLOSE + x;
  }

  lemma ScanMarker(t: string, x: string)
    requires BraceFree(t) && t != ""
    ensures Scan(OPEN + t + CLOSE + x) == Cons("", t, Scan(x))
  {
    var s := OPEN + t + CLOSE + x;
    TokenLenOf(t, x);
    assert s[2..|t| + 2] == t && s[|t| + 4..] == x;
  }

  lemma ScanLiteral(c: char, x: string)
    requires !Brace(c)
    ensures Scan([c] + x) == Prepend(c, Scan(x))
  {
    assert ([c] + x)[0] == c && ([c] + x)[1..] == x;
    assert !MarkAt([c] + x, 0);
  }

  function DropLiteral(p: Parsed): Parsed
    requires p.literal != ""
  {
    match p
    case Tail(l) => Tail(l[1..])
    case Cons(l, t, r) => Cons(l[1..], t, r)
  }

  /** Scanning finds the pieces a well-formed string was put together from. */
  lemma {:induction false} ScanUnparse(p: Parsed)
    requires WellFormed(p)
    ensures Scan(Unparse(p)) == p
    decreases |Unparse(p)|
  {
    if p.literal == "" {
      if p.Cons? {
        assert Unparse(p) == OPEN + p.token + CLOSE + Unparse(p.rest);
        ScanMarker(p.token, Unparse(p.rest));
        ScanUnparse(p.rest);
      }
    } else {
      var c, q := p.literal[0], DropLiteral(p);
      assert p.literal == [c] + q.literal;
      assert Prepend(c, q) == p;
      UnparsePrepend(c, q);
      WellFormedPrepend(c, q);
      ScanLiteral(c, Unparse(q));
      ScanUnparse(q);
    }
  }

  /** A string is balanced exactly when it is brace-free literals around brace-free,
      non-empty tokens; the cut is then unique and is the one the scan finds. */
  lemma BalancedIffParses(s: string)
    ensures Balanced(s) <==> exists p :: WellFormed(p) && Unparse(p) == s
    ensures forall p :: WellFormed(p) && Unparse(p) == s ==> p == Scan(s)
  {
    ScanTokens(s);
    UnparseScan(s);
    forall p | WellFormed(p) && Unparse(p) == s ensures p == Scan(s) {
      ScanUnparse(p);
    }
  }

  /** A string in which neither {{ nor }} occurs has no token. */
  lemma {:induction false} NoMarkNoToken(s: string)
    requires !HasMark(s)
    ensures Scan(s) == Tail(s)
    decreases |s|
  {
    if s != "" {
      assert !MarkAt(s, 0);
      forall i | 0 <= i < |s[1..]| ensures !MarkAt(s[1..], i) { assert !MarkAt(s, i + 1); }
      NoMarkNoToken(s[1..]);
    }
  }

  /** Whether the renderer lets the string pass its balance check. */
  predicate Accepted(s: string) {
    HasMark(s) ==> Balanced(s)
  }
}
