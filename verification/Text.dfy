/** Separator-joined text: the storage keys, occurrence ids and seed strings of the
    platform are all fields joined by one separator character. */
module Text {

  predicate Free(s: string, sep: char) {
    sep !in s
  }

  predicate AllFree(fields: seq<string>, sep: char) {
    forall i :: 0 <= i < |fields| ==> Free(fields[i], sep)
  }

  /** sep.join(fields) */
  function Join(fields: seq<string>, sep: char): string {
    if |fields| == 0 then ""
    else if |fields| == 1 then fields[0]
    else fields[0] + [sep] + Join(fields[1..], sep)
  }

  /** The length of the longest prefix of s without sep. */
  function Head(s: string, sep: char): (n: nat)
    ensures n <= |s|
    ensures Free(s[..n], sep)
    ensures n < |s| ==> s[n] == sep
  {
    if s == "" || s[0] == sep then 0
    else
      var n := Head(s[1..], sep) + 1;
      assert s[..n] == [s[0]] + s[1..][..n - 1];
      n
  }

  /** s.split(sep) */
  function Split(s: string, sep: char): (fields: seq<string>)
    ensures |fields| >= 1
    decreases |s|
  {
    var n := Head(s, sep);
    if n == |s| then [s] else [s[..n]] + Split(s[n + 1..], sep)
  }

  lemma {:induction false} HeadOfField(a: string, rest: string, sep: char)
    requires Free(a, sep)
    requires rest == "" || rest[0] == sep
    ensures Head(a + rest, sep) == |a|
  {
    if a == "" {
      assert a + rest == rest;
    } else {
      assert (a + rest)[1..] == a[1..] + rest;
      assert Free(a[1..], sep);
      HeadOfField(a[1..], rest, sep);
    }
  }

  /** A separator-free field is recovered from whatever follows the separator. */
  lemma PeelLeft(a: string, x: string, b: string, y: string, sep: char)
    requires Free(a, sep) && Free(b, sep)
    requires a + [sep] + x == b + [sep] + y
    ensures a == b && x == y
  {
    assert a + [sep] + x == a + ([sep] + x);
    assert b + [sep] + y == b + ([sep] + y);
    HeadOfField(a, [sep] + x, sep);
    HeadOfField(b, [sep] + y, sep);
    assert a == (a + [sep] + x)[..|a|];
    assert b == (b + [sep] + y)[..|b|];
    assert x == (a + [sep] + x)[|a| + 1..];
    assert y == (b + [sep] + y)[|b| + 1..];
  }

  /** The same from the right: the last separator-free field is recovered. */
  lemma PeelRight(x: string, a: string, y: string, b: string, sep: char)
    requires Free(a, sep) && Free(b, sep)
    requires x + [sep] + a == y + [sep] + b
    ensures x == y && a == b
  {
    var s := x + [sep] + a;
    var t := y + [sep] + b;
    assert s[|x|] == sep && t[|y|] == sep;
    assert forall i :: |x| < i < |s| ==> s[i] == a[i - |x| - 1];
    assert forall i :: |y| < i < |t| ==> t[i] == b[i - |y| - 1];
    assert x == s[..|x|] && y == (y + [sep] + b)[..|y|];
    assert a == s[|x| + 1..] && b == (y + [sep] + b)[|y| + 1..];
  }

  /** Splitting undoes joining. */
  lemma {:induction false} SplitJoin(fields: seq<string>, sep: char)
    requires |fields| > 0 && AllFree(fields, sep)
    ensures Split(Join(fields, sep), sep) == fields
    decreases |fields|
  {
    var s := Join(fields, sep);
    if |fields| == 1 {
      assert s == fields[0] + "";
      HeadOfField(fields[0], "", sep);
    } else {
      var rest := Join(fields[1..], sep);
      SplitFirst(fields[0], rest, sep);
      SplitJoin(fields[1..], sep);
      assert fields == [fields[0]] + fields[1..];
    }
  }

  lemma SplitFirst(a: string, rest: string, sep: char)
    requires Free(a, sep)
    ensures Split(a + [sep] + rest, sep) == [a] + Split(rest, sep)
  {
    var s := a + [sep] + rest;
    assert s == a + ([sep] + rest);
    HeadOfField(a, [sep] + rest, sep);
    assert s[..|a|] == a && s[|a| + 1..] == rest;
  }

  /** Joining undoes splitting. */
  lemma {:induction false} JoinSplit(s: string, sep: char)
    ensures Join(Split(s, sep), sep) == s
    decreases |s|
  {
    var n := Head(s, sep);
    if n < |s| {
      JoinSplit(s[n + 1..], sep);
      var t := Split(s[n + 1..], sep);
      assert ([s[..n]] + t)[1..] == t;
      assert s == s[..n] + [sep] + s[n + 1..];
    }
  }

  lemma JoinInjective(a: seq<string>, b: seq<string>, sep: char)
    requires |a| > 0 && |b| > 0 && AllFree(a, sep) && AllFree(b, sep)
    requires Join(a, sep) == Join(b, sep)
    ensures a == b
  {
    SplitJoin(a, sep);
    SplitJoin(b, sep);
  }

  predicate StartsWith(s: string, prefix: string) {
    |prefix| <= |s| && s[..|prefix|] == prefix
  }

  /** Joined fields begin with `prefix + sep` exactly when the fields of the prefix are
      the first fields, with at least one more behind them. */
  lemma StartsWithJoin(fields: seq<string>, prefix: seq<string>, sep: char)
    requires |fields| > 0 && |prefix| > 0 && AllFree(fields, sep) && AllFree(prefix, sep)
    ensures StartsWith(Join(fields, sep), Join(prefix, sep) + [sep]) <==>
            |prefix| < |fields| && fields[..|prefix|] == prefix
  {
    if StartsWith(Join(fields, sep), Join(prefix, sep) + [sep]) {
      JoinStartsWith(fields, prefix, sep);
    } else if |prefix| < |fields| && fields[..|prefix|] == prefix {
      FieldsStartWith(prefix, fields[|prefix|..], fields, sep);
    }
  }

  lemma JoinStartsWith(fields: seq<string>, prefix: seq<string>, sep: char)
    requires |fields| > 0 && |prefix| > 0 && AllFree(fields, sep) && AllFree(prefix, sep)
    requires StartsWith(Join(fields, sep), Join(prefix, sep) + [sep])
    ensures |prefix| < |fields| && fields[..|prefix|] == prefix
  {
    var rest := Rest(Join(fields, sep), Join(prefix, sep) + [sep]);
    PrefixFields(fields, prefix, rest, sep);
  }

  lemma FieldsStartWith(prefix: seq<string>, more: seq<string>, fields: seq<string>, sep: char)
    requires |prefix| > 0 && |more| > 0 && fields == prefix + more
    ensures StartsWith(Join(fields, sep), Join(prefix, sep) + [sep])
  {
    JoinAppend(prefix, more, sep);
    Prepended(Join(prefix, sep) + [sep], Join(more, sep));
  }

  lemma Prepended(p: string, rest: string)
    ensures StartsWith(p + rest, p)
  {
    assert (p + rest)[..|p|] == p;
  }

  lemma Rest(s: string, p: string) returns (rest: string)
    requires StartsWith(s, p)
    ensures s == p + rest
  {
    rest := s[|p|..];
  }

  lemma PrefixFields(fields: seq<string>, prefix: seq<string>, rest: string, sep: char)
    requires |fields| > 0 && |prefix| > 0 && AllFree(fields, sep) && AllFree(prefix, sep)
    requires Join(fields, sep) == Join(prefix, sep) + [sep] + rest
    ensures |prefix| < |fields| && fields[..|prefix|] == prefix
    ensures fields[|prefix|..] == Split(rest, sep)
  {
    var fs := Split(rest, sep);
    JoinSplit(rest, sep);
    SplitFree(rest, sep);
    JoinAppend(prefix, fs, sep);
    JoinInjective(fields, prefix + fs, sep);
  }

  lemma {:induction false} JoinAppend(a: seq<string>, b: seq<string>, sep: char)
    requires |a| > 0 && |b| > 0
    ensures Join(a + b, sep) == Join(a, sep) + [sep] + Join(b, sep)
    decreases |a|
  {
    assert (a + b)[1..] == a[1..] + b;
    if |a| > 1 {
      JoinAppend(a[1..], b, sep);
    } else {
      assert a[1..] + b == b;
    }
  }

  lemma {:induction false} SplitFree(s: string, sep: char)
    ensures AllFree(Split(s, sep), sep)
    decreases |s|
  {
    var n := Head(s, sep);
    if n < |s| {
      SplitFree(s[n + 1..], sep);
    } else {
      assert s == s[..n];
    }
  }

  /** Whether s contains w as a contiguous part: `w in s`. */
  predicate Contains(s: string, w: string) {
    exists i :: 0 <= i <= |s| && StartsWith(s[i..], w)
  }

  // ---- decimal numerals, str(int) for the non-negative counters ----

  function Digit(d: nat): (c: char)
    requires d < 10
    ensures '0' <= c <= '9'
  {
    '0' + d as char
  }

  predicate IsDigit(c: char) {
    '0' <= c <= '9'
  }

  function Decimal(n: nat): (s: string)
    ensures |s| > 0
    ensures forall i :: 0 <= i < |s| ==> IsDigit(s[i])
  {
    if n < 10 then [Digit(n)] else Decimal(n / 10) + [Digit(n % 10)]
  }

  lemma {:induction false} DecimalInjective(m: nat, n: nat)
    requires Decimal(m) == Decimal(n)
    ensures m == n
  {
    assert n >= 10 ==> |Decimal(n / 10)| > 0;
    assert m >= 10 ==> |Decimal(m / 10)| > 0;
    var s := Decimal(m);
    if m >= 10 {
      assert Decimal(m / 10) == s[..|s| - 1] == Decimal(n / 10);
      assert s[|s| - 1] == Digit(m % 10) == Digit(n % 10);
      DecimalInjective(m / 10, n / 10);
    } else {
      assert s[0] == Digit(m) == Digit(n);
    }
  }

  predicate Digits(s: string) {
    forall i :: 0 <= i < |s| ==> IsDigit(s[i])
  }

  /** The number that digits stand for. */
  function Value(s: string): nat
    requires Digits(s)
  {
    if s == "" then 0
    else
      var last := s[|s| - 1];
      assert IsDigit(last);
      10 * Value(s[..|s| - 1]) + (last - '0') as nat
  }

  /** s writes n in digits, without a leading zero. */
  predicate Numeral(s: string, n: nat) {
    && s != "" && Digits(s)
    && Value(s) == n && (|s| > 1 ==> s[0] != '0')
  }

  lemma {:induction false} DecimalIsNumeral(n: nat)
    ensures Numeral(Decimal(n), n)
  {
    var s := Decimal(n);
    if n < 10 {
      assert s[..|s| - 1] == "";
    } else {
      DecimalIsNumeral(n / 10);
      assert s[..|s| - 1] == Decimal(n / 10);
      assert s[0] == Decimal(n / 10)[0];
      assert n / 10 < 10 ==> Decimal(n / 10) == [Digit(n / 10)];
    }
  }

  lemma {:induction false} NumeralPositive(s: string)
    requires s != "" && Digits(s) && s[0] != '0'
    ensures Value(s) > 0
  {
    if |s| > 1 {
      NumeralPositive(s[..|s| - 1]);
    }
  }

  /** The decimal text of n is its only numeral. */
  lemma {:induction false} NumeralIsDecimal(s: string, n: nat)
    requires Numeral(s, n)
    ensures s == Decimal(n)
  {
    var front, last := s[..|s| - 1], s[|s| - 1];
    assert IsDigit(last);
    var d := (last - '0') as nat;
    assert s == front + [Digit(d)];
    if |s| == 1 {
      assert front == "";
    } else {
      NumeralPositive(front);
      assert n / 10 == Value(front) && n % 10 == d;
      NumeralIsDecimal(front, n / 10);
    }
  }

  lemma DecimalFree(n: nat, sep: char)
    requires !IsDigit(sep)
    ensures Free(Decimal(n), sep)
  {
  }
}
