/** Words inside joined and lower-cased text. */
module Substrings {
  import Text

  function LowerChar(c: char): char {
    if 'A' <= c <= 'Z' then c - 'A' + 'a' else c
  }

  function Lower(s: string): (r: string)
    ensures |r| == |s|
  {
    seq(|s|, i requires 0 <= i < |s| => LowerChar(s[i]))
  }

  lemma StartsAt(s: string, i: nat, w: string)
    requires i <= |s|
    ensures Text.StartsWith(s[i..], w) ==> i + |w| <= |s| && forall j :: i <= j < i + |w| ==> s[j] == w[j - i]
  {
    if Text.StartsWith(s[i..], w) {
      assert forall j :: i <= j < i + |w| ==> s[i..][..|w|][j - i] == s[j];
    }
  }

  /** A word without the separator lies in a joined text exactly when it lies in one part. */
  lemma ContainsAround(a: string, x: string, w: string, sep: char)
    requires w != "" && Text.Free(w, sep)
    ensures Text.Contains(a + [sep] + x, w) <==> Text.Contains(a, w) || Text.Contains(x, w)
  {
    var s := a + [sep] + x;
    if Text.Contains(s, w) {
      var i :| 0 <= i <= |s| && Text.StartsWith(s[i..], w);
      StartsAt(s, i, w);
      assert s[|a|] == sep;
      assert i + |w| <= |a| || i > |a|;
      if i + |w| <= |a| {
        assert a[i..][..|w|] == w;
        assert Text.StartsWith(a[i..], w);
      } else {
        var j := i - |a| - 1;
        assert x[j..] == s[i..];
      }
    }
    if Text.Contains(a, w) {
      var i :| 0 <= i <= |a| && Text.StartsWith(a[i..], w);
      assert s[i..][..|w|] == a[i..][..|w|];
      assert Text.StartsWith(s[i..], w);
    }
    if Text.Contains(x, w) {
      var i :| 0 <= i <= |x| && Text.StartsWith(x[i..], w);
      assert s[|a| + 1 + i..] == x[i..];
    }
  }

  lemma {:induction false} ContainsJoin(fields: seq<string>, w: string, sep: char)
    requires |fields| > 0 && w != "" && Text.Free(w, sep)
    ensures Text.Contains(Text.Join(fields, sep), w) <==> exists i :: 0 <= i < |fields| && Text.Contains(fields[i], w)
    decreases |fields|
  {
    if |fields| == 1 {
      assert Text.Join(fields, sep) == fields[0];
    } else {
      ContainsAround(fields[0], Text.Join(fields[1..], sep), w, sep);
      ContainsJoin(fields[1..], w, sep);
      assert forall i :: 0 <= i < |fields| - 1 ==> fields[1..][i] == fields[i + 1];
    }
  }

  function LowerAll(fields: seq<string>): (r: seq<string>)
    ensures |r| == |fields|
  {
    seq(|fields|, i requires 0 <= i < |fields| => Lower(fields[i]))
  }

  lemma LowerAppend(a: string, b: string)
    ensures Lower(a + b) == Lower(a) + Lower(b)
  {
  }

  lemma {:induction false} LowerJoin(fields: seq<string>, sep: char)
    requires LowerChar(sep) == sep
    ensures Lower(Text.Join(fields, sep)) == Text.Join(LowerAll(fields), sep)
    decreases |fields|
  {
    if |fields| > 1 {
      LowerJoin(fields[1..], sep);
      assert LowerAll(fields)[1..] == LowerAll(fields[1..]);
      LowerAppend(fields[0] + [sep], Text.Join(fields[1..], sep));
      LowerAppend(fields[0], [sep]);
    }
  }

  /** A text all of whose characters differ from some character of w does not contain w. */
  lemma Lacks(s: string, w: string, k: nat)
    requires k < |w| && w[k] !in s
    ensures !Text.Contains(s, w)
  {
    forall i | 0 <= i <= |s| ensures !Text.StartsWith(s[i..], w) {
      StartsAt(s, i, w);
    }
  }
}
