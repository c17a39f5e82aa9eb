/** Which evidence keys the aggregation stage accepts. */
module EvidenceKeys {
  import opened RunRecords
  import opened Substrings
  import Text

  const MARKERS: seq<string> :=
    ["http://", "https://", "?", "#", "&", "token", "secret", "password", "passwd", "cookie", "authorization",
     "credential", "api_key", "apikey", "header", "payload", "request_body", "response_body", "body", "ssn"]

  predicate IdChar(c: char) {
    'A' <= c <= 'Z' || 'a' <= c <= 'z' || Text.IsDigit(c) || c == '_' || c == '.' || c == '-'
  }

  predicate IdChars(s: string) {
    forall i :: 0 <= i < |s| ==> IdChar(s[i])
  }

  predicate TailChars(s: string) {
    forall i :: 0 <= i < |s| ==> IdChar(s[i]) || s[i] == '/' || s[i] == '='
  }

  /** raw-results/<id>/<id>/<tail>, all parts non-empty */
  predicate Shape(key: string) {
    var p := Text.Split(key, '/');
    && |p| >= 4 && p[0] == "raw-results"
    && p[1] != "" && IdChars(p[1]) && p[2] != "" && IdChars(p[2])
    && Text.Join(p[3..], '/') != "" && TailChars(Text.Join(p[3..], '/'))
  }

  predicate Marked(s: string) {
    exists m :: m in MARKERS && Text.Contains(Lower(s), m)
  }

  /** The key test: the audit's prefix, the shape, no "..", no marker in any case. */
  predicate SafeKey(key: string, client: string, audit: string) {
    && Text.StartsWith(key, Text.Join(["raw-results", client, audit], '/') + ['/'])
    && Shape(key)
    && !Text.Contains(key, "..")
    && !Marked(key)
  }

  /** The same test for one identifier. */
  predicate SafeId(id: string) {
    id != "" && IdChars(id) && !Text.Contains(id, "..") && !Marked(id)
  }

  // ---- the fixed parts of a key hold no marker ----

  const HEAD := "raw-results"
  const FILE := "results.json"

  /** For every marker but the last, the position of a character neither fixed part has. */
  const TELLING: seq<nat> := [0, 0, 0, 0, 0, 2, 2, 0, 0, 0, 3, 0, 1, 1, 0, 0, 2, 3, 0]

  predicate Telling(c: char) {
    c == 'b' || c == 'c' || c == 'h' || c == 'k' || c == 'p' || c == 'q' || c == '?' || c == '#' || c == '&'
  }

  lemma FixedPartsPlain()
    ensures Lower(HEAD) == HEAD && Lower(FILE) == FILE
    ensures forall i :: 0 <= i < |HEAD| ==> !Telling(HEAD[i])
    ensures forall i :: 0 <= i < |FILE| ==> !Telling(FILE[i])
  {
  }

  lemma TellingMarkers(i: nat)
    requires i < |TELLING|
    ensures TELLING[i] < |MARKERS[i]| && Telling(MARKERS[i][TELLING[i]])
  {
  }

  lemma NoDoubleS()
    ensures !Text.Contains(HEAD, "ssn") && !Text.Contains(FILE, "ssn")
  {
    Lacks(HEAD, "ssn", 2);
    forall i | 0 <= i <= |FILE| ensures !Text.StartsWith(FILE[i..], "ssn") {
      StartsAt(FILE, i, "ssn");
      assert i + 3 <= |FILE| ==> FILE[i + 0] != 's' || FILE[i + 1] != 's';
    }
  }

  lemma FixedPartsUnmarked()
    ensures !Marked(HEAD) && !Marked(FILE)
  {
    FixedPartsPlain();
    NoDoubleS();
    forall m | m in MARKERS ensures !Text.Contains(HEAD, m) && !Text.Contains(FILE, m) {
      var i :| 0 <= i < |MARKERS| && MARKERS[i] == m;
      if i < |TELLING| {
        TellingMarkers(i);
        Lacks(HEAD, m, TELLING[i]);
        Lacks(FILE, m, TELLING[i]);
      }
    }
  }

  // ---- built keys ----

  lemma Parts(client: string, audit: string, run: string)
    requires SlashFree(client) && SlashFree(audit) && SlashFree(run)
    ensures Text.Split(EvidenceKey(client, audit, run), '/') == EvidenceFields(client, audit, run)
    ensures Text.Join(EvidenceFields(client, audit, run)[3..], '/') == run + "/results.json"
  {
    var f := EvidenceFields(client, audit, run);
    Text.SplitJoin(f, '/');
    assert f[3..] == [run, FILE];
    assert Text.Join([run, FILE], '/') == run + ['/'] + Text.Join([FILE], '/');
  }

  lemma TailSafe(run: string)
    requires SlashFree(run)
    ensures TailChars(run + "/results.json") <==> forall i :: 0 <= i < |run| ==> IdChar(run[i]) || run[i] == '='
  {
    var s := run + "/results.json";
    assert forall i :: 0 <= i < |run| ==> s[i] == run[i];
    assert forall i :: 0 <= i < |FILE| ==> IdChar(FILE[i]);
    assert forall i :: |run| < i < |s| ==> s[i] == FILE[i - |run| - 1];
  }

  lemma HasPrefix(client: string, audit: string, run: string)
    ensures Text.StartsWith(EvidenceKey(client, audit, run), Text.Join(["raw-results", client, audit], '/') + ['/'])
  {
    var p, q := ["raw-results", client, audit], [run, FILE];
    assert EvidenceFields(client, audit, run) == p + q;
    Text.FieldsStartWith(p, q, p + q, '/');
  }

  lemma MarkersFree()
    ensures forall m :: m in MARKERS && m != "http://" && m != "https://" ==> m != "" && Text.Free(m, '/')
  {
    forall i | 0 <= i < |MARKERS| && i >= 2 ensures MARKERS[i] != "" && Text.Free(MARKERS[i], '/') { }
  }

  /** An identifier, or anything else, with only key characters holds no web address. */
  lemma NoAddress(key: string)
    requires ':' !in key
    ensures !Text.Contains(Lower(key), "http://") && !Text.Contains(Lower(key), "https://")
  {
    assert ':' !in Lower(key);
    Lacks(Lower(key), "http://", 4);
    Lacks(Lower(key), "https://", 5);
  }

  /** A marker lies in a built key exactly when it lies in one of its ids. */
  lemma MarkerInKey(client: string, audit: string, run: string, m: string)
    requires m in MARKERS && m != "" && Text.Free(m, '/')
    ensures Text.Contains(Lower(EvidenceKey(client, audit, run)), m) <==>
            (Text.Contains(Lower(client), m) || Text.Contains(Lower(audit), m) || Text.Contains(Lower(run), m))
  {
    var f := EvidenceFields(client, audit, run);
    LowerJoin(f, '/');
    ContainsJoin(LowerAll(f), m, '/');
    FixedPartsUnmarked();
    var l := LowerAll(f);
    assert l[0] == Lower(HEAD) && l[4] == Lower(FILE);
    assert l[1] == Lower(client) && l[2] == Lower(audit) && l[3] == Lower(run);
  }

  lemma DotsInKey(client: string, audit: string, run: string)
    ensures Text.Contains(EvidenceKey(client, audit, run), "..") <==>
            (Text.Contains(client, "..") || Text.Contains(audit, "..") || Text.Contains(run, ".."))
  {
    var f := EvidenceFields(client, audit, run);
    ContainsJoin(f, "..", '/');
    NoDots();
    assert f[0] == HEAD && f[4] == FILE && f[1] == client && f[2] == audit && f[3] == run;
  }

  lemma NoDots()
    ensures !Text.Contains(HEAD, "..") && !Text.Contains(FILE, "..")
  {
    Lacks(HEAD, "..", 0);
    forall i | 0 <= i <= |FILE| ensures !Text.StartsWith(FILE[i..], "..") {
      StartsAt(FILE, i, "..");
      assert i + 2 <= |FILE| ==> FILE[i] != '.' || FILE[i + 1] != '.';
    }
  }

  /** The key built from three identifiers of the platform is accepted exactly when none of
      them contains ".." or a marker. */
  lemma SafeKeyIff(client: string, audit: string, run: string)
    requires client != "" && audit != "" && run != "" && IdChars(client) && IdChars(audit) && IdChars(run)
    ensures SafeKey(EvidenceKey(client, audit, run), client, audit) <==> SafeId(client) && SafeId(audit) && SafeId(run)
  {
    var key := EvidenceKey(client, audit, run);
    Parts(client, audit, run);
    TailSafe(run);
    HasPrefix(client, audit, run);
    DotsInKey(client, audit, run);
    MarksInKey(client, audit, run);
  }

  lemma NoColon(client: string, audit: string, run: string)
    requires IdChars(client) && IdChars(audit) && IdChars(run)
    ensures ':' !in EvidenceKey(client, audit, run)
  {
    var key := EvidenceKey(client, audit, run);
    var tail, more := Text.Join([run, FILE], '/'), Text.Join([audit, run, FILE], '/');
    assert [run, FILE][1..] == [FILE] && [audit, run, FILE][1..] == [run, FILE];
    assert [client, audit, run, FILE][1..] == [audit, run, FILE];
    assert EvidenceFields(client, audit, run)[1..] == [client, audit, run, FILE];
    assert Text.Join([FILE], '/') == FILE;
    assert tail == run + ['/'] + FILE && more == audit + ['/'] + tail;
    var last := Text.Join([client, audit, run, FILE], '/');
    assert last == client + ['/'] + more;
    assert key == HEAD + ['/'] + last;
  }

  lemma MarksInKey(client: string, audit: string, run: string)
    requires IdChars(client) && IdChars(audit) && IdChars(run)
    ensures Marked(EvidenceKey(client, audit, run)) <==> Marked(client) || Marked(audit) || Marked(run)
  {
    var key := EvidenceKey(client, audit, run);
    MarkersFree();
    NoColon(client, audit, run);
    NoAddress(key);
    NoAddress(client);
    NoAddress(audit);
    NoAddress(run);
    forall m | m in MARKERS && m != "http://" && m != "https://"
      ensures Text.Contains(Lower(key), m) <==>
              (Text.Contains(Lower(client), m) || Text.Contains(Lower(audit), m) || Text.Contains(Lower(run), m))
    {
      MarkerInKey(client, audit, run, m);
    }
  }
}
