/** When two values have the same fingerprint. */
module PayloadFingerprints {
  import opened Wrappers
  import opened Ordering
  import opened Redaction
  import opened TemplateRendering
  import opened PayloadGeneration
  import opened PayloadPrints

  /** Whether two values look the same once sanitized: the same up to the order of keys, with
      strings compared after redaction, those directly under structural keys as they are, and
      nothing compared under sensitive keys. */
  ghost predicate SameSeen<T>(x: Json<T>, y: Json<T>, redact: T -> T)
    decreases x
  {
    match (x, y)
    case (Null, Null) => true
    case (Bool(b), Bool(c)) => b == c
    case (Number(d), Number(e)) => d == e
    case (Str(s), Str(t)) => redact(s) == redact(t)
    case (Arr(a), Arr(b)) => |a| == |b| && forall i :: 0 <= i < |a| ==> SameSeen(a[i], b[i], redact)
    case (Obj(a), Obj(b)) =>
      |a| == |b| && forall i :: 0 <= i < |a| ==> exists j :: 0 <= j < |b| && FieldSeen(a[i], b[j], redact)
    case _ => false
  }

  ghost predicate FieldSeen<T>(f: Field<T>, g: Field<T>, redact: T -> T)
    decreases f
  {
    && f.key == g.key
    && (Sensitive(f.key)
        || (if Structural(f.key) && (f.value.Str? || g.value.Str?) then f.value == g.value
            else SameSeen(f.value, g.value, redact)))
  }

  // ---- sorted objects ----

  /** Lists without repetition hold the same elements when they are as long and one is in the
      other. */
  lemma {:induction false} SameElements<T>(a: seq<T>, b: seq<T>)
    requires |a| == |b| && (forall i, j :: 0 <= i < j < |a| ==> a[i] != a[j]) && forall i :: 0 <= i < |a| ==> a[i] in b
    ensures multiset(a) == multiset(b)
    decreases |a|
  {
    if a != [] {
      var j :| 0 <= j < |b| && b[j] == a[0];
      MultisetWithout(a, 0);
      MultisetWithout(b, j);
      assert Without(a, 0) == a[1..];
      var rest := Without(b, j);
      forall i | 0 <= i < |a[1..]| ensures a[1..][i] in rest {
        InWithout(b, j, a[i + 1]);
      }
      SameElements(a[1..], rest);
    }
  }

  lemma InWithout<T>(b: seq<T>, j: nat, x: T)
    requires j < |b| && x in b && x != b[j]
    ensures x in Without(b, j)
  {
    var k :| 0 <= k < |b| && b[k] == x;
    assert Without(b, j)[if k < j then k else k - 1] == x;
  }

  lemma SortedAlike<T(!new)>(a: seq<Field<T>>, b: seq<Field<T>>)
    requires DistinctKeys(a) && DistinctKeys(b)
    ensures Sort(Inner(a), FieldLe()) == Sort(Inner(b), FieldLe()) <==>
            |a| == |b| && forall i :: 0 <= i < |a| ==> Inner(a)[i] in Inner(b)
  {
    var x, y := Inner(a), Inner(b);
    SortElements(x, FieldLe());
    SortElements(y, FieldLe());
    if Sort(x, FieldLe()) == Sort(y, FieldLe()) {
      assert |x| == |multiset(x)| == |multiset(y)| == |y|;
      forall i | 0 <= i < |x| ensures x[i] in y {
        assert x[i] in multiset(x);
        assert x[i] in multiset(y);
      }
    }
    if |a| == |b| && forall i :: 0 <= i < |a| ==> x[i] in y {
      forall i, j | 0 <= i < j < |x| ensures x[i] != x[j] {
        assert a[i].key != a[j].key;
      }
      SameElements(x, y);
      InnerNoTies(a);
      FieldLeIsOrder<T>();
      SortPermutation(x, y, FieldLe());
    }
  }

  /** The fingerprint of a value, as its canonical form. */
  function PrintedAs<T>(v: Json<T>, redact: T -> T, mark: T): Json<T> {
    Canonical(Sanitized(v, redact, mark))
  }

  lemma FieldPrinted<T>(f: Field<T>, g: Field<T>, redact: T -> T, mark: T)
    requires PrintedAs(f.value, redact, mark) == PrintedAs(g.value, redact, mark) <==> SameSeen(f.value, g.value, redact)
    ensures var c := CleanField(redact, mark);
            InnerField()(c(f)) == InnerField()(c(g)) <==> FieldSeen(f, g, redact)
  {
    SanitizedKind(f.value, redact, mark);
    SanitizedKind(g.value, redact, mark);
  }

  lemma SanitizedKind<T>(v: Json<T>, redact: T -> T, mark: T)
    ensures PrintedAs(v, redact, mark).Str? <==> v.Str?
  {
  }

  lemma PrintedObject<T>(fields: seq<Field<T>>, redact: T -> T, mark: T)
    ensures PrintedAs(Obj(fields), redact, mark) == Obj(Sort(Inner(Map(fields, CleanField(redact, mark))), FieldLe()))
  {
    SanitizedFields(fields, redact, mark);
    InnerIs(Map(fields, CleanField(redact, mark)));
  }

  lemma FieldListed<T>(f: Field<T>, b: seq<Field<T>>, redact: T -> T, mark: T)
    requires forall j :: 0 <= j < |b| ==>
               (PrintedAs(f.value, redact, mark) == PrintedAs(b[j].value, redact, mark) <==> SameSeen(f.value, b[j].value, redact))
    ensures var c := CleanField(redact, mark);
            InnerField()(c(f)) in Inner(Map(b, c)) <==> exists j :: 0 <= j < |b| && FieldSeen(f, b[j], redact)
  {
    var c := CleanField(redact, mark);
    var y := Inner(Map(b, c));
    forall j | 0 <= j < |b| ensures InnerField()(c(f)) == y[j] <==> FieldSeen(f, b[j], redact) {
      FieldPrinted(f, b[j], redact, mark);
    }
    if InnerField()(c(f)) in y {
      var j :| 0 <= j < |y| && y[j] == InnerField()(c(f));
      assert FieldSeen(f, b[j], redact);
    }
  }

  lemma ObjectsPrinted<T(!new)>(a: seq<Field<T>>, b: seq<Field<T>>, redact: T -> T, mark: T)
    requires DistinctKeys(a) && DistinctKeys(b)
    requires forall i, j :: 0 <= i < |a| && 0 <= j < |b| ==>
               (PrintedAs(a[i].value, redact, mark) == PrintedAs(b[j].value, redact, mark) <==> SameSeen(a[i].value, b[j].value, redact))
    ensures PrintedAs(Obj(a), redact, mark) == PrintedAs(Obj(b), redact, mark) <==> SameSeen(Obj(a), Obj(b), redact)
  {
    var c := CleanField(redact, mark);
    var x, y := Map(a, c), Map(b, c);
    PrintedObject(a, redact, mark);
    PrintedObject(b, redact, mark);
    assert DistinctKeys(x) && DistinctKeys(y);
    SortedAlike(x, y);
    forall i | 0 <= i < |a|
      ensures Inner(x)[i] in Inner(y) <==> exists j :: 0 <= j < |b| && FieldSeen(a[i], b[j], redact)
    {
      FieldListed(a[i], b, redact, mark);
    }
  }

  /** Two values have the same fingerprint exactly when they look the same once sanitized. */
  lemma {:induction false} PrintedSame<T(!new)>(x: Json<T>, y: Json<T>, redact: T -> T, mark: T)
    requires Proper(x) && Proper(y)
    ensures PrintedAs(x, redact, mark) == PrintedAs(y, redact, mark) <==> SameSeen(x, y, redact)
    decreases x
  {
    match (x, y)
    case (Arr(a), Arr(b)) =>
      forall i | 0 <= i < |a| && i < |b|
        ensures PrintedAs(a[i], redact, mark) == PrintedAs(b[i], redact, mark) <==> SameSeen(a[i], b[i], redact)
      {
        PrintedSame(a[i], b[i], redact, mark);
      }
      ItemsPrinted(a, b, redact, mark);
    case (Obj(a), Obj(b)) =>
      forall i, j | 0 <= i < |a| && 0 <= j < |b|
        ensures PrintedAs(a[i].value, redact, mark) == PrintedAs(b[j].value, redact, mark) <==> SameSeen(a[i].value, b[j].value, redact)
      {
        PrintedSame(a[i].value, b[j].value, redact, mark);
      }
      ObjectsPrinted(a, b, redact, mark);
    case _ =>
  }

  lemma ItemsPrinted<T>(a: seq<Json<T>>, b: seq<Json<T>>, redact: T -> T, mark: T)
    requires forall i :: 0 <= i < |a| && i < |b| ==>
               (PrintedAs(a[i], redact, mark) == PrintedAs(b[i], redact, mark) <==> SameSeen(a[i], b[i], redact))
    ensures PrintedAs(Arr(a), redact, mark) == PrintedAs(Arr(b), redact, mark) <==> SameSeen(Arr(a), Arr(b), redact)
  {
    var x, y := PrintedAs(Arr(a), redact, mark).items, PrintedAs(Arr(b), redact, mark).items;
    assert |x| == |a| && |y| == |b|;
    assert forall i :: 0 <= i < |a| ==> x[i] == PrintedAs(a[i], redact, mark);
    assert forall i :: 0 <= i < |b| ==> y[i] == PrintedAs(b[i], redact, mark);
  }

  /** Payloads without a key twice in one object count as duplicates of each other exactly when
      they look the same; so do data-pool records; and the two never clash. */
  lemma DuplicatesIff(r: Request, q: Request, x: Json<Rendered>, y: Json<Rendered>)
    requires r.patterns == q.patterns && Proper(x) && Proper(y)
    ensures PrintOf(r, x) == PrintOf(q, y) <==> SameSeen(x, y, r.patterns.rendered)
    ensures r.record.Some? && q.record.Some? && Proper(r.record.value) && Proper(q.record.value) ==>
              (RecordPrintOf(r) == RecordPrintOf(q) <==> SameSeen(r.record.value, q.record.value, r.patterns.plain))
    ensures q.record.Some? ==> PrintOf(r, x) != RecordPrintOf(q)
  {
    PrintedSame(x, y, r.patterns.rendered, Plainly(REDACTION_TOKEN));
    if r.record.Some? && q.record.Some? && Proper(r.record.value) && Proper(q.record.value) {
      PrintedSame(r.record.value, q.record.value, r.patterns.plain, REDACTION_TOKEN);
    }
  }
}
