/** What a payload fingerprint tells: keys in any order give the same one, and two attempts at
    a template differ in it exactly when they differ at all. */
module PayloadPrints {
  import opened Wrappers
  import opened Ordering
  import opened Redaction
  import opened TemplatePaths
  import opened TemplateTokens
  import opened TemplateRendering
  import opened TemplateDeterminism
  import opened PayloadGeneration
  import Text

  // ---- key order ----

  ghost predicate DistinctKeys<T>(fields: seq<Field<T>>) {
    forall i, j :: 0 <= i < j < |fields| ==> fields[i].key != fields[j].key
  }

  lemma FieldLeIsOrder<T(!new)>()
    ensures TotalPreorder(FieldLe<T>())
  {
    StringLeIsOrder();
  }

  function Map<A, B>(s: seq<A>, f: A -> B): (out: seq<B>)
    ensures |out| == |s|
  {
    seq(|s|, i requires 0 <= i < |s| => f(s[i]))
  }

  function Without<T>(s: seq<T>, i: nat): seq<T>
    requires i < |s|
  {
    s[..i] + s[i + 1..]
  }

  lemma MultisetWithout<T>(s: seq<T>, i: nat)
    requires i < |s|
    ensures multiset(s) == multiset(Without(s, i)) + multiset{s[i]}
  {
    assert s == s[..i] + [s[i]] + s[i + 1..];
  }

  lemma MapWithout<A, B>(s: seq<A>, f: A -> B, i: nat)
    requires i < |s|
    ensures Map(Without(s, i), f) == Without(Map(s, f), i)
  {
  }

  lemma {:induction false} MapMultiset<A(!new), B>(a: seq<A>, b: seq<A>, f: A -> B)
    requires multiset(a) == multiset(b)
    ensures multiset(Map(a, f)) == multiset(Map(b, f))
    decreases |a|
  {
    assert |a| == |multiset(a)| == |multiset(b)| == |b|;
    if a != [] {
      assert a[0] in multiset(b);
      var i :| 0 <= i < |b| && b[i] == a[0];
      MultisetWithout(a, 0);
      MultisetWithout(b, i);
      assert multiset(Without(a, 0)) == multiset(a) - multiset{a[0]};
      assert multiset(Without(b, i)) == multiset(b) - multiset{b[i]};
      MapMultiset(Without(a, 0), Without(b, i), f);
      MapWithout(a, f, 0);
      MapWithout(b, f, i);
      MultisetWithout(Map(a, f), 0);
      MultisetWithout(Map(b, f), i);
    }
  }

  function InnerField<T>(): Field<T> -> Field<T> {
    (f: Field<T>) => Field(f.key, Canonical(f.value))
  }

  function Inner<T>(fields: seq<Field<T>>): (out: seq<Field<T>>)
    ensures |out| == |fields|
  {
    Map(fields, InnerField())
  }

  lemma InnerIs<T>(fields: seq<Field<T>>)
    ensures Canonical(Obj(fields)) == Obj(Sort(Inner(fields), FieldLe()))
  {
    assert Inner(fields) == seq(|fields|, i requires 0 <= i < |fields| => Field(fields[i].key, Canonical(fields[i].value)));
  }

  function CleanField<T>(redact: T -> T, mark: T): Field<T> -> Field<T> {
    (f: Field<T>) =>
      Field(f.key,
            if Sensitive(f.key) then Str(mark)
            else if Structural(f.key) && f.value.Str? then f.value
            else Sanitized(f.value, redact, mark))
  }

  lemma SanitizedFields<T>(fields: seq<Field<T>>, redact: T -> T, mark: T)
    ensures Sanitized(Obj(fields), redact, mark) == Obj(Map(fields, CleanField(redact, mark)))
  {
    assert Sanitized(Obj(fields), redact, mark).fields == Map(fields, CleanField(redact, mark));
  }

  lemma InnerNoTies<T(!new)>(fields: seq<Field<T>>)
    requires DistinctKeys(fields)
    ensures NoTies(multiset(Inner(fields)), FieldLe())
  {
    StringLeIsOrder();
    var s := Inner(fields);
    forall x, y | x in multiset(s) && y in multiset(s) && FieldLe()(x, y) && FieldLe()(y, x) ensures x == y {
      var i :| 0 <= i < |s| && s[i] == x;
      var j :| 0 <= j < |s| && s[j] == y;
      assert fields[i].key == fields[j].key;
    }
  }

  lemma CanonicalPermutation<T(!new)>(a: seq<Field<T>>, b: seq<Field<T>>)
    requires multiset(a) == multiset(b) && DistinctKeys(a)
    ensures Canonical(Obj(a)) == Canonical(Obj(b))
  {
    InnerIs(a);
    InnerIs(b);
    MapMultiset(a, b, InnerField());
    InnerNoTies(a);
    FieldLeIsOrder<T>();
    SortPermutation(Inner(a), Inner(b), FieldLe());
  }

  /** The order of the keys of an object does not matter. */
  lemma KeyOrderIrrelevant(r: Request, a: seq<Field<Rendered>>, b: seq<Field<Rendered>>)
    requires multiset(a) == multiset(b) && DistinctKeys(a)
    ensures PrintOf(r, Obj(a)) == PrintOf(r, Obj(b))
  {
    var clean := CleanField(r.patterns.rendered, Plainly(REDACTION_TOKEN));
    SanitizedFields(a, r.patterns.rendered, Plainly(REDACTION_TOKEN));
    SanitizedFields(b, r.patterns.rendered, Plainly(REDACTION_TOKEN));
    MapMultiset(a, b, clean);
    CanonicalPermutation(Map(a, clean), Map(b, clean));
  }

  // ---- attempts ----

  /** The same up to the strings: constructors, lengths and keys agree. */
  ghost predicate Alike<T, U>(x: Json<T>, y: Json<U>)
    decreases x
  {
    match (x, y)
    case (Null, Null) => true
    case (Bool(b), Bool(c)) => b == c
    case (Number(d), Number(e)) => d == e
    case (Str(_), Str(_)) => true
    case (Arr(a), Arr(b)) => |a| == |b| && forall i :: 0 <= i < |a| ==> Alike(a[i], b[i])
    case (Obj(a), Obj(b)) =>
      |a| == |b| && forall i :: 0 <= i < |a| ==> a[i].key == b[i].key && Alike(a[i].value, b[i].value)
    case _ => false
  }

  /** No object has a key twice. */
  ghost predicate Proper<T>(v: Json<T>)
    decreases v
  {
    match v
    case Arr(items) => forall i :: 0 <= i < |items| ==> Proper(items[i])
    case Obj(fields) => DistinctKeys(fields) && forall i :: 0 <= i < |fields| ==> Proper(fields[i].value)
    case _ => true
  }

  lemma {:induction false} ProperAlike<T, U>(x: Json<T>, y: Json<U>)
    requires Alike(x, y) && Proper(x)
    ensures Proper(y)
    decreases x
  {
    match (x, y)
    case (Arr(a), Arr(b)) =>
      forall i | 0 <= i < |b| ensures Proper(b[i]) { ProperAlike(a[i], b[i]); }
    case (Obj(a), Obj(b)) =>
      forall i | 0 <= i < |b| ensures Proper(b[i].value) { ProperAlike(a[i].value, b[i].value); }
      forall i, j | 0 <= i < j < |b| ensures b[i].key != b[j].key { assert a[i].key == b[i].key && a[j].key == b[j].key; }
    case _ =>
  }

  lemma {:induction false} AlikeBoth<T, U, V>(v: Json<T>, x: Json<U>, y: Json<V>)
    requires Alike(v, x) && Alike(v, y)
    ensures Alike(x, y)
    decreases v
  {
    match (v, x, y)
    case (Arr(t), Arr(a), Arr(b)) =>
      forall i | 0 <= i < |a| ensures Alike(a[i], b[i]) { AlikeBoth(t[i], a[i], b[i]); }
    case (Obj(t), Obj(a), Obj(b)) =>
      forall i | 0 <= i < |a| ensures a[i].key == b[i].key && Alike(a[i].value, b[i].value) {
        assert t[i].key == a[i].key && t[i].key == b[i].key;
        AlikeBoth(t[i].value, a[i].value, b[i].value);
      }
    case _ =>
  }

  /** Between alike values the canonical form loses nothing. */
  lemma {:induction false} CanonicalInjective<T(!new)>(x: Json<T>, y: Json<T>)
    requires Alike(x, y) && Proper(x) && Canonical(x) == Canonical(y)
    ensures x == y
    decreases x
  {
    match (x, y)
    case (Arr(a), Arr(b)) =>
      forall i | 0 <= i < |a| ensures a[i] == b[i] {
        ItemCanonical(a, b, i);
        CanonicalInjective(a[i], b[i]);
      }
    case (Obj(a), Obj(b)) =>
      forall i | 0 <= i < |a| ensures a[i] == b[i] {
        FieldCanonical(a, b, i);
        CanonicalInjective(a[i].value, b[i].value);
      }
    case _ =>
  }

  lemma ItemCanonical<T>(a: seq<Json<T>>, b: seq<Json<T>>, i: nat)
    requires |a| == |b| && i < |a| && Canonical(Arr(a)) == Canonical(Arr(b))
    ensures Canonical(a[i]) == Canonical(b[i])
  {
    assert Canonical(Arr(a)).items[i] == Canonical(Arr(b)).items[i];
  }

  lemma FieldCanonical<T(!new)>(a: seq<Field<T>>, b: seq<Field<T>>, i: nat)
    requires |a| == |b| && i < |a| && DistinctKeys(a) && forall k :: 0 <= k < |a| ==> a[k].key == b[k].key
    requires Canonical(Obj(a)) == Canonical(Obj(b))
    ensures Canonical(a[i].value) == Canonical(b[i].value)
  {
    InnerIs(a);
    InnerIs(b);
    SortElements(Inner(a), FieldLe());
    SortElements(Inner(b), FieldLe());
    assert Inner(a)[i] in multiset(Inner(a));
    assert Inner(a)[i] in multiset(Inner(b));
    var j :| 0 <= j < |b| && Inner(b)[j] == Inner(a)[i];
    assert a[j].key == b[j].key == a[i].key;
    assert i == j;
  }

  lemma {:induction false} FieldRendered(v: Json<string>, fields: seq<Field<string>>, i: nat, ctx: Context, path: string)
    requires v.Obj? && (forall f :: f in fields ==> f in v.fields) && i < |fields|
    requires RenderFields(v, fields, ctx, path).Ok?
    ensures var out := RenderFields(v, fields, ctx, path).value;
            && |out| == |fields| && out[i].key == fields[i].key
            && Render(fields[i].value, ctx, path + Segment(Key(fields[i].key))) == Ok(out[i].value)
    decreases |fields|
  {
    assert fields[0] in v.fields;
    if |fields| > 1 {
      FieldRendered(v, fields[1..], if i == 0 then 0 else i - 1, ctx, path);
    }
  }

  /** Rendering keeps the shape. */
  lemma {:induction false} RenderAlike(v: Json<string>, ctx: Context, path: string)
    requires Render(v, ctx, path).Ok?
    ensures Alike(v, Render(v, ctx, path).value)
    decreases v
  {
    match v
    case Arr(items) =>
      assert v.items == v.items[0..];
      var out := RenderItems(v, items, 0, ctx, path).value;
      forall i | 0 <= i < |items| ensures Alike(items[i], out[i]) {
        RenderedItem(v, items, 0, i, ctx, path);
        RenderAlike(items[i], ctx, path + Segment(Index(0 + i)));
      }
    case Obj(fields) => FieldsAlike(v, fields, ctx, path);
    case _ =>
  }

  lemma FieldsAlike(v: Json<string>, fields: seq<Field<string>>, ctx: Context, path: string)
    requires v == Obj(fields) && Render(v, ctx, path).Ok?
    ensures Alike(v, Render(v, ctx, path).value)
    decreases v, 0
  {
    var out := RenderFields(v, fields, ctx, path).value;
    if fields != [] { FieldRendered(v, fields, 0, ctx, path); }
    forall i | 0 <= i < |fields| ensures out[i].key == fields[i].key && Alike(fields[i].value, out[i].value) {
      FieldRendered(v, fields, i, ctx, path);
      RenderAlike(fields[i].value, ctx, path + Segment(Key(fields[i].key)));
    }
  }

  // ---- what sanitizing leaves of a difference ----

  lemma {:induction false} SanitizedAlike<T>(x: Json<T>, y: Json<T>, redact: T -> T, mark: T)
    requires Alike(x, y)
    ensures Alike(Sanitized(x, redact, mark), Sanitized(y, redact, mark))
    decreases x
  {
    match (x, y)
    case (Arr(a), Arr(b)) =>
      forall i | 0 <= i < |a| ensures Alike(Sanitized(a[i], redact, mark), Sanitized(b[i], redact, mark)) {
        SanitizedAlike(a[i], b[i], redact, mark);
      }
    case (Obj(a), Obj(b)) =>
      SanitizedFields(a, redact, mark);
      SanitizedFields(b, redact, mark);
      var clean := CleanField(redact, mark);
      forall i | 0 <= i < |a|
        ensures clean(a[i]).key == clean(b[i]).key && Alike(clean(a[i]).value, clean(b[i]).value)
      {
        assert a[i].key == b[i].key && Alike(a[i].value, b[i].value);
        SanitizedAlike(a[i].value, b[i].value, redact, mark);
      }
    case _ =>
  }

  lemma {:induction false} SanitizedProper<T>(x: Json<T>, redact: T -> T, mark: T)
    requires Proper(x)
    ensures Proper(Sanitized(x, redact, mark))
    decreases x
  {
    match x
    case Arr(items) =>
      forall i | 0 <= i < |items| ensures Proper(Sanitized(items[i], redact, mark)) { SanitizedProper(items[i], redact, mark); }
    case Obj(fields) =>
      SanitizedFields(fields, redact, mark);
      var clean := CleanField(redact, mark);
      forall i | 0 <= i < |fields| ensures Proper(clean(fields[i]).value) { SanitizedProper(fields[i].value, redact, mark); }
      assert DistinctKeys(Map(fields, clean));
    case _ =>
  }

  /** Whether sanitizing tells two values of one shape apart: at some position under no
      sensitive key, their strings differ after redaction. */
  ghost predicate Shows<T>(x: Json<T>, y: Json<T>, redact: T -> T)
    decreases x
  {
    match (x, y)
    case (Str(s), Str(t)) => redact(s) != redact(t)
    case (Arr(a), Arr(b)) => exists i :: 0 <= i < |a| && i < |b| && Shows(a[i], b[i], redact)
    case (Obj(a), Obj(b)) =>
      exists i :: 0 <= i < |a| && i < |b| && !Sensitive(a[i].key) &&
        if Structural(a[i].key) && a[i].value.Str? then a[i].value != b[i].value else Shows(a[i].value, b[i].value, redact)
    case _ => false
  }

  lemma {:induction false} SanitizedTellsApart<T>(x: Json<T>, y: Json<T>, redact: T -> T, mark: T)
    requires Alike(x, y)
    ensures Sanitized(x, redact, mark) != Sanitized(y, redact, mark) <==> Shows(x, y, redact)
    decreases x
  {
    match (x, y)
    case (Arr(a), Arr(b)) =>
      forall i | 0 <= i < |a|
        ensures Sanitized(a[i], redact, mark) != Sanitized(b[i], redact, mark) <==> Shows(a[i], b[i], redact)
      {
        SanitizedTellsApart(a[i], b[i], redact, mark);
      }
      ItemsApart(a, b, redact, mark);
    case (Obj(a), Obj(b)) =>
      forall i | 0 <= i < |a|
        ensures Sanitized(a[i].value, redact, mark) != Sanitized(b[i].value, redact, mark) <==>
                Shows(a[i].value, b[i].value, redact)
      {
        SanitizedTellsApart(a[i].value, b[i].value, redact, mark);
      }
      FieldsApart(a, b, redact, mark);
    case _ =>
  }

  lemma ItemsApart<T>(a: seq<Json<T>>, b: seq<Json<T>>, redact: T -> T, mark: T)
    requires |a| == |b|
    requires forall i :: 0 <= i < |a| ==>
               (Sanitized(a[i], redact, mark) != Sanitized(b[i], redact, mark) <==> Shows(a[i], b[i], redact))
    ensures Sanitized(Arr(a), redact, mark) != Sanitized(Arr(b), redact, mark) <==> Shows(Arr(a), Arr(b), redact)
  {
    var x, y := Sanitized(Arr(a), redact, mark).items, Sanitized(Arr(b), redact, mark).items;
    assert |x| == |a| && |y| == |b|;
    assert forall i :: 0 <= i < |a| ==> x[i] == Sanitized(a[i], redact, mark) && y[i] == Sanitized(b[i], redact, mark);
    if x != y {
      var i :| 0 <= i < |a| && x[i] != y[i];
      assert Shows(a[i], b[i], redact);
    }
    if Shows(Arr(a), Arr(b), redact) {
      var i :| 0 <= i < |a| && Shows(a[i], b[i], redact);
      assert x[i] != y[i];
    }
  }

  lemma FieldsApart<T>(a: seq<Field<T>>, b: seq<Field<T>>, redact: T -> T, mark: T)
    requires Alike(Obj(a), Obj(b))
    requires forall i :: 0 <= i < |a| ==>
               (Sanitized(a[i].value, redact, mark) != Sanitized(b[i].value, redact, mark) <==> Shows(a[i].value, b[i].value, redact))
    ensures Sanitized(Obj(a), redact, mark) != Sanitized(Obj(b), redact, mark) <==> Shows(Obj(a), Obj(b), redact)
  {
    var clean := CleanField(redact, mark);
    SanitizedFields(a, redact, mark);
    SanitizedFields(b, redact, mark);
    forall i | 0 <= i < |a| ensures a[i].key == b[i].key && (a[i].value.Str? <==> b[i].value.Str?) {
      assert Alike(a[i].value, b[i].value);
    }
    var x, y := Map(a, clean), Map(b, clean);
    if x != y {
      var i :| 0 <= i < |a| && x[i] != y[i];
      assert !Sensitive(a[i].key);
    }
    if Shows(Obj(a), Obj(b), redact) {
      var i :| 0 <= i < |a| && !Sensitive(a[i].key) &&
               if Structural(a[i].key) && a[i].value.Str? then a[i].value != b[i].value else Shows(a[i].value, b[i].value, redact);
      assert x[i] != y[i];
    }
  }

  predicate Template(r: Request, v: Json<string>) {
    match r.endpoint.strategy
    case Static(_) => false
    case Generated(t) => v == t
    case DataPool(body, _) => body == Some(v)
  }

  /** Two attempts at a template get different fingerprints exactly when, at some position
      under no sensitive key, their strings differ after redaction. */
  lemma PrintsDifferIff(r: Request, v: Json<string>, a: nat, b: nat)
    requires Template(r, v) && Proper(v) && Build(r, a).Ok? && Build(r, b).Ok?
    ensures PrintOf(r, Build(r, a).value) != PrintOf(r, Build(r, b).value) <==>
            Shows(Build(r, a).value, Build(r, b).value, r.patterns.rendered)
  {
    var x, y := Build(r, a).value, Build(r, b).value;
    var redact, mark := r.patterns.rendered, Plainly(REDACTION_TOKEN);
    RenderAlike(v, ContextOf(r, a), "$");
    RenderAlike(v, ContextOf(r, b), "$");
    AlikeBoth(v, x, y);
    ProperAlike(v, x);
    SanitizedTellsApart(x, y, redact, mark);
    SanitizedAlike(x, y, redact, mark);
    SanitizedProper(x, redact, mark);
    if PrintOf(r, x) == PrintOf(r, y) {
      CanonicalInjective(Sanitized(x, redact, mark), Sanitized(y, redact, mark));
    }
  }

  // ---- which uuid tokens show ----

  /** Some uuid token of the template is under no sensitive key. */
  ghost predicate VisibleUuid(v: Json<string>)
    decreases v
  {
    match v
    case Str(s) => "uuid" in Tokens(Scan(s))
    case Arr(items) => exists i :: 0 <= i < |items| && VisibleUuid(items[i])
    case Obj(fields) => exists i :: 0 <= i < |fields| && !Sensitive(fields[i].key) && VisibleUuid(fields[i].value)
    case _ => false
  }

  /** The patterns leave every string as it is. */
  ghost predicate Keeps(redact: Rendered -> Rendered) {
    forall t :: redact(t) == t
  }

  /** The renderings of a template at two attempts. */
  ghost predicate Attempted(v: Json<string>, ctx: Context, path: string, a: nat, b: nat, x: Json<Rendered>, y: Json<Rendered>) {
    && a != b && ValidOrigin(ctx.origin)
    && Render(v, ctx.(attempt := a), path) == Ok(x) && Render(v, ctx.(attempt := b), path) == Ok(y)
  }

  lemma StringShows(s: string, ctx: Context, path: string, a: nat, b: nat, x: Json<Rendered>, y: Json<Rendered>)
    requires Attempted(Str(s), ctx, path, a, b, x, y)
    ensures x.Str? && y.Str? && (x != y <==> VisibleUuid(Str(s)))
  {
    StringAttempt(s, ctx, path, a, b);
  }

  lemma ItemAttempted(v: Json<string>, i: nat, ctx: Context, path: string, a: nat, b: nat, x: Json<Rendered>, y: Json<Rendered>)
    requires v.Arr? && i < |v.items| && Attempted(v, ctx, path, a, b, x, y)
    ensures x.Arr? && y.Arr? && |x.items| == |v.items| == |y.items|
    ensures Attempted(v.items[i], ctx, path + Segment(Index(i)), a, b, x.items[i], y.items[i])
  {
    assert v.items == v.items[0..];
    RenderedItem(v, v.items, 0, i, ctx.(attempt := a), path);
    RenderedItem(v, v.items, 0, i, ctx.(attempt := b), path);
    assert 0 + i == i;
  }

  lemma FieldAttempted(v: Json<string>, i: nat, ctx: Context, path: string, a: nat, b: nat, x: Json<Rendered>, y: Json<Rendered>)
    requires v.Obj? && i < |v.fields| && Attempted(v, ctx, path, a, b, x, y)
    ensures x.Obj? && y.Obj? && |x.fields| == |v.fields| == |y.fields|
    ensures x.fields[i].key == v.fields[i].key == y.fields[i].key
    ensures Attempted(v.fields[i].value, ctx, path + Segment(Key(v.fields[i].key)), a, b, x.fields[i].value, y.fields[i].value)
  {
    FieldRendered(v, v.fields, i, ctx.(attempt := a), path);
    FieldRendered(v, v.fields, i, ctx.(attempt := b), path);
  }

  /** Two attempts are told apart only by a uuid token under no sensitive key, whatever the
      patterns do; and by any such token, when the patterns leave strings as they are. */
  lemma {:induction false} ShowsByUuid(
    v: Json<string>, ctx: Context, path: string, a: nat, b: nat, x: Json<Rendered>, y: Json<Rendered>, redact: Rendered -> Rendered)
    requires Attempted(v, ctx, path, a, b, x, y)
    ensures Shows(x, y, redact) ==> VisibleUuid(v)
    ensures Keeps(redact) && VisibleUuid(v) ==> Shows(x, y, redact)
    decreases v
  {
    match v
    case Str(s) => StringShows(s, ctx, path, a, b, x, y);
    case Arr(items) =>
      forall i | 0 <= i < |items|
        ensures x.Arr? && y.Arr? && |x.items| == |items| == |y.items|
        ensures Shows(x.items[i], y.items[i], redact) ==> VisibleUuid(items[i])
        ensures Keeps(redact) && VisibleUuid(items[i]) ==> Shows(x.items[i], y.items[i], redact)
      {
        ItemAttempted(v, i, ctx, path, a, b, x, y);
        ShowsByUuid(items[i], ctx, path + Segment(Index(i)), a, b, x.items[i], y.items[i], redact);
      }
      ItemsShow(items, x, y, redact);
    case Obj(fields) =>
      forall i | 0 <= i < |fields| ensures FieldShows(fields, x, y, redact, i) {
        FieldAttempted(v, i, ctx, path, a, b, x, y);
        var at := path + Segment(Key(fields[i].key));
        ShowsByUuid(fields[i].value, ctx, at, a, b, x.fields[i].value, y.fields[i].value, redact);
        if fields[i].value.Str? {
          StringShows(fields[i].value.text, ctx, at, a, b, x.fields[i].value, y.fields[i].value);
        } else {
          RenderAlike(fields[i].value, ctx.(attempt := a), at);
        }
      }
      RenderAlike(v, ctx.(attempt := a), path);
      RenderAlike(v, ctx.(attempt := b), path);
      FieldsShow(fields, x, y, redact);
    case _ =>
  }

  lemma ItemsShow(items: seq<Json<string>>, x: Json<Rendered>, y: Json<Rendered>, redact: Rendered -> Rendered)
    requires items != [] ==> x.Arr? && y.Arr? && |x.items| == |items| == |y.items|
    requires forall i :: 0 <= i < |items| ==>
               (Shows(x.items[i], y.items[i], redact) ==> VisibleUuid(items[i]))
               && (Keeps(redact) && VisibleUuid(items[i]) ==> Shows(x.items[i], y.items[i], redact))
    requires x.Arr? && |x.items| == |items|
    ensures Shows(x, y, redact) ==> VisibleUuid(Arr(items))
    ensures Keeps(redact) && VisibleUuid(Arr(items)) ==> Shows(x, y, redact)
  {
  }

  /** What is proved of one field of an object. */
  ghost predicate FieldShows(fields: seq<Field<string>>, x: Json<Rendered>, y: Json<Rendered>, redact: Rendered -> Rendered, i: nat)
    requires i < |fields|
  {
    && x.Obj? && y.Obj? && |x.fields| == |fields| == |y.fields|
    && var f, g := x.fields[i], y.fields[i];
    && f.key == fields[i].key
    && (Shows(f.value, g.value, redact) ==> VisibleUuid(fields[i].value))
    && (Keeps(redact) && VisibleUuid(fields[i].value) ==> Shows(f.value, g.value, redact))
    && (f.value.Str? ==> (f.value != g.value <==> VisibleUuid(fields[i].value)))
  }

  lemma FieldsShow(fields: seq<Field<string>>, x: Json<Rendered>, y: Json<Rendered>, redact: Rendered -> Rendered)
    requires x.Obj? && y.Obj? && |x.fields| == |fields| == |y.fields|
    requires forall i :: 0 <= i < |fields| ==> FieldShows(fields, x, y, redact, i)
    ensures Shows(x, y, redact) ==> VisibleUuid(Obj(fields))
    ensures Keeps(redact) && VisibleUuid(Obj(fields)) ==> Shows(x, y, redact)
  {
    if Shows(x, y, redact) {
      var i :| 0 <= i < |x.fields| && !Sensitive(x.fields[i].key) &&
               if Structural(x.fields[i].key) && x.fields[i].value.Str? then x.fields[i].value != y.fields[i].value
               else Shows(x.fields[i].value, y.fields[i].value, redact);
      assert FieldShows(fields, x, y, redact, i);
    }
    if Keeps(redact) && VisibleUuid(Obj(fields)) {
      var i :| 0 <= i < |fields| && !Sensitive(fields[i].key) && VisibleUuid(fields[i].value);
      assert FieldShows(fields, x, y, redact, i);
    }
  }

  ghost predicate TemplateShowsUuid(r: Request) {
    match r.endpoint.strategy
    case Static(_) => false
    case Generated(t) => VisibleUuid(t)
    case DataPool(body, _) => body.Some? && VisibleUuid(body.value)
  }

  lemma BuildsAttempted(r: Request, v: Json<string>, a: nat, b: nat)
    requires a != b && ValidOrigin(r.origin) && Template(r, v) && Build(r, a).Ok? && Build(r, b).Ok?
    ensures Attempted(v, ContextOf(r, 0), "$", a, b, Build(r, a).value, Build(r, b).value)
  {
  }

  /** When the patterns leave the rendered strings as they are, fingerprints differ exactly
      when some uuid token is under no sensitive key. */
  lemma PrintsDifferIffUuid(r: Request, v: Json<string>, a: nat, b: nat)
    requires a != b && ValidOrigin(r.origin) && Template(r, v) && Proper(v) && Keeps(r.patterns.rendered)
    requires Build(r, a).Ok? && Build(r, b).Ok?
    ensures PrintOf(r, Build(r, a).value) != PrintOf(r, Build(r, b).value) <==> TemplateShowsUuid(r)
  {
    PrintsDifferIff(r, v, a, b);
    BuildsAttempted(r, v, a, b);
    ShowsByUuid(v, ContextOf(r, 0), "$", a, b, Build(r, a).value, Build(r, b).value, r.patterns.rendered);
  }

  lemma SameSanitized(r: Request, v: Json<string>, a: nat, b: nat)
    requires a != b && ValidOrigin(r.origin) && Template(r, v) && !TemplateShowsUuid(r)
    requires Build(r, a).Ok? && Build(r, b).Ok?
    ensures PrintOf(r, Build(r, a).value) == PrintOf(r, Build(r, b).value)
  {
    var x, y := Build(r, a).value, Build(r, b).value;
    BuildsAttempted(r, v, a, b);
    ShowsByUuid(v, ContextOf(r, 0), "$", a, b, x, y, r.patterns.rendered);
    RenderAlike(v, ContextOf(r, a), "$");
    RenderAlike(v, ContextOf(r, b), "$");
    AlikeBoth(v, x, y);
    SanitizedTellsApart(x, y, r.patterns.rendered, Plainly(REDACTION_TOKEN));
  }

  /** A request none of whose uuid tokens shows has one fingerprint for all its attempts,
      whatever else the patterns redact. */
  lemma HiddenUuidsUnchanging(r: Request)
    requires ValidOrigin(r.origin) && !TemplateShowsUuid(r)
    ensures Unchanging(r)
  {
    forall a, b | Build(r, a).Ok? && Build(r, b).Ok?
      ensures PrintOf(r, Build(r, a).value) == PrintOf(r, Build(r, b).value)
    {
      if a != b {
        match r.endpoint.strategy {
          case Static(_) =>
          case Generated(t) => SameSanitized(r, t, a, b);
          case DataPool(body, _) => if body.Some? { SameSanitized(r, body.value, a, b); }
        }
      }
    }
  }

  /** And over any patterns a request is unchanging exactly when no two of its attempts differ
      in a string that is left to see. */
  lemma UnchangingIff(r: Request, v: Json<string>)
    requires Template(r, v) && Proper(v)
    ensures Unchanging(r) <==>
            forall a, b :: Build(r, a).Ok? && Build(r, b).Ok? ==> !Shows(Build(r, a).value, Build(r, b).value, r.patterns.rendered)
  {
    forall a, b | Build(r, a).Ok? && Build(r, b).Ok?
      ensures PrintOf(r, Build(r, a).value) != PrintOf(r, Build(r, b).value) <==>
              Shows(Build(r, a).value, Build(r, b).value, r.patterns.rendered)
    {
      PrintsDifferIff(r, v, a, b);
    }
  }

  // ---- a template with a uuid token that never regenerates ----

  /** {"token": "{{uuid}}"} */
  function TokenTemplate(): Json<string> {
    Obj([Field("token", Str("{{uuid}}"))])
  }

  lemma TokenSensitive()
    ensures Sensitive("token")
  {
    assert Normalized("token") == "token";
    assert Text.StartsWith("token"[0..], "token");
    assert "token" in SENSITIVE_KEY_PARTS;
  }

  lemma OneToken(s: string)
    requires s == "{{uuid}}"
    ensures Scan(s) == Cons("", "uuid", Tail("")) && Accepted(s)
  {
    var p := Cons("", "uuid", Tail(""));
    assert WellFormed(p) && Unparse(p) == s;
    BalancedIffParses(s);
  }

  predicate UsesTokenTemplate(r: Request) {
    r.endpoint.strategy == Generated(TokenTemplate()) && r.endpoint.policy.Regenerate?
  }

  lemma OneFieldRenders(k: string, s: string, ctx: Context, path: string, text: Rendered)
    requires RenderString(s, ctx, path + Segment(Key(k))) == Ok(text)
    ensures Render(Obj([Field(k, Str(s))]), ctx, path) == Ok(Obj([Field(k, Str(text))]))
  {
    var v := Obj([Field(k, Str(s))]);
    assert v.fields[1..] == [];
    assert RenderFields(v, v.fields[1..], ctx, path) == Ok([]);
    assert v.fields[0] == Field(k, Str(s)) && v.fields[0] in v.fields;
    assert Render(v.fields[0].value, ctx, path + Segment(Key(k))) == Ok(Str(text));
    assert RenderFields(v, v.fields, ctx, path) == Ok([Field(k, Str(text))] + []);
    assert [Field(k, Str(text))] + [] == [Field(k, Str(text))];
  }

  lemma OneFieldRedacted<T>(k: string, text: T, redact: T -> T, mark: T)
    requires Sensitive(k)
    ensures Sanitized(Obj([Field(k, Str(text))]), redact, mark) == Obj([Field(k, Str(mark))])
  {
    var f := Field(k, Str(text));
    SanitizedFields([f], redact, mark);
    assert Map([f], CleanField(redact, mark)) == [Field(k, Str(mark))];
  }

  lemma UuidRenders(s: string, ctx: Context, path: string) returns (text: Rendered)
    requires s == "{{uuid}}"
    ensures RenderString(s, ctx, path) == Ok(text)
  {
    OneToken(s);
    UuidStripped();
    assert RenderToken("uuid", ctx, path, 0).Ok?;
    assert RenderParsed(Tail(""), ctx, path, 1).Ok?;
    assert RenderParsed(Cons("", "uuid", Tail("")), ctx, path, 0).Ok?;
    text := RenderString(s, ctx, path).value;
  }

  lemma UuidStripped()
    ensures Strip("uuid") == "uuid"
  {
  }

  lemma TokenBuilds(r: Request, attempt: nat)
    requires UsesTokenTemplate(r)
    ensures Build(r, attempt).Ok?
    ensures PrintOf(r, Build(r, attempt).value) == PayloadPrint(Canonical(Obj([Field("token", Str(Plainly(REDACTION_TOKEN)))])))
  {
    var ctx := ContextOf(r, attempt);
    var text := UuidRenders("{{uuid}}", ctx, "$" + Segment(Key("token")));
    OneFieldRenders("token", "{{uuid}}", ctx, "$", text);
    TokenSensitive();
    OneFieldRedacted("token", text, r.patterns.rendered, Plainly(REDACTION_TOKEN));
  }

  /** Two requests, of whatever iteration, with a uuid under a sensitive key: the payloads of
      two attempts differ, and still the first request to be prepared takes the only
      fingerprint there is, and the second exhausts its attempts. */
  lemma SecondTokenExhausted(r: Request, q: Request)
    requires UsesTokenTemplate(r) && UsesTokenTemplate(q) && ValidOrigin(r.origin) && ValidOrigin(q.origin)
    ensures Build(q, 1) != Build(q, 2)
    ensures PrepareFrom(r, map[], 0, 1, false).outcome.Prepared?
    ensures PrepareFrom(q, PrepareFrom(r, map[], 0, 1, false).table, 1, 1, false).outcome == Rejected(Exhausted)
  {
    TokenBuilds(r, 1);
    TokenBuilds(q, 1);
    TokenHidden(q);
    HiddenUuidsUnchanging(q);
    TokenUsed(q);
    AttemptsDiffer(q, 1, 2);
    NothingToRegenerate(q, PrepareFrom(r, map[], 0, 1, false).table, 1, 1, false);
  }

  lemma TokenUsed(q: Request)
    requires UsesTokenTemplate(q)
    ensures TemplateUsesUuid(q)
  {
    OneToken("{{uuid}}");
    var v := TokenTemplate();
    assert v.fields[0].value == Str("{{uuid}}") && UsesUuid(v.fields[0].value);
    assert FieldsUseUuid(v, v.fields);
  }

  lemma TokenHidden(q: Request)
    requires UsesTokenTemplate(q)
    ensures !TemplateShowsUuid(q)
  {
    TokenSensitive();
    assert TokenTemplate().fields[0].key == "token";
  }
}
