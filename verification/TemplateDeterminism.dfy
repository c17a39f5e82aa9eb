/** What the rendering of a whole template depends on: the position of every string, and the
    generation attempt only through uuid tokens. */
module TemplateDeterminism {
  import opened Wrappers
  import opened TemplatePaths
  import opened TemplateTokens
  import opened TemplateRendering
  import Text

  // ---- positions ----

  function Child<T>(v: Json<T>, step: Step): Option<Json<T>> {
    match step
    case Key(k) => if v.Obj? then FieldOf(v.fields, k) else None
    case Index(i) => if v.Arr? && i < |v.items| then Some(v.items[i]) else None
  }

  /** The part of v at a position. */
  function At<T>(v: Json<T>, steps: seq<Step>): Option<Json<T>> {
    if steps == [] then Some(v)
    else
      var c := Child(v, steps[0]);
      if c.None? then None else At(c.value, steps[1..])
  }

  lemma {:induction false} RenderedItem(v: Json<string>, items: seq<Json<string>>, index: nat, i: nat, ctx: Context, path: string)
    requires v.Arr? && index <= |v.items| && items == v.items[index..] && i < |items|
    requires RenderItems(v, items, index, ctx, path).Ok?
    ensures Render(items[i], ctx, path + Segment(Index(index + i))) == Ok(RenderItems(v, items, index, ctx, path).value[i])
    decreases |items|
  {
    ItemsFirst(v, items, index, ctx, path);
    if i > 0 {
      RenderedItem(v, items[1..], index + 1, i - 1, ctx, path);
    }
  }

  lemma ItemsFirst(v: Json<string>, items: seq<Json<string>>, index: nat, ctx: Context, path: string)
    requires v.Arr? && index <= |v.items| && items == v.items[index..] && items != []
    requires RenderItems(v, items, index, ctx, path).Ok?
    ensures var out := RenderItems(v, items, index, ctx, path).value;
            && Render(items[0], ctx, path + Segment(Index(index))) == Ok(out[0])
            && RenderItems(v, items[1..], index + 1, ctx, path) == Ok(out[1..])
  {
    assert items[0] == v.items[index];
  }

  lemma {:induction false} RenderedField(v: Json<string>, fields: seq<Field<string>>, k: string, ctx: Context, path: string)
    requires v.Obj? && forall f :: f in fields ==> f in v.fields
    requires RenderFields(v, fields, ctx, path).Ok?
    ensures var out := RenderFields(v, fields, ctx, path).value;
            match FieldOf(fields, k)
            case None => FieldOf(out, k).None?
            case Some(c) => FieldOf(out, k).Some? && Render(c, ctx, path + Segment(Key(k))) == Ok(FieldOf(out, k).value)
    decreases |fields|
  {
    if fields != [] {
      assert fields[0] in v.fields;
      RenderedField(v, fields[1..], k, ctx, path);
    }
  }

  lemma RenderedChild(v: Json<string>, step: Step, ctx: Context, path: string)
    requires Render(v, ctx, path).Ok?
    ensures var out := Render(v, ctx, path).value;
            match Child(v, step)
            case None => Child(out, step).None?
            case Some(c) => Child(out, step).Some? && Render(c, ctx, path + Segment(step)) == Ok(Child(out, step).value)
  {
    match step
    case Key(k) => if v.Obj? { RenderedField(v, v.fields, k, ctx, path); }
    case Index(i) =>
      if v.Arr? && i < |v.items| {
        assert v.items == v.items[0..];
        RenderedItem(v, v.items, 0, i, ctx, path);
      }
  }

  lemma AtBelow<T>(v: Json<T>, steps: seq<Step>)
    requires steps != []
    ensures At(v, steps) == if Child(v, steps[0]).None? then None else At(Child(v, steps[0]).value, steps[1..])
  {
  }

  lemma SegmentsFrom(path: string, steps: seq<Step>)
    requires steps != []
    ensures path + Segments(steps) == path + Segment(steps[0]) + Segments(steps[1..])
  {
  }

  lemma {:induction false} RenderedBelow(v: Json<string>, ctx: Context, path: string, steps: seq<Step>)
    requires Render(v, ctx, path).Ok?
    ensures var out := Render(v, ctx, path).value;
            match At(v, steps)
            case None => At(out, steps).None?
            case Some(c) => At(out, steps).Some? && Render(c, ctx, path + Segments(steps)) == Ok(At(out, steps).value)
    decreases |steps|
  {
    var out := Render(v, ctx, path).value;
    if steps == [] {
      assert path + Segments(steps) == path;
    } else {
      RenderedChild(v, steps[0], ctx, path);
      SegmentsFrom(path, steps);
      AtBelow(v, steps);
      AtBelow(out, steps);
      if Child(v, steps[0]).Some? {
        RenderedBelow(Child(v, steps[0]).value, ctx, path + Segment(steps[0]), steps[1..]);
      }
    }
  }

  /** Rendering keeps the shape of a template, and renders the string at every position with
      the path of that position. */
  lemma RenderedAt(v: Json<string>, ctx: Context, steps: seq<Step>)
    requires Render(v, ctx, "$").Ok?
    ensures var out := Render(v, ctx, "$").value;
            && (At(v, steps).Some? <==> At(out, steps).Some?)
            && (At(v, steps).Some? && At(v, steps).value.Str? ==>
                  At(out, steps).value.Str?
                  && RenderString(At(v, steps).value.text, ctx, PathOf(steps)) == Ok(At(out, steps).value.text))
  {
    RenderedBelow(v, ctx, "$", steps);
  }

  /** No two uuid tokens of a template, at whatever positions, get the same seed; and tokens
      of different origins or attempts never do. */
  lemma UuidSeedsDistinct(o: Origin, p: seq<Step>, s: string, i: nat, a: nat, q: Origin, r: seq<Step>, t: string, j: nat, b: nat)
    requires ValidOrigin(o) && ValidOrigin(q)
    requires i < |Tokens(Scan(s))| && j < |Tokens(Scan(t))|
    requires Tokens(Scan(s))[i] == "uuid" == Tokens(Scan(t))[j]
    requires o == q && p == r && a == b ==> s == t
    ensures Seed(o, PathOf(p), UuidsBefore(Tokens(Scan(s)), i), a) == Seed(q, PathOf(r), UuidsBefore(Tokens(Scan(t)), j), b)
            <==> o == q && p == r && a == b && i == j
  {
    SeedInjective(o, p, UuidsBefore(Tokens(Scan(s)), i), a, q, r, UuidsBefore(Tokens(Scan(t)), j), b);
    if s == t && i != j {
      UuidNumbersDistinct(Tokens(Scan(s)), if i < j then i else j, if i < j then j else i);
    }
  }

  // ---- attempts ----

  lemma {:induction false} AttemptMatters(p: Parsed, ctx: Context, path: string, first: nat, a: nat, b: nat)
    requires a != b && ValidOrigin(ctx.origin)
    ensures var x, y := RenderParsed(p, ctx.(attempt := a), path, first), RenderParsed(p, ctx.(attempt := b), path, first);
            && (x.Ok? <==> y.Ok?)
            && (x.Err? ==> x == y)
            && (x.Ok? ==> |x.value| == |y.value| && (x == y <==> "uuid" !in Tokens(p)))
    decreases p
  {
    match p
    case Tail(_) =>
    case Cons(l, t, rest) =>
      AttemptMatters(rest, ctx, path, NextIndex(t, first), a, b);
      TokenAttempt(t, ctx, path, first, a, b);
      var c, d := ctx.(attempt := a), ctx.(attempt := b);
      var u, v := RenderToken(t, c, path, first), RenderToken(t, d, path, first);
      var m, n := RenderParsed(rest, c, path, NextIndex(t, first)), RenderParsed(rest, d, path, NextIndex(t, first));
      if u.Ok? && m.Ok? {
        SameLengthParts(Plainly(l) + u.value, m.value, Plainly(l) + v.value, n.value);
        SameLengthParts(Plainly(l), u.value, Plainly(l), v.value);
      }
  }

  lemma SameLengthParts(a: Rendered, x: Rendered, b: Rendered, y: Rendered)
    requires |a| == |b| && |x| == |y|
    ensures a + x == b + y <==> a == b && x == y
  {
    if a + x == b + y {
      assert a == (a + x)[..|a|] == (b + y)[..|b|] == b;
      assert x == (a + x)[|a|..] == (b + y)[|b|..] == y;
    }
  }

  lemma TokenAttempt(t: string, ctx: Context, path: string, index: nat, a: nat, b: nat)
    requires a != b && ValidOrigin(ctx.origin)
    ensures var x, y := RenderToken(t, ctx.(attempt := a), path, index), RenderToken(t, ctx.(attempt := b), path, index);
            && (x.Ok? <==> y.Ok?)
            && (x.Err? ==> x == y)
            && (x.Ok? ==> |x.value| == |y.value| && (x == y <==> t != "uuid"))
  {
    if t == "uuid" {
      if Seed(ctx.origin, path, index, a) == Seed(ctx.origin, path, index, b) {
        SeedParts(ctx.origin, path, index, a, ctx.origin, path, index, b);
      }
      assert [Uuid(Seed(ctx.origin, path, index, a))][0] == Uuid(Seed(ctx.origin, path, index, a));
      assert [Uuid(Seed(ctx.origin, path, index, b))][0] == Uuid(Seed(ctx.origin, path, index, b));
    }
  }

  /** Whether some string of v holds a uuid token. */
  predicate UsesUuid(v: Json<string>)
    decreases v, 1, 0
  {
    match v
    case Str(s) => "uuid" in Tokens(Scan(s))
    case Arr(items) => ItemsUseUuid(v, items)
    case Obj(fields) => FieldsUseUuid(v, fields)
    case _ => false
  }

  predicate ItemsUseUuid(v: Json<string>, items: seq<Json<string>>)
    requires v.Arr? && forall x :: x in items ==> x in v.items
    decreases v, 0, |items|
  {
    items != [] && (assert items[0] in v.items; UsesUuid(items[0]) || ItemsUseUuid(v, items[1..]))
  }

  predicate FieldsUseUuid(v: Json<string>, fields: seq<Field<string>>)
    requires v.Obj? && forall x :: x in fields ==> x in v.fields
    decreases v, 0, |fields|
  {
    fields != [] && (assert fields[0] in v.fields; UsesUuid(fields[0].value) || FieldsUseUuid(v, fields[1..]))
  }

  ghost predicate SameOutcome<T, E>(x: Result<T, E>, y: Result<T, E>, differ: bool) {
    && (x.Ok? <==> y.Ok?)
    && (x.Err? ==> x == y)
    && (x.Ok? ==> (x != y <==> differ))
  }

  lemma StringAttempt(s: string, ctx: Context, path: string, a: nat, b: nat)
    requires a != b && ValidOrigin(ctx.origin)
    ensures SameOutcome(RenderString(s, ctx.(attempt := a), path), RenderString(s, ctx.(attempt := b), path),
                        "uuid" in Tokens(Scan(s)))
  {
    AttemptMatters(Scan(s), ctx, path, 0, a, b);
  }

  /** Two attempts at one template render the same payload, or the same error, unless the
      template renders and holds a uuid token; then they never do. */
  lemma {:induction false} AttemptsDifferIffUuid(v: Json<string>, ctx: Context, path: string, a: nat, b: nat)
    requires a != b && ValidOrigin(ctx.origin)
    ensures SameOutcome(Render(v, ctx.(attempt := a), path), Render(v, ctx.(attempt := b), path), UsesUuid(v))
    decreases v, 1, 0
  {
    match v
    case Str(s) => StringAttempt(s, ctx, path, a, b);
    case Arr(items) =>
      assert items == v.items[0..];
      ItemsAttempt(v, items, 0, ctx, path, a, b);
    case Obj(fields) => FieldsAttempt(v, fields, ctx, path, a, b);
    case _ =>
  }

  lemma {:induction false} ItemsAttempt(v: Json<string>, items: seq<Json<string>>, index: nat, ctx: Context, path: string, a: nat, b: nat)
    requires a != b && ValidOrigin(ctx.origin)
    requires v.Arr? && index <= |v.items| && items == v.items[index..]
    ensures SameOutcome(RenderItems(v, items, index, ctx.(attempt := a), path),
                        RenderItems(v, items, index, ctx.(attempt := b), path), ItemsUseUuid(v, items))
    decreases v, 0, |items|
  {
    if items != [] {
      var at := path + Segment(Index(index));
      assert items[0] == v.items[index] && items[0] in v.items;
      AttemptsDifferIffUuid(v.items[index], ctx, at, a, b);
      ItemsAttempt(v, items[1..], index + 1, ctx, path, a, b);
      var x, y := Render(v.items[index], ctx.(attempt := a), at), Render(v.items[index], ctx.(attempt := b), at);
      var m, n := RenderItems(v, items[1..], index + 1, ctx.(attempt := a), path),
                  RenderItems(v, items[1..], index + 1, ctx.(attempt := b), path);
      if x.Ok? && m.Ok? {
        ConsEqual(x.value, m.value, y.value, n.value);
      }
    }
  }

  lemma ConsEqual<T>(x: T, m: seq<T>, y: T, n: seq<T>)
    ensures [x] + m == [y] + n <==> x == y && m == n
  {
    if [x] + m == [y] + n {
      assert x == ([x] + m)[0] == ([y] + n)[0] == y;
      assert m == ([x] + m)[1..] == ([y] + n)[1..] == n;
    }
  }

  lemma {:induction false} FieldsAttempt(v: Json<string>, fields: seq<Field<string>>, ctx: Context, path: string, a: nat, b: nat)
    requires a != b && ValidOrigin(ctx.origin)
    requires v.Obj? && forall f :: f in fields ==> f in v.fields
    ensures SameOutcome(RenderFields(v, fields, ctx.(attempt := a), path),
                        RenderFields(v, fields, ctx.(attempt := b), path), FieldsUseUuid(v, fields))
    decreases v, 0, |fields|
  {
    if fields != [] {
      var f := fields[0];
      var at := path + Segment(Key(f.key));
      assert f in v.fields;
      AttemptsDifferIffUuid(f.value, ctx, at, a, b);
      FieldsAttempt(v, fields[1..], ctx, path, a, b);
      var x, y := Render(f.value, ctx.(attempt := a), at), Render(f.value, ctx.(attempt := b), at);
      var m, n := RenderFields(v, fields[1..], ctx.(attempt := a), path), RenderFields(v, fields[1..], ctx.(attempt := b), path);
      if x.Ok? && m.Ok? {
        ConsEqual(Field(f.key, x.value), m.value, Field(f.key, y.value), n.value);
      }
    }
  }
}
