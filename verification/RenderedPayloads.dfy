/** What a payload is, position by position: a configured value taken over as it is, or a
    template with every token of every string replaced by its value. */
module RenderedPayloads {
  import opened Wrappers
  import opened TemplatePaths
  import opened TemplateTokens
  import opened TemplateRendering
  import opened TemplateDeterminism
  import Text

  // ---- shape ----

  /** The same kind of value with the same scalar, length and keys in the same order. */
  ghost predicate Alike(v: Json<string>, out: Json<Rendered>) {
    match v
    case Null => out == Null
    case Bool(b) => out == Bool(b)
    case Number(d) => out == Number(d)
    case Str(_) => out.Str?
    case Arr(items) => out.Arr? && |out.items| == |items|
    case Obj(fields) =>
      out.Obj? && |out.fields| == |fields| && forall i :: 0 <= i < |fields| ==> out.fields[i].key == fields[i].key
  }

  ghost predicate SameCharacters(s: string, out: Rendered) {
    |out| == |s| && forall i :: 0 <= i < |s| ==> out[i] == Char(s[i])
  }

  /** A position exists in the payload exactly when it exists in the value, with a part of the
      same shape. */
  ghost predicate ShapedAt(v: Json<string>, out: Json<Rendered>, steps: seq<Step>) {
    && (At(v, steps).Some? <==> At(out, steps).Some?)
    && (At(v, steps).Some? ==> Alike(At(v, steps).value, At(out, steps).value))
  }

  /** The payload is the value itself, every character of its strings included. */
  ghost predicate Mirrors(v: Json<string>, out: Json<Rendered>) {
    forall steps :: ShapedAt(v, out, steps) && (StringAt(v, steps).Some? ==>
      At(out, steps).value.Str? && SameCharacters(StringAt(v, steps).value, At(out, steps).value.text))
  }

  /** The string at a position of a value, when there is one. */
  function StringAt(v: Json<string>, steps: seq<Step>): Option<string> {
    if At(v, steps).Some? && At(v, steps).value.Str? then Some(At(v, steps).value.text) else None
  }

  // ---- tokens ----

  /** How a scalar of a data-pool record is written out. */
  ghost predicate PrintsAs(v: Json<string>, s: string) {
    match v
    case Null => s == "None"
    case Bool(b) => s == if b then "True" else "False"
    case Number(d) => s == d
    case Str(t) => s == t
    case Arr(_) => false
    case Obj(_) => false
  }

  /** The dotted parts of a token lead through the keys of the record. */
  function Keys(parts: seq<string>): (steps: seq<Step>)
    ensures |steps| == |parts|
  {
    seq(|parts|, i requires 0 <= i < |parts| => Key(parts[i]))
  }

  ghost predicate PoolValue(record: Json<string>, token: string, s: string) {
    var parts := Text.Split(token, '.');
    && record.Obj? && (forall i :: 0 <= i < |parts| ==> parts[i] != "")
    && At(record, Keys(parts)).Some? && PrintsAs(At(record, Keys(parts)).value, s)
  }

  /** What a token stands for at a path: the run, the iteration in decimal, the run's time, a
      uuid seeded with everything that identifies the place, or a scalar of the record. */
  ghost predicate TokenMeans(token: string, out: Rendered, ctx: Context, path: string, n: nat) {
    if token == "run_id" then SameCharacters(ctx.origin.run, out)
    else if token == "iteration" then exists s :: Text.Numeral(s, ctx.origin.iteration) && SameCharacters(s, out)
    else if token == "timestamp" then SameCharacters(ctx.timestamp, out)
    else if token == "uuid" then out == [Uuid(Seed(ctx.origin, path, n, ctx.attempt))]
    else
      && ctx.allowPool && ctx.record.Some?
      && exists s :: PoolValue(ctx.record.value, token, s) && SameCharacters(s, out)
  }

  /** A string rendered: the literals of its parse around what its tokens stand for. */
  ghost predicate StringMeans(s: string, out: Rendered, ctx: Context, path: string) {
    var tokens := Tokens(Scan(s));
    exists texts: seq<Rendered> :: |texts| == |tokens| && out == Fill(Scan(s), texts) && AllMean(tokens, texts, ctx, path)
  }

  ghost predicate AllMean(tokens: seq<string>, texts: seq<Rendered>, ctx: Context, path: string)
    requires |texts| == |tokens|
  {
    forall i :: 0 <= i < |tokens| ==> TokenMeans(tokens[i], texts[i], ctx, path, UuidsBefore(tokens, i))
  }

  /** The payload is the template, every string of it rendered where it stands. */
  ghost predicate Renders(v: Json<string>, out: Json<Rendered>, ctx: Context) {
    forall steps :: ShapedAt(v, out, steps) && (StringAt(v, steps).Some? ==>
      At(out, steps).value.Str? && StringMeans(StringAt(v, steps).value, At(out, steps).value.text, ctx, PathOf(steps)))
  }

  // ---- literal payloads ----

  /** A configured value as a payload. */
  function Literal(v: Json<string>): Json<Rendered> {
    match v
    case Null => Null
    case Bool(b) => Bool(b)
    case Number(d) => Number(d)
    case Str(s) => Str(Plainly(s))
    case Arr(items) => Arr(seq(|items|, i requires 0 <= i < |items| => Literal(items[i])))
    case Obj(fields) =>
      Obj(seq(|fields|, i requires 0 <= i < |fields| => Field(fields[i].key, Literal(fields[i].value))))
  }

  lemma {:induction false} LiteralFieldOf(fields: seq<Field<string>>, out: seq<Field<Rendered>>, k: string)
    requires |out| == |fields| && forall i :: 0 <= i < |fields| ==> out[i] == Field(fields[i].key, Literal(fields[i].value))
    ensures match FieldOf(fields, k)
            case None => FieldOf(out, k).None?
            case Some(c) => FieldOf(out, k) == Some(Literal(c))
  {
    if fields != [] {
      LiteralFieldOf(fields[1..], out[1..], k);
    }
  }

  lemma LiteralChild(v: Json<string>, step: Step)
    ensures match Child(v, step)
            case None => Child(Literal(v), step).None?
            case Some(c) => Child(Literal(v), step) == Some(Literal(c))
  {
    match step
    case Key(k) => if v.Obj? { LiteralFieldOf(v.fields, Literal(v).fields, k); }
    case Index(_) =>
  }

  lemma {:induction false} LiteralAt(v: Json<string>, steps: seq<Step>)
    ensures match At(v, steps)
            case None => At(Literal(v), steps).None?
            case Some(c) => At(Literal(v), steps) == Some(Literal(c))
    decreases |steps|
  {
    if steps != [] {
      LiteralChild(v, steps[0]);
      AtBelow(v, steps);
      AtBelow(Literal(v), steps);
      if Child(v, steps[0]).Some? {
        LiteralAt(Child(v, steps[0]).value, steps[1..]);
      }
    }
  }

  lemma LiteralMirrors(v: Json<string>)
    ensures Mirrors(v, Literal(v))
  {
    forall steps ensures ShapedAt(v, Literal(v), steps) && (StringAt(v, steps).Some? ==>
        At(Literal(v), steps).value.Str? && SameCharacters(StringAt(v, steps).value, At(Literal(v), steps).value.text))
    {
      LiteralAt(v, steps);
    }
  }

  // ---- rendered payloads ----

  lemma {:induction false} FieldKeys(v: Json<string>, fields: seq<Field<string>>, ctx: Context, path: string)
    requires v.Obj? && forall f :: f in fields ==> f in v.fields
    requires RenderFields(v, fields, ctx, path).Ok?
    ensures var out := RenderFields(v, fields, ctx, path).value;
            |out| == |fields| && forall i :: 0 <= i < |fields| ==> out[i].key == fields[i].key
    decreases |fields|
  {
    if fields != [] {
      FieldKeys(v, fields[1..], ctx, path);
    }
  }

  lemma RenderAlike(v: Json<string>, ctx: Context, path: string)
    requires Render(v, ctx, path).Ok?
    ensures Alike(v, Render(v, ctx, path).value)
  {
    if v.Obj? {
      FieldKeys(v, v.fields, ctx, path);
    }
  }

  lemma {:induction false} WalkIsAt(v: Json<string>, parts: seq<string>)
    ensures Walk(v, parts) == if forall i :: 0 <= i < |parts| ==> parts[i] != "" then At(v, Keys(parts)) else None
  {
    if parts != [] {
      assert Keys(parts)[1..] == Keys(parts[1..]);
      AtBelow(v, Keys(parts));
      if parts[0] != "" {
        assert (forall i :: 0 <= i < |parts| ==> parts[i] != "") <==> (forall i :: 0 <= i < |parts[1..]| ==> parts[1..][i] != "") by {
          assert forall i :: 0 < i < |parts| ==> parts[i] == parts[1..][i - 1];
        }
        if v.Obj? && FieldOf(v.fields, parts[0]).Some? {
          WalkIsAt(FieldOf(v.fields, parts[0]).value, parts[1..]);
        }
      }
    }
  }

  /** The token has no space around it, and is one of the four names or leads to a scalar of a
      record it may look into. */
  ghost predicate Known(token: string, ctx: Context) {
    && token == Strip(token) && token != ""
    && (token in {"run_id", "iteration", "timestamp", "uuid"}
        || (ctx.allowPool && ctx.record.Some? && exists s :: PoolValue(ctx.record.value, token, s)))
  }

  lemma LookupIff(record: Json<string>, token: string)
    requires !ReservedToken(token)
    ensures Lookup(Some(record), token).Ok? ==> PoolValue(record, token, Lookup(Some(record), token).value)
    ensures Lookup(Some(record), token).Err? ==> forall s :: !PoolValue(record, token, s)
  {
    WalkIsAt(record, Text.Split(token, '.'));
  }

  lemma NamedTokens(token: string, ctx: Context, path: string, n: nat)
    requires ReservedToken(token) && token == Strip(token)
    ensures RenderToken(token, ctx, path, n).Ok?
    ensures TokenMeans(token, RenderToken(token, ctx, path, n).value, ctx, path, n)
  {
    Text.DecimalIsNumeral(ctx.origin.iteration);
  }

  /** A token renders exactly when it is known, and then as what it stands for. */
  lemma TokenRendersIff(token: string, ctx: Context, path: string, n: nat)
    ensures RenderToken(token, ctx, path, n).Ok? <==> Known(token, ctx)
    ensures RenderToken(token, ctx, path, n).Ok? ==> TokenMeans(token, RenderToken(token, ctx, path, n).value, ctx, path, n)
  {
    if token == Strip(token) && token != "" {
      if ReservedToken(token) {
        NamedTokens(token, ctx, path, n);
      } else if ctx.record.Some? {
        LookupIff(ctx.record.value, token);
      }
    }
  }

  lemma StringRenders(s: string, ctx: Context, path: string)
    requires RenderString(s, ctx, path).Ok?
    ensures StringMeans(s, RenderString(s, ctx, path).value, ctx, path)
  {
    var texts := NumberedTokens(Scan(s), ctx, path, 0);
    var tokens := Tokens(Scan(s));
    forall i | 0 <= i < |tokens| ensures TokenMeans(tokens[i], texts[i], ctx, path, UuidsBefore(tokens, i)) {
      assert RendersAt(tokens, texts, Renderer(ctx, path), 0, i);
      TokenRendersIff(tokens[i], ctx, path, UuidsBefore(tokens, i));
    }
  }

  /** The rendering of a template is the template rendered at every position. */
  lemma RenderRenders(v: Json<string>, ctx: Context)
    requires Render(v, ctx, "$").Ok?
    ensures Renders(v, Render(v, ctx, "$").value, ctx)
  {
    var out := Render(v, ctx, "$").value;
    forall steps ensures ShapedAt(v, out, steps) && (StringAt(v, steps).Some? ==>
        At(out, steps).value.Str? && StringMeans(StringAt(v, steps).value, At(out, steps).value.text, ctx, PathOf(steps)))
    {
      RenderedBelow(v, ctx, "$", steps);
      if At(v, steps).Some? {
        RenderAlike(At(v, steps).value, ctx, PathOf(steps));
      }
      if StringAt(v, steps).Some? {
        StringRenders(StringAt(v, steps).value, ctx, PathOf(steps));
      }
    }
  }

  // ---- which templates render ----

  ghost predicate RenderableString(s: string, ctx: Context) {
    (HasMark(s) ==> Balanced(s)) && forall t :: t in Tokens(Scan(s)) ==> Known(t, ctx)
  }

  /** Every string of the template is renderable. */
  ghost predicate Renderable(v: Json<string>, ctx: Context) {
    match v
    case Str(s) => RenderableString(s, ctx)
    case Arr(items) => forall i :: 0 <= i < |items| ==> Renderable(items[i], ctx)
    case Obj(fields) => forall i :: 0 <= i < |fields| ==> Renderable(fields[i].value, ctx)
    case _ => true
  }

  lemma {:induction false} ParsedRendersIff(p: Parsed, ctx: Context, path: string, n: nat)
    ensures RenderParsed(p, ctx, path, n).Ok? <==> forall t :: t in Tokens(p) ==> Known(t, ctx)
    decreases p
  {
    match p
    case Tail(_) =>
    case Cons(l, t, rest) =>
      TokenRendersIff(t, ctx, path, n);
      ParsedRendersIff(rest, ctx, path, NextIndex(t, n));
      assert forall x :: x in Tokens(p) <==> x == t || x in Tokens(rest);
  }

  /** A template renders exactly when each of its strings does. */
  lemma {:induction false} RendersIff(v: Json<string>, ctx: Context, path: string)
    ensures Render(v, ctx, path).Ok? <==> Renderable(v, ctx)
    decreases v, 1, 0
  {
    match v
    case Str(s) => ParsedRendersIff(Scan(s), ctx, path, 0);
    case Arr(items) =>
      assert items == v.items[0..];
      ItemsRenderIff(v, items, 0, ctx, path);
    case Obj(fields) => FieldsRenderIff(v, fields, ctx, path);
    case _ =>
  }

  lemma {:induction false} ItemsRenderIff(v: Json<string>, items: seq<Json<string>>, index: nat, ctx: Context, path: string)
    requires v.Arr? && index <= |v.items| && items == v.items[index..]
    ensures RenderItems(v, items, index, ctx, path).Ok? <==> forall i :: 0 <= i < |items| ==> Renderable(items[i], ctx)
    decreases v, 0, |items|
  {
    if items != [] {
      assert items[0] == v.items[index];
      RendersIff(v.items[index], ctx, path + Segment(Index(index)));
      ItemsRenderIff(v, items[1..], index + 1, ctx, path);
      assert forall i :: 0 < i < |items| ==> items[i] == items[1..][i - 1];
    }
  }

  lemma {:induction false} FieldsRenderIff(v: Json<string>, fields: seq<Field<string>>, ctx: Context, path: string)
    requires v.Obj? && forall f :: f in fields ==> f in v.fields
    ensures RenderFields(v, fields, ctx, path).Ok? <==> forall i :: 0 <= i < |fields| ==> Renderable(fields[i].value, ctx)
    decreases v, 0, |fields|
  {
    if fields != [] {
      assert fields[0] in v.fields;
      RendersIff(fields[0].value, ctx, path + Segment(Key(fields[0].key)));
      FieldsRenderIff(v, fields[1..], ctx, path);
      assert forall i :: 0 < i < |fields| ==> fields[i] == fields[1..][i - 1];
    }
  }

  /** Whether a template renders depends on the record only. */
  lemma {:induction false} RenderableSame(v: Json<string>, c: Context, d: Context)
    requires c.record == d.record && c.allowPool == d.allowPool
    ensures Renderable(v, c) <==> Renderable(v, d)
  {
    match v
    case Str(s) => assert forall t :: Known(t, c) <==> Known(t, d);
    case Arr(items) => forall i | 0 <= i < |items| { RenderableSame(items[i], c, d); }
    case Obj(fields) => forall i | 0 <= i < |fields| { RenderableSame(fields[i].value, c, d); }
    case _ =>
  }
}
