/** Rendering of payload templates. A UUID is kept as a symbol over its seed, so that two
    rendered texts are equal exactly when their characters and seeds are. */
module TemplateRendering {
  import opened Wrappers
  import opened TemplatePaths
  import opened TemplateTokens
  import Text

  datatype Json<T> =
    | Null
    | Bool(b: bool)
    | Number(digits: string)
    | Str(text: T)
    | Arr(items: seq<Json<T>>)
    | Obj(fields: seq<Field<T>>)

  datatype Field<T> = Field(key: string, value: Json<T>)

  datatype Sym = Char(c: char) | Uuid(seed: string)

  type Rendered = seq<Sym>

  datatype Error =
    | Malformed | Unknown(token: string) | Reserved(token: string) | NoRecord | Missing(token: string) | NotScalar(token: string)

  datatype Context = Context(origin: Origin, timestamp: string, attempt: nat, record: Option<Json<string>>, allowPool: bool)

  function Plainly(s: string): (r: Rendered)
    ensures |r| == |s|
  {
    seq(|s|, i requires 0 <= i < |s| => Char(s[i]))
  }

  // ---- one token ----

  /** The characters str.strip removes. */
  predicate Space(c: char) {
    || c == ' ' || '\t' <= c <= '\r' || '\U{1C}' <= c <= '\U{1F}' || c == '\U{85}' || c == '\U{A0}'
    || c == '\U{1680}' || '\U{2000}' <= c <= '\U{200A}' || c == '\U{2028}' || c == '\U{2029}'
    || c == '\U{202F}' || c == '\U{205F}' || c == '\U{3000}'
  }

  function Strip(s: string): string
    decreases |s|
  {
    if s == "" then ""
    else if Space(s[0]) then Strip(s[1..])
    else if Space(s[|s| - 1]) then Strip(s[..|s| - 1])
    else s
  }

  predicate ReservedToken(token: string) {
    token == "run_id" || token == "iteration" || token == "timestamp" || token == "uuid"
  }

  function FieldOf<T>(fields: seq<Field<T>>, key: string): (v: Option<Json<T>>)
    ensures v.Some? ==> v.value in (set f | f in fields :: f.value)
  {
    if fields == [] then None
    else if fields[0].key == key then Some(fields[0].value)
    else FieldOf(fields[1..], key)
  }

  /** Follow the dotted parts of a data-pool token. */
  function Walk(current: Json<string>, parts: seq<string>): Option<Json<string>> {
    if parts == [] then Some(current)
    else if parts[0] == "" || !current.Obj? then None
    else
      var next := FieldOf(current.fields, parts[0]);
      if next.None? then None else Walk(next.value, parts[1..])
  }

  /** str() of a scalar */
  function ScalarText(v: Json<string>): Option<string> {
    match v
    case Null => Some("None")
    case Bool(b) => Some(if b then "True" else "False")
    case Number(d) => Some(d)
    case Str(s) => Some(s)
    case _ => None
  }

  function Lookup(record: Option<Json<string>>, token: string): Result<string, Error> {
    if ReservedToken(token) then Err(Reserved(token))
    else if record.None? || !record.value.Obj? then Err(NoRecord)
    else
      var found := Walk(record.value, Text.Split(token, '.'));
      if found.None? then Err(Missing(token))
      else
        var text := ScalarText(found.value);
        if text.None? then Err(NotScalar(token)) else Ok(text.value)
  }

  function RenderToken(token: string, ctx: Context, path: string, uuidIndex: nat): Result<Rendered, Error> {
    if token != Strip(token) || token == "" then Err(Malformed)
    else if token == "run_id" then Ok(Plainly(ctx.origin.run))
    else if token == "iteration" then Ok(Plainly(Text.Decimal(ctx.origin.iteration)))
    else if token == "timestamp" then Ok(Plainly(ctx.timestamp))
    else if token == "uuid" then Ok([Uuid(Seed(ctx.origin, path, uuidIndex, ctx.attempt))])
    else if ctx.allowPool then
      match Lookup(ctx.record, token)
      case Ok(text) => Ok(Plainly(text))
      case Err(e) => Err(e)
    else Err(Unknown(token))
  }

  // ---- one string ----

  function NextIndex(token: string, uuidIndex: nat): nat {
    if token == "uuid" then uuidIndex + 1 else uuidIndex
  }

  function Before(out: Rendered, r: Result<Rendered, Error>): Result<Rendered, Error> {
    match r
    case Ok(text) => Ok(out + text)
    case Err(e) => Err(e)
  }

  function RenderParsed(p: Parsed, ctx: Context, path: string, uuidIndex: nat): Result<Rendered, Error> {
    match p
    case Tail(l) => Ok(Plainly(l))
    case Cons(l, t, rest) =>
      match RenderToken(t, ctx, path, uuidIndex)
      case Err(e) => Err(e)
      case Ok(text) => Before(Plainly(l) + text, RenderParsed(rest, ctx, path, NextIndex(t, uuidIndex)))
  }

  function RenderString(s: string, ctx: Context, path: string): Result<Rendered, Error> {
    if !Accepted(s) then Err(Malformed) else RenderParsed(Scan(s), ctx, path, 0)
  }

  lemma RenderPrepend(c: char, p: Parsed, ctx: Context, path: string, uuidIndex: nat)
    ensures RenderParsed(Prepend(c, p), ctx, path, uuidIndex) == Before([Char(c)], RenderParsed(p, ctx, path, uuidIndex))
  {
    match p
    case Tail(l) => assert Plainly([c] + l) == [Char(c)] + Plainly(l);
    case Cons(l, t, rest) =>
      assert Plainly([c] + l) == [Char(c)] + Plainly(l);
      var r, more := RenderToken(t, ctx, path, uuidIndex), RenderParsed(rest, ctx, path, NextIndex(t, uuidIndex));
      assert r.Ok? && more.Ok? ==>
        ([Char(c)] + Plainly(l) + r.value) + more.value == [Char(c)] + (Plainly(l) + r.value + more.value);
  }

  lemma BeforeBefore(a: Rendered, b: Rendered, r: Result<Rendered, Error>)
    ensures Before(a, Before(b, r)) == Before(a + b, r)
  {
    assert r.Ok? ==> a + (b + r.value) == (a + b) + r.value;
  }

  /** The substitution callback numbers the uuid tokens of the string as it meets them. */
  method Substitute(value: string, ctx: Context, path: string) returns (r: Result<Rendered, Error>)
    ensures r == RenderString(value, ctx, path)
  {
    if !Accepted(value) {
      return Err(Malformed);
    }
    var uuidIndex, rest, out: Rendered := 0, value, [];
    ghost var whole := RenderParsed(Scan(value), ctx, path, 0);
    assert whole == Before([], whole) by {
      assert whole.Ok? ==> [] + whole.value == whole.value;
    }
    while rest != ""
      invariant whole == Before(out, RenderParsed(Scan(rest), ctx, path, uuidIndex))
      decreases |rest|
    {
      var n := TokenLen(rest);
      if n > 0 {
        var token := rest[2..n + 2];
        ghost var more := RenderParsed(Scan(rest[n + 4..]), ctx, path, NextIndex(token, uuidIndex));
        var text := RenderToken(token, ctx, path, uuidIndex);
        if text.Err? {
          return Err(text.error);
        }
        assert Plainly("") + text.value == text.value;
        BeforeBefore(out, text.value, more);
        out := out + text.value;
        uuidIndex := NextIndex(token, uuidIndex);
        rest := rest[n + 4..];
      } else {
        RenderPrepend(rest[0], Scan(rest[1..]), ctx, path, uuidIndex);
        BeforeBefore(out, [Char(rest[0])], RenderParsed(Scan(rest[1..]), ctx, path, uuidIndex));
        out := out + [Char(rest[0])];
        rest := rest[1..];
      }
    }
    assert out + Plainly("") == out;
    r := Ok(out);
  }

  // ---- what the numbering amounts to ----

  /** How many of the first n tokens are uuid tokens. */
  function UuidsBefore(tokens: seq<string>, n: nat): (k: nat)
    requires n <= |tokens|
    ensures k <= n
  {
    if n == 0 then 0 else NextIndex(tokens[n - 1], UuidsBefore(tokens, n - 1))
  }

  /** The literals of a parse with the given texts in the places of its tokens. */
  function Fill(p: Parsed, texts: seq<Rendered>): Rendered
    requires |texts| == |Tokens(p)|
  {
    match p
    case Tail(l) => Plainly(l)
    case Cons(l, _, rest) => Plainly(l) + texts[0] + Fill(rest, texts[1..])
  }

  lemma {:induction false} UuidsBeforeCons(t: string, tokens: seq<string>, n: nat)
    requires n <= |tokens|
    ensures UuidsBefore([t] + tokens, n + 1) == NextIndex(t, 0) + UuidsBefore(tokens, n)
  {
    if n > 0 {
      UuidsBeforeCons(t, tokens, n - 1);
      assert ([t] + tokens)[n] == tokens[n - 1];
    } else {
      assert ([t] + tokens)[0] == t;
    }
  }

  /** How a token renders under a given uuid number. */
  type TokenRenderer = (string, nat) -> Result<Rendered, Error>

  function Renderer(ctx: Context, path: string): TokenRenderer {
    (token: string, uuidIndex: nat) => RenderToken(token, ctx, path, uuidIndex)
  }

  ghost predicate TokensRender(tokens: seq<string>, texts: seq<Rendered>, render: TokenRenderer, first: nat) {
    && |texts| == |tokens|
    && forall i :: 0 <= i < |tokens| ==> RendersAt(tokens, texts, render, first, i)
  }

  /** Token i renders as the uuid number that counts the uuid tokens before it. */
  predicate RendersAt(tokens: seq<string>, texts: seq<Rendered>, render: TokenRenderer, first: nat, i: nat)
    requires i < |tokens| == |texts|
  {
    render(tokens[i], first + UuidsBefore(tokens, i)) == Ok(texts[i])
  }

  lemma NextIndexShift(t: string, first: nat)
    ensures NextIndex(t, first) == first + NextIndex(t, 0)
  {
  }

  lemma TokensRenderCons(t: string, tokens: seq<string>, text: Rendered, texts: seq<Rendered>, render: TokenRenderer, first: nat)
    requires render(t, first) == Ok(text)
    requires TokensRender(tokens, texts, render, NextIndex(t, first))
    ensures TokensRender([t] + tokens, [text] + texts, render, first)
  {
    var all, out := [t] + tokens, [text] + texts;
    forall i | 0 <= i < |all| ensures RendersAt(all, out, render, first, i) {
      if i > 0 {
        assert RendersAt(tokens, texts, render, NextIndex(t, first), i - 1);
        LaterToken(t, tokens, texts[i - 1], render, first, i - 1);
      }
    }
  }

  lemma LaterToken(t: string, tokens: seq<string>, text: Rendered, render: TokenRenderer, first: nat, n: nat)
    requires n < |tokens| && render(tokens[n], NextIndex(t, first) + UuidsBefore(tokens, n)) == Ok(text)
    ensures render(([t] + tokens)[n + 1], first + UuidsBefore([t] + tokens, n + 1)) == Ok(text)
  {
    IndexShift(t, tokens, n, first);
    assert ([t] + tokens)[n + 1] == tokens[n];
  }

  lemma IndexShift(t: string, tokens: seq<string>, n: nat, first: nat)
    requires n <= |tokens|
    ensures first + UuidsBefore([t] + tokens, n + 1) == NextIndex(t, first) + UuidsBefore(tokens, n)
  {
    UuidsBeforeCons(t, tokens, n);
    NextIndexShift(t, first);
  }

  /** A string renders to its literals with token i rendered as the uuid number that counts
      the uuid tokens before it. */
  lemma {:induction false} NumberedTokens(p: Parsed, ctx: Context, path: string, first: nat) returns (texts: seq<Rendered>)
    requires RenderParsed(p, ctx, path, first).Ok?
    ensures TokensRender(Tokens(p), texts, Renderer(ctx, path), first)
    ensures RenderParsed(p, ctx, path, first) == Ok(Fill(p, texts))
    decreases p
  {
    match p
    case Tail(_) => texts := [];
    case Cons(l, t, rest) =>
      var more := NumberedTokens(rest, ctx, path, NextIndex(t, first));
      var text := RenderToken(t, ctx, path, first).value;
      TokensRenderCons(t, Tokens(rest), text, more, Renderer(ctx, path), first);
      texts := [text] + more;
      assert texts[1..] == more;
  }

  /** Rendering refines the parse: an accepted string with markers is, in exactly one way,
      brace-free literals around tokens, and its rendering replaces just the tokens, the
      uuid tokens being numbered from 0 in order of occurrence. A string without markers is a
      single literal, whatever braces it has. */
  lemma RenderingRefinesParse(s: string, ctx: Context, path: string) returns (p: Parsed, texts: seq<Rendered>)
    requires RenderString(s, ctx, path).Ok?
    ensures Unparse(p) == s && (HasMark(s) ==> WellFormed(p)) && (!HasMark(s) ==> p == Tail(s))
    ensures forall q :: WellFormed(q) && Unparse(q) == s ==> q == p
    ensures TokensRender(Tokens(p), texts, Renderer(ctx, path), 0)
    ensures RenderString(s, ctx, path) == Ok(Fill(p, texts))
  {
    p := Scan(s);
    BalancedIffParses(s);
    ScanTokens(s);
    UnparseScan(s);
    if !HasMark(s) {
      NoMarkNoToken(s);
    }
    texts := NumberedTokens(p, ctx, path, 0);
  }

  /** Two uuid tokens of one string never share a number, and the numbers used are an
      initial segment. */
  lemma {:induction false} UuidNumbersDistinct(tokens: seq<string>, i: nat, j: nat)
    requires i < j < |tokens| && tokens[i] == "uuid"
    ensures UuidsBefore(tokens, i) < UuidsBefore(tokens, j)
    decreases j
  {
    if i + 1 < j {
      UuidNumbersDistinct(tokens, i, j - 1);
    }
  }

  lemma {:induction false} UuidNumbersFromZero(tokens: seq<string>, n: nat, k: nat)
    requires n <= |tokens| && k < UuidsBefore(tokens, n)
    ensures exists i :: 0 <= i < n && tokens[i] == "uuid" && UuidsBefore(tokens, i) == k
  {
    if k < UuidsBefore(tokens, n - 1) {
      UuidNumbersFromZero(tokens, n - 1, k);
    } else {
      assert tokens[n - 1] == "uuid";
    }
  }

  // ---- a whole template ----

  function Render(v: Json<string>, ctx: Context, path: string): Result<Json<Rendered>, Error>
    decreases v, 1, 0
  {
    match v
    case Null => Ok(Null)
    case Bool(b) => Ok(Bool(b))
    case Number(d) => Ok(Number(d))
    case Str(s) =>
      (match RenderString(s, ctx, path)
       case Ok(text) => Ok(Str(text))
       case Err(e) => Err(e))
    case Arr(items) =>
      (match RenderItems(v, items, 0, ctx, path)
       case Ok(out) => Ok(Arr(out))
       case Err(e) => Err(e))
    case Obj(fields) =>
      match RenderFields(v, fields, ctx, path)
      case Ok(out) => Ok(Obj(out))
      case Err(e) => Err(e)
  }

  function RenderItems(v: Json<string>, items: seq<Json<string>>, index: nat, ctx: Context, path: string)
    : (r: Result<seq<Json<Rendered>>, Error>)
    requires v.Arr? && index <= |v.items| && items == v.items[index..]
    ensures r.Ok? ==> |r.value| == |items|
    decreases v, 0, |items|
  {
    if items == [] then Ok([])
    else
      assert items[0] == v.items[index];
      match Render(v.items[index], ctx, path + Segment(Index(index)))
      case Err(e) => Err(e)
      case Ok(first) =>
        match RenderItems(v, items[1..], index + 1, ctx, path)
        case Err(e) => Err(e)
        case Ok(rest) => Ok([first] + rest)
  }

  function RenderFields(v: Json<string>, fields: seq<Field<string>>, ctx: Context, path: string)
    : Result<seq<Field<Rendered>>, Error>
    requires v.Obj? && forall f :: f in fields ==> f in v.fields
    decreases v, 0, |fields|
  {
    if fields == [] then Ok([])
    else
      assert fields[0] in v.fields;
      match Render(fields[0].value, ctx, path + Segment(Key(fields[0].key)))
      case Err(e) => Err(e)
      case Ok(first) =>
        match RenderFields(v, fields[1..], ctx, path)
        case Err(e) => Err(e)
        case Ok(rest) => Ok([Field(fields[0].key, first)] + rest)
  }
}
