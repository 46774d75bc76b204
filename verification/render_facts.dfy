/** What `render_text` and `render_data` promise, proved about the engine in `Render`. */
module RenderFacts {
  import opened Wrappers
  import opened Text
  import opened Values
  import opened Paths
  import opened Grammar
  import opened Placeholders
  import opened Render

  /* ---------- Composition ---------- */

  /** Rendering a token sequence is rendering its parts and concatenating, failing with the first error. */
  lemma {:induction false} RenderTokensAppend(a: seq<Token>, b: seq<Token>, context: seq<Field>, policy: Policy, eval: Evaluator)
    ensures RenderTokens(a + b, context, policy, eval)
         == (var x :- RenderTokens(a, context, policy, eval);
             var y :- RenderTokens(b, context, policy, eval);
             Success(x + y))
    decreases |a|
  {
    if |a| == 0 {
      assert a + b == b;
      var y := RenderTokens(b, context, policy, eval);
      if y.Success? {
        assert "" + y.value == y.value;
      }
    } else {
      assert (a + b)[0] == a[0] && (a + b)[1..] == a[1..] + b;
      RenderTokensAppend(a[1..], b, context, policy, eval);
      var h := RenderToken(a[0], context, policy, eval);
      var x := RenderTokens(a[1..], context, policy, eval);
      var y := RenderTokens(b, context, policy, eval);
      if h.Success? && x.Success? && y.Success? {
        assert h.value + (x.value + y.value) == (h.value + x.value) + y.value;
      }
    }
  }

  /** Literal characters render to themselves. */
  lemma {:induction false} RenderChars(s: string, context: seq<Field>, policy: Policy, eval: Evaluator)
    ensures RenderTokens(Chars(s), context, policy, eval) == Success(s)
    decreases |s|
  {
    if |s| > 0 {
      assert Chars(s)[1..] == Chars(s[1..]);
      RenderChars(s[1..], context, policy, eval);
      assert [s[0]] + s[1..] == s;
    }
  }

  /** The per-part reading of a template: literal runs stay, each placeholder is rendered on its own. */
  function Substitute(segs: seq<Segment>, context: seq<Field>, policy: Policy, eval: Evaluator): Result<string, RenderError>
    decreases |segs|
  {
    if |segs| == 0 then Success("")
    else
      var head :- if segs[0].Lit? then Success(segs[0].text) else RenderToken(segs[0].hole, context, policy, eval);
      var tail :- Substitute(segs[1..], context, policy, eval);
      Success(head + tail)
  }

  /**
   * Rendering a clean template equals rendering its parts one by one: the scan finds exactly the
   * placeholders the template was written with, and the text between them is copied.
   */
  lemma RenderAssembled(segs: seq<Segment>, d: Delim, context: seq<Field>, policy: Policy, eval: Evaluator)
    requires Clean(segs, d)
    ensures RenderText(Assemble(segs), context, policy, eval) == Substitute(segs, context, policy, eval)
  {
    TokenizeAssembled(segs, d);
    RenderSegmentTokens(segs, d, context, policy, eval);
  }

  lemma {:induction false} RenderSegmentTokens(segs: seq<Segment>, d: Delim, context: seq<Field>, policy: Policy, eval: Evaluator)
    ensures RenderTokens(SegmentTokens(segs), context, policy, eval) == Substitute(segs, context, policy, eval)
    decreases |segs|
  {
    if |segs| > 0 {
      var head := if segs[0].Lit? then Chars(segs[0].text) else [segs[0].hole];
      RenderTokensAppend(head, SegmentTokens(segs[1..]), context, policy, eval);
      RenderSegmentTokens(segs[1..], d, context, policy, eval);
      if segs[0].Lit? {
        RenderChars(segs[0].text, context, policy, eval);
      } else {
        assert [segs[0].hole][1..] == [];
      }
    }
  }

  /* ---------- Identity on placeholder-free input ---------- */

  /** Tokens without a placeholder render to the text they were read from. */
  lemma {:induction false} NoHolesRender(ts: seq<Token>, context: seq<Field>, policy: Policy, eval: Evaluator)
    requires NoHoles(ts)
    ensures RenderTokens(ts, context, policy, eval) == Success(Unscan(ts))
    decreases |ts|
  {
    if |ts| > 0 {
      NoHolesRender(ts[1..], context, policy, eval);
    }
  }

  /** A template in which the scan finds no placeholder renders to itself, under every policy. */
  lemma RenderTextIdentity(template: string, context: seq<Field>, policy: Policy, eval: Evaluator)
    requires NoHoles(Tokenize(template))
    ensures RenderText(template, context, policy, eval) == Success(template)
  {
    NoHolesRender(Tokenize(template), context, policy, eval);
  }

  /** In particular a template without `{` renders to itself. */
  lemma RenderTextBraceFree(template: string, context: seq<Field>, policy: Policy, eval: Evaluator)
    requires '{' !in template
    ensures RenderText(template, context, policy, eval) == Success(template)
  {
    var segs := [Lit(template)];
    assert Assemble(segs) == template;
    RenderAssembled(segs, Single, context, policy, eval);
    RenderChars(template, context, policy, eval);
  }

  /** A template without `{` is read as its characters alone. */
  lemma TokenizeBraceFree(s: string)
    requires '{' !in s
    ensures Tokenize(s) == Chars(s)
  {
    var segs := [Lit(s)];
    assert Assemble(segs) == s;
    TokenizeAssembled(segs, Single);
    assert SegmentTokens(segs) == Chars(s) + [];
  }

  /** Every string leaf of the tree is free of `{`. */
  ghost predicate PlainTree(v: Value)
    decreases v
  {
    match v
    case Str(s) => '{' !in s
    case List(items) => forall i :: 0 <= i < |items| ==> PlainTree(items[i])
    case Obj(fields) => forall i :: 0 <= i < |fields| ==> PlainTree(fields[i].val)
    case _ => true
  }

  /** A tree without placeholders comes back from `render_data` unchanged, under every policy. */
  lemma {:induction false} RenderDataIdentity(v: Value, context: seq<Field>, policy: Policy, eval: Evaluator)
    requires PlainTree(v)
    ensures RenderData(v, context, policy, eval) == Success(v)
    decreases v, 1
  {
    match v
    case Str(s) =>
      TokenizeBraceFree(s);
      RenderChars(s, context, policy, eval);
    case List(items) => RenderItemsIdentity(items, context, policy, eval);
    case Obj(fields) => RenderFieldsIdentity(fields, context, policy, eval);
    case _ =>
  }

  lemma {:induction false} RenderItemsIdentity(items: seq<Value>, context: seq<Field>, policy: Policy, eval: Evaluator)
    requires forall i :: 0 <= i < |items| ==> PlainTree(items[i])
    ensures RenderItems(items, context, policy, eval) == Success(items)
    decreases items
  {
    if |items| > 0 {
      RenderDataIdentity(items[0], context, policy, eval);
      RenderItemsIdentity(items[1..], context, policy, eval);
      assert [items[0]] + items[1..] == items;
    }
  }

  lemma {:induction false} RenderFieldsIdentity(fields: seq<Field>, context: seq<Field>, policy: Policy, eval: Evaluator)
    requires forall i :: 0 <= i < |fields| ==> PlainTree(fields[i].val)
    ensures RenderFields(fields, context, policy, eval) == Success(fields)
    decreases fields
  {
    if |fields| > 0 {
      RenderDataIdentity(fields[0].val, context, policy, eval);
      RenderFieldsIdentity(fields[1..], context, policy, eval);
      assert [Field(fields[0].key, fields[0].val)] + fields[1..] == fields;
    }
  }

  /* ---------- The missing-key policy ---------- */

  /** A literal character, or a placeholder that resolves to a value. */
  predicate Resolves(t: Token, context: seq<Field>, eval: Evaluator) {
    t.Chr? || (var r := Resolution(t, context, eval); r.Success? && r.value.Some?)
  }

  predicate AllResolve(ts: seq<Token>, context: seq<Field>, eval: Evaluator) {
    forall i :: 0 <= i < |ts| ==> Resolves(ts[i], context, eval)
  }

  /** Every placeholder is well formed and its path, or its query's data path, is missing. */
  predicate AllMissing(ts: seq<Token>, context: seq<Field>, eval: Evaluator) {
    forall i :: 0 <= i < |ts| ==> ts[i].Hole? ==> Resolution(ts[i], context, eval) == Success(None)
  }

  /** Every placeholder is a plain path: single-brace, or double-brace without a pipe. */
  predicate NoQueries(ts: seq<Token>) {
    forall i :: 0 <= i < |ts| ==> ts[i].Hole? ==> ts[i].delim == Single || '|' !in ts[i].body
  }

  /** How a placeholder renders, by what it resolves to. */
  lemma RenderTokenCases(t: Token, context: seq<Field>, policy: Policy, eval: Evaluator)
    requires t.Hole?
    ensures var res := Resolution(t, context, eval);
            && (res.Failure? ==> RenderToken(t, context, policy, eval) == Failure(res.error))
            && (res.Success? && res.value.Some? ==>
                  RenderToken(t, context, policy, eval) == Success(ToText(res.value.value)))
            && (res.Success? && res.value.None? ==>
                  ParseHole(t).Success?
                  && RenderToken(t, context, policy, eval) == OnMissing(t, ParseHole(t).value.path, policy))
  {
    var r := ParseHole(t);
    if r.Success? {
      var found := LookUp(r.value, context, eval);
      assert Resolution(t, context, eval) == found;
    }
  }

  /**
   * The policy matters only for a placeholder that is missing: two policies that render a token
   * differently meet a well-formed placeholder whose path does not resolve. `Raise` is the strictest
   * policy: what it renders every policy renders, and what another policy rejects `Raise` rejects
   * with the same error.
   */
  lemma PolicyOnlyForMissing(t: Token, context: seq<Field>, p: Policy, q: Policy, eval: Evaluator)
    ensures RenderToken(t, context, p, eval) != RenderToken(t, context, q, eval) ==>
              t.Hole? && Resolution(t, context, eval) == Success(None)
    ensures RenderToken(t, context, Raise, eval).Success? ==>
              RenderToken(t, context, p, eval) == RenderToken(t, context, Raise, eval)
    ensures RenderToken(t, context, p, eval).Failure? ==>
              RenderToken(t, context, Raise, eval) == RenderToken(t, context, p, eval)
  {
    if t.Hole? {
      RenderTokenCases(t, context, p, eval);
      RenderTokenCases(t, context, q, eval);
      RenderTokenCases(t, context, Raise, eval);
    }
  }

  /** Under `Raise` a render succeeds exactly when every placeholder resolves. */
  lemma {:induction false} RaiseIffResolved(ts: seq<Token>, context: seq<Field>, eval: Evaluator)
    ensures RenderTokens(ts, context, Raise, eval).Success? <==> AllResolve(ts, context, eval)
    decreases |ts|
  {
    if |ts| > 0 {
      RaiseIffResolved(ts[1..], context, eval);
      RenderTokensSucceeds(ts, context, Raise, eval);
      RaiseTokenSucceeds(ts[0], context, eval);
      AllResolveCons(ts, context, eval);
    }
  }

  /** A render succeeds when its first token and the rest both do. */
  lemma RenderTokensSucceeds(ts: seq<Token>, context: seq<Field>, policy: Policy, eval: Evaluator)
    requires |ts| > 0
    ensures RenderTokens(ts, context, policy, eval).Success? <==>
            RenderToken(ts[0], context, policy, eval).Success? && RenderTokens(ts[1..], context, policy, eval).Success?
  {
  }

  /** Under `Raise` one token renders exactly when it resolves. */
  lemma RaiseTokenSucceeds(t: Token, context: seq<Field>, eval: Evaluator)
    ensures RenderToken(t, context, Raise, eval).Success? <==> Resolves(t, context, eval)
  {
    if t.Hole? {
      RenderTokenCases(t, context, Raise, eval);
    }
  }

  lemma AllResolveCons(ts: seq<Token>, context: seq<Field>, eval: Evaluator)
    requires |ts| > 0
    ensures AllResolve(ts, context, eval) <==> Resolves(ts[0], context, eval) && AllResolve(ts[1..], context, eval)
  {
    assert forall i :: 1 <= i < |ts| ==> ts[i] == ts[1..][i - 1];
  }

  /** When every placeholder resolves, the policy makes no difference. */
  lemma {:induction false} PolicyIrrelevant(ts: seq<Token>, context: seq<Field>, p: Policy, q: Policy, eval: Evaluator)
    requires AllResolve(ts, context, eval)
    ensures RenderTokens(ts, context, p, eval) == RenderTokens(ts, context, q, eval)
    decreases |ts|
  {
    if |ts| > 0 {
      assert Resolves(ts[0], context, eval);
      assert AllResolve(ts[1..], context, eval) by {
        assert forall i :: 0 <= i < |ts| - 1 ==> ts[1..][i] == ts[i + 1];
      }
      PolicyIrrelevant(ts[1..], context, p, q, eval);
    }
  }

  /** Under `Keep` placeholders that are all missing come out verbatim, braces and spacing included. */
  lemma {:induction false} KeepAllMissing(ts: seq<Token>, context: seq<Field>, eval: Evaluator)
    requires AllMissing(ts, context, eval)
    ensures RenderTokens(ts, context, Keep, eval) == Success(Unscan(ts))
    decreases |ts|
  {
    if |ts| > 0 {
      assert AllMissing(ts[1..], context, eval) by {
        assert forall i :: 0 <= i < |ts| - 1 ==> ts[1..][i] == ts[i + 1];
      }
      KeepAllMissing(ts[1..], context, eval);
      KeepMissingToken(ts[0], context, eval);
      RenderTokensStep(ts, Raw(ts[0]), Unscan(ts[1..]), context, Keep, eval);
    }
  }

  /** Under `Keep` a literal, or a placeholder that is missing, renders as its own text. */
  lemma KeepMissingToken(t: Token, context: seq<Field>, eval: Evaluator)
    requires t.Hole? ==> Resolution(t, context, eval) == Success(None)
    ensures RenderToken(t, context, Keep, eval) == Success(Raw(t))
  {
    if t.Hole? {
      RenderTokenCases(t, context, Keep, eval);
    }
  }

  /** A render whose first token and rest both succeed is their concatenation. */
  lemma RenderTokensStep(ts: seq<Token>, head: string, tail: string, context: seq<Field>, policy: Policy, eval: Evaluator)
    requires |ts| > 0
    requires RenderToken(ts[0], context, policy, eval) == Success(head)
    requires RenderTokens(ts[1..], context, policy, eval) == Success(tail)
    ensures RenderTokens(ts, context, policy, eval) == Success(head + tail)
  {
  }

  /** So a template whose placeholders are all missing renders to itself under `Keep`. */
  lemma KeepTemplateVerbatim(template: string, context: seq<Field>, eval: Evaluator)
    requires AllMissing(Tokenize(template), context, eval)
    ensures RenderText(template, context, Keep, eval) == Success(template)
  {
    KeepAllMissing(Tokenize(template), context, eval);
  }

  /**
   * `Keep` and `Default` never report a missing variable, and on templates without queries they
   * never fail at all.
   */
  lemma {:induction false} LenientNeverMissing(ts: seq<Token>, context: seq<Field>, policy: Policy, eval: Evaluator)
    requires policy != Raise
    ensures var r := RenderTokens(ts, context, policy, eval);
            r.Failure? ==> !r.error.MissingVariable?
    ensures NoQueries(ts) ==> RenderTokens(ts, context, policy, eval).Success?
    decreases |ts|
  {
    if |ts| > 0 {
      assert NoQueries(ts) ==> NoQueries(ts[1..]) by {
        assert forall i :: 0 <= i < |ts| - 1 ==> ts[1..][i] == ts[i + 1];
      }
      LenientNeverMissing(ts[1..], context, policy, eval);
      LenientToken(ts[0], context, policy, eval);
    }
  }

  lemma LenientToken(t: Token, context: seq<Field>, policy: Policy, eval: Evaluator)
    requires policy != Raise
    ensures var r := RenderToken(t, context, policy, eval);
            r.Failure? ==> !r.error.MissingVariable?
    ensures t.Hole? && (t.delim == Single || '|' !in t.body) ==> RenderToken(t, context, policy, eval).Success?
  {
    if t.Hole? {
      RenderTokenCases(t, context, policy, eval);
      if t.delim == Single || '|' !in t.body {
        var p := Strip(t.body, Whitespace);
        assert ParseHole(t) == Success(PathRef(p));
        assert LookUp(PathRef(p), context, eval).Success?;
      }
    }
  }

  /** Under `Raise` a single placeholder whose path is missing fails the render with that path. */
  lemma RaiseReportsMissing(t: Token, context: seq<Field>, eval: Evaluator)
    requires t.Hole? && (t.delim == Single || '|' !in t.body)
    requires Resolve(context, Strip(t.body, Whitespace)).None?
    ensures RenderToken(t, context, Raise, eval) == Failure(MissingVariable(Strip(t.body, Whitespace)))
  {
    var p := Strip(t.body, Whitespace);
    assert ParseHole(t) == Success(PathRef(p));
    assert LookUp(PathRef(p), context, eval) == Success(None);
    assert Resolution(t, context, eval) == Success(None);
    RenderTokenCases(t, context, Raise, eval);
  }

  /* ---------- Whole-leaf placeholders ---------- */

  /** A well-formed placeholder on its own is read as that one token. */
  lemma TokenizeWholeHole(t: Token)
    requires t.Hole? && WellFormed(t)
    ensures Tokenize(Raw(t)) == [t]
  {
    var segs := [Slot(t)];
    assert Assemble(segs) == Raw(t) + "" == Raw(t);
    TokenizeAssembled(segs, t.delim);
    assert SegmentTokens(segs) == [t] + [];
  }

  /** A template that is one placeholder renders to what that placeholder renders to. */
  lemma RenderWholeHole(t: Token, context: seq<Field>, policy: Policy, eval: Evaluator)
    requires t.Hole? && WellFormed(t)
    ensures RenderText(Raw(t), context, policy, eval) == RenderToken(t, context, policy, eval)
  {
    TokenizeWholeHole(t);
    SingleTokenRender(t, context, policy, eval);
  }

  lemma SingleTokenRender(t: Token, context: seq<Field>, policy: Policy, eval: Evaluator)
    ensures RenderTokens([t], context, policy, eval) == RenderToken(t, context, policy, eval)
  {
    assert [t][1..] == [];
    var r := RenderToken(t, context, policy, eval);
    if r.Success? {
      assert r.value + "" == r.value;
    }
  }

  /**
   * A leaf that is exactly one placeholder resolving to a list or dict is replaced by that
   * structured value, not by its string form.
   */
  lemma SpliceWholeHole(t: Token, v: Value, context: seq<Field>, policy: Policy, eval: Evaluator)
    requires t.Hole? && WellFormed(t)
    requires Resolution(t, context, eval) == Success(Some(v)) && (v.List? || v.Obj?)
    ensures RenderData(Str(Raw(t)), context, policy, eval) == Success(v)
  {
    TokenizeWholeHole(t);
    assert RenderLeaf(Raw(t), context, policy, eval) == Success(v);
  }

  /** A leaf that is exactly one placeholder resolving to a scalar becomes that scalar's text. */
  lemma ScalarWholeHole(t: Token, v: Value, context: seq<Field>, policy: Policy, eval: Evaluator)
    requires t.Hole? && WellFormed(t)
    requires Resolution(t, context, eval) == Success(Some(v)) && !v.List? && !v.Obj?
    ensures RenderData(Str(Raw(t)), context, policy, eval) == Success(Str(ToText(v)))
  {
    TokenizeWholeHole(t);
    SingleTokenRender(t, context, policy, eval);
    RenderTokenCases(t, context, policy, eval);
  }

  /**
   * `{{ name }}` without a pipe means what `{name}` means: the same lookup, and the same text
   * except that `Keep` re-emits each with its own braces.
   */
  lemma DoubleLikeSingle(body: string, context: seq<Field>, policy: Policy, eval: Evaluator)
    requires '|' !in body
    ensures Resolution(Hole(Double, body), context, eval) == Resolution(Hole(Single, body), context, eval)
    ensures policy != Keep ==>
              RenderToken(Hole(Double, body), context, policy, eval)
              == RenderToken(Hole(Single, body), context, policy, eval)
  {
  }

  /* ---------- Reading placeholder bodies ---------- */

  predicate AllWhitespace(s: string) {
    forall i :: 0 <= i < |s| ==> s[i] in Whitespace
  }

  /** A path written without padding reads back as itself. */
  lemma ParseBareHole(d: Delim, path: string)
    requires IsStripped(path, Whitespace)
    requires d == Single || '|' !in path
    ensures ParseHole(Hole(d, path)) == Success(PathRef(path))
  {
    assert StrippedFrom(path, path, 0, Whitespace);
    StripUnique(path, path, 0, Whitespace);
  }

  /** A path written with optional surrounding whitespace reads back as that path. */
  lemma ParsePathHole(d: Delim, lpad: string, path: string, rpad: string)
    requires AllWhitespace(lpad) && AllWhitespace(rpad) && IsStripped(path, Whitespace)
    requires d == Single || '|' !in path
    ensures ParseHole(Hole(d, lpad + path + rpad)) == Success(PathRef(path))
  {
    var body := lpad + path + rpad;
    StripAround(lpad, path, rpad, Whitespace);
    if d == Double {
      assert forall i :: 0 <= i < |body| ==> body[i] != '|';
    }
  }

  /** The argument of a `jmespath(...)` call written with a quoted expression is that expression. */
  lemma QueryArgumentOf(q: char, expr: string)
    requires q == '"' || q == '\''
    ensures QueryArgument(QueryCall + [q] + expr + [q] + ")") == Some(expr)
  {
    QuotedLiteral(q, expr, [q] + expr + [q]);
    CallParts(QueryCall, [q], expr);
    QueryArgumentOfCall(QueryCall + [q] + expr + [q] + ")", [q] + expr + [q], expr);
  }

  /** A quoted expression is already stripped, and unquoting gives the expression back. */
  lemma QuotedLiteral(q: char, expr: string, lit: string)
    requires q == '"' || q == '\''
    requires lit == [q] + expr + [q]
    ensures |lit| >= 2 && lit[0] == q && lit[|lit| - 1] == q
    ensures Strip(lit, Whitespace) == lit && lit[1..|lit| - 1] == expr
  {
    assert StrippedFrom(lit, lit, 0, Whitespace);
    StripUnique(lit, lit, 0, Whitespace);
  }

  /** The pieces of `<prefix><quoted literal>)`. */
  lemma CallParts(pre: string, open: string, expr: string)
    ensures var call := pre + open + expr + open + ")";
            var lit := open + expr + open;
            && |call| == |pre| + |lit| + 1
            && call[..|pre|] == pre && call[|call| - 1] == ')' && call[|pre|..|call| - 1] == lit
  {
    var call := pre + open + expr + open + ")";
    var lit := open + expr + open;
    assert call == pre + lit + ")";
  }

  lemma QueryArgumentOfCall(call: string, lit: string, expr: string)
    requires |call| == |QueryCall| + |lit| + 1
    requires call[..|QueryCall|] == QueryCall && call[|call| - 1] == ')' && call[|QueryCall|..|call| - 1] == lit
    requires |lit| >= 2 && (lit[0] == '"' || lit[0] == '\'') && lit[|lit| - 1] == lit[0]
    requires Strip(lit, Whitespace) == lit && lit[1..|lit| - 1] == expr
    ensures QueryArgument(call) == Some(expr)
  {
  }

  lemma WhitespaceHasNoPipe(s: string)
    requires AllWhitespace(s)
    ensures '|' !in s
  {
    assert forall i :: 0 <= i < |s| ==> s[i] != '|';
  }

  /** A query body splits at its first pipe into a path part and a call part. */
  lemma ParseQueryParts(x: string, y: string, path: string, call: string, expr: string)
    requires '|' !in x
    requires Strip(x, Whitespace) == path && Strip(y, Whitespace) == call
    requires QueryArgument(call) == Some(expr)
    ensures ParseHole(Hole(Double, x + "|" + y)) == Success(QueryRef(path, expr))
  {
    var body := x + "|" + y;
    assert body[|x|] == '|';
    ParseQueryAt(x, y, path, call, expr);
  }

  lemma ParseQueryAt(x: string, y: string, path: string, call: string, expr: string)
    requires '|' !in x
    requires Strip(x, Whitespace) == path && Strip(y, Whitespace) == call
    requires QueryArgument(call) == Some(expr)
    ensures ParseQuery(x + "|" + y) == Success(QueryRef(path, expr))
  {
    var body := x + "|" + y;
    IndexOfFirst(x, '|', y);
    assert body[..|x|] == x && body[|x| + 1..] == y;
  }

  /**
   * A query placeholder written as `<path> | jmespath(<q><expr><q>)`, with optional whitespace
   * around both sides of the pipe and `q` a single or double quote, reads back as that path and
   * expression.
   */
  lemma ParseQueryHole(l1: string, path: string, r1: string, l2: string, q: char, expr: string, r2: string)
    requires AllWhitespace(l1) && AllWhitespace(r1) && AllWhitespace(l2) && AllWhitespace(r2)
    requires IsStripped(path, Whitespace) && '|' !in path
    requires q == '"' || q == '\''
    ensures ParseHole(Hole(Double, l1 + path + r1 + "|" + l2 + QueryCall + [q] + expr + [q] + ")" + r2))
         == Success(QueryRef(path, expr))
  {
    var call := QueryCall + [q] + expr + [q] + ")";
    var x := l1 + path + r1;
    var y := l2 + call + r2;
    assert l1 + path + r1 + "|" + l2 + QueryCall + [q] + expr + [q] + ")" + r2 == x + "|" + y;
    WhitespaceHasNoPipe(l1);
    WhitespaceHasNoPipe(r1);
    StripAround(l1, path, r1, Whitespace);
    assert call[0] == 'j' && call[|call| - 1] == ')';
    StripAround(l2, call, r2, Whitespace);
    QueryArgumentOf(q, expr);
    ParseQueryParts(x, y, path, call, expr);
  }

  /**
   * JMESPath's pipe and or operators inside the quoted expression do not end the path:
   * `{{ items | jmespath("[*].a | [0]") }}` and `{{ items | jmespath("a || b") }}` are queries.
   */
  lemma PipedExpression(path: string, expr: string)
    requires path == "items" && (expr == "[*].a | [0]" || expr == "a || b")
    ensures ParseHole(Hole(Double, " " + path + " " + "|" + " " + QueryCall + ['"'] + expr + ['"'] + ")" + " "))
         == Success(QueryRef(path, expr))
  {
    assert IsStripped(path, Whitespace) && '|' !in path;
    ParseQueryHole(" ", path, " ", " ", '"', expr, " ");
  }

  /* ---------- One placeholder ---------- */

  /** A path placeholder whose path resolves renders to the `str()` of the value found, under every policy. */
  lemma RenderFoundPath(d: Delim, lpad: string, path: string, rpad: string, v: Value,
                        context: seq<Field>, policy: Policy, eval: Evaluator)
    requires AllWhitespace(lpad) && AllWhitespace(rpad) && IsStripped(path, Whitespace) && '|' !in path
    requires Resolve(context, path) == Some(v)
    ensures RenderToken(Hole(d, lpad + path + rpad), context, policy, eval) == Success(ToText(v))
  {
    var t := Hole(d, lpad + path + rpad);
    ParsePathHole(d, lpad, path, rpad);
    assert LookUp(PathRef(path), context, eval) == Success(Some(v));
    assert Resolution(t, context, eval) == Success(Some(v));
    RenderTokenCases(t, context, policy, eval);
  }

  /**
   * A path placeholder whose path is missing renders by the policy: itself under `Keep`, the
   * typed default under `Default`, and a missing-variable error naming the path under `Raise`.
   */
  lemma RenderMissingPath(d: Delim, lpad: string, path: string, rpad: string,
                          context: seq<Field>, policy: Policy, eval: Evaluator)
    requires AllWhitespace(lpad) && AllWhitespace(rpad) && IsStripped(path, Whitespace) && '|' !in path
    requires Resolve(context, path).None?
    ensures var t := Hole(d, lpad + path + rpad);
            RenderToken(t, context, policy, eval)
            == match policy
               case Keep => Success(Raw(t))
               case Default => Success(DefaultText(path))
               case Raise => Failure(MissingVariable(path))
  {
    var t := Hole(d, lpad + path + rpad);
    ParsePathHole(d, lpad, path, rpad);
    assert LookUp(PathRef(path), context, eval) == Success(None);
    assert Resolution(t, context, eval) == Success(None);
    RenderTokenCases(t, context, policy, eval);
  }

  /**
   * A query placeholder runs the evaluator on the value at its data path: its result's `str()` is
   * substituted, and its failure fails the render whatever the policy.
   */
  lemma RenderQuery(l1: string, path: string, r1: string, l2: string, q: char, expr: string, r2: string,
                    data: Value, context: seq<Field>, policy: Policy, eval: Evaluator)
    requires AllWhitespace(l1) && AllWhitespace(r1) && AllWhitespace(l2) && AllWhitespace(r2)
    requires IsStripped(path, Whitespace) && '|' !in path
    requires q == '"' || q == '\''
    requires Resolve(context, path) == Some(data)
    ensures var t := Hole(Double, l1 + path + r1 + "|" + l2 + QueryCall + [q] + expr + [q] + ")" + r2);
            RenderToken(t, context, policy, eval)
            == match eval(expr, data)
               case Success(v) => Success(ToText(v))
               case Failure(f) => Failure(QueryFailed(expr, f))
  {
    var t := Hole(Double, l1 + path + r1 + "|" + l2 + QueryCall + [q] + expr + [q] + ")" + r2);
    ParseQueryHole(l1, path, r1, l2, q, expr, r2);
    assert Resolution(t, context, eval) == LookUp(QueryRef(path, expr), context, eval);
    RenderTokenCases(t, context, policy, eval);
  }
}
