/**
 * How `render_data` acts on a whole tree: value by value, so that looking something up in the
 * rendered tree is rendering what the template holds there; and, without a `Raise` policy and
 * without queries, it always succeeds.
 */
module RenderTree {
  import opened Wrappers
  import opened Text
  import opened Values
  import opened Paths
  import opened Grammar
  import opened Render
  import opened RenderFacts

  /** `out` is `fields` with every value rendered in place. */
  predicate FieldsRenderTo(fields: seq<Field>, out: seq<Field>, context: seq<Field>, policy: Policy, eval: Evaluator) {
    && |out| == |fields|
    && forall i :: 0 <= i < |fields| ==>
         out[i].key == fields[i].key && RenderData(fields[i].val, context, policy, eval) == Success(out[i].val)
  }

  /** `out` is `items` with every element rendered in place. */
  predicate ItemsRenderTo(items: seq<Value>, out: seq<Value>, context: seq<Field>, policy: Policy, eval: Evaluator) {
    && |out| == |items|
    && forall i :: 0 <= i < |items| ==> RenderData(items[i], context, policy, eval) == Success(out[i])
  }

  /** A dict renders to `out` exactly when each of its values renders to the value `out` holds under the same key. */
  lemma {:induction false} RenderFieldsPointwise(fields: seq<Field>, out: seq<Field>, context: seq<Field>, policy: Policy, eval: Evaluator)
    ensures RenderFields(fields, context, policy, eval) == Success(out) <==> FieldsRenderTo(fields, out, context, policy, eval)
    decreases |fields|
  {
    if |fields| > 0 && |out| == |fields| {
      var rest, tail := fields[1..], out[1..];
      RenderFieldsPointwise(rest, tail, context, policy, eval);
      FieldsRenderToCons(fields, out, context, policy, eval);
      assert out == [Field(out[0].key, out[0].val)] + tail;
    }
  }

  lemma FieldsRenderToCons(fields: seq<Field>, out: seq<Field>, context: seq<Field>, policy: Policy, eval: Evaluator)
    requires |fields| > 0 && |out| == |fields|
    ensures FieldsRenderTo(fields, out, context, policy, eval) <==>
            && out[0].key == fields[0].key
            && RenderData(fields[0].val, context, policy, eval) == Success(out[0].val)
            && FieldsRenderTo(fields[1..], out[1..], context, policy, eval)
  {
    assert forall i :: 1 <= i < |fields| ==> fields[1..][i - 1] == fields[i] && out[1..][i - 1] == out[i];
  }

  /** A list renders to `out` exactly when each element renders to the element of `out` at its index. */
  lemma {:induction false} RenderItemsPointwise(items: seq<Value>, out: seq<Value>, context: seq<Field>, policy: Policy, eval: Evaluator)
    ensures RenderItems(items, context, policy, eval) == Success(out) <==> ItemsRenderTo(items, out, context, policy, eval)
    decreases |items|
  {
    if |items| > 0 && |out| == |items| {
      var rest, tail := items[1..], out[1..];
      RenderItemsPointwise(rest, tail, context, policy, eval);
      ItemsRenderToCons(items, out, context, policy, eval);
      assert out == [out[0]] + tail;
    }
  }

  lemma ItemsRenderToCons(items: seq<Value>, out: seq<Value>, context: seq<Field>, policy: Policy, eval: Evaluator)
    requires |items| > 0 && |out| == |items|
    ensures ItemsRenderTo(items, out, context, policy, eval) <==>
            && RenderData(items[0], context, policy, eval) == Success(out[0])
            && ItemsRenderTo(items[1..], out[1..], context, policy, eval)
  {
    assert forall i :: 1 <= i < |items| ==> items[1..][i - 1] == items[i] && out[1..][i - 1] == out[i];
  }

  /**
   * Looking a key up in a rendered dict finds it exactly when the template binds it, and finds
   * the rendering of the template's value.
   */
  lemma {:induction false} RenderedGet(fields: seq<Field>, out: seq<Field>, k: string, context: seq<Field>, policy: Policy, eval: Evaluator)
    requires FieldsRenderTo(fields, out, context, policy, eval)
    ensures Get(out, k).Some? <==> Get(fields, k).Some?
    ensures Get(fields, k).Some? ==> RenderData(Get(fields, k).value, context, policy, eval) == Success(Get(out, k).value)
    decreases |fields|
  {
    var n := |fields|;
    if n > 0 && fields[n - 1].key != k {
      assert FieldsRenderTo(fields[..n - 1], out[..n - 1], context, policy, eval);
      RenderedGet(fields[..n - 1], out[..n - 1], k, context, policy, eval);
    }
  }

  /**
   * Walking a path through the rendered tree ends where walking it through the template ends,
   * rendered. (The converse fails: a whole-leaf placeholder may render to a dict the template
   * cannot walk into.)
   */
  lemma {:induction false} RenderedWalk(t: Value, r: Value, path: seq<string>, context: seq<Field>, policy: Policy, eval: Evaluator)
    requires RenderData(t, context, policy, eval) == Success(r)
    requires Walk(t, path).Some?
    ensures Walk(r, path).Some?
    ensures RenderData(Walk(t, path).value, context, policy, eval) == Success(Walk(r, path).value)
    decreases |path|
  {
    if |path| > 0 {
      var out := RenderFields(t.fields, context, policy, eval).value;
      assert r == Obj(out);
      RenderFieldsPointwise(t.fields, out, context, policy, eval);
      RenderedGet(t.fields, out, path[0], context, policy, eval);
      RenderedWalk(Get(t.fields, path[0]).value, Get(out, path[0]).value, path[1..], context, policy, eval);
    }
  }

  /**
   * No string leaf of the tree can hold a query placeholder: each is free of `|` or free of
   * `{`.
   */
  ghost predicate QueryFree(v: Value)
    decreases v
  {
    match v
    case Str(s) => '|' !in s || '{' !in s
    case List(items) => forall i :: 0 <= i < |items| ==> QueryFree(items[i])
    case Obj(fields) => forall i :: 0 <= i < |fields| ==> QueryFree(fields[i].val)
    case _ => true
  }

  /** A tree without placeholders holds no query either. */
  lemma {:induction false} PlainIsQueryFree(v: Value)
    requires PlainTree(v)
    ensures QueryFree(v)
    decreases v
  {
    match v
    case List(items) =>
      forall i | 0 <= i < |items|
        ensures QueryFree(items[i])
      {
        PlainIsQueryFree(items[i]);
      }
    case Obj(fields) =>
      forall i | 0 <= i < |fields|
        ensures QueryFree(fields[i].val)
      {
        PlainIsQueryFree(fields[i].val);
      }
    case _ =>
  }

  /** A text without `|` holds no query placeholder. */
  lemma {:induction false} NoQueriesOfText(ts: seq<Token>)
    requires '|' !in Unscan(ts)
    ensures NoQueries(ts)
    decreases |ts|
  {
    if |ts| > 0 {
      assert Unscan(ts) == Raw(ts[0]) + Unscan(ts[1..]);
      NoQueriesOfText(ts[1..]);
      if ts[0].Hole? {
        assert forall c :: c in ts[0].body ==> c in Raw(ts[0]);
      }
      assert forall i :: 1 <= i < |ts| ==> ts[i] == ts[1..][i - 1];
    }
  }

  /** Under `Keep` or `Default` a leaf without `|`, or without `{`, always renders. */
  lemma LenientLeaf(s: string, context: seq<Field>, policy: Policy, eval: Evaluator)
    requires policy != Raise && ('|' !in s || '{' !in s)
    ensures RenderLeaf(s, context, policy, eval).Success?
  {
    var ts := Tokenize(s);
    if '|' !in s {
      NoQueriesOfText(ts);
    } else {
      TokenizeBraceFree(s);
    }
    LenientNeverMissing(ts, context, policy, eval);
    if |ts| == 1 && ts[0].Hole? {
      PathHoleResolves(ts[0], context, eval);
    }
    LeafSucceeds(s, context, policy, eval);
  }

  /** A placeholder that is not a query always resolves, to a value or to `None`. */
  lemma PathHoleResolves(t: Token, context: seq<Field>, eval: Evaluator)
    requires t.Hole? && (t.delim == Single || '|' !in t.body)
    ensures Resolution(t, context, eval).Success?
  {
    assert ParseHole(t) == Success(PathRef(Strip(t.body, Whitespace)));
  }

  /** A leaf renders when its tokens render and, if it is one placeholder, that placeholder resolves. */
  lemma LeafSucceeds(s: string, context: seq<Field>, policy: Policy, eval: Evaluator)
    requires RenderTokens(Tokenize(s), context, policy, eval).Success?
    requires |Tokenize(s)| == 1 && Tokenize(s)[0].Hole? ==> Resolution(Tokenize(s)[0], context, eval).Success?
    ensures RenderLeaf(s, context, policy, eval).Success?
  {
  }

  /** Under `Keep` or `Default` a tree without queries always renders. */
  lemma {:induction false} LenientTreeSucceeds(v: Value, context: seq<Field>, policy: Policy, eval: Evaluator)
    requires policy != Raise && QueryFree(v)
    ensures RenderData(v, context, policy, eval).Success?
    decreases v, 1
  {
    match v
    case Str(s) => LenientLeaf(s, context, policy, eval);
    case List(items) => LenientItemsSucceed(items, context, policy, eval);
    case Obj(fields) => LenientFieldsSucceed(fields, context, policy, eval);
    case _ =>
  }

  lemma {:induction false} LenientItemsSucceed(items: seq<Value>, context: seq<Field>, policy: Policy, eval: Evaluator)
    requires policy != Raise && forall i :: 0 <= i < |items| ==> QueryFree(items[i])
    ensures RenderItems(items, context, policy, eval).Success?
    decreases items
  {
    if |items| > 0 {
      LenientTreeSucceeds(items[0], context, policy, eval);
      assert forall i :: 0 <= i < |items| - 1 ==> items[1..][i] == items[i + 1];
      LenientItemsSucceed(items[1..], context, policy, eval);
    }
  }

  lemma {:induction false} LenientFieldsSucceed(fields: seq<Field>, context: seq<Field>, policy: Policy, eval: Evaluator)
    requires policy != Raise && forall i :: 0 <= i < |fields| ==> QueryFree(fields[i].val)
    ensures RenderFields(fields, context, policy, eval).Success?
    decreases fields
  {
    if |fields| > 0 {
      LenientTreeSucceeds(fields[0].val, context, policy, eval);
      assert forall i :: 0 <= i < |fields| - 1 ==> fields[1..][i] == fields[i + 1];
      LenientFieldsSucceed(fields[1..], context, policy, eval);
    }
  }

  /** A context key that can stand in a `{key}` placeholder as written and be looked up as one key. */
  predicate KeyName(key: string) {
    SingleBody(key) && IsStripped(key, Whitespace) && '.' !in key
  }

  /** A Python-identifier-like key: lower-case letters, digits and underscores, at least one. */
  predicate Identifier(s: string) {
    |s| >= 1 && forall i :: 0 <= i < |s| ==> 'a' <= s[i] <= 'z' || '0' <= s[i] <= '9' || s[i] == '_'
  }

  /** What a whole-leaf placeholder becomes when its key is bound to `v`: `v` itself if it is a list or a dict, its text otherwise. */
  function Spliced(v: Value): Value {
    if v.List? || v.Obj? then v else Str(ToText(v))
  }

  /** The leaf `{key}`: a placeholder holding nothing but the key. */
  function Braced(key: string): string {
    "{" + key + "}"
  }

  /** Such a key can stand in a placeholder, and `{key}` holds no query. */
  lemma IdentifierIsKeyName(s: string)
    requires Identifier(s)
    ensures KeyName(s) && '|' !in s
    ensures '|' !in Braced(s)
  {
    assert forall c :: c in Braced(s) ==> c == '{' || c == '}' || c in s;
  }

  /**
   * A leaf `{key}` whose key the context binds renders to the bound value itself when that is a
   * list or a dict, and to its text otherwise.
   */
  lemma KeyLeaf(key: string, v: Value, context: seq<Field>, policy: Policy, eval: Evaluator)
    requires Identifier(key) && Get(context, key) == Some(v)
    ensures RenderData(Str(Braced(key)), context, policy, eval) == Success(Spliced(v))
  {
    IdentifierIsKeyName(key);
    var t := Hole(Single, key);
    ParseBareHole(Single, key);
    ResolveKey(context, key);
    assert Resolution(t, context, eval) == Success(Some(v));
    if v.List? || v.Obj? {
      SpliceWholeHole(t, v, context, policy, eval);
    } else {
      ScalarWholeHole(t, v, context, policy, eval);
    }
  }

  /**
   * Wherever a rendered tree holds what the template holds as a leaf `{key}`, it holds what the
   * context binds `key` to, spliced.
   */
  lemma RenderedHole(t: Value, r: Value, path: seq<string>, key: string, v: Value, context: seq<Field>, policy: Policy, eval: Evaluator)
    requires RenderData(t, context, policy, eval) == Success(r)
    requires Walk(t, path) == Some(Str(Braced(key))) && Identifier(key) && Get(context, key) == Some(v)
    ensures Walk(r, path) == Some(Spliced(v))
  {
    RenderedWalk(t, r, path, context, policy, eval);
    KeyLeaf(key, v, context, policy, eval);
  }

  /** A `{key}` leaf whose key has no `|` holds no query. */
  lemma HoleQueryFree(key: string)
    requires '|' !in key
    ensures QueryFree(Str(Braced(key)))
  {
    assert forall c :: c in Braced(key) ==> c == '{' || c == '}' || c in key;
  }

  /** Rendering the entries of a dict split in two is rendering each part and joining the results. */
  lemma RenderFieldsAppend(a: seq<Field>, b: seq<Field>, ra: seq<Field>, rb: seq<Field>, context: seq<Field>, policy: Policy, eval: Evaluator)
    requires RenderFields(a, context, policy, eval) == Success(ra)
    requires RenderFields(b, context, policy, eval) == Success(rb)
    ensures RenderFields(a + b, context, policy, eval) == Success(ra + rb)
  {
    RenderFieldsPointwise(a, ra, context, policy, eval);
    RenderFieldsPointwise(b, rb, context, policy, eval);
    var fs, out := a + b, ra + rb;
    forall i | 0 <= i < |fs|
      ensures out[i].key == fs[i].key && RenderData(fs[i].val, context, policy, eval) == Success(out[i].val)
    {
      if i < |a| {
        assert fs[i] == a[i] && out[i] == ra[i];
      } else {
        assert fs[i] == b[i - |a|] && out[i] == rb[i - |a|];
      }
    }
    assert FieldsRenderTo(fs, out, context, policy, eval);
    RenderFieldsPointwise(fs, out, context, policy, eval);
  }

  /** A dict whose entries split in two renders to the dict of the two rendered parts. */
  lemma RenderObjAppend(a: seq<Field>, b: seq<Field>, ra: seq<Field>, rb: seq<Field>, context: seq<Field>, policy: Policy, eval: Evaluator)
    requires RenderFields(a, context, policy, eval) == Success(ra)
    requires RenderFields(b, context, policy, eval) == Success(rb)
    ensures RenderData(Obj(a + b), context, policy, eval) == Success(Obj(ra + rb))
  {
    RenderFieldsAppend(a, b, ra, rb, context, policy, eval);
  }

  /** A one-entry dict renders its value, key kept. */
  lemma ValueField(name: string, t: Value, r: Value, context: seq<Field>, policy: Policy, eval: Evaluator)
    requires RenderData(t, context, policy, eval) == Success(r)
    ensures RenderFields([Field(name, t)], context, policy, eval) == Success([Field(name, r)])
  {
    RenderFieldsPointwise([Field(name, t)], [Field(name, r)], context, policy, eval);
  }

  /** A one-entry dict holding a `{key}` placeholder renders to what the key is bound to, spliced. */
  lemma HoleField(name: string, key: string, v: Value, context: seq<Field>, policy: Policy, eval: Evaluator)
    requires Identifier(key) && Get(context, key) == Some(v)
    ensures RenderFields([Field(name, Str(Braced(key)))], context, policy, eval) == Success([Field(name, Spliced(v))])
  {
    KeyLeaf(key, v, context, policy, eval);
    ValueField(name, Str(Braced(key)), Spliced(v), context, policy, eval);
  }

  /** A one-entry dict holding a placeholder-free tree renders to itself. */
  lemma PlainField(name: string, t: Value, context: seq<Field>, policy: Policy, eval: Evaluator)
    requires PlainTree(t)
    ensures RenderFields([Field(name, t)], context, policy, eval) == Success([Field(name, t)])
  {
    RenderDataIdentity(t, context, policy, eval);
    ValueField(name, t, t, context, policy, eval);
  }
}
