/**
 * The placeholder-substitution engine: `render_text` for strings and `render_data` for trees
 * of dicts, lists and scalars, with the tri-state missing-key policy.
 */
module Render {
  import opened Wrappers
  import opened Text
  import opened Values
  import opened Paths
  import opened Grammar
  import opened Placeholders

  /** `MissingKeyHandling`: what an unresolved placeholder becomes. */
  datatype Policy = Keep | Default | Raise

  /** Why a query expression could not produce a value. */
  datatype QueryFailure = InvalidQuery | EmptyResult

  datatype RenderError =
    | MissingVariable(path: string)
    | InvalidExpression(body: string)
    | QueryFailed(expr: string, failure: QueryFailure)

  /**
   * The JMESPath evaluator, `jmespath.search(expr, data)`. It is not part of this model; the
   * engine takes it as a parameter, and it reports an absent result as `EmptyResult`.
   */
  type Evaluator = (string, Value) -> Result<Value, QueryFailure>

  /** What a placeholder refers to: a dotted path, or a query applied to the value at a path. */
  datatype Reference = PathRef(path: string) | QueryRef(path: string, expr: string)

  const QueryCall: string := "jmespath("

  /**
   * The body of a placeholder read as a reference. A single-brace body and a double-brace body
   * without `|` are paths. A double-brace body with `|` must be exactly
   * `<path> | jmespath("<expr>")` (either quote), and any other shape is an invalid expression.
   */
  function ParseHole(t: Token): (r: Result<Reference, RenderError>)
    requires t.Hole?
    ensures r.Failure? ==> t.delim == Double && '|' in t.body && r.error == InvalidExpression(t.body)
    ensures r.Success? ==> IsStripped(r.value.path, Whitespace)
    ensures r.Success? ==> (r.value.PathRef? <==> t.delim == Single || '|' !in t.body)
  {
    if t.delim == Single || '|' !in t.body then Success(PathRef(Strip(t.body, Whitespace)))
    else
      assert t.delim == Double && '|' in t.body;
      ParseQuery(t.body)
  }

  /**
   * A double-brace body with a pipe: `<path> | jmespath(<quoted expression>)`. The path ends at
   * the first pipe; the quoted expression may hold further pipes, as JMESPath's own pipe and or
   * operators do.
   */
  function ParseQuery(body: string): (r: Result<Reference, RenderError>)
    ensures r.Failure? ==> r.error == InvalidExpression(body)
    ensures r.Success? ==> r.value.QueryRef? && IsStripped(r.value.path, Whitespace)
    ensures r.Success? ==> '|' in body && '|' !in r.value.path
  {
    var i := IndexOf(body, '|');
    if i == |body| then Failure(InvalidExpression(body))
    else
      var expr := QueryArgument(Strip(body[i + 1..], Whitespace));
      if expr.None? then Failure(InvalidExpression(body))
      else
        var path := Strip(body[..i], Whitespace);
        StripPreservesAbsence(body[..i], Whitespace, '|');
        Success(QueryRef(path, expr.value))
  }

  /**
   * The expression inside `jmespath(...)`: the call's argument, stripped, must be a string
   * literal in single or double quotes.
   */
  function QueryArgument(call: string): (r: Option<string>)
    ensures r.Some? ==> |r.value| + |QueryCall| + 3 <= |call|
  {
    if |call| < |QueryCall| + 1 || call[..|QueryCall|] != QueryCall || call[|call| - 1] != ')' then None
    else
      var arg := call[|QueryCall|..|call| - 1];
      var lit := Strip(arg, Whitespace);
      if |lit| >= 2 && (lit[0] == '"' || lit[0] == '\'') && lit[|lit| - 1] == lit[0] then
        Some(lit[1..|lit| - 1])
      else None
  }

  /** Stripping removes characters; it never introduces one. */
  lemma StripPreservesAbsence(s: string, cs: set<char>, c: char)
    requires c !in s
    ensures c !in Strip(s, cs)
  {
    var r := Strip(s, cs);
    var a :| StrippedFrom(s, r, a, cs);
    assert forall i :: 0 <= i < |r| ==> r[i] == s[a + i];
  }

  /**
   * Looks a reference up: `None` when the path (or a query's data path) does not resolve; a
   * failing query is an error whatever the policy.
   */
  function LookUp(r: Reference, context: seq<Field>, eval: Evaluator): Result<Option<Value>, RenderError> {
    match Resolve(context, r.path)
    case None => Success(None)
    case Some(data) =>
      if r.PathRef? then Success(Some(data))
      else
        match eval(r.expr, data)
        case Success(v) => Success(Some(v))
        case Failure(f) => Failure(QueryFailed(r.expr, f))
  }

  /** A placeholder token resolved against the context: a value, `None` when missing, or an error. */
  function Resolution(t: Token, context: seq<Field>, eval: Evaluator): Result<Option<Value>, RenderError>
    requires t.Hole?
  {
    var r :- ParseHole(t);
    LookUp(r, context, eval)
  }

  /**
   * The typed default a missing name hints at: `_num` a number, `_list` a list, `_bool` a
   * boolean, anything else a string.
   */
  function DefaultValue(path: string): Value {
    if Contains(path, "_num") then Int(0)
    else if Contains(path, "_list") then List([])
    else if Contains(path, "_bool") then Bool(false)
    else Str("")
  }

  /** The text substituted for a missing name under `Default`. */
  function DefaultText(path: string): (r: string)
    ensures r == ToText(DefaultValue(path))
    ensures r in {"0", "[]", "False", ""}
  {
    if Contains(path, "_num") then "0"
    else if Contains(path, "_list") then "[]"
    else if Contains(path, "_bool") then "False"
    else ""
  }

  /** What an unresolved placeholder becomes under each policy. */
  function OnMissing(t: Token, path: string, policy: Policy): Result<string, RenderError> {
    match policy
    case Keep => Success(Raw(t))
    case Default => Success(DefaultText(path))
    case Raise => Failure(MissingVariable(path))
  }

  /** The text one token renders to. */
  function RenderToken(t: Token, context: seq<Field>, policy: Policy, eval: Evaluator): Result<string, RenderError> {
    if t.Chr? then Success([t.c])
    else
      var r :- ParseHole(t);
      var found :- LookUp(r, context, eval);
      if found.Some? then Success(ToText(found.value)) else OnMissing(t, r.path, policy)
  }

  /** The tokens rendered left to right; the first error aborts the whole render. */
  function RenderTokens(ts: seq<Token>, context: seq<Field>, policy: Policy, eval: Evaluator): Result<string, RenderError>
    decreases |ts|
  {
    if |ts| == 0 then Success("")
    else
      var head :- RenderToken(ts[0], context, policy, eval);
      var tail :- RenderTokens(ts[1..], context, policy, eval);
      Success(head + tail)
  }

  /** `render_text(template, context, handle_missing)`. */
  function RenderText(template: string, context: seq<Field>, policy: Policy, eval: Evaluator): Result<string, RenderError> {
    RenderTokens(Tokenize(template), context, policy, eval)
  }

  /**
   * A string leaf of a tree. When the whole leaf is one placeholder that resolves to a list or
   * a dict, that structured value replaces the leaf; otherwise the leaf is rendered as text.
   */
  function RenderLeaf(s: string, context: seq<Field>, policy: Policy, eval: Evaluator): (r: Result<Value, RenderError>)
    ensures r.Success? && !r.value.Str? ==> |Tokenize(s)| == 1 && Tokenize(s)[0].Hole?
  {
    var ts := Tokenize(s);
    if |ts| == 1 && ts[0].Hole? then
      var found :- Resolution(ts[0], context, eval);
      if found.Some? && (found.value.List? || found.value.Obj?) then Success(found.value)
      else
        var text :- RenderTokens(ts, context, policy, eval);
        Success(Str(text))
    else
      var text :- RenderTokens(ts, context, policy, eval);
      Success(Str(text))
  }

  /**
   * `r` has the shape of template `t`: dicts keep their keys in order, lists their length, other
   * scalars are unchanged, and a string leaf becomes a string or, only when it is a whole
   * placeholder, a list or a dict.
   */
  ghost predicate Conforms(t: Value, r: Value)
    decreases t
  {
    match t
    case Str(s) => r.Str? || (IsPlaceholder(s) && (r.List? || r.Obj?))
    case List(items) => r.List? && ItemsConform(items, r.items)
    case Obj(fields) => r.Obj? && FieldsConform(fields, r.fields)
    case _ => r == t
  }

  ghost predicate ItemsConform(ts: seq<Value>, rs: seq<Value>)
    decreases ts
  {
    |ts| == |rs| && forall i :: 0 <= i < |ts| ==> Conforms(ts[i], rs[i])
  }

  ghost predicate FieldsConform(ts: seq<Field>, rs: seq<Field>)
    decreases ts
  {
    && |ts| == |rs|
    && forall i :: 0 <= i < |ts| ==> rs[i].key == ts[i].key && Conforms(ts[i].val, rs[i].val)
  }

  /** `render_data(data, context, handle_missing)`: every string leaf rendered, the shape kept. */
  function RenderData(v: Value, context: seq<Field>, policy: Policy, eval: Evaluator): (r: Result<Value, RenderError>)
    ensures r.Success? ==> Conforms(v, r.value)
    decreases v, 1
  {
    match v
    case Str(s) =>
      var r := RenderLeaf(s, context, policy, eval);
      LeafConforms(s, context, policy, eval);
      r
    case List(items) =>
      var rs :- RenderItems(items, context, policy, eval);
      Success(List(rs))
    case Obj(fields) =>
      var rf :- RenderFields(fields, context, policy, eval);
      Success(Obj(rf))
    case _ => Success(v)
  }

  function RenderItems(items: seq<Value>, context: seq<Field>, policy: Policy, eval: Evaluator): (r: Result<seq<Value>, RenderError>)
    ensures r.Success? ==> ItemsConform(items, r.value)
    decreases items
  {
    if |items| == 0 then Success([])
    else
      var head :- RenderData(items[0], context, policy, eval);
      var tail :- RenderItems(items[1..], context, policy, eval);
      assert forall i :: 1 <= i < |items| ==> items[i] == items[1..][i - 1];
      Success([head] + tail)
  }

  function RenderFields(fields: seq<Field>, context: seq<Field>, policy: Policy, eval: Evaluator): (r: Result<seq<Field>, RenderError>)
    ensures r.Success? ==> FieldsConform(fields, r.value)
    decreases fields
  {
    if |fields| == 0 then Success([])
    else
      var head :- RenderData(fields[0].val, context, policy, eval);
      var tail :- RenderFields(fields[1..], context, policy, eval);
      assert forall i :: 1 <= i < |fields| ==> fields[i] == fields[1..][i - 1];
      Success([Field(fields[0].key, head)] + tail)
  }

  /** A leaf renders to a string, or to a structure only when it is a whole placeholder. */
  lemma LeafConforms(s: string, context: seq<Field>, policy: Policy, eval: Evaluator)
    ensures var r := RenderLeaf(s, context, policy, eval);
            r.Success? ==> r.value.Str? || (IsPlaceholder(s) && (r.value.List? || r.value.Obj?))
  {
    var r := RenderLeaf(s, context, policy, eval);
    if r.Success? && !r.value.Str? {
      OneHoleIsPlaceholder(s);
    }
  }

  lemma OneHoleIsPlaceholder(s: string)
    requires |Tokenize(s)| == 1 && Tokenize(s)[0].Hole?
    ensures IsPlaceholder(s)
  {
    var ts := Tokenize(s);
    assert ts == [ts[0]];
    WholeHoleIsPlaceholder(s, ts[0]);
  }

  /** A string read as exactly one placeholder token satisfies `is_placeholder`. */
  lemma WholeHoleIsPlaceholder(s: string, t: Token)
    requires Tokenize(s) == [t] && t.Hole?
    ensures IsPlaceholder(s)
  {
    assert Unscan([t]) == Raw(t) + Unscan([]);
    assert s == Raw(t);
    if t.delim == Single {
      assert s == "{" + t.body + "}";
    } else {
      assert s == "{{" + t.body + "}}";
    }
  }
}
