/**
 * The rendering cases the unit tests spell out, proved about the model. Each concrete case is
 * reduced to general lemmas about a template with one or two placeholders among literal text.
 */
module RenderExamples {
  import opened Wrappers
  import opened Text
  import opened Values
  import opened Paths
  import opened Grammar
  import opened Render
  import opened RenderFacts

  /** Text without an opening brace: both scans copy it character by character. */
  predicate PlainText(s: string) {
    '{' !in s
  }

  // Substitution over a list of segments, one segment at a time.

  lemma AssembleCons(g: Segment, rest: seq<Segment>)
    ensures Assemble([g] + rest) == SegmentText(g) + Assemble(rest)
  {
    assert ([g] + rest)[1..] == rest;
  }

  lemma SubstituteLit(a: string, rest: seq<Segment>, tail: string, context: seq<Field>, policy: Policy, eval: Evaluator)
    requires Substitute(rest, context, policy, eval) == Success(tail)
    ensures Substitute([Lit(a)] + rest, context, policy, eval) == Success(a + tail)
  {
    assert ([Lit(a)] + rest)[1..] == rest;
  }

  lemma SubstituteSlot(h: Token, rest: seq<Segment>, x: string, tail: string, context: seq<Field>, policy: Policy, eval: Evaluator)
    requires RenderToken(h, context, policy, eval) == Success(x)
    requires Substitute(rest, context, policy, eval) == Success(tail)
    ensures Substitute([Slot(h)] + rest, context, policy, eval) == Success(x + tail)
  {
    assert ([Slot(h)] + rest)[1..] == rest;
  }

  lemma SubstituteLast(c: string, context: seq<Field>, policy: Policy, eval: Evaluator)
    ensures Substitute([Lit(c)], context, policy, eval) == Success(c)
  {
    assert [Lit(c)][1..] == [];
    assert c + "" == c;
  }

  /** The parts of a template with one placeholder between two literal runs. */
  function Around(a: string, h: Token, c: string): seq<Segment> {
    [Lit(a)] + ([Slot(h)] + [Lit(c)])
  }

  lemma AroundAssemble(a: string, h: Token, c: string)
    ensures Assemble(Around(a, h, c)) == a + Raw(h) + c
  {
    AssembleCons(Lit(c), []);
    assert [Lit(c)] + [] == [Lit(c)];
    AssembleCons(Slot(h), [Lit(c)]);
    AssembleCons(Lit(a), [Slot(h)] + [Lit(c)]);
  }

  lemma AroundSubstitute(a: string, h: Token, c: string, x: string, context: seq<Field>, policy: Policy, eval: Evaluator)
    requires RenderToken(h, context, policy, eval) == Success(x)
    ensures Substitute(Around(a, h, c), context, policy, eval) == Success(a + x + c)
  {
    SubstituteLast(c, context, policy, eval);
    SubstituteSlot(h, [Lit(c)], x, c, context, policy, eval);
    var rest := [Slot(h)] + [Lit(c)];
    SubstituteLit(a, rest, x + c, context, policy, eval);
    StringAssoc(a, x, c);
  }

  lemma StringAssoc(a: string, b: string, c: string)
    ensures a + (b + c) == a + b + c
  {
  }

  lemma AroundFails(a: string, h: Token, c: string, e: RenderError, context: seq<Field>, policy: Policy, eval: Evaluator)
    requires RenderToken(h, context, policy, eval) == Failure(e)
    ensures Substitute(Around(a, h, c), context, policy, eval) == Failure(e)
  {
    assert ([Slot(h)] + [Lit(c)])[1..] == [Lit(c)];
    assert Around(a, h, c)[1..] == [Slot(h)] + [Lit(c)];
  }

  /** Text around one placeholder is copied; the placeholder is rendered. */
  lemma RenderOneHole(template: string, a: string, h: Token, c: string, x: string,
                      context: seq<Field>, policy: Policy, eval: Evaluator)
    requires template == a + Raw(h) + c
    requires PlainText(a) && PlainText(c) && h.Hole? && WellFormed(h)
    requires RenderToken(h, context, policy, eval) == Success(x)
    ensures RenderText(template, context, policy, eval) == Success(a + x + c)
  {
    var segs := Around(a, h, c);
    AroundAssemble(a, h, c);
    AroundSubstitute(a, h, c, x, context, policy, eval);
    assert Clean(segs, h.delim);
    RenderAssembled(segs, h.delim, context, policy, eval);
  }

  /** A template with one placeholder fails as that placeholder fails. */
  lemma RenderOneHoleFails(template: string, a: string, h: Token, c: string, e: RenderError,
                           context: seq<Field>, policy: Policy, eval: Evaluator)
    requires template == a + Raw(h) + c
    requires PlainText(a) && PlainText(c) && h.Hole? && WellFormed(h)
    requires RenderToken(h, context, policy, eval) == Failure(e)
    ensures RenderText(template, context, policy, eval) == Failure(e)
  {
    var segs := Around(a, h, c);
    AroundAssemble(a, h, c);
    AroundFails(a, h, c, e, context, policy, eval);
    assert Clean(segs, h.delim);
    RenderAssembled(segs, h.delim, context, policy, eval);
  }

  /** The parts of a template with two placeholders among three literal runs. */
  function Between(a: string, h1: Token, b: string, h2: Token, c: string): seq<Segment> {
    [Lit(a)] + ([Slot(h1)] + Around(b, h2, c))
  }

  lemma BetweenAssemble(a: string, h1: Token, b: string, h2: Token, c: string)
    ensures Assemble(Between(a, h1, b, h2, c)) == a + Raw(h1) + b + Raw(h2) + c
  {
    AroundAssemble(b, h2, c);
    AssembleCons(Slot(h1), Around(b, h2, c));
    AssembleCons(Lit(a), [Slot(h1)] + Around(b, h2, c));
  }

  lemma BetweenSubstitute(a: string, h1: Token, b: string, h2: Token, c: string, x1: string, x2: string,
                          context: seq<Field>, policy: Policy, eval: Evaluator)
    requires RenderToken(h1, context, policy, eval) == Success(x1)
    requires RenderToken(h2, context, policy, eval) == Success(x2)
    ensures Substitute(Between(a, h1, b, h2, c), context, policy, eval) == Success(a + x1 + b + x2 + c)
  {
    var t := Around(b, h2, c);
    AroundSubstitute(b, h2, c, x2, context, policy, eval);
    SubstituteSlot(h1, t, x1, b + x2 + c, context, policy, eval);
    SubstituteLit(a, [Slot(h1)] + t, x1 + (b + x2 + c), context, policy, eval);
    Concat5(a, x1, b, x2, c);
  }

  lemma BetweenSecondFails(a: string, h1: Token, b: string, h2: Token, c: string, x1: string, e: RenderError,
                           context: seq<Field>, policy: Policy, eval: Evaluator)
    requires RenderToken(h1, context, policy, eval) == Success(x1)
    requires RenderToken(h2, context, policy, eval) == Failure(e)
    ensures Substitute(Between(a, h1, b, h2, c), context, policy, eval) == Failure(e)
  {
    var t := Around(b, h2, c);
    AroundFails(b, h2, c, e, context, policy, eval);
    assert ([Slot(h1)] + t)[1..] == t;
    assert Between(a, h1, b, h2, c)[1..] == [Slot(h1)] + t;
  }

  lemma BetweenClean(a: string, h1: Token, b: string, h2: Token, c: string)
    requires PlainText(a) && PlainText(b) && PlainText(c)
    requires h1.Hole? && WellFormed(h1) && h2.Hole? && WellFormed(h2) && h1.delim == h2.delim
    ensures Clean(Between(a, h1, b, h2, c), h1.delim)
  {
    assert Between(a, h1, b, h2, c) == [Lit(a), Slot(h1), Lit(b), Slot(h2), Lit(c)];
  }

  lemma Concat5(a: string, x1: string, b: string, x2: string, c: string)
    ensures a + (x1 + (b + x2 + c)) == a + x1 + b + x2 + c
  {
  }

  /** Text around two placeholders of the same style is copied; the placeholders are rendered in order. */
  lemma RenderTwoHoles(template: string, a: string, h1: Token, b: string, h2: Token, c: string, x1: string, x2: string,
                       context: seq<Field>, policy: Policy, eval: Evaluator)
    requires template == a + Raw(h1) + b + Raw(h2) + c
    requires PlainText(a) && PlainText(b) && PlainText(c)
    requires h1.Hole? && WellFormed(h1) && h2.Hole? && WellFormed(h2) && h1.delim == h2.delim
    requires RenderToken(h1, context, policy, eval) == Success(x1)
    requires RenderToken(h2, context, policy, eval) == Success(x2)
    ensures RenderText(template, context, policy, eval) == Success(a + x1 + b + x2 + c)
  {
    var segs := Between(a, h1, b, h2, c);
    BetweenAssemble(a, h1, b, h2, c);
    BetweenSubstitute(a, h1, b, h2, c, x1, x2, context, policy, eval);
    BetweenClean(a, h1, b, h2, c);
    RenderAssembled(segs, h1.delim, context, policy, eval);
  }

  /** When the first of two placeholders renders and the second fails, the template fails with it. */
  lemma RenderSecondHoleFails(template: string, a: string, h1: Token, b: string, h2: Token, c: string, x1: string,
                              e: RenderError, context: seq<Field>, policy: Policy, eval: Evaluator)
    requires template == a + Raw(h1) + b + Raw(h2) + c
    requires PlainText(a) && PlainText(b) && PlainText(c)
    requires h1.Hole? && WellFormed(h1) && h2.Hole? && WellFormed(h2) && h1.delim == h2.delim
    requires RenderToken(h1, context, policy, eval) == Success(x1)
    requires RenderToken(h2, context, policy, eval) == Failure(e)
    ensures RenderText(template, context, policy, eval) == Failure(e)
  {
    var segs := Between(a, h1, b, h2, c);
    BetweenAssemble(a, h1, b, h2, c);
    BetweenSecondFails(a, h1, b, h2, c, x1, e, context, policy, eval);
    BetweenClean(a, h1, b, h2, c);
    RenderAssembled(segs, h1.delim, context, policy, eval);
  }

  // Placeholders holding plain paths.

  /** A body without `}` cannot contain the `}}` that would close a double-brace placeholder early. */
  lemma NoCloseDoubleBody(body: string)
    requires '}' !in body
    ensures DoubleBody(body)
  {
    forall k | 0 <= k < |body|
      ensures !ClosesAt(body + "}}", k)
    {
      assert (body + "}}")[k] == body[k];
    }
  }

  /** A plain path in single braces that resolves: its text is the value's `str()`. */
  lemma FoundSingle(path: string, v: Value, context: seq<Field>, policy: Policy, eval: Evaluator)
    requires SingleBody(path) && IsStripped(path, Whitespace) && '|' !in path
    requires Resolve(context, path) == Some(v)
    ensures WellFormed(Hole(Single, path)) && Raw(Hole(Single, path)) == "{" + path + "}"
    ensures RenderToken(Hole(Single, path), context, policy, eval) == Success(ToText(v))
  {
    ResolvedSingle(path, v, context, eval);
    RenderTokenCases(Hole(Single, path), context, policy, eval);
  }

  /** A plain path in single braces that does not resolve renders by the policy. */
  lemma MissingSingle(path: string, context: seq<Field>, policy: Policy, eval: Evaluator)
    requires SingleBody(path) && IsStripped(path, Whitespace) && '|' !in path
    requires Resolve(context, path).None?
    ensures WellFormed(Hole(Single, path)) && Raw(Hole(Single, path)) == "{" + path + "}"
    ensures RenderToken(Hole(Single, path), context, policy, eval) == OnMissing(Hole(Single, path), path, policy)
  {
    var t := Hole(Single, path);
    ParseBareHole(Single, path);
    assert LookUp(PathRef(path), context, eval) == Success(None);
    RenderTokenCases(t, context, policy, eval);
  }

  /** A plain path in double braces, one space inside each brace pair, that resolves. */
  lemma FoundDouble(path: string, v: Value, context: seq<Field>, policy: Policy, eval: Evaluator)
    requires SingleBody(path) && IsStripped(path, Whitespace) && '|' !in path
    requires Resolve(context, path) == Some(v)
    ensures WellFormed(Hole(Double, " " + path + " "))
    ensures RenderToken(Hole(Double, " " + path + " "), context, policy, eval) == Success(ToText(v))
  {
    NoCloseDoubleBody(" " + path + " ");
    RenderFoundPath(Double, " ", path, " ", v, context, policy, eval);
  }

  /** A plain path in double braces, one space inside each brace pair, that does not resolve. */
  lemma MissingDouble(path: string, context: seq<Field>, policy: Policy, eval: Evaluator)
    requires SingleBody(path) && IsStripped(path, Whitespace) && '|' !in path
    requires Resolve(context, path).None?
    ensures WellFormed(Hole(Double, " " + path + " "))
    ensures RenderToken(Hole(Double, " " + path + " "), context, policy, eval)
         == OnMissing(Hole(Double, " " + path + " "), path, policy)
  {
    NoCloseDoubleBody(" " + path + " ");
    RenderMissingPath(Double, " ", path, " ", context, policy, eval);
  }

  lemma ReassocSingle(a: string, p: string, c: string)
    ensures a + "{" + p + "}" + c == a + ("{" + p + "}") + c
  {
  }

  lemma ReassocDouble(a: string, p: string, c: string)
    ensures a + "{{" + " " + p + " " + "}}" + c == a + Raw(Hole(Double, " " + p + " ")) + c
  {
  }

  lemma ReassocTwo(a: string, p1: string, b: string, p2: string, c: string)
    ensures a + "{" + p1 + "}" + b + "{" + p2 + "}" + c == a + ("{" + p1 + "}") + b + ("{" + p2 + "}") + c
  {
  }

  lemma ReassocTwoDouble(a: string, p1: string, b: string, p2: string, c: string)
    ensures a + "{{" + " " + p1 + " " + "}}" + b + "{{" + " " + p2 + " " + "}}" + c
         == a + Raw(Hole(Double, " " + p1 + " ")) + b + Raw(Hole(Double, " " + p2 + " ")) + c
  {
    var r1, r2 := Raw(Hole(Double, " " + p1 + " ")), Raw(Hole(Double, " " + p2 + " "));
    AppendFive(a, "{{", " ", p1, " ", "}}");
    AppendFive(a + r1 + b, "{{", " ", p2, " ", "}}");
  }

  lemma AppendFive(a: string, x1: string, x2: string, x3: string, x4: string, x5: string)
    ensures a + x1 + x2 + x3 + x4 + x5 == a + (x1 + x2 + x3 + x4 + x5)
  {
  }

  /** `{path}` among literal text, with the path resolving. */
  lemma OneFoundPath(template: string, a: string, p: string, c: string, v: Value,
                     context: seq<Field>, policy: Policy, eval: Evaluator)
    requires template == a + "{" + p + "}" + c
    requires PlainText(a) && PlainText(c)
    requires SingleBody(p) && IsStripped(p, Whitespace) && '|' !in p
    requires Resolve(context, p) == Some(v)
    ensures RenderText(template, context, policy, eval) == Success(a + ToText(v) + c)
  {
    FoundSingle(p, v, context, policy, eval);
    ReassocSingle(a, p, c);
    RenderOneHole(template, a, Hole(Single, p), c, ToText(v), context, policy, eval);
  }

  /** `{{ path }}` among literal text, with the path resolving. */
  lemma OneFoundDouble(template: string, a: string, p: string, c: string, v: Value,
                       context: seq<Field>, policy: Policy, eval: Evaluator)
    requires template == a + "{{" + " " + p + " " + "}}" + c
    requires PlainText(a) && PlainText(c)
    requires SingleBody(p) && IsStripped(p, Whitespace) && '|' !in p
    requires Resolve(context, p) == Some(v)
    ensures RenderText(template, context, policy, eval) == Success(a + ToText(v) + c)
  {
    FoundDouble(p, v, context, policy, eval);
    ReassocDouble(a, p, c);
    RenderOneHole(template, a, Hole(Double, " " + p + " "), c, ToText(v), context, policy, eval);
  }

  /** A template with one placeholder whose path is missing, rendered under each policy. */
  lemma OneMissing(template: string, a: string, h: Token, c: string, p: string,
                   context: seq<Field>, policy: Policy, eval: Evaluator)
    requires template == a + Raw(h) + c
    requires PlainText(a) && PlainText(c) && h.Hole? && WellFormed(h)
    requires RenderToken(h, context, policy, eval) == OnMissing(h, p, policy)
    ensures RenderText(template, context, policy, eval)
         == match policy
            case Keep => Success(template)
            case Default => Success(a + DefaultText(p) + c)
            case Raise => Failure(MissingVariable(p))
  {
    match policy
    case Keep => RenderOneHole(template, a, h, c, Raw(h), context, policy, eval);
    case Default => RenderOneHole(template, a, h, c, DefaultText(p), context, policy, eval);
    case Raise => RenderOneHoleFails(template, a, h, c, MissingVariable(p), context, policy, eval);
  }

  /** `{path}` among literal text, with the path missing. */
  lemma OneMissingSingle(template: string, a: string, p: string, c: string,
                         context: seq<Field>, policy: Policy, eval: Evaluator)
    requires template == a + "{" + p + "}" + c
    requires PlainText(a) && PlainText(c)
    requires SingleBody(p) && IsStripped(p, Whitespace) && '|' !in p
    requires Resolve(context, p).None?
    ensures RenderText(template, context, policy, eval)
         == match policy
            case Keep => Success(template)
            case Default => Success(a + DefaultText(p) + c)
            case Raise => Failure(MissingVariable(p))
  {
    MissingSingle(p, context, policy, eval);
    ReassocSingle(a, p, c);
    OneMissing(template, a, Hole(Single, p), c, p, context, policy, eval);
  }

  /** `{{ path }}` among literal text, with the path missing. */
  lemma OneMissingDouble(template: string, a: string, p: string, c: string,
                         context: seq<Field>, policy: Policy, eval: Evaluator)
    requires template == a + "{{" + " " + p + " " + "}}" + c
    requires PlainText(a) && PlainText(c)
    requires SingleBody(p) && IsStripped(p, Whitespace) && '|' !in p
    requires Resolve(context, p).None?
    ensures RenderText(template, context, policy, eval)
         == match policy
            case Keep => Success(template)
            case Default => Success(a + DefaultText(p) + c)
            case Raise => Failure(MissingVariable(p))
  {
    MissingDouble(p, context, policy, eval);
    ReassocDouble(a, p, c);
    OneMissing(template, a, Hole(Double, " " + p + " "), c, p, context, policy, eval);
  }

  /** Two plain single-brace paths that resolve, among literal text. */
  lemma TwoFoundPaths(template: string, a: string, p1: string, b: string, p2: string, c: string, v1: Value, v2: Value,
                      context: seq<Field>, policy: Policy, eval: Evaluator)
    requires template == a + "{" + p1 + "}" + b + "{" + p2 + "}" + c
    requires PlainText(a) && PlainText(b) && PlainText(c)
    requires SingleBody(p1) && IsStripped(p1, Whitespace) && '|' !in p1
    requires SingleBody(p2) && IsStripped(p2, Whitespace) && '|' !in p2
    requires Resolve(context, p1) == Some(v1) && Resolve(context, p2) == Some(v2)
    ensures RenderText(template, context, policy, eval) == Success(a + ToText(v1) + b + ToText(v2) + c)
  {
    FoundSingle(p1, v1, context, policy, eval);
    FoundSingle(p2, v2, context, policy, eval);
    ReassocTwo(a, p1, b, p2, c);
    RenderTwoHoles(template, a, Hole(Single, p1), b, Hole(Single, p2), c, ToText(v1), ToText(v2), context, policy, eval);
  }

  /** Two placeholders, the first rendering and the second missing, under each policy. */
  lemma TwoHolesSecondMissing(template: string, a: string, h1: Token, b: string, h2: Token, c: string, x1: string,
                              p2: string, context: seq<Field>, policy: Policy, eval: Evaluator)
    requires template == a + Raw(h1) + b + Raw(h2) + c
    requires PlainText(a) && PlainText(b) && PlainText(c)
    requires h1.Hole? && WellFormed(h1) && h2.Hole? && WellFormed(h2) && h1.delim == h2.delim
    requires RenderToken(h1, context, policy, eval) == Success(x1)
    requires RenderToken(h2, context, policy, eval) == OnMissing(h2, p2, policy)
    ensures RenderText(template, context, policy, eval)
         == match policy
            case Keep => Success(a + x1 + b + Raw(h2) + c)
            case Default => Success(a + x1 + b + DefaultText(p2) + c)
            case Raise => Failure(MissingVariable(p2))
  {
    match policy
    case Keep =>
      RenderTwoHoles(template, a, h1, b, h2, c, x1, Raw(h2), context, policy, eval);
    case Default =>
      RenderTwoHoles(template, a, h1, b, h2, c, x1, DefaultText(p2), context, policy, eval);
    case Raise =>
      RenderSecondHoleFails(template, a, h1, b, h2, c, x1, MissingVariable(p2), context, policy, eval);
  }

  lemma ReassocTail(a: string, p: string, c: string)
    ensures a + ("{{" + " " + p + " " + "}}") + c == a + "{{" + " " + p + " " + "}}" + c
  {
  }

  lemma RawDouble(p: string)
    ensures Raw(Hole(Double, " " + p + " ")) == "{{" + " " + p + " " + "}}"
  {
  }

  /** `{{ p1 }}` resolving and `{{ p2 }}` missing, among literal text, under each policy. */
  lemma FoundThenMissing(template: string, a: string, p1: string, b: string, p2: string, c: string, v1: Value,
                         context: seq<Field>, policy: Policy, eval: Evaluator)
    requires template == a + "{{" + " " + p1 + " " + "}}" + b + "{{" + " " + p2 + " " + "}}" + c
    requires PlainText(a) && PlainText(b) && PlainText(c)
    requires SingleBody(p1) && IsStripped(p1, Whitespace) && '|' !in p1
    requires SingleBody(p2) && IsStripped(p2, Whitespace) && '|' !in p2
    requires Resolve(context, p1) == Some(v1) && Resolve(context, p2).None?
    ensures RenderText(template, context, policy, eval)
         == match policy
            case Keep => Success(a + ToText(v1) + b + "{{" + " " + p2 + " " + "}}" + c)
            case Default => Success(a + ToText(v1) + b + DefaultText(p2) + c)
            case Raise => Failure(MissingVariable(p2))
  {
    var h1, h2 := Hole(Double, " " + p1 + " "), Hole(Double, " " + p2 + " ");
    FoundDouble(p1, v1, context, policy, eval);
    MissingDouble(p2, context, policy, eval);
    ReassocTwoDouble(a, p1, b, p2, c);
    RawDouble(p2);
    TwoHolesSecondMissing(template, a, h1, b, h2, c, ToText(v1), p2, context, policy, eval);
    if policy == Keep {
      ReassocTail(a + ToText(v1) + b, p2, c);
    }
  }

  // The unit tests' templates and contexts.

  /** A string lacking one of `sub`'s characters does not contain `sub`. */
  lemma {:induction false} NotContains(s: string, sub: string, c: char)
    requires c in sub && c !in s
    ensures !Contains(s, sub)
    decreases |s|
  {
    if |s| > 0 {
      NotContains(s[1..], sub, c);
    }
  }

  /** A string contains its own suffix. */
  lemma {:induction false} ContainsSuffix(pre: string, sub: string)
    ensures Contains(pre + sub, sub)
    decreases |pre|
  {
    if |pre| > 0 {
      ContainsSuffix(pre[1..], sub);
      assert (pre + sub)[1..] == pre[1..] + sub;
    }
  }

  /** A name with none of the type suffixes defaults to the empty string. */
  lemma UntypedDefault(path: string)
    requires '_' !in path
    ensures DefaultText(path) == ""
  {
    NotContains(path, "_num", '_');
    NotContains(path, "_list", '_');
    NotContains(path, "_bool", '_');
  }

  /** `str(n)` for a one-digit number is that digit. */
  lemma OneDigit(n: nat)
    requires n < 10
    ensures ToText(Int(n)) == [DigitChar(n)]
  {
  }

  /** A two-segment path looks its second key up in the dict its first key names. */
  lemma ResolveTwo(context: seq<Field>, path: string, outer: string, inner: string, fields: seq<Field>, v: Value)
    requires path == outer + "." + inner && '.' !in outer && '.' !in inner
    requires Get(context, outer) == Some(Obj(fields)) && Get(fields, inner) == Some(v)
    ensures Resolve(context, path) == Some(v)
  {
    ResolveKey(context, outer);
    ResolveExtend(context, outer, inner);
  }

  lemma WelcomeName(context: seq<Field>, name: string)
    requires name == "user.name"
    requires context == [Field("user", Obj([Field("name", Str("Alice")), Field("notifications", Int(5))]))]
    ensures Resolve(context, name) == Some(Str("Alice"))
  {
    var user := [Field("name", Str("Alice")), Field("notifications", Int(5))];
    ResolveTwo(context, name, "user", "name", user, Str("Alice"));
  }

  lemma WelcomeCount(context: seq<Field>, count: string)
    requires count == "user.notifications"
    requires context == [Field("user", Obj([Field("name", Str("Alice")), Field("notifications", Int(5))]))]
    ensures Resolve(context, count) == Some(Int(5))
  {
    var user := [Field("name", Str("Alice")), Field("notifications", Int(5))];
    ResolveTwo(context, count, "user", "notifications", user, Int(5));
  }

  lemma WelcomeFacts(a: string, name: string, b: string, count: string, c: string)
    requires a == "Welcome, " && b == "! You have " && c == " new messages."
    requires name == "user.name" && count == "user.notifications"
    ensures PlainText(a) && PlainText(b) && PlainText(c)
    ensures SingleBody(name) && IsStripped(name, Whitespace) && '|' !in name
    ensures SingleBody(count) && IsStripped(count, Whitespace) && '|' !in count
    ensures ToText(Int(5)) == "5" && ToText(Str("Alice")) == "Alice"
  {
    OneDigit(5);
  }

  /**
   * `Welcome, {user.name}! You have {user.notifications} new messages.` with Alice and 5: a
   * string and an int substituted, under every policy.
   */
  lemma WelcomeExample(template: string, a: string, name: string, b: string, count: string, c: string,
                       context: seq<Field>, policy: Policy, eval: Evaluator)
    requires a == "Welcome, " && b == "! You have " && c == " new messages."
    requires name == "user.name" && count == "user.notifications"
    requires template == a + "{" + name + "}" + b + "{" + count + "}" + c
    requires context == [Field("user", Obj([Field("name", Str("Alice")), Field("notifications", Int(5))]))]
    ensures RenderText(template, context, policy, eval) == Success(a + "Alice" + b + "5" + c)
  {
    WelcomeName(context, name);
    WelcomeCount(context, count);
    WelcomeFacts(a, name, b, count, c);
    TwoFoundPaths(template, a, name, b, count, c, Str("Alice"), Int(5), context, policy, eval);
  }

  lemma HelloFacts(a: string, name: string, c: string)
    requires a == "Hello " && name == "name" && c == "!"
    ensures PlainText(a) && PlainText(c)
    ensures SingleBody(name) && IsStripped(name, Whitespace) && '|' !in name && '.' !in name
    ensures DefaultText(name) == ""
  {
    UntypedDefault(name);
  }

  lemma JohnName(context: seq<Field>, name: string)
    requires name == "name" && context == [Field("name", Str("John"))]
    ensures Resolve(context, name) == Some(Str("John"))
  {
    ResolveKey(context, name);
  }

  /** A dot-free name the one-entry context does not bind is missing. */
  lemma MissingName(context: seq<Field>, name: string, other: string, v: Value)
    requires '.' !in name && name != other && context == [Field(other, v)]
    ensures Resolve(context, name).None?
  {
    ResolveKey(context, name);
  }

  /** `Hello {name}!` and `Hello {{ name }}!` with John both give `Hello John!`. */
  lemma HelloExample(single: string, double: string, a: string, name: string, c: string,
                     context: seq<Field>, policy: Policy, eval: Evaluator)
    requires a == "Hello " && name == "name" && c == "!"
    requires single == a + "{" + name + "}" + c
    requires double == a + "{{" + " " + name + " " + "}}" + c
    requires context == [Field("name", Str("John"))]
    ensures RenderText(single, context, policy, eval) == Success(a + "John" + c)
    ensures RenderText(double, context, policy, eval) == Success(a + "John" + c)
  {
    HelloFacts(a, name, c);
    JohnName(context, name);
    OneFoundPath(single, a, name, c, Str("John"), context, policy, eval);
    OneFoundDouble(double, a, name, c, Str("John"), context, policy, eval);
  }

  /**
   * `render_data` on the bare string `Hello {{ name }}!` renders it as text, in any context
   * that binds `name` to John (among other keys).
   */
  lemma DataStringExample(double: string, a: string, name: string, c: string,
                          context: seq<Field>, policy: Policy, eval: Evaluator)
    requires a == "Hello " && name == "name" && c == "!"
    requires double == a + "{{" + " " + name + " " + "}}" + c
    requires Get(context, name) == Some(Str("John"))
    ensures RenderData(Str(double), context, policy, eval) == Success(Str(a + "John" + c))
  {
    HelloFacts(a, name, c);
    ResolveKey(context, name);
    FoundDouble(name, Str("John"), context, policy, eval);
    ReassocDouble(a, name, c);
    LeafOneHole(double, a, Hole(Double, " " + name + " "), c, "John", context, policy, eval);
  }

  /**
   * `Hello {name}!` and `Hello {{ name }}!` against a context without `name`: kept verbatim
   * under `Keep`, a missing-variable error under `Raise`, the empty default under `Default`.
   */
  lemma HelloMissingExample(single: string, double: string, a: string, name: string, c: string,
                            context: seq<Field>, policy: Policy, eval: Evaluator)
    requires a == "Hello " && name == "name" && c == "!"
    requires single == a + "{" + name + "}" + c
    requires double == a + "{{" + " " + name + " " + "}}" + c
    requires context == [Field("invalid", Str("context"))]
    ensures policy == Keep ==> RenderText(single, context, policy, eval) == Success(single)
    ensures policy == Keep ==> RenderText(double, context, policy, eval) == Success(double)
    ensures policy == Raise ==> RenderText(single, context, policy, eval) == Failure(MissingVariable(name))
    ensures policy == Raise ==> RenderText(double, context, policy, eval) == Failure(MissingVariable(name))
    ensures policy == Default ==> RenderText(single, context, policy, eval) == Success(a + c)
  {
    assert a + "" == a;
    HelloFacts(a, name, c);
    MissingName(context, name, "invalid", Str("context"));
    OneMissingSingle(single, a, name, c, context, policy, eval);
    OneMissingDouble(double, a, name, c, context, policy, eval);
  }

  lemma MixedFacts(a: string, name: string, b: string, age: string, c: string)
    requires a == "Hello " && name == "name" && b == ", Age: " && age == "age" && c == "!"
    ensures PlainText(a) && PlainText(b) && PlainText(c)
    ensures SingleBody(name) && IsStripped(name, Whitespace) && '|' !in name && '.' !in name
    ensures SingleBody(age) && IsStripped(age, Whitespace) && '|' !in age && '.' !in age
    ensures DefaultText(age) == ""
  {
    UntypedDefault(age);
  }

  /**
   * `Hello {{ name }}, Age: {{ age }}!` with only `name` known: `Hello John, Age: {{ age }}!`
   * under `Keep`, `Hello John, Age: !` under `Default`, an error naming `age` under `Raise`.
   */
  lemma MixedExample(template: string, a: string, name: string, b: string, age: string, c: string,
                     context: seq<Field>, policy: Policy, eval: Evaluator)
    requires a == "Hello " && name == "name" && b == ", Age: " && age == "age" && c == "!"
    requires template == a + "{{" + " " + name + " " + "}}" + b + "{{" + " " + age + " " + "}}" + c
    requires context == [Field("name", Str("John"))]
    ensures policy == Keep ==>
              RenderText(template, context, policy, eval) == Success(a + "John" + b + "{{" + " " + age + " " + "}}" + c)
    ensures policy == Default ==> RenderText(template, context, policy, eval) == Success(a + "John" + b + c)
    ensures policy == Raise ==> RenderText(template, context, policy, eval) == Failure(MissingVariable(age))
  {
    MixedFacts(a, name, b, age, c);
    JohnName(context, name);
    MissingName(context, age, "name", Str("John"));
    assert a + "John" + b + "" == a + "John" + b;
    FoundThenMissing(template, a, name, b, age, c, Str("John"), context, policy, eval);
  }

  /** A missing name's suffix picks the default's type: `missing_num`, `missing_list`, `missing_bool`, `missing_str`. */
  lemma DefaultsExample(num: string, list: string, flag: string, text: string)
    requires num == "missing" + "_num" && list == "missing" + "_list"
    requires flag == "missing" + "_bool" && text == "missing" + "_str"
    ensures DefaultText(num) == "0" && DefaultText(list) == "[]"
    ensures DefaultText(flag) == "False" && DefaultText(text) == ""
  {
    NumDefault(num);
    ListDefault(list);
    FlagDefault(flag);
    TextDefault(text);
  }

  lemma NumDefault(num: string)
    requires num == "missing" + "_num"
    ensures DefaultText(num) == "0"
  {
    ContainsSuffix("missing", "_num");
  }

  lemma ListDefault(list: string)
    requires list == "missing" + "_list"
    ensures DefaultText(list) == "[]"
  {
    ContainsSuffix("missing", "_list");
    NotContains(list, "_num", 'u');
  }

  lemma FlagDefault(flag: string)
    requires flag == "missing" + "_bool"
    ensures DefaultText(flag) == "False"
  {
    ContainsSuffix("missing", "_bool");
    NotContains(flag, "_num", 'u');
    NotContains(flag, "_list", 't');
  }

  lemma TextDefault(text: string)
    requires text == "missing" + "_str"
    ensures DefaultText(text) == ""
  {
    NotContains(text, "_num", 'u');
    NotContains(text, "_list", 'l');
    NotContains(text, "_bool", 'b');
  }

  // A placeholder holding a query.

  /** The body of `{{ path | jmespath("expr") }}`, with its single spaces. */
  function QueryBody(path: string, expr: string): string {
    " " + path + " " + "|" + " " + QueryCall + ['"'] + expr + ['"'] + ")" + " "
  }

  lemma WrapDouble(a: string, body: string)
    ensures a + "{{" + body + "}}" == a + Raw(Hole(Double, body)) + ""
  {
  }

  lemma QueryBodyNoClose(path: string, expr: string)
    requires '}' !in path && '}' !in expr
    ensures DoubleBody(QueryBody(path, expr))
  {
    assert '}' !in QueryCall;
    NoCloseDoubleBody(QueryBody(path, expr));
  }

  /**
   * `{{ path | jmespath("expr") }}` after literal text: the evaluator's result on the value at
   * `path` is substituted, and its failure is the render's failure.
   */
  lemma OneQuery(template: string, a: string, path: string, expr: string, data: Value,
                 context: seq<Field>, policy: Policy, eval: Evaluator)
    requires template == a + "{{" + QueryBody(path, expr) + "}}"
    requires PlainText(a)
    requires IsStripped(path, Whitespace) && '|' !in path && '}' !in path && '}' !in expr
    requires Resolve(context, path) == Some(data)
    ensures RenderText(template, context, policy, eval)
         == match eval(expr, data)
            case Success(v) => Success(a + ToText(v))
            case Failure(f) => Failure(QueryFailed(expr, f))
  {
    var h := Hole(Double, QueryBody(path, expr));
    RenderQuery(" ", path, " ", " ", '"', expr, " ", data, context, policy, eval);
    QueryBodyNoClose(path, expr);
    WrapDouble(a, QueryBody(path, expr));
    match eval(expr, data)
    case Success(v) =>
      RenderOneHole(template, a, h, "", ToText(v), context, policy, eval);
      assert a + ToText(v) + "" == a + ToText(v);
    case Failure(f) =>
      RenderOneHoleFails(template, a, h, "", QueryFailed(expr, f), context, policy, eval);
  }

  lemma TopSellerFacts(a: string, path: string, expr: string)
    requires path == "products" && a == "Top-selling product: " && expr == "max_by(@, &sales).name"
    ensures PlainText(a) && IsStripped(path, Whitespace) && '|' !in path && '}' !in path
    ensures '}' !in expr
  {
  }

  lemma RevenueFacts(a: string, path: string, expr: string)
    requires path == "products" && a == "Total revenue: " && expr == "sum(@[].revenue)"
    ensures PlainText(a) && IsStripped(path, Whitespace) && '|' !in path && '}' !in path
    ensures '}' !in expr
  {
  }

  /**
   * The two query placeholders of the products report,
   * `Top-selling product: {{ products | jmespath("max_by(@, &sales).name") }}` and
   * `Total revenue: {{ products | jmespath("sum(@[].revenue)") }}`. The evaluator is a
   * parameter, so the text substituted is whatever it returns for the `products` list.
   */
  lemma ProductsExample(template: string, a: string, path: string, expr: string, products: Value,
                        context: seq<Field>, policy: Policy, eval: Evaluator)
    requires path == "products"
    requires || (a == "Top-selling product: " && expr == "max_by(@, &sales).name")
             || (a == "Total revenue: " && expr == "sum(@[].revenue)")
    requires template == a + "{{" + QueryBody(path, expr) + "}}"
    requires context == [Field("products", products)]
    ensures RenderText(template, context, policy, eval)
         == match eval(expr, products)
            case Success(v) => Success(a + ToText(v))
            case Failure(f) => Failure(QueryFailed(expr, f))
  {
    if expr == "max_by(@, &sales).name" {
      TopSellerFacts(a, path, expr);
    } else {
      RevenueFacts(a, path, expr);
    }
    ResolveKey(context, path);
    OneQuery(template, a, path, expr, products, context, policy, eval);
  }

  // Trees.

  /**
   * A string leaf that starts with literal text and holds one placeholder is rendered as text,
   * never spliced.
   */
  lemma LeafOneHole(s: string, a: string, h: Token, c: string, x: string,
                    context: seq<Field>, policy: Policy, eval: Evaluator)
    requires s == a + Raw(h) + c && |a| > 0
    requires PlainText(a) && PlainText(c) && h.Hole? && WellFormed(h)
    requires RenderToken(h, context, policy, eval) == Success(x)
    ensures RenderData(Str(s), context, policy, eval) == Success(Str(a + x + c))
  {
    LeadingLiteral(s, a, h, c);
    RenderOneHole(s, a, h, c, x, context, policy, eval);
    TextLeaf(s, context, policy, eval);
  }

  /** A template that opens with literal text reads as a literal token first. */
  lemma LeadingLiteral(s: string, a: string, h: Token, c: string)
    requires s == a + Raw(h) + c && |a| > 0
    requires PlainText(a) && PlainText(c) && h.Hole? && WellFormed(h)
    ensures |Tokenize(s)| > 0 && Tokenize(s)[0].Chr?
  {
    var segs := Around(a, h, c);
    AroundAssemble(a, h, c);
    assert Clean(segs, h.delim);
    TokenizeAssembled(segs, h.delim);
    assert segs[1..] == [Slot(h)] + [Lit(c)];
    assert Tokenize(s) == Chars(a) + SegmentTokens(segs[1..]);
    assert Tokenize(s)[0] == Chr(a[0]);
  }

  /** A leaf whose first token is literal is never spliced: it renders as its text does. */
  lemma TextLeaf(s: string, context: seq<Field>, policy: Policy, eval: Evaluator)
    requires |Tokenize(s)| > 0 && Tokenize(s)[0].Chr?
    requires RenderText(s, context, policy, eval).Success?
    ensures RenderData(Str(s), context, policy, eval) == Success(Str(RenderText(s, context, policy, eval).value))
  {
  }

  /** `text{path}` as a leaf, with the path resolving. */
  lemma LeafFoundSingle(s: string, a: string, p: string, v: Value, context: seq<Field>, policy: Policy, eval: Evaluator)
    requires s == a + "{" + p + "}" && |a| > 0 && PlainText(a)
    requires SingleBody(p) && IsStripped(p, Whitespace) && '|' !in p
    requires Resolve(context, p) == Some(v)
    ensures RenderData(Str(s), context, policy, eval) == Success(Str(a + ToText(v)))
  {
    FoundSingle(p, v, context, policy, eval);
    WrapSingle(a, p);
    LeafOneHole(s, a, Hole(Single, p), "", ToText(v), context, policy, eval);
    assert a + ToText(v) + "" == a + ToText(v);
  }

  lemma WrapSingle(a: string, p: string)
    ensures a + "{" + p + "}" == a + Raw(Hole(Single, p)) + ""
  {
  }

  /** A plain path in single braces resolves to the value at that path. */
  lemma ResolvedSingle(p: string, v: Value, context: seq<Field>, eval: Evaluator)
    requires SingleBody(p) && IsStripped(p, Whitespace) && '|' !in p
    requires Resolve(context, p) == Some(v)
    ensures WellFormed(Hole(Single, p)) && Raw(Hole(Single, p)) == "{" + p + "}"
    ensures Resolution(Hole(Single, p), context, eval) == Success(Some(v))
  {
    ParseBareHole(Single, p);
    assert LookUp(PathRef(p), context, eval) == Success(Some(v));
  }

  /** A leaf that is exactly `{path}`, with the path resolving to a scalar: the scalar's text. */
  lemma WholeFoundSingle(s: string, p: string, v: Value, context: seq<Field>, policy: Policy, eval: Evaluator)
    requires s == "{" + p + "}"
    requires SingleBody(p) && IsStripped(p, Whitespace) && '|' !in p
    requires Resolve(context, p) == Some(v) && !v.List? && !v.Obj?
    ensures RenderData(Str(s), context, policy, eval) == Success(Str(ToText(v)))
  {
    ResolvedSingle(p, v, context, eval);
    ScalarWholeHole(Hole(Single, p), v, context, policy, eval);
  }

  /** A dict is rendered entry by entry. */
  lemma ObjFields(fields: seq<Field>, rs: seq<Field>, context: seq<Field>, policy: Policy, eval: Evaluator)
    requires RenderFields(fields, context, policy, eval) == Success(rs)
    ensures RenderData(Obj(fields), context, policy, eval) == Success(Obj(rs))
  {
  }

  lemma FieldsOne(k: string, v: Value, r: Value, context: seq<Field>, policy: Policy, eval: Evaluator)
    requires RenderData(v, context, policy, eval) == Success(r)
    ensures RenderFields([Field(k, v)], context, policy, eval) == Success([Field(k, r)])
  {
    assert [Field(k, v)][1..] == [];
    assert [Field(k, r)] + [] == [Field(k, r)];
  }

  /** Dict entries are rendered one after another, keys kept. */
  lemma FieldsTwo(k1: string, v1: Value, k2: string, v2: Value, r1: Value, r2: Value,
                  context: seq<Field>, policy: Policy, eval: Evaluator)
    requires RenderData(v1, context, policy, eval) == Success(r1)
    requires RenderData(v2, context, policy, eval) == Success(r2)
    ensures RenderFields([Field(k1, v1), Field(k2, v2)], context, policy, eval)
         == Success([Field(k1, r1), Field(k2, r2)])
  {
    FieldsOne(k2, v2, r2, context, policy, eval);
    assert [Field(k1, v1), Field(k2, v2)][1..] == [Field(k2, v2)];
    assert [Field(k1, r1)] + [Field(k2, r2)] == [Field(k1, r1), Field(k2, r2)];
  }

  lemma FieldsPair(k1: string, v1: Value, k2: string, v2: Value, r1: Value, r2: Value,
                   context: seq<Field>, policy: Policy, eval: Evaluator)
    requires RenderData(v1, context, policy, eval) == Success(r1)
    requires RenderData(v2, context, policy, eval) == Success(r2)
    ensures RenderData(Obj([Field(k1, v1), Field(k2, v2)]), context, policy, eval)
         == Success(Obj([Field(k1, r1), Field(k2, r2)]))
  {
    FieldsTwo(k1, v1, k2, v2, r1, r2, context, policy, eval);
    ObjFields([Field(k1, v1), Field(k2, v2)], [Field(k1, r1), Field(k2, r2)], context, policy, eval);
  }

  lemma ReportFacts(t1: string, month: string, s1: string, total: string, date: string)
    requires t1 == "Sales for " && month == "month" && s1 == "Total units sold: "
    requires total == "sales.total" && date == "date"
    ensures PlainText(t1) && PlainText(s1) && |t1| > 0 && |s1| > 0
    ensures SingleBody(month) && IsStripped(month, Whitespace) && '|' !in month && '.' !in month
    ensures SingleBody(total) && IsStripped(total, Whitespace) && '|' !in total
    ensures SingleBody(date) && IsStripped(date, Whitespace) && '|' !in date && '.' !in date
    ensures total == "sales" + "." + "total"
  {
  }

  /** The sales report's context: a month name, a nested sales total and a date. */
  function ReportContext(): seq<Field> {
    [Field("month", Str("March")), Field("sales", Obj([Field("total", Int(1500))])), Field("date", Str("2025-04-01"))]
  }

  lemma ReportMonth(month: string)
    requires month == "month"
    ensures Resolve(ReportContext(), month) == Some(Str("March"))
  {
    var rest := [Field("sales", Obj([Field("total", Int(1500))])), Field("date", Str("2025-04-01"))];
    assert ReportContext() == [Field("month", Str("March"))] + rest;
    assert Get(rest, month).None? by {
      assert rest[0].key != month && rest[1].key != month;
    }
    GetAppend([Field("month", Str("March"))], rest, month);
    ResolveKey(ReportContext(), month);
  }

  lemma ReportTotal(total: string)
    requires total == "sales" + "." + "total"
    ensures Resolve(ReportContext(), total) == Some(Int(1500))
  {
    var first := [Field("month", Str("March")), Field("sales", Obj([Field("total", Int(1500))]))];
    assert ReportContext() == first + [Field("date", Str("2025-04-01"))];
    GetAppend(first, [Field("date", Str("2025-04-01"))], "sales");
    ResolveTwo(ReportContext(), total, "sales", "total", [Field("total", Int(1500))], Int(1500));
  }

  lemma ReportDate(date: string)
    requires date == "date"
    ensures Resolve(ReportContext(), date) == Some(Str("2025-04-01"))
  {
    ResolveKey(ReportContext(), date);
  }

  lemma FifteenHundred()
    ensures ToText(Int(1500)) == "1500"
  {
    assert NatToString(1) == "1";
    assert NatToString(15) == "1" + "5";
    assert NatToString(150) == "15" + "0";
  }

  /**
   * The sales report: `{"report": {"title": "Sales for {month}", "summary": "Total units sold:
   * {sales.total}"}, "generated_on": "{date}"}` rendered against March, 1500 and 2025-04-01 keeps
   * its shape and fills every leaf.
   */
  lemma SalesReportExample(data: Value, t1: string, month: string, s1: string, total: string, date: string,
                           context: seq<Field>, policy: Policy, eval: Evaluator)
    requires t1 == "Sales for " && month == "month" && s1 == "Total units sold: "
    requires total == "sales.total" && date == "date"
    requires context == ReportContext()
    requires data == Obj([Field("report", Obj([Field("title", Str(t1 + "{" + month + "}")),
                                               Field("summary", Str(s1 + "{" + total + "}"))])),
                          Field("generated_on", Str("{" + date + "}"))])
    ensures RenderData(data, context, policy, eval)
         == Success(Obj([Field("report", Obj([Field("title", Str(t1 + "March")),
                                              Field("summary", Str(s1 + "1500"))])),
                         Field("generated_on", Str("2025-04-01"))]))
  {
    ReportFacts(t1, month, s1, total, date);
    ReportMonth(month);
    ReportTotal(total);
    ReportDate(date);
    FifteenHundred();
    var title, summary, stamp := t1 + "{" + month + "}", s1 + "{" + total + "}", "{" + date + "}";
    LeafFoundSingle(title, t1, month, Str("March"), context, policy, eval);
    LeafFoundSingle(summary, s1, total, Int(1500), context, policy, eval);
    WholeFoundSingle(stamp, date, Str("2025-04-01"), context, policy, eval);
    FieldsPair("title", Str(title), "summary", Str(summary), Str(t1 + "March"), Str(s1 + "1500"), context, policy, eval);
    FieldsPair("report", Obj([Field("title", Str(title)), Field("summary", Str(summary))]),
               "generated_on", Str(stamp),
               Obj([Field("title", Str(t1 + "March")), Field("summary", Str(s1 + "1500"))]), Str("2025-04-01"),
               context, policy, eval);
  }
}
