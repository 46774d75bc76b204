/**
 * The placeholder grammar: a template string read as a sequence of tokens, each either a
 * literal character or a placeholder. Two scans exist: single-brace `{path}` and
 * double-brace `{{ expr }}`. A string is read with the double-brace scan when that scan finds
 * at least one placeholder, and with the single-brace scan otherwise.
 */
module Grammar {
  import opened Wrappers
  import opened Text

  datatype Delim = Single | Double

  /** A literal character, or a placeholder with its delimiters and the text between them. */
  datatype Token = Chr(c: char) | Hole(delim: Delim, body: string)

  /** The text a token was read from. */
  function Raw(t: Token): string {
    match t
    case Chr(c) => [c]
    case Hole(Single, body) => "{" + body + "}"
    case Hole(Double, body) => "{{" + body + "}}"
  }

  /** The text a token sequence was read from. */
  function Unscan(ts: seq<Token>): string
    decreases |ts|
  {
    if |ts| == 0 then "" else Raw(ts[0]) + Unscan(ts[1..])
  }

  /** Every character as a literal token. */
  function Chars(s: string): (ts: seq<Token>)
    ensures |ts| == |s|
    ensures forall i :: 0 <= i < |s| ==> ts[i] == Chr(s[i])
  {
    seq(|s|, i requires 0 <= i < |s| => Chr(s[i]))
  }

  predicate NoHoles(ts: seq<Token>) {
    forall i :: 0 <= i < |ts| ==> ts[i].Chr?
  }

  /** A single-brace body: one or more characters, none of them a brace. */
  predicate SingleBody(body: string) {
    |body| >= 1 && forall k :: 0 <= k < |body| ==> body[k] !in Braces
  }

  /** `}}` starts at index `j` of `s`. */
  predicate ClosesAt(s: string, j: int) {
    0 <= j && j + 1 < |s| && s[j] == '}' && s[j + 1] == '}'
  }

  /** A double-brace body: the shortest text before a `}}`, so no `}}` ends inside it. */
  predicate DoubleBody(body: string) {
    forall k :: 0 <= k < |body| ==> !ClosesAt(body + "}}", k)
  }

  predicate WellFormed(t: Token) {
    t.Hole? ==> (if t.delim == Single then SingleBody(t.body) else DoubleBody(t.body))
  }

  /** Every token is well formed and every placeholder uses delimiter `d`. */
  predicate ScannedBy(ts: seq<Token>, d: Delim) {
    forall i :: 0 <= i < |ts| ==> WellFormed(ts[i]) && (ts[i].Hole? ==> ts[i].delim == d)
  }

  lemma ScannedByCons(t: Token, rest: seq<Token>, d: Delim)
    requires WellFormed(t) && (t.Hole? ==> t.delim == d) && ScannedBy(rest, d)
    ensures ScannedBy([t] + rest, d)
  {
  }

  /** The first index at or after `i` that holds a brace, or `|s|`. */
  function BraceFreeRun(s: string, i: nat): (j: nat)
    requires i <= |s|
    ensures i <= j <= |s|
    ensures forall k :: i <= k < j ==> s[k] !in Braces
    ensures j < |s| ==> s[j] in Braces
    decreases |s| - i
  {
    if i == |s| || s[i] in Braces then i else BraceFreeRun(s, i + 1)
  }

  /** The first index at or after `i` where `}}` starts, if any. */
  function FindClose(s: string, i: nat): (r: Option<nat>)
    ensures r.Some? ==> i <= r.value && ClosesAt(s, r.value)
    ensures forall k :: i <= k && (r.None? || k < r.value) ==> !ClosesAt(s, k)
    decreases |s| - i
  {
    if i + 1 >= |s| then None
    else if ClosesAt(s, i) then Some(i)
    else FindClose(s, i + 1)
  }

  /**
   * The single-brace scan, leftmost first: a `{` followed by a nonempty brace-free run and a
   * `}` is a placeholder; any other character is literal.
   */
  function ScanSingle(s: string): (ts: seq<Token>)
    ensures Unscan(ts) == s
    ensures ScannedBy(ts, Single)
    decreases |s|
  {
    if |s| == 0 then []
    else
      var j := if s[0] == '{' then BraceFreeRun(s, 1) else 0;
      if s[0] == '{' && 1 < j < |s| && s[j] == '}' then
        var rest := ScanSingle(s[j + 1..]);
        var t := Hole(Single, s[1..j]);
        SingleHoleAt(s, j);
        UnscanCons(t, rest);
        ScannedByCons(t, rest, Single);
        [t] + rest
      else
        var rest := ScanSingle(s[1..]);
        LiteralAt(s);
        UnscanCons(Chr(s[0]), rest);
        ScannedByCons(Chr(s[0]), rest, Single);
        [Chr(s[0])] + rest
  }

  /** A `{`, a brace-free run and a `}` at the front of `s` spell a single-brace placeholder. */
  lemma SingleHoleAt(s: string, j: nat)
    requires 1 < j < |s| && s[0] == '{' && s[j] == '}'
    requires forall k :: 1 <= k < j ==> s[k] !in Braces
    ensures SingleBody(s[1..j])
    ensures Raw(Hole(Single, s[1..j])) + s[j + 1..] == s
  {
    var body, rest := s[1..j], s[j + 1..];
    assert s[..1] == "{" && s[j..j + 1] == "}";
    assert s == s[..1] + body + s[j..j + 1] + rest;
  }

  /** `{{`, a body and the first `}}` after it, at the front of `s`, spell a double-brace placeholder. */
  lemma DoubleHoleAt(s: string, j: nat)
    requires 2 <= j && j + 1 < |s| && s[0] == '{' && s[1] == '{' && s[j] == '}' && s[j + 1] == '}'
    ensures Raw(Hole(Double, s[2..j])) + s[j + 2..] == s
  {
    var body, rest := s[2..j], s[j + 2..];
    assert s[..2] == "{{" && s[j..j + 2] == "}}";
    assert s == s[..2] + body + s[j..j + 2] + rest;
  }

  /** The first character of a nonempty string, then the rest. */
  lemma LiteralAt(s: string)
    requires |s| > 0
    ensures Raw(Chr(s[0])) + s[1..] == s
  {
  }

  /**
   * The double-brace scan, leftmost first: a `{{` followed somewhere by `}}` is a placeholder
   * whose body runs up to the first `}}`; any other character is literal.
   */
  function ScanDouble(s: string): (ts: seq<Token>)
    ensures Unscan(ts) == s
    ensures ScannedBy(ts, Double)
    decreases |s|
  {
    if |s| == 0 then []
    else
      var close := if |s| >= 2 && s[0] == '{' && s[1] == '{' then FindClose(s, 2) else None;
      if close.Some? then
        var j := close.value;
        var rest := ScanDouble(s[j + 2..]);
        var t := Hole(Double, s[2..j]);
        DoubleHoleAt(s, j);
        FirstCloseBody(s, j);
        UnscanCons(t, rest);
        ScannedByCons(t, rest, Double);
        [t] + rest
      else
        var rest := ScanDouble(s[1..]);
        LiteralAt(s);
        UnscanCons(Chr(s[0]), rest);
        ScannedByCons(Chr(s[0]), rest, Double);
        [Chr(s[0])] + rest
  }

  lemma UnscanCons(t: Token, rest: seq<Token>)
    ensures Unscan([t] + rest) == Raw(t) + Unscan(rest)
  {
    assert ([t] + rest)[1..] == rest;
  }

  /** The text between `{{` and the first `}}` after it is a double-brace body. */
  lemma FirstCloseBody(s: string, j: nat)
    requires 2 <= j && ClosesAt(s, j)
    requires forall k :: 2 <= k < j ==> !ClosesAt(s, k)
    ensures DoubleBody(s[2..j])
  {
    var b := s[2..j] + "}}";
    forall k | 0 <= k < j - 2 ensures !ClosesAt(b, k) {
      assert b[k] == s[k + 2] && b[k + 1] == s[k + 3];
      assert !ClosesAt(s, k + 2);
    }
  }

  /** The tokens of a template string, by the dispatch rule of the text renderer. */
  function Tokenize(s: string): (ts: seq<Token>)
    ensures Unscan(ts) == s
    ensures ScannedBy(ts, Single) || ScannedBy(ts, Double)
    ensures ts == ScanSingle(s) || !NoHoles(ts)
  {
    var d := ScanDouble(s);
    if NoHoles(d) then ScanSingle(s) else d
  }

  /** Every character as a literal token, one character at a time. */
  lemma CharsCons(c: char, s: string)
    ensures Chars([c] + s) == [Chr(c)] + Chars(s)
  {
  }

  lemma CharsAppend(a: string, b: string)
    ensures Chars(a + b) == Chars(a) + Chars(b)
  {
  }

  /** A literal run without `{` is read as literal characters by the single-brace scan. */
  lemma {:induction false} ScanSingleLiteral(c: string, s: string)
    requires '{' !in c
    ensures ScanSingle(c + s) == Chars(c) + ScanSingle(s)
    decreases |c|
  {
    if |c| > 0 {
      var cs := c + s;
      assert cs[0] == c[0] && cs[1..] == c[1..] + s;
      ScanSingleLiteral(c[1..], s);
      CharsCons(c[0], c[1..]);
      assert [c[0]] + c[1..] == c;
    } else {
      assert c + s == s;
    }
  }

  /** A well-formed single-brace placeholder is read as one token, whatever follows it. */
  lemma ScanSingleHole(body: string, s: string)
    requires SingleBody(body)
    ensures ScanSingle("{" + body + "}" + s) == [Hole(Single, body)] + ScanSingle(s)
  {
    var x := "{" + body + "}" + s;
    var j := |body| + 1;
    assert x[j] == '}';
    assert forall k :: 1 <= k < j ==> x[k] == body[k - 1];
    assert BraceFreeRun(x, 1) == j;
    assert x[1..j] == body;
    assert x[j + 1..] == s;
  }

  /** A literal run without `{` is read as literal characters by the double-brace scan. */
  lemma {:induction false} ScanDoubleLiteral(c: string, s: string)
    requires '{' !in c
    ensures ScanDouble(c + s) == Chars(c) + ScanDouble(s)
    decreases |c|
  {
    if |c| > 0 {
      var cs := c + s;
      assert cs[0] == c[0] && cs[1..] == c[1..] + s;
      ScanDoubleLiteral(c[1..], s);
      CharsCons(c[0], c[1..]);
      assert [c[0]] + c[1..] == c;
    } else {
      assert c + s == s;
    }
  }

  /** A string that does not open with `{{` loses its first character to a literal token. */
  lemma ScanDoubleChar(s: string)
    requires |s| > 0 && !(|s| >= 2 && s[0] == '{' && s[1] == '{')
    ensures ScanDouble(s) == [Chr(s[0])] + ScanDouble(s[1..])
  {
  }

  /** A character that does not open `{{` is read as a literal token. */
  lemma ScanDoubleCons(c: char, t: string)
    requires c != '{' || |t| == 0 || t[0] != '{'
    ensures ScanDouble([c] + t) == [Chr(c)] + ScanDouble(t)
  {
    var x := [c] + t;
    assert x[1..] == t;
    ScanDoubleChar(x);
  }

  /** A lone `{` followed by brace-free text is literal text to the double-brace scan. */
  lemma ScanDoubleLoneOpen(p: string, s: string)
    requires |p| >= 2 && p[0] == '{' && '{' !in p[1..]
    ensures ScanDouble(p + s) == Chars(p) + ScanDouble(s)
  {
    var t := p[1..] + s;
    assert p + s == ['{'] + t;
    assert t[0] == p[1];
    ScanDoubleCons('{', t);
    ScanDoubleLiteral(p[1..], s);
    CharsCons('{', p[1..]);
    assert p == ['{'] + p[1..];
    TokensAssoc([Chr('{')], Chars(p[1..]), ScanDouble(s));
  }

  lemma TokensAssoc(a: seq<Token>, b: seq<Token>, c: seq<Token>)
    ensures a + (b + c) == (a + b) + c
  {
  }

  /** To the double-brace scan a single-brace placeholder is literal text. */
  lemma ScanDoubleSingleHole(body: string, s: string)
    requires SingleBody(body)
    ensures ScanDouble("{" + body + "}" + s) == Chars("{" + body + "}") + ScanDouble(s)
  {
    var p := "{" + body + "}";
    assert p[1..] == body + "}";
    assert '{' !in p[1..] by { assert forall k :: 0 <= k < |body| ==> p[k + 1] == body[k]; }
    ScanDoubleLoneOpen(p, s);
  }


  /** A well-formed double-brace placeholder is read as one token, whatever follows it. */
  lemma ScanDoubleHole(body: string, s: string)
    requires DoubleBody(body)
    ensures ScanDouble("{{" + body + "}}" + s) == [Hole(Double, body)] + ScanDouble(s)
  {
    var x := "{{" + body + "}}" + s;
    var j := |body| + 2;
    assert x[j] == '}' && x[j + 1] == '}';
    forall k | 2 <= k < j ensures !ClosesAt(x, k) {
      var b := body + "}}";
      assert x[k] == b[k - 2] && x[k + 1] == b[k - 1];
      assert !ClosesAt(b, k - 2);
    }
    var close := FindClose(x, 2);
    assert ClosesAt(x, j);
    // `FindClose` reports the first close at or after 2, and none comes before `j`.
    assert close.Some?;
    assert close.value <= j;
    assert close.value == j;
    assert x[2..j] == body;
    assert x[j + 2..] == s;
  }

  /**
   * A template described by its parts: literal runs without `{`, and placeholders. Templates
   * written this way are exactly the ones whose placeholders the scan should find.
   */
  datatype Segment = Lit(text: string) | Slot(hole: Token)

  function SegmentText(g: Segment): string {
    match g
    case Lit(text) => text
    case Slot(t) => Raw(t)
  }

  /** The template text the parts spell. */
  function Assemble(segs: seq<Segment>): string
    decreases |segs|
  {
    if |segs| == 0 then "" else SegmentText(segs[0]) + Assemble(segs[1..])
  }

  /** The tokens the parts stand for: each literal character, and each placeholder whole. */
  function SegmentTokens(segs: seq<Segment>): seq<Token>
    decreases |segs|
  {
    if |segs| == 0 then []
    else (if segs[0].Lit? then Chars(segs[0].text) else [segs[0].hole]) + SegmentTokens(segs[1..])
  }

  /** Literal runs hold no `{`; every part that is a placeholder is well formed and uses `d`. */
  predicate Clean(segs: seq<Segment>, d: Delim) {
    forall i :: 0 <= i < |segs| ==>
      if segs[i].Lit? then '{' !in segs[i].text
      else segs[i].hole.Hole? && segs[i].hole.delim == d && WellFormed(segs[i].hole)
  }

  lemma {:induction false} ScanSingleAssembled(segs: seq<Segment>)
    requires Clean(segs, Single)
    ensures ScanSingle(Assemble(segs)) == SegmentTokens(segs)
    decreases |segs|
  {
    if |segs| > 0 {
      var rest := Assemble(segs[1..]);
      assert Clean(segs[1..], Single) by {
        assert forall i :: 0 <= i < |segs| - 1 ==> segs[1..][i] == segs[i + 1];
      }
      ScanSingleAssembled(segs[1..]);
      match segs[0]
      case Lit(text) => ScanSingleLiteral(text, rest);
      case Slot(t) => ScanSingleHole(t.body, rest);
    }
  }

  lemma {:induction false} ScanDoubleAssembledSingle(segs: seq<Segment>)
    requires Clean(segs, Single)
    ensures ScanDouble(Assemble(segs)) == Chars(Assemble(segs))
    decreases |segs|
  {
    if |segs| > 0 {
      var rest := Assemble(segs[1..]);
      assert Clean(segs[1..], Single) by {
        assert forall i :: 0 <= i < |segs| - 1 ==> segs[1..][i] == segs[i + 1];
      }
      ScanDoubleAssembledSingle(segs[1..]);
      match segs[0]
      case Lit(text) =>
        ScanDoubleLiteral(text, rest);
        CharsAppend(text, rest);
      case Slot(t) =>
        ScanDoubleSingleHole(t.body, rest);
        CharsAppend(Raw(t), rest);
    }
  }

  lemma {:induction false} ScanDoubleAssembled(segs: seq<Segment>)
    requires Clean(segs, Double)
    ensures ScanDouble(Assemble(segs)) == SegmentTokens(segs)
    decreases |segs|
  {
    if |segs| > 0 {
      var rest := Assemble(segs[1..]);
      assert Clean(segs[1..], Double) by {
        assert forall i :: 0 <= i < |segs| - 1 ==> segs[1..][i] == segs[i + 1];
      }
      ScanDoubleAssembled(segs[1..]);
      match segs[0]
      case Lit(text) => ScanDoubleLiteral(text, rest);
      case Slot(t) => ScanDoubleHole(t.body, rest);
    }
  }

  /** Parts without any placeholder stand for literal characters only. */
  lemma {:induction false} LiteralSegments(segs: seq<Segment>)
    requires forall i :: 0 <= i < |segs| ==> segs[i].Lit?
    ensures SegmentTokens(segs) == Chars(Assemble(segs))
    decreases |segs|
  {
    if |segs| > 0 {
      LiteralSegments(segs[1..]);
      CharsAppend(segs[0].text, Assemble(segs[1..]));
    }
  }

  /**
   * The scan finds exactly the placeholders a clean template was assembled from, in either
   * delimiter style: the literal runs come out as characters and each placeholder as one token.
   */
  lemma TokenizeAssembled(segs: seq<Segment>, d: Delim)
    requires Clean(segs, d)
    ensures Tokenize(Assemble(segs)) == SegmentTokens(segs)
  {
    var s := Assemble(segs);
    if exists i :: 0 <= i < |segs| && segs[i].Slot? {
      var i :| 0 <= i < |segs| && segs[i].Slot?;
      if d == Single {
        ScanDoubleAssembledSingle(segs);
        ScanSingleAssembled(segs);
      } else {
        ScanDoubleAssembled(segs);
        SlotGivesHole(segs, i);
      }
    } else {
      assert Clean(segs, Single);
      ScanDoubleAssembledSingle(segs);
      ScanSingleAssembled(segs);
    }
  }

  /** A placeholder part shows up as a placeholder token. */
  lemma {:induction false} SlotGivesHole(segs: seq<Segment>, i: nat)
    requires i < |segs| && segs[i].Slot? && segs[i].hole.Hole?
    ensures !NoHoles(SegmentTokens(segs))
    decreases i
  {
    var head := if segs[0].Lit? then Chars(segs[0].text) else [segs[0].hole];
    assert SegmentTokens(segs) == head + SegmentTokens(segs[1..]);
    if i == 0 {
      assert SegmentTokens(segs)[0] == segs[0].hole;
    } else {
      SlotGivesHole(segs[1..], i - 1);
      var k :| 0 <= k < |SegmentTokens(segs[1..])| && SegmentTokens(segs[1..])[k].Hole?;
      assert SegmentTokens(segs)[|head| + k] == SegmentTokens(segs[1..])[k];
    }
  }
}
