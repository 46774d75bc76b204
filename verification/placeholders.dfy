/** Whole-string placeholder recognition and extraction (templify's `utils` module). */
module Placeholders {
  import opened Text

  /** `r` occurs in `s` starting at index `a`. */
  predicate InfixAt(s: string, r: string, a: int) {
    0 <= a && a + |r| <= |s| && s[a..a + |r|] == r
  }

  /**
   * `is_placeholder`: the string starts with `{` and ends with `}`, or starts with `{{` and
   * ends with `}}`. The second form implies the first, and a one-character string cannot
   * both open and close, so the test amounts to "at least two characters, braced".
   */
  predicate IsPlaceholder(value: string)
    ensures IsPlaceholder(value) <==> |value| >= 2 && value[0] == '{' && value[|value| - 1] == '}'
  {
    var single := StartsWith(value, "{") && EndsWith(value, "}");
    var double := StartsWith(value, "{{") && EndsWith(value, "}}");
    assert double ==> value[0] == "{{"[0] && value[|value| - 1] == "}}"[1];
    assert single ==> value[0] == "{"[0] && value[|value| - 1] == "}"[0];
    single || double
  }

  /**
   * `extract_placeholder_value`: a non-placeholder comes back unchanged; a placeholder loses
   * every leading and trailing brace and then its surrounding whitespace. The source tests for
   * a `| jmespath` marker but both of its branches return the same thing, so the result is
   * independent of that test.
   */
  function ExtractPlaceholderValue(placeholder: string): (r: string)
    ensures !IsPlaceholder(placeholder) ==> r == placeholder
    ensures IsPlaceholder(placeholder) ==> r == Strip(Strip(placeholder, Braces), Whitespace)
    ensures IsPlaceholder(placeholder) ==> |r| <= |placeholder| - 2 && IsStripped(r, Whitespace)
    ensures IsPlaceholder(placeholder) ==>
              exists a :: 1 <= a && a + |r| <= |placeholder| - 1 && InfixAt(placeholder, r, a)
  {
    if !IsPlaceholder(placeholder) then placeholder
    else
      var value := Strip(placeholder, Braces);
      StrippedPlaceholderIsInner(placeholder);
      if Contains(value, "| jmespath") then Strip(value, Whitespace) else Strip(value, Whitespace)
  }

  /**
   * The opening and closing braces of a placeholder are always stripped, so what remains after
   * both strips is an infix that starts after the first and ends before the last character.
   */
  lemma StrippedPlaceholderIsInner(p: string)
    requires IsPlaceholder(p)
    ensures var r := Strip(Strip(p, Braces), Whitespace);
            exists a :: 1 <= a && a + |r| <= |p| - 1 && InfixAt(p, r, a)
  {
    var value := Strip(p, Braces);
    var a1 := BracesStripInner(p);
    var r := Strip(value, Whitespace);
    var a2 :| StrippedFrom(value, r, a2, Whitespace);
    assert InfixAt(value, r, a2);
    InfixTransitive(p, value, r, a1, a2);
  }

  /** Stripping braces from a placeholder removes at least its first and last character. */
  lemma BracesStripInner(p: string) returns (a: int)
    requires IsPlaceholder(p)
    ensures var v := Strip(p, Braces); 1 <= a && a + |v| <= |p| - 1 && InfixAt(p, v, a)
  {
    var v := Strip(p, Braces);
    a :| StrippedFrom(p, v, a, Braces);
    if |v| == 0 {
      a := 1;
    } else {
      assert p[a] == v[0] && p[a + |v| - 1] == v[|v| - 1];
    }
  }

  lemma InfixTransitive(p: string, v: string, r: string, a1: int, a2: int)
    requires InfixAt(p, v, a1) && InfixAt(v, r, a2)
    ensures InfixAt(p, r, a1 + a2)
  {
    assert forall k :: 0 <= k < |r| ==> r[k] == v[a2 + k] == p[a1 + a2 + k];
  }

  /** Stripping a run that is already stripped and surrounded by `cs` characters yields the run. */
  lemma StripAround(pre: string, m: string, post: string, cs: set<char>)
    requires forall i :: 0 <= i < |pre| ==> pre[i] in cs
    requires forall i :: 0 <= i < |post| ==> post[i] in cs
    requires IsStripped(m, cs)
    ensures Strip(pre + m + post, cs) == m
  {
    var s := pre + m + post;
    assert s[|pre|..|pre| + |m|] == m;
    assert forall i :: |pre| + |m| <= i < |s| ==> s[i] == post[i - |pre| - |m|];
    assert StrippedFrom(s, m, |pre|, cs);
    StripUnique(s, m, |pre|, cs);
  }

  /** The cases spelled out in the unit tests for `is_placeholder`. */
  lemma IsPlaceholderExamples()
    ensures IsPlaceholder("{user.name}")
    ensures IsPlaceholder("{{ " + "products | jmespath" + "('max_by(@, &sales).name')" + " }}")
    ensures !IsPlaceholder("regular text")
    ensures !IsPlaceholder("{unclosed")
    ensures !IsPlaceholder("unopened}")
  {
    var q := "{{ " + "products | jmespath" + "('max_by(@, &sales).name')" + " }}";
    assert |q| == 51 && q[0] == '{' && q[50] == '}';
  }

  /**
   * A placeholder written as opening braces, optional whitespace, a body, optional whitespace and
   * closing braces extracts to exactly the body, provided the body is already stripped.
   */
  lemma ExtractOfPadded(p: string, open: string, lpad: string, body: string, rpad: string, close: string)
    requires p == open + lpad + body + rpad + close && |open| >= 1 && |close| >= 1
    requires forall i :: 0 <= i < |open| ==> open[i] == '{'
    requires forall i :: 0 <= i < |close| ==> close[i] == '}'
    requires forall i :: 0 <= i < |lpad| ==> lpad[i] in Whitespace
    requires forall i :: 0 <= i < |rpad| ==> rpad[i] in Whitespace
    requires IsStripped(lpad + body + rpad, Braces) && IsStripped(body, Whitespace)
    ensures ExtractPlaceholderValue(p) == body
  {
    var inner := lpad + body + rpad;
    assert p == open + inner + close;
    assert p[0] == open[0] && p[|p| - 1] == close[|close| - 1];
    StripAround(open, inner, close, Braces);
    StripAround(lpad, body, rpad, Whitespace);
  }

  /** The unit test's simple placeholder extracts to its dotted path. */
  lemma ExtractSimpleExample(p: string)
    requires p == "{user.name}"
    ensures ExtractPlaceholderValue(p) == "user.name"
  {
    assert p == "{" + "" + "user.name" + "" + "}";
    ExtractOfPadded(p, "{", "", "user.name", "", "}");
  }

  /** The unit test's query placeholder extracts to its whole trimmed expression, pipe included. */
  lemma ExtractQueryExample(p: string)
    requires p == "{{ " + "products | jmespath" + "('max_by(@, &sales).name')" + " }}"
    ensures ExtractPlaceholderValue(p) == "products | jmespath" + "('max_by(@, &sales).name')"
  {
    var body := "products | jmespath" + "('max_by(@, &sales).name')";
    assert "{{ " == "{{" + " " && " }}" == " " + "}}";
    assert p == "{{" + " " + body + " " + "}}";
    ExtractOfPadded(p, "{{", " ", body, " ", "}}");
  }

  /** The unit test's plain text is not a placeholder and is returned as it is. */
  lemma ExtractPlainExample(p: string)
    requires p == "regular text"
    ensures ExtractPlaceholderValue(p) == p
  {
    assert p[|p| - 1] == 't';
  }
}
