/**
 * Python's `repr` of a string, which `str` of a list or a dict uses for every string inside it:
 * the text between quotes, with backslash escapes for the quote, the backslash and the control
 * characters.
 */
module Quoting {
  import opened Wrappers

  /** The quote `repr` chooses: `"` when the string holds a `'` and no `"`, and `'` otherwise. */
  function QuoteFor(s: string): (q: char)
    ensures q == '"' || q == '\''
  {
    if '\'' in s && '"' !in s then '"' else '\''
  }

  /**
   * The characters written as `\xhh`: the C0 controls other than tab, newline and carriage return,
   * DEL, the C1 controls, no-break space and soft hyphen.
   */
  predicate HexEscaped(c: char) {
    || (c as int < 0x20 && c != '\t' && c != '\n' && c != '\r')
    || (0x7f <= c as int <= 0xa0)
    || c as int == 0xad
  }

  /** A character `repr` writes as itself inside quotes `q`. */
  predicate Verbatim(c: char, q: char) {
    c != q && c != '\\' && c != '\t' && c != '\n' && c != '\r' && !HexEscaped(c)
  }

  /** A lower-case hexadecimal digit. */
  function HexDigit(d: nat): (c: char)
    requires d < 16
  {
    if d < 10 then (d + '0' as int) as char else (d - 10 + 'a' as int) as char
  }

  /** How one character appears between quotes `q`. */
  function EscapeChar(c: char, q: char): (e: string)
    ensures 1 <= |e| <= 4
    ensures |e| == 1 <==> Verbatim(c, q)
    ensures |e| == 1 ==> e == [c]
    ensures |e| > 1 ==> e[0] == '\\'
  {
    if c == q || c == '\\' then ['\\', c]
    else if c == '\t' then "\\t"
    else if c == '\n' then "\\n"
    else if c == '\r' then "\\r"
    else if HexEscaped(c) then "\\x" + [HexDigit(c as int / 16), HexDigit(c as int % 16)]
    else [c]
  }

  /** The characters of `s` escaped one after another. */
  function EscapeBody(s: string, q: char): string
    decreases |s|
  {
    if |s| == 0 then "" else EscapeChar(s[0], q) + EscapeBody(s[1..], q)
  }

  /** Python's `repr(s)` for a string. */
  function StrRepr(s: string): (r: string)
    ensures |r| >= 2 + |s|
    ensures r[0] == r[|r| - 1] == QuoteFor(s)
  {
    var q := QuoteFor(s);
    EscapeBodyLength(s, q);
    [q] + EscapeBody(s, q) + [q]
  }

  lemma {:induction false} EscapeBodyLength(s: string, q: char)
    ensures |EscapeBody(s, q)| >= |s|
    decreases |s|
  {
    if |s| > 0 {
      EscapeBodyLength(s[1..], q);
    }
  }

  /* ---------- Reading a repr back ---------- */

  predicate IsHexDigit(c: char) {
    '0' <= c <= '9' || 'a' <= c <= 'f'
  }

  function HexValue(c: char): (d: nat)
    requires IsHexDigit(c)
    ensures d < 16 && HexDigit(d) == c
  {
    if c <= '9' then c as int - '0' as int else c as int - 'a' as int + 10
  }

  /** Undoes `EscapeBody`: reads escapes back as the characters they stand for. */
  function Unescape(e: string): Option<string>
    decreases |e|
  {
    if |e| == 0 then Some("")
    else if e[0] != '\\' then
      var rest :- Unescape(e[1..]);
      Some([e[0]] + rest)
    else if |e| < 2 then None
    else if e[1] == '\\' || e[1] == '\'' || e[1] == '"' then
      var rest :- Unescape(e[2..]);
      Some([e[1]] + rest)
    else if e[1] == 't' || e[1] == 'n' || e[1] == 'r' then
      var rest :- Unescape(e[2..]);
      Some([if e[1] == 't' then '\t' else if e[1] == 'n' then '\n' else '\r'] + rest)
    else if e[1] == 'x' && |e| >= 4 && IsHexDigit(e[2]) && IsHexDigit(e[3]) then
      var rest :- Unescape(e[4..]);
      Some([(HexValue(e[2]) * 16 + HexValue(e[3])) as char] + rest)
    else None
  }

  /** Reads a quoted string literal back: matching quotes around an escaped body. */
  function ParseStrRepr(r: string): Option<string> {
    if |r| >= 2 && (r[0] == '\'' || r[0] == '"') && r[|r| - 1] == r[0] then Unescape(r[1..|r| - 1])
    else None
  }

  /** One escaped character followed by more text reads back as that character first. */
  lemma UnescapeChar(c: char, q: char, rest: string)
    requires q == '"' || q == '\''
    ensures Unescape(EscapeChar(c, q) + rest)
         == (var u :- Unescape(rest); Some([c] + u))
  {
    if c == q || c == '\\' {
      UnescapePair(c, c, rest);
    } else if c == '\t' {
      UnescapePair('t', c, rest);
    } else if c == '\n' {
      UnescapePair('n', c, rest);
    } else if c == '\r' {
      UnescapePair('r', c, rest);
    } else if HexEscaped(c) {
      UnescapeHex(c, rest);
    } else {
      assert ([c] + rest)[1..] == rest;
    }
  }

  /** A backslash and one more character stand for `c`. */
  lemma UnescapePair(x: char, c: char, rest: string)
    requires || (x == c && (c == '\\' || c == '\'' || c == '"'))
             || (x == 't' && c == '\t') || (x == 'n' && c == '\n') || (x == 'r' && c == '\r')
    ensures Unescape(['\\', x] + rest) == (var u :- Unescape(rest); Some([c] + u))
  {
    assert (['\\', x] + rest)[2..] == rest;
  }

  lemma HexValueOf(d: nat)
    requires d < 16
    ensures IsHexDigit(HexDigit(d)) && HexValue(HexDigit(d)) == d
  {
  }

  /** `\xhh` stands for the character numbered `hh`. */
  lemma UnescapeHex(c: char, rest: string)
    requires HexEscaped(c)
    ensures Unescape("\\x" + [HexDigit(c as int / 16), HexDigit(c as int % 16)] + rest)
         == (var u :- Unescape(rest); Some([c] + u))
  {
    var hi, lo := c as int / 16, c as int % 16;
    HexValueOf(hi);
    HexValueOf(lo);
    assert "\\x" + [HexDigit(hi), HexDigit(lo)] + rest == ['\\', 'x', HexDigit(hi), HexDigit(lo)] + rest;
    UnescapeHexDigits(HexDigit(hi), HexDigit(lo), rest);
    assert hi * 16 + lo == c as int;
  }

  lemma UnescapeHexDigits(h: char, l: char, rest: string)
    requires IsHexDigit(h) && IsHexDigit(l)
    ensures HexValue(h) * 16 + HexValue(l) < 256
    ensures Unescape(['\\', 'x', h, l] + rest)
         == (var u :- Unescape(rest); Some([(HexValue(h) * 16 + HexValue(l)) as char] + u))
  {
    var e := ['\\', 'x', h, l] + rest;
    assert e[0] == '\\' && e[1] == 'x' && e[2] == h && e[3] == l && |e| >= 4;
    assert e[4..] == rest;
  }

  lemma {:induction false} UnescapeBody(s: string, q: char)
    requires q == '"' || q == '\''
    ensures Unescape(EscapeBody(s, q)) == Some(s)
    decreases |s|
  {
    if |s| > 0 {
      UnescapeBody(s[1..], q);
      UnescapeChar(s[0], q, EscapeBody(s[1..], q));
      assert [s[0]] + s[1..] == s;
    }
  }

  /** Reading back the `repr` of a string gives the string, so different strings have different reprs. */
  lemma ReprRoundTrip(s: string)
    ensures ParseStrRepr(StrRepr(s)) == Some(s)
  {
    var q := QuoteFor(s);
    var r := StrRepr(s);
    assert r[1..|r| - 1] == EscapeBody(s, q);
    UnescapeBody(s, q);
  }

  lemma ReprInjective(a: string, b: string)
    requires StrRepr(a) == StrRepr(b)
    ensures a == b
  {
    ReprRoundTrip(a);
    ReprRoundTrip(b);
  }

  /** A string whose characters all stand for themselves is written between its quotes unchanged. */
  lemma {:induction false} VerbatimBody(s: string, q: char)
    requires forall i :: 0 <= i < |s| ==> Verbatim(s[i], q)
    ensures EscapeBody(s, q) == s
    decreases |s|
  {
    if |s| > 0 {
      VerbatimBody(s[1..], q);
      assert [s[0]] + s[1..] == s;
    }
  }

  /**
   * The common cases: text without backslashes or control characters is quoted as it is, in
   * single quotes unless it holds a `'` and no `"`, which gives `"it's"` for `it's`.
   */
  lemma PlainRepr(s: string)
    requires forall i :: 0 <= i < |s| ==> s[i] != '\\' && ' ' <= s[i] <= '~'
    requires '\'' !in s || '"' !in s
    ensures StrRepr(s) == (if '\'' in s then "\"" + s + "\"" else "'" + s + "'")
  {
    var q := QuoteFor(s);
    assert forall i :: 0 <= i < |s| ==> Verbatim(s[i], q);
    VerbatimBody(s, q);
  }

  /**
   * A string holding both quotes keeps the single quotes and escapes each `'`: with `x` and `y`
   * written as themselves, `repr(x + "'" + y)` is `'x\'y'`.
   */
  lemma BothQuotesRepr(x: string, y: string)
    requires forall i :: 0 <= i < |x| ==> Verbatim(x[i], '\'')
    requires forall i :: 0 <= i < |y| ==> Verbatim(y[i], '\'')
    requires '"' in y
    ensures StrRepr(x + "'" + y) == "'" + x + "\\'" + y + "'"
  {
    BothQuotesChoice(x, y);
    BothQuotesBody(x, y);
  }

  lemma BothQuotesChoice(x: string, y: string)
    requires '"' in y
    ensures QuoteFor(x + "'" + y) == '\''
  {
    var s := x + "'" + y;
    assert s[|x|] == '\'';
    var j :| 0 <= j < |y| && y[j] == '"';
    assert s[|x| + 1 + j] == '"';
  }

  lemma BothQuotesBody(x: string, y: string)
    requires forall i :: 0 <= i < |x| ==> Verbatim(x[i], '\'')
    requires forall i :: 0 <= i < |y| ==> Verbatim(y[i], '\'')
    ensures EscapeBody(x + "'" + y, '\'') == x + "\\'" + y
  {
    var q := '\'';
    VerbatimBody(x, q);
    VerbatimBody(y, q);
    EscapeAround(x, q, y);
    EscapeOne(q, q);
  }

  /** Escaping is done character by character, so it distributes over a character between two runs. */
  lemma EscapeAround(x: string, c: char, y: string)
    ensures EscapeBody(x + [c] + y, c) == EscapeBody(x, c) + EscapeBody([c], c) + EscapeBody(y, c)
  {
    EscapeBodyAppend(x, [c] + y, c);
    EscapeBodyAppend([c], y, c);
    assert x + [c] + y == x + ([c] + y);
  }

  lemma EscapeOne(c: char, q: char)
    ensures EscapeBody([c], q) == EscapeChar(c, q)
  {
    assert [c][1..] == [];
  }

  lemma {:induction false} EscapeBodyAppend(x: string, y: string, q: char)
    ensures EscapeBody(x + y, q) == EscapeBody(x, q) + EscapeBody(y, q)
    decreases |x|
  {
    if |x| > 0 {
      assert (x + y)[1..] == x[1..] + y;
      EscapeBodyAppend(x[1..], y, q);
    } else {
      assert x + y == y;
    }
  }
}
