/** String helpers with Python's meaning: `str.strip`, `in`, `str.split`, `str.join`, `str(int)`. */
module Text {

  /** The characters the argument-less `str.strip()` removes, restricted to ASCII. */
  const Whitespace: set<char> := {' ', '\t', '\n', '\r', '\U{000B}', '\U{000C}'}

  /** The characters `str.strip("{}")` removes. */
  const Braces: set<char> := {'{', '}'}

  /** `r` begins and ends with a character outside `cs` (or is empty). */
  predicate IsStripped(r: string, cs: set<char>) {
    |r| == 0 || (r[0] !in cs && r[|r| - 1] !in cs)
  }

  /** `r` is the infix of `s` starting at `a`, and everything around it is in `cs`. */
  ghost predicate StrippedFrom(s: string, r: string, a: int, cs: set<char>) {
    && 0 <= a && a + |r| <= |s|
    && r == s[a..a + |r|]
    && (forall i :: 0 <= i < a ==> s[i] in cs)
    && (forall i :: a + |r| <= i < |s| ==> s[i] in cs)
  }

  /** `s` without its longest prefix of characters from `cs`. */
  function StripLeft(s: string, cs: set<char>): (r: string)
    ensures |r| <= |s| && r == s[|s| - |r|..]
    ensures forall i :: 0 <= i < |s| - |r| ==> s[i] in cs
    ensures |r| > 0 ==> r[0] !in cs
    decreases |s|
  {
    if |s| > 0 && s[0] in cs then StripLeft(s[1..], cs) else s
  }

  /** `s` without its longest suffix of characters from `cs`. */
  function StripRight(s: string, cs: set<char>): (r: string)
    ensures |r| <= |s| && r == s[..|r|]
    ensures forall i :: |r| <= i < |s| ==> s[i] in cs
    ensures |r| > 0 ==> r[|r| - 1] !in cs
    decreases |s|
  {
    if |s| > 0 && s[|s| - 1] in cs then StripRight(s[..|s| - 1], cs) else s
  }

  /** Python's `s.strip(chars)` with `chars` given as the set `cs`. */
  function Strip(s: string, cs: set<char>): (r: string)
    ensures IsStripped(r, cs)
    ensures exists a :: StrippedFrom(s, r, a, cs)
  {
    var l := StripLeft(s, cs);
    var r := StripRight(l, cs);
    InfixStripped(s, l, r, cs);
    r
  }

  /** A suffix of `s` with only `cs` before it, cut down to a prefix with only `cs` after it. */
  lemma InfixStripped(s: string, l: string, r: string, cs: set<char>)
    requires |l| <= |s| && l == s[|s| - |l|..]
    requires forall i :: 0 <= i < |s| - |l| ==> s[i] in cs
    requires |r| <= |l| && r == l[..|r|]
    requires forall i :: |r| <= i < |l| ==> l[i] in cs
    ensures StrippedFrom(s, r, |s| - |l|, cs)
  {
    var a := |s| - |l|;
    assert r == s[a..a + |r|];
    forall i | a + |r| <= i < |s|
      ensures s[i] in cs
    {
      assert s[i] == l[i - a];
    }
  }


  /** Stripping is determined by its contract: any stripped infix surrounded by `cs` is `Strip(s, cs)`. */
  lemma StripUnique(s: string, r: string, a: int, cs: set<char>)
    requires StrippedFrom(s, r, a, cs) && IsStripped(r, cs)
    ensures r == Strip(s, cs)
  {
    var r' := Strip(s, cs);
    var a' :| StrippedFrom(s, r', a', cs);
    StrippedUnique(s, r, a, r', a', cs);
  }

  /** Two stripped infixes of `s`, each surrounded by `cs`, are the same infix. */
  lemma StrippedUnique(s: string, r: string, a: int, r': string, a': int, cs: set<char>)
    requires StrippedFrom(s, r, a, cs) && IsStripped(r, cs)
    requires StrippedFrom(s, r', a', cs) && IsStripped(r', cs)
    ensures r == r'
  {
    // A character outside `cs` lies inside both infixes, so they are empty together.
    if |r| > 0 {
      assert s[a] == r[0];
      assert |r'| > 0;
    }
    if |r'| > 0 {
      assert s[a'] == r'[0];
      assert |r| > 0;
    }
    if |r| > 0 {
      // Both start at the first character outside `cs` and end at the last one.
      assert s[a] == r[0] && s[a'] == r'[0];
      assert a == a';
      var e, e' := a + |r| - 1, a' + |r'| - 1;
      assert s[e] == r[|r| - 1] && s[e'] == r'[|r'| - 1];
      assert e == e';
    }
  }


  /** `sub` occurs in `s` as a contiguous run (Python's `sub in s`). */
  predicate Contains(s: string, sub: string)
    decreases |s|
  {
    sub <= s || (|s| > 0 && Contains(s[1..], sub))
  }

  /** Python's `s.startswith(prefix)`. */
  predicate StartsWith(s: string, prefix: string) {
    |prefix| <= |s| && s[..|prefix|] == prefix
  }

  /** Python's `s.endswith(suffix)`. */
  predicate EndsWith(s: string, suffix: string) {
    |suffix| <= |s| && s[|s| - |suffix|..] == suffix
  }

  /**
   * Where `c` first occurs in `s`, or `|s|` when it does not (Python's `s.find(c)`, which gives
   * -1 instead).
   */
  function IndexOf(s: string, c: char): (i: nat)
    ensures i <= |s| && c !in s[..i]
    ensures i < |s| <==> c in s
    ensures i < |s| ==> s[i] == c
    decreases |s|
  {
    if |s| == 0 then 0
    else if s[0] == c then 0
    else
      var j := IndexOf(s[1..], c);
      assert s[..1 + j] == [s[0]] + s[1..][..j];
      1 + j
  }

  /** The first `c` in `x + [c] + y` is the one after `x` when `x` has none. */
  lemma {:induction false} IndexOfFirst(x: string, c: char, y: string)
    requires c !in x
    ensures IndexOf(x + [c] + y, c) == |x|
    decreases |x|
  {
    if |x| > 0 {
      assert (x + [c] + y)[1..] == x[1..] + [c] + y;
      IndexOfFirst(x[1..], c, y);
    }
  }

  /** Python's `sep.join(parts)` for a one-character separator. */
  function Join(parts: seq<string>, sep: char): string
    decreases |parts|
  {
    if |parts| == 0 then ""
    else if |parts| == 1 then parts[0]
    else parts[0] + [sep] + Join(parts[1..], sep)
  }

  /** Python's `s.split(sep)` for a one-character separator: the pieces between separators. */
  function Split(s: string, sep: char): (parts: seq<string>)
    ensures |parts| >= 1
    ensures forall i :: 0 <= i < |parts| ==> sep !in parts[i]
    ensures Join(parts, sep) == s
    ensures |parts| == 1 <==> sep !in s
    decreases |s|
  {
    if |s| == 0 then [""]
    else
      var rest := Split(s[1..], sep);
      assert s == [s[0]] + s[1..];
      if s[0] == sep then
        JoinAfterSep(rest, sep);
        [""] + rest
      else
        JoinGrow(s[0], rest, sep);
        [[s[0]] + rest[0]] + rest[1..]
  }

  lemma JoinAfterSep(rest: seq<string>, sep: char)
    requires |rest| >= 1
    ensures Join([""] + rest, sep) == [sep] + Join(rest, sep)
  {
    assert ([""] + rest)[1..] == rest;
  }

  lemma JoinGrow(c: char, rest: seq<string>, sep: char)
    requires |rest| >= 1
    ensures Join([[c] + rest[0]] + rest[1..], sep) == [c] + Join(rest, sep)
  {
    var parts := [[c] + rest[0]] + rest[1..];
    assert parts[1..] == rest[1..];
  }

  /** Splitting undoes joining pieces that contain no separator. */
  lemma {:induction false} SplitJoin(parts: seq<string>, sep: char)
    requires |parts| >= 1
    requires forall i :: 0 <= i < |parts| ==> sep !in parts[i]
    ensures Split(Join(parts, sep), sep) == parts
    decreases |parts|, |parts[0]|
  {
    if |parts| == 1 {
      SplitOfSepFree(parts[0], sep);
    } else if |parts[0]| == 0 {
      var tail := Join(parts[1..], sep);
      assert Join(parts, sep) == [sep] + tail;
      SplitJoin(parts[1..], sep);
      SplitAfterSep(tail, sep);
      assert parts == [""] + parts[1..];
    } else {
      var shorter := [parts[0][1..]] + parts[1..];
      assert shorter[1..] == parts[1..];
      SplitJoin(shorter, sep);
      JoinShift(parts, sep);
      SplitAfterChar(parts[0][0], Join(shorter, sep), sep);
      assert parts[0] == [parts[0][0]] + parts[0][1..];
      assert parts == [[parts[0][0]] + shorter[0]] + shorter[1..];
    }
  }

  /** The first character of the first piece leads the joined text. */
  lemma JoinShift(parts: seq<string>, sep: char)
    requires |parts| >= 2 && |parts[0]| > 0
    ensures Join(parts, sep) == [parts[0][0]] + Join([parts[0][1..]] + parts[1..], sep)
  {
    var shorter := [parts[0][1..]] + parts[1..];
    var tail := Join(parts[1..], sep);
    assert shorter[0] == parts[0][1..] && shorter[1..] == parts[1..];
    assert Join(shorter, sep) == parts[0][1..] + [sep] + tail;
    assert Join(parts, sep) == parts[0] + [sep] + tail;
    assert parts[0] == [parts[0][0]] + parts[0][1..];
  }

  /** A leading separator starts an empty first piece. */
  lemma SplitAfterSep(s: string, sep: char)
    ensures Split([sep] + s, sep) == [""] + Split(s, sep)
  {
    assert ([sep] + s)[1..] == s;
  }

  /** Any other leading character joins the first piece. */
  lemma SplitAfterChar(c: char, s: string, sep: char)
    requires c != sep
    ensures var rest := Split(s, sep); Split([c] + s, sep) == [[c] + rest[0]] + rest[1..]
  {
    assert ([c] + s)[1..] == s;
  }

  /** A string without the separator splits into itself alone. */
  lemma {:induction false} SplitOfSepFree(s: string, sep: char)
    requires sep !in s
    ensures Split(s, sep) == [s]
    decreases |s|
  {
    if |s| > 0 {
      SplitOfSepFree(s[1..], sep);
      assert s == [s[0]] + s[1..];
    }
  }

  predicate IsDigit(c: char) {
    '0' <= c <= '9'
  }

  function DigitChar(d: nat): (c: char)
    requires d < 10
    ensures IsDigit(c)
  {
    "0123456789"[d]
  }

  function DigitValue(c: char): (d: nat)
    requires IsDigit(c)
    ensures d < 10 && DigitChar(d) == c
  {
    (c as int - '0' as int) as nat
  }

  /** Python's `str(n)` for a natural number: decimal digits, no leading zero. */
  function NatToString(n: nat): (r: string)
    ensures |r| >= 1
    ensures forall i :: 0 <= i < |r| ==> IsDigit(r[i])
    ensures r[0] == '0' ==> n == 0
    decreases n
  {
    if n < 10 then [DigitChar(n)] else NatToString(n / 10) + [DigitChar(n % 10)]
  }

  /** Python's `str(i)` for an integer: a minus sign for negatives, then the digits. */
  function IntToString(i: int): string {
    if i < 0 then "-" + NatToString(-i) else NatToString(i)
  }

  /** Reads a run of decimal digits as a number (Python's `int(s)` on digit strings). */
  function ParseNat(s: string): nat
    requires forall i :: 0 <= i < |s| ==> IsDigit(s[i])
    decreases |s|
  {
    if |s| == 0 then 0 else ParseNat(s[..|s| - 1]) * 10 + DigitValue(s[|s| - 1])
  }

  /** Writing a number in decimal is inverted by parsing. */
  lemma {:induction false} ParseNatToString(n: nat)
    ensures ParseNat(NatToString(n)) == n
    decreases n
  {
    if n >= 10 {
      var s := NatToString(n);
      assert s[..|s| - 1] == NatToString(n / 10);
      ParseNatToString(n / 10);
    }
  }

  /** Distinct numbers are written differently, so written numbers can serve as identifiers. */
  lemma NatToStringInjective(a: nat, b: nat)
    requires NatToString(a) == NatToString(b)
    ensures a == b
  {
    ParseNatToString(a);
    ParseNatToString(b);
  }

  /** Distinct integers are written differently: the sign and the digits each determine their part. */
  lemma IntToStringInjective(a: int, b: int)
    requires IntToString(a) == IntToString(b)
    ensures a == b
  {
    var da, db := NatToString(if a < 0 then -a else a), NatToString(if b < 0 then -b else b);
    assert IsDigit(da[0]) && IsDigit(db[0]);
    if a < 0 && b < 0 {
      assert da == IntToString(a)[1..] && db == IntToString(b)[1..];
      NatToStringInjective(-a, -b);
    } else if a >= 0 && b >= 0 {
      NatToStringInjective(a, b);
    }
  }

  /** Integers written in decimal carry no brace, whitespace or other template syntax. */
  lemma IntToStringPlain(i: int)
    ensures '{' !in IntToString(i) && '}' !in IntToString(i)
    ensures '|' !in IntToString(i) && '.' !in IntToString(i)
  {
    var d := NatToString(if i < 0 then -i else i);
    assert forall c :: c in d ==> IsDigit(c);
  }
}
