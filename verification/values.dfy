/**
 * JSON-like values as templify's templates and contexts hold them: Python dicts, lists,
 * strings, ints, booleans and `None`.
 */
module Values {
  import opened Wrappers
  import opened Text
  import opened Quoting

  datatype Value =
    | Null
    | Bool(b: bool)
    | Int(i: int)
    | Str(s: string)
    | List(items: seq<Value>)
    | Obj(fields: seq<Field>)

  /** One entry of a dict. A dict is a sequence of entries in insertion order. */
  datatype Field = Field(key: string, val: Value)

  /** The keys of a dict, in order. */
  function Keys(fields: seq<Field>): seq<string>
    decreases |fields|
  {
    if |fields| == 0 then [] else [fields[0].key] + Keys(fields[1..])
  }

  /**
   * `d[k]` as an option. When a key is bound more than once the last binding wins, which is
   * what a Python dict display such as `{"a": 1, **other}` does with repeated keys.
   */
  function Get(fields: seq<Field>, k: string): Option<Value>
    decreases |fields|
  {
    if |fields| == 0 then None
    else if fields[|fields| - 1].key == k then Some(fields[|fields| - 1].val)
    else Get(fields[..|fields| - 1], k)
  }

  /** A key is found exactly when some entry binds it, and what is found is bound by some entry. */
  lemma {:induction false} GetFound(fields: seq<Field>, k: string)
    ensures Get(fields, k).Some? <==> exists i :: 0 <= i < |fields| && fields[i].key == k
    ensures Get(fields, k).Some? ==> exists i :: 0 <= i < |fields| && fields[i] == Field(k, Get(fields, k).value)
    decreases |fields|
  {
    var n := |fields|;
    if n > 0 && fields[n - 1].key != k {
      var init := fields[..n - 1];
      GetFound(init, k);
      assert forall i :: 0 <= i < n - 1 ==> init[i] == fields[i];
    }
  }

  /** A key bound at index `i` and at no later index is found bound to the value at `i`. */
  lemma {:induction false} GetAt(fields: seq<Field>, i: int, k: string)
    requires 0 <= i < |fields| && fields[i].key == k
    requires forall j :: i < j < |fields| ==> fields[j].key != k
    ensures Get(fields, k) == Some(fields[i].val)
    decreases |fields|
  {
    var n := |fields|;
    if i < n - 1 {
      GetAt(fields[..n - 1], i, k);
    }
  }

  /**
   * `{**a, **b}`: every key of `b` is bound to its value in `b`, every other key keeps its
   * binding in `a`. As sequences of entries the merge is a concatenation, since lookups take
   * the last binding.
   */
  function Merge(a: seq<Field>, b: seq<Field>): (m: seq<Field>)
    ensures forall k :: Get(m, k) == (if Get(b, k).Some? then Get(b, k) else Get(a, k))
  {
    forall k ensures Get(a + b, k) == (if Get(b, k).Some? then Get(b, k) else Get(a, k)) {
      GetAppend(a, b, k);
    }
    a + b
  }

  lemma {:induction false} GetAppend(a: seq<Field>, b: seq<Field>, k: string)
    ensures Get(a + b, k) == (if Get(b, k).Some? then Get(b, k) else Get(a, k))
    decreases |b|
  {
    if |b| > 0 {
      var ab := a + b;
      assert ab[|ab| - 1] == b[|b| - 1];
      assert ab[..|ab| - 1] == a + b[..|b| - 1];
      GetAppend(a, b[..|b| - 1], k);
    } else {
      assert a + b == a;
    }
  }

  /** Python's `str(v)`: strings as they are, everything else as its `repr`. */
  function ToText(v: Value): string
    decreases v, 0
  {
    match v
    case Null => "None"
    case Bool(b) => if b then "True" else "False"
    case Int(i) => IntToString(i)
    case Str(s) => s
    case List(items) => "[" + ItemsRepr(items) + "]"
    case Obj(fields) => "{" + FieldsRepr(fields) + "}"
  }

  /** Python's `repr(v)`: like `str(v)` but strings are quoted and escaped. */
  function Repr(v: Value): string
    decreases v, 1
  {
    if v.Str? then StrRepr(v.s) else ToText(v)
  }

  /** The elements of a list, comma-separated. */
  function ItemsRepr(items: seq<Value>): string
    decreases items
  {
    if |items| == 0 then ""
    else if |items| == 1 then Repr(items[0])
    else Repr(items[0]) + ", " + ItemsRepr(items[1..])
  }

  /** The entries of a dict as `repr(key): repr(value)`, comma-separated. */
  function FieldsRepr(fields: seq<Field>): string
    decreases fields
  {
    if |fields| == 0 then ""
    else
      var entry := StrRepr(fields[0].key) + ": " + Repr(fields[0].val);
      if |fields| == 1 then entry else entry + ", " + FieldsRepr(fields[1..])
  }

  /** A one-element list is its element's `repr` in brackets. */
  lemma OneItemText(v: Value)
    ensures ToText(List([v])) == "[" + Repr(v) + "]"
  {
  }

  /** A one-entry dict is the key's `repr`, a colon and the value's `repr` in braces. */
  lemma OneFieldText(k: string, v: Value)
    ensures ToText(Obj([Field(k, v)])) == "{" + StrRepr(k) + ": " + Repr(v) + "}"
  {
  }

  /**
   * Strings inside a list or a dict appear as their `repr`: `str(["it's"])` is `["it's"]` and
   * `str({"k": "v"})` is `{'k': 'v'}`.
   */
  lemma NestedStringsQuoted(s: string, k: string, v: string)
    requires s == "it's" && k == "k" && v == "v"
    ensures ToText(List([Str(s)])) == "[\"it's\"]"
    ensures ToText(Obj([Field(k, Str(v))])) == "{'k': 'v'}"
  {
    QuotedItem(s, "\"it's\"");
    QuotedField(k, v, "'k'", "'v'");
  }

  lemma QuotedItem(s: string, r: string)
    requires s == "it's" && r == "\"it's\""
    ensures ToText(List([Str(s)])) == "[" + r + "]"
  {
    OneItemText(Str(s));
    PlainRepr(s);
  }

  lemma QuotedField(k: string, v: string, rk: string, rv: string)
    requires k == "k" && v == "v" && rk == "'k'" && rv == "'v'"
    ensures ToText(Obj([Field(k, Str(v))])) == "{" + rk + ": " + rv + "}"
  {
    OneFieldText(k, Str(v));
    PlainRepr(k);
    PlainRepr(v);
  }
}
