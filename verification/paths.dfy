/** The path resolver: a dotted path such as `user.profile.name` located in a nested context. */
module Paths {
  import opened Wrappers
  import opened Text
  import opened Values

  /**
   * Descends from `v` one dict key per segment. Fails as soon as the current value is not a
   * dict or lacks the key. Absence is a distinct `None`, never a sentinel string.
   */
  function Walk(v: Value, segments: seq<string>): Option<Value>
    decreases |segments|
  {
    if |segments| == 0 then Some(v)
    else if !v.Obj? then None
    else
      match Get(v.fields, segments[0])
      case None => None
      case Some(child) => Walk(child, segments[1..])
  }

  /** Resolves `path`, split on `.`, against the context dict. */
  function Resolve(context: seq<Field>, path: string): Option<Value> {
    Walk(Obj(context), Split(path, '.'))
  }

  /** Walking a concatenated path is walking the first part, then the second from where it ended. */
  lemma {:induction false} WalkAppend(v: Value, p: seq<string>, q: seq<string>)
    ensures Walk(v, p + q) == (match Walk(v, p) case None => None case Some(u) => Walk(u, q))
    decreases |p|
  {
    if |p| == 0 {
      assert p + q == q;
    } else {
      assert (p + q)[0] == p[0] && (p + q)[1..] == p[1..] + q;
      if v.Obj? {
        match Get(v.fields, p[0])
        case None =>
        case Some(child) => WalkAppend(child, p[1..], q);
      }
    }
  }

  /** Resolving the dotted join of dot-free keys walks exactly those keys. */
  lemma ResolveJoin(context: seq<Field>, keys: seq<string>)
    requires |keys| >= 1
    requires forall i :: 0 <= i < |keys| ==> '.' !in keys[i]
    ensures Resolve(context, Join(keys, '.')) == Walk(Obj(context), keys)
  {
    SplitJoin(keys, '.');
  }

  /** A path without a dot is a plain key lookup in the context. */
  lemma ResolveKey(context: seq<Field>, key: string)
    requires '.' !in key
    ensures Resolve(context, key) == Get(context, key)
  {
    SplitOfSepFree(key, '.');
    assert Split(key, '.')[1..] == [];
    match Get(context, key)
    case None =>
    case Some(child) => assert Walk(child, []) == Some(child);
  }

  /** Extending a path by one key looks that key up in the dict the shorter path reaches. */
  lemma ResolveExtend(context: seq<Field>, path: string, key: string)
    requires '.' !in key
    ensures Resolve(context, path + "." + key)
         == (var r := Resolve(context, path);
             if r.Some? && r.value.Obj? then Get(r.value.fields, key) else None)
  {
    var p := Split(path, '.');
    SplitJoin(p + [key], '.');
    JoinSnoc(p, key, '.');
    WalkAppend(Obj(context), p, [key]);
  }

  lemma {:induction false} JoinSnoc(parts: seq<string>, last: string, sep: char)
    requires |parts| >= 1
    ensures Join(parts + [last], sep) == Join(parts, sep) + [sep] + last
    decreases |parts|
  {
    if |parts| == 1 {
      assert (parts + [last])[1..] == [last];
    } else {
      assert (parts + [last])[1..] == parts[1..] + [last];
      JoinSnoc(parts[1..], last, sep);
    }
  }

  /** The nested-lookup example: `user.profile.name` in `{"user": {"profile": {"name": "Alice"}}}`. */
  lemma ResolveNestedExample(context: seq<Field>, path: string, k1: string, k2: string, k3: string)
    requires context == [Field("user", Obj([Field("profile", Obj([Field("name", Str("Alice"))]))]))]
    requires k1 == "user" && k2 == "profile" && k3 == "name"
    requires path == k1 + "." + k2 + "." + k3
    ensures Resolve(context, path) == Some(Str("Alice"))
  {
    var profile := [Field("name", Str("Alice"))];
    var user := [Field("profile", Obj(profile))];
    ResolveKey(context, k1);
    ResolveStep(context, k1, k2, user, Obj(profile));
    ResolveStep(context, k1 + "." + k2, k3, profile, Str("Alice"));
  }

  /** One more key, present in the dict a path reaches, resolves to that key's value. */
  lemma ResolveStep(context: seq<Field>, path: string, key: string, fields: seq<Field>, v: Value)
    requires '.' !in key
    requires Resolve(context, path) == Some(Obj(fields)) && Get(fields, key) == Some(v)
    ensures Resolve(context, path + "." + key) == Some(v)
  {
    ResolveExtend(context, path, key);
  }
}
