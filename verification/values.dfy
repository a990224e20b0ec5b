/**
 Python subscripting on decoded documents: `spec['initialResources']['limits']['cpu']`
 walks a path of keys and raises KeyError or TypeError at the first step
 that cannot be taken.
 */
module Values {
  import opened Base

  /** One subscript `w[key]`, where `at` is the path that led to `w`. */
  function Subscript(w: Value, at: Path, key: string): (r: Result<Value>)
    ensures r.Ok? <==> w.Dict? && key in w.entries
    ensures w.Dict? && key in w.entries ==> r == Ok(w.entries[key])
    ensures w.Dict? && key !in w.entries ==> r == Err(KeyError(at + [key]))
    ensures !w.Dict? ==> r == Err(TypeError(at + [key]))
  {
    match w
    case Dict(m) => if key in m then Ok(m[key]) else Err(KeyError(at + [key]))
    case _ => Err(TypeError(at + [key]))
  }

  /** Walks `rest` from `v`, where `seen` is the part of the path already
      walked. */
  function Walk(v: Value, seen: Path, rest: Path): Result<Value>
    decreases |rest|
  {
    if rest == [] then Ok(v)
    else
      var w :- Subscript(v, seen, rest[0]);
      Walk(w, seen + [rest[0]], rest[1..])
  }

  /** `v[path[0]][path[1]]...`, failing at the first step that fails with
      one of the two exceptions a subscript can raise. */
  function Lookup(v: Value, path: Path): (r: Result<Value>)
    ensures path == [] ==> r == Ok(v)
    ensures r.Err? ==> r.error.KeyError? || r.error.TypeError?
  {
    WalkErrorPath(v, [], path);
    Walk(v, [], path)
  }

  /** A walk that fails stops at the first key it cannot take: the walk up
      to that key succeeds, and the error is KeyError when the value reached
      is a mapping without the key, TypeError when it is not a mapping at
      all. The error locates the key as the path walked so far plus a
      non-empty prefix of the remaining keys. */
  lemma {:induction false} WalkErrorPath(v: Value, seen: Path, rest: Path)
    ensures var r := Walk(v, seen, rest);
      r.Err? ==>
        && (r.error.KeyError? || r.error.TypeError?)
        && |seen| < |r.error.path| <= |seen| + |rest|
        && r.error.path == seen + rest[..|r.error.path| - |seen|]
    ensures var r := Walk(v, seen, rest);
      r.Err? && (r.error.KeyError? || r.error.TypeError?) && |seen| < |r.error.path| <= |seen| + |rest| ==>
        var n := |r.error.path| - |seen|;
        && Walk(v, seen, rest[..n - 1]).Ok?
        && var w := Walk(v, seen, rest[..n - 1]).value;
           && (w.Dict? ==> rest[n - 1] !in w.entries && r.error.KeyError?)
           && (!w.Dict? ==> r.error.TypeError?)
    decreases |rest|
  {
    if rest != [] {
      match Subscript(v, seen, rest[0])
      case Err(e) =>
        assert rest[..1] == [rest[0]];
        assert rest[..0] == [];
      case Ok(w) =>
        WalkErrorPath(w, seen + [rest[0]], rest[1..]);
        var r := Walk(w, seen + [rest[0]], rest[1..]);
        if r.Err? {
          var n := |r.error.path| - |seen|;
          assert seen + [rest[0]] + rest[1..][..n - 1] == seen + rest[..n];
          assert rest[..n - 1] == [rest[0]] + rest[1..][..n - 2];
          assert rest[..n - 1][0] == rest[0] && rest[..n - 1][1..] == rest[1..][..n - 2];
          assert rest[n - 1] == rest[1..][n - 2];
        }
    }
  }

  /** A failing lookup is located at a non-empty prefix of the path: the
      keys walked up to and including the one that could not be taken. The
      lookup of the keys before it succeeds, and the error is KeyError when
      that value is a mapping without the key, TypeError when it is not a
      mapping. */
  lemma LookupErrorPath(v: Value, path: Path)
    ensures var r := Lookup(v, path);
      r.Err? ==>
        && 0 < |r.error.path| <= |path|
        && r.error.path == path[..|r.error.path|]
    ensures var r := Lookup(v, path);
      r.Err? && 0 < |r.error.path| <= |path| ==>
        var n := |r.error.path|;
        && Lookup(v, path[..n - 1]).Ok?
        && var w := Lookup(v, path[..n - 1]).value;
           && (w.Dict? ==> path[n - 1] !in w.entries && r.error.KeyError?)
           && (!w.Dict? ==> r.error.TypeError?)
  {
    WalkErrorPath(v, [], path);
    var r := Lookup(v, path);
    if r.Err? {
      assert [] + path[..|r.error.path|] == path[..|r.error.path|];
    }
  }

  lemma {:induction false} WalkExtend(v: Value, seen: Path, rest: Path, key: string)
    ensures Walk(v, seen, rest + [key])
            == match Walk(v, seen, rest)
               case Ok(w) => Subscript(w, seen + rest, key)
               case Err(e) => Err(e)
    decreases |rest|
  {
    if rest == [] {
      assert rest + [key] == [key];
      assert seen + rest == seen;
    } else {
      assert (rest + [key])[0] == rest[0];
      assert (rest + [key])[1..] == rest[1..] + [key];
      match Subscript(v, seen, rest[0])
      case Err(e) =>
      case Ok(w) =>
        WalkExtend(w, seen + [rest[0]], rest[1..], key);
        assert seen + [rest[0]] + rest[1..] == seen + rest;
    }
  }

  /** Looking up a path one key longer is one more subscript on the result:
      the head-first walk agrees with the key-by-key reading of `a[b][c]`. */
  lemma LookupExtend(v: Value, path: Path, key: string)
    ensures Lookup(v, path + [key])
            == match Lookup(v, path)
               case Ok(w) => Subscript(w, path, key)
               case Err(e) => Err(e)
  {
    WalkExtend(v, [], path, key);
    assert [] + path == path;
  }

  /** Evaluates the lookups of `paths` in order, stopping at the first that
      fails; on success returns the values found, one per path. */
  function LookupAll(v: Value, paths: seq<Path>): (r: Result<seq<Value>>)
    ensures r.Ok? <==> forall i | 0 <= i < |paths| :: Lookup(v, paths[i]).Ok?
    ensures r.Ok? ==> |r.value| == |paths|
    ensures r.Ok? ==> forall i | 0 <= i < |paths| :: r.value[i] == Lookup(v, paths[i]).value
    ensures r.Err? ==>
              exists i | 0 <= i < |paths| ::
                && Lookup(v, paths[i]) == Err(r.error)
                && forall j | 0 <= j < i :: Lookup(v, paths[j]).Ok?
  {
    if paths == [] then Ok([])
    else
      var first :- Lookup(v, paths[0]);
      var more := LookupAll(v, paths[1..]);
      if more.Err? then
        assert forall i | 1 <= i < |paths| :: paths[i] == paths[1..][i - 1];
        Err(more.error)
      else
        assert forall i | 1 <= i < |paths| :: paths[i] == paths[1..][i - 1];
        Ok([first] + more.value)
  }

  /** A sequence of lookups only depends on what each of its paths finds. */
  lemma {:induction false} LookupAllFrame(v1: Value, v2: Value, paths: seq<Path>)
    requires forall i | 0 <= i < |paths| :: Lookup(v1, paths[i]) == Lookup(v2, paths[i])
    ensures LookupAll(v1, paths) == LookupAll(v2, paths)
  {
    if paths != [] {
      LookupAllFrame(v1, v2, paths[1..]);
    }
  }
}
