/** JSON values as the payload dictionary holds them, with the two dict operations
    the notification code uses: reading along a key path (`d[k1][k2]...`) and
    assigning along a key path (`d[k1]...[kn] = v`). */
module Json {
  import opened Wrappers

  datatype Value =
    | Null
    | Bool(b: bool)
    | Number(n: int)
    | String(s: string)
    | Array(items: seq<Value>)
    | Object(fields: map<string, Value>)

  /** A sequence of object keys, outermost first. */
  type Path = seq<string>

  /** `j[path[0]][path[1]]...`: None when a key is missing or a step is not an object. */
  function Lookup(j: Value, path: Path): Option<Value>
    decreases |path|
  {
    if |path| == 0 then Some(j)
    else if j.Object? && path[0] in j.fields then Lookup(j.fields[path[0]], path[1..])
    else None
  }

  /** The value at `path` exists and is an object, so a key can be stored in it. */
  predicate IsObjectAt(j: Value, path: Path) {
    Lookup(j, path).Some? && Lookup(j, path).value.Object?
  }

  /** The statement `j[path[0]]...[path[n-1]] = v` on a value semantics dict.
      Python raises (KeyError or TypeError) unless every container on the way
      exists and is a dict; that outcome is None here. */
  function Assign(j: Value, path: Path, v: Value): (r: Option<Value>)
    requires |path| > 0
    ensures r.Some? <==> IsObjectAt(j, path[..|path| - 1])
    ensures r.Some? ==> Lookup(r.value, path) == Some(v)
    decreases |path|
  {
    if !j.Object? then None
    else if |path| == 1 then Some(Object(j.fields[path[0] := v]))
    else if path[0] !in j.fields then None
    else
      assert path[..|path| - 1][1..] == path[1..][..|path| - 2];
      match Assign(j.fields[path[0]], path[1..], v)
      case None => None
      case Some(c) => Some(Object(j.fields[path[0] := c]))
  }

  /** Two paths that part ways at some key: neither is a prefix of the other. */
  ghost predicate Diverge(p: Path, q: Path) {
    exists i :: 0 <= i < |p| && i < |q| && p[i] != q[i]
  }

  /** An assignment changes nothing that is reached along a path diverging from its own. */
  lemma {:induction false} AssignLeavesOtherPaths(j: Value, path: Path, v: Value, q: Path)
    requires |path| > 0
    requires Assign(j, path, v).Some?
    requires Diverge(path, q)
    ensures Lookup(Assign(j, path, v).value, q) == Lookup(j, q)
    decreases |path|
  {
    var i :| 0 <= i < |path| && i < |q| && path[i] != q[i];
    var r := Assign(j, path, v).value;
    if q[0] != path[0] {
      assert r.fields == j.fields[path[0] := r.fields[path[0]]];
    } else {
      var c := Assign(j.fields[path[0]], path[1..], v).value;
      assert r == Object(j.fields[path[0] := c]);
      assert path[1..][i - 1] != q[1..][i - 1];
      AssignLeavesOtherPaths(j.fields[path[0]], path[1..], v, q[1..]);
    }
  }

  /** Reading `d[a][b][c]` through two nested objects. */
  lemma LookupThreeDeep(f: map<string, Value>, a: string, b: string, c: string)
    requires a in f && f[a].Object?
    requires b in f[a].fields && f[a].fields[b].Object?
    ensures Lookup(Object(f), [a, b, c])
         == if c in f[a].fields[b].fields then Some(f[a].fields[b].fields[c]) else None
  {
    var g := f[a].fields;
    var h := g[b].fields;
    assert [a, b, c][1..] == [b, c];
    assert [b, c][1..] == [c];
    assert Lookup(Object(h), [c]) == if c in h then Some(h[c]) else None;
    assert Lookup(Object(g), [b, c]) == Lookup(Object(h), [c]);
  }

  /** Assigning one key of the top-level object replaces exactly that entry. */
  lemma AssignTop(f: map<string, Value>, k: string, v: Value)
    ensures Assign(Object(f), [k], v) == Some(Object(f[k := v]))
  {
  }

  /** Assigning `d[a][b][c] = v` when `d[a]` and `d[a][b]` are objects rebuilds the
      two enclosing objects around the one changed entry. */
  lemma AssignThreeDeep(f: map<string, Value>, a: string, b: string, c: string, v: Value)
    requires a in f && f[a].Object?
    requires b in f[a].fields && f[a].fields[b].Object?
    ensures Assign(Object(f), [a, b, c], v)
         == Some(Object(f[a := Object(f[a].fields[b := Object(f[a].fields[b].fields[c := v])])]))
  {
    var g := f[a].fields;
    var h := g[b].fields;
    assert [a, b, c][1..] == [b, c];
    assert [b, c][1..] == [c];
    assert Assign(Object(h), [c], v) == Some(Object(h[c := v]));
    assert Assign(Object(g), [b, c], v) == Some(Object(g[b := Object(h[c := v])]));
  }
}
