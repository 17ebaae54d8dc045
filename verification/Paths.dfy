/** Walking down the tree and naming what is found (fs/server.go:205-235,
    fs/filesystem.go:80-92). */
module Paths {
  import opened Bytes
  import opened FileTree
  import opened TreeLaws

  const SLASH: byte := 47

  /** strings.Replace(s, "//", "/", -1). */
  function Squeeze(s: Data): Data {
    if |s| < 2 then s
    else if s[0] == SLASH && s[1] == SLASH then [SLASH] + Squeeze(s[2..])
    else [s[0]] + Squeeze(s[1..])
  }

  /** Terminates because a parent is always older than its child. */
  function FullPath<N>(fs: FS<N>, n: N): Data
    requires TreeOk(fs) && n in fs.nodes
    decreases Uid(fs.nodes[n])
  {
    var node := fs.nodes[n];
    if node.parent.None? then node.stat.name
    else
      assert NodeOk(fs.nodes, n);
      Squeeze(FullPath(fs, node.parent.value) + [SLASH] + node.stat.name)
  }

  /** The loop of Walk: one child after another. */
  function Descend<N>(nodes: Heap<N>, n: N, names: seq<Data>): Option<N>
    requires n in nodes
    decreases |names|
  {
    if names == [] then Some(n)
    else if nodes[n].kind != Directory then None
    else
      var next := Lookup(nodes, nodes[n].children, names[0]);
      if next.None? || next.value !in nodes then None else Descend(nodes, next.value, names[1..])
  }

  // ------------------------------------------------------------------- lookup

  predicate LastNamed<N>(nodes: Heap<N>, cs: seq<N>, name: Data, i: nat) {
    && i < |cs| && NameOf(nodes, cs[i]) == name
    && forall j :: i < j < |cs| ==> NameOf(nodes, cs[j]) != name
  }

  /** Lookup finds the last child of that name, and fails only if there is none. */
  lemma {:induction false} LookupSound<N>(nodes: Heap<N>, cs: seq<N>, name: Data)
    ensures var r := Lookup(nodes, cs, name);
            && (r.None? ==> forall i :: 0 <= i < |cs| ==> NameOf(nodes, cs[i]) != name)
            && (r.Some? ==> exists i: nat :: LastNamed(nodes, cs, name, i) && cs[i] == r.value)
  {
    if cs != [] {
      var k := |cs| - 1;
      if NameOf(nodes, cs[k]) == name {
        assert LastNamed(nodes, cs, name, k);
      } else {
        LookupSound(nodes, cs[..k], name);
        if Lookup(nodes, cs, name).Some? {
          var i: nat :| LastNamed(nodes, cs[..k], name, i) && cs[..k][i] == Lookup(nodes, cs, name).value;
          assert forall j :: i < j < k ==> cs[..k][j] == cs[j];
          assert LastNamed(nodes, cs, name, i);
        }
      }
    }
  }

  lemma ChildFound<N>(fs: FS<N>, d: N, name: Data)
    requires TreeOk(fs) && d in fs.nodes
    ensures var r := Lookup(fs.nodes, fs.nodes[d].children, name);
            r.Some? ==> r.value in fs.nodes && fs.nodes[r.value].parent == Some(d)
                        && fs.nodes[r.value].stat.name == name
  {
    LookupSound(fs.nodes, fs.nodes[d].children, name);
    assert NodeOk(fs.nodes, d);
  }

  lemma LookupIs<N>(nodes: Heap<N>, cs: seq<N>, name: Data, k: nat)
    requires LastNamed(nodes, cs, name, k)
    ensures Lookup(nodes, cs, name) == Some(cs[k])
  {
    LookupSound(nodes, cs, name);
    var i: nat :| LastNamed(nodes, cs, name, i) && cs[i] == Lookup(nodes, cs, name).value;
    assert i == k;
  }

  /** One step down: `b` is the last child of the directory `a` with that name. */
  ghost predicate StepsTo<N>(nodes: Heap<N>, a: N, name: Data, b: N) {
    && a in nodes && b in nodes && nodes[a].kind == Directory
    && exists k: nat :: LastNamed(nodes, nodes[a].children, name, k) && nodes[a].children[k] == b
  }

  /** The nodes along a walk, the start included. */
  ghost predicate Trail<N>(nodes: Heap<N>, path: seq<N>, names: seq<Data>) {
    |path| == |names| + 1 && forall i :: 0 <= i < |names| ==> StepsTo(nodes, path[i], names[i], path[i + 1])
  }

  ghost predicate Leads<N>(nodes: Heap<N>, path: seq<N>, names: seq<Data>, n: N, m: N) {
    Trail(nodes, path, names) && path[0] == n && path[|names|] == m
  }

  lemma {:induction false} TrailFound<N>(nodes: Heap<N>, path: seq<N>, names: seq<Data>)
    requires Trail(nodes, path, names) && path[0] in nodes
    ensures Descend(nodes, path[0], names) == Some(path[|names|])
    decreases |names|
  {
    if names != [] {
      assert StepsTo(nodes, path[0], names[0], path[1]);
      var k: nat :| LastNamed(nodes, nodes[path[0]].children, names[0], k) && nodes[path[0]].children[k] == path[1];
      LookupIs(nodes, nodes[path[0]].children, names[0], k);
      forall i | 0 <= i < |names| - 1 ensures StepsTo(nodes, path[1..][i], names[1..][i], path[1..][i + 1]) {
        assert StepsTo(nodes, path[i + 1], names[i + 1], path[i + 2]);
      }
      TrailFound(nodes, path[1..], names[1..]);
    }
  }

  lemma {:induction false} FoundTrail<N>(nodes: Heap<N>, n: N, names: seq<Data>) returns (path: seq<N>)
    requires n in nodes && Descend(nodes, n, names).Some?
    ensures Leads(nodes, path, names, n, Descend(nodes, n, names).value)
    decreases |names|
  {
    path := [n];
    if names != [] {
      var next := Lookup(nodes, nodes[n].children, names[0]).value;
      LookupSound(nodes, nodes[n].children, names[0]);
      assert StepsTo(nodes, n, names[0], next);
      var rest := FoundTrail(nodes, next, names[1..]);
      path := [n] + rest;
      forall i | 0 <= i < |names| ensures StepsTo(nodes, path[i], names[i], path[i + 1]) {
        if i > 0 { assert StepsTo(nodes, rest[i - 1], names[1..][i - 1], rest[i]); }
      }
    }
  }

  /** A walk succeeds exactly when the names lead from directory to directory, the last child
      of each name counting, and it ends where they end. */
  lemma DescendIff<N>(nodes: Heap<N>, n: N, names: seq<Data>, m: N)
    requires n in nodes
    ensures Descend(nodes, n, names) == Some(m) <==> exists path: seq<N> :: Leads(nodes, path, names, n, m)
  {
    if Descend(nodes, n, names) == Some(m) {
      var path := FoundTrail(nodes, n, names);
      assert Leads(nodes, path, names, n, m);
    }
    if exists path: seq<N> :: Leads(nodes, path, names, n, m) {
      var path: seq<N> :| Leads(nodes, path, names, n, m);
      TrailFound(nodes, path, names);
    }
  }

  // -------------------------------------------------------------------- paths

  predicate SlashFree(s: Data) { forall i :: 0 <= i < |s| ==> s[i] != SLASH }

  predicate NameLike(s: Data) { s != [] && SlashFree(s) }

  predicate NoDouble(s: Data) { forall i :: 0 <= i < |s| - 1 ==> s[i] != SLASH || s[i + 1] != SLASH }

  /** "/" itself, or a path without doubled or trailing slashes. */
  predicate Clean(p: Data) { p == [SLASH] || (p != [] && p[|p| - 1] != SLASH && NoDouble(p)) }

  function Extend(p: Data, name: Data): Data { if p == [SLASH] then p + name else p + [SLASH] + name }

  function ExtendAll(p: Data, names: seq<Data>): Data
    decreases |names|
  { if names == [] then p else ExtendAll(Extend(p, names[0]), names[1..]) }

  lemma {:induction false} SqueezeNothing(s: Data)
    requires NoDouble(s)
    ensures Squeeze(s) == s
  {
    if |s| >= 2 {
      SqueezeNothing(s[1..]);
      assert s == [s[0]] + s[1..];
    }
  }

  /** Joining a child's name onto a clean path. */
  lemma SqueezeJoin(p: Data, name: Data)
    requires Clean(p) && NameLike(name)
    ensures Squeeze(p + [SLASH] + name) == Extend(p, name)
    ensures Clean(Extend(p, name))
  {
    var s := p + [SLASH] + name;
    if p == [SLASH] {
      assert s[2..] == name;
      SqueezeNothing(name);
    } else {
      SqueezeNothing(s);
    }
  }

  /** The path without its last name. */
  function Above(p: Data): Data {
    if p == [] then [SLASH]
    else if p[|p| - 1] == SLASH then if |p| == 1 then p else p[..|p| - 1]
    else Above(p[..|p| - 1])
  }

  lemma {:induction false} AboveName(p: Data, name: Data)
    requires SlashFree(name)
    ensures Above(p + [SLASH] + name) == if p == [] then [SLASH] else p
  {
    var s := p + [SLASH] + name;
    if name == [] {
      assert s == p + [SLASH] && s[..|s| - 1] == p;
    } else {
      var k := |name| - 1;
      AboveName(p, name[..k]);
      assert s[..|s| - 1] == p + [SLASH] + name[..k];
    }
  }

  lemma AboveExtend(p: Data, name: Data)
    requires Clean(p) && NameLike(name)
    ensures Above(Extend(p, name)) == p
  {
    if p == [SLASH] {
      AboveName([], name);
      assert [] + [SLASH] + name == p + name;
    } else {
      AboveName(p, name);
    }
  }

  /** A walk along proper names leads to the node whose path is the start's path
      extended by those names. */
  lemma {:induction false} DescendPath<N>(fs: FS<N>, n: N, names: seq<Data>)
    requires TreeOk(fs) && n in fs.nodes && Clean(FullPath(fs, n))
    requires forall i :: 0 <= i < |names| ==> NameLike(names[i])
    requires Descend(fs.nodes, n, names).Some?
    ensures var m := Descend(fs.nodes, n, names).value;
            m in fs.nodes && FullPath(fs, m) == ExtendAll(FullPath(fs, n), names)
    decreases |names|
  {
    if names != [] {
      var c := Lookup(fs.nodes, fs.nodes[n].children, names[0]).value;
      ChildFound(fs, n, names[0]);
      SqueezeJoin(FullPath(fs, n), names[0]);
      assert FullPath(fs, c) == Extend(FullPath(fs, n), names[0]);
      DescendPath(fs, c, names[1..]);
    }
  }

  /** The names joined with slashes, the first without one before it. */
  function JoinSlash(names: seq<Data>): Data {
    if names == [] then [] else if |names| == 1 then names[0]
    else JoinSlash(names[..|names| - 1]) + [SLASH] + names[|names| - 1]
  }

  lemma {:induction false} ExtendAllSnoc(p: Data, names: seq<Data>, last: Data)
    ensures ExtendAll(p, names + [last]) == Extend(ExtendAll(p, names), last)
    decreases |names|
  {
    if names == [] { assert (names + [last])[1..] == []; }
    else {
      ExtendAllSnoc(Extend(p, names[0]), names[1..], last);
      assert (names + [last])[1..] == names[1..] + [last];
    }
  }

  lemma {:induction false} RootPath(names: seq<Data>)
    requires forall i :: 0 <= i < |names| ==> NameLike(names[i])
    ensures ExtendAll([SLASH], names) == [SLASH] + JoinSlash(names)
    ensures names != [] ==> |JoinSlash(names)| > 0
  {
    if names == [] { assert [SLASH] + [] == [SLASH]; }
    else {
      var k := |names| - 1;
      RootPath(names[..k]);
      ExtendAllSnoc([SLASH], names[..k], names[k]);
      assert names == names[..k] + [names[k]];
      if k == 0 { assert [SLASH] + [] == [SLASH]; }
    }
  }

  /** A walk from the root along `w` ends at the node whose path is "/" followed by `w`
      joined with "/". */
  lemma WalkFromRoot<N>(fs: FS<N>, w: seq<Data>)
    requires TreeOk(fs) && fs.nodes[fs.root].stat.name == [SLASH]
    requires forall i :: 0 <= i < |w| ==> NameLike(w[i])
    requires Descend(fs.nodes, fs.root, w).Some?
    ensures Descend(fs.nodes, fs.root, w).value in fs.nodes
    ensures FullPath(fs, Descend(fs.nodes, fs.root, w).value) == [SLASH] + JoinSlash(w)
  {
    DescendPath(fs, fs.root, w);
    RootPath(w);
  }
}
