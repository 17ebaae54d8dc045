/** The tree as the objects it is: nodes whose fields change in place, refining FileTree. */
module TreeObjects {
  import opened Bytes
  import opened Proto
  import opened FileTree
  import Paths
  import TreeLaws
  import FileServer

  /** StaticDir, StaticFile and the authentication file, told apart by `kind`. */
  class FSNode {
    const kind: Kind
    var stat: Stat
    var parent: Option<FSNode>
    var children: seq<FSNode>
    var data: Data

    ghost function Value(): Node<FSNode>
      reads this
    { Node(kind, stat, parent, children, data) }

    constructor (kind: Kind, stat: Stat)
      ensures Value() == Node(kind, stat, None, [], [])
    {
      this.kind, this.stat, this.parent, this.children, this.data := kind, stat, None, [], [];
    }

    /** fs/static.go:21-27, 84-95: a directory is marked as one in mode and qid. */
    constructor Make(stat: Stat)
      ensures Value() == if DirBit(stat.mode) then NewDir(stat) else NewFile(stat)
    {
      kind := if DirBit(stat.mode) then Directory else Regular;
      this.stat := if DirBit(stat.mode) then stat.(qid := stat.qid.(qtype := HighByte(stat.mode)))
                   else stat.(length := 0);
      parent, children, data := None, [], [];
    }

    /** fs/static.go:29-34, 97-99 */
    function Stat(): (r: Stat)
      reads this
      ensures r == StatOf(Value())
    {
      if kind == Directory then stat else stat.(length := if kind == Regular then Wrap64(|data|) else 0)
    }

    /** fs/static.go:45-56 */
    method Read(offset: u64, count: u32) returns (r: Data)
      ensures r == ReadAt(data, offset, count)
    {
      if offset >= |data| { return []; }
      var n := count;
      if offset + n > |data| { n := |data| - offset; }
      return data[offset..offset + n];
    }

    /** fs/static.go:58-72: grow by appending zeroes, then copy byte by byte. The sum is
        uint64 arithmetic; if it goes round the bounds of the slice to copy into are out of
        order. */
    method Write(offset: u64, d: Data) returns (panicked: bool)
      modifies this`data
      ensures panicked <==> WritePanics(|old(data)|, offset, |d|)
      ensures data == Written(old(data), offset, d)
    {
      var end := Wrap64(offset + |d|);
      if end > |data| {
        if end > MAX_ALLOC { return true; }
        data := data + Zeros(end - |data|);
      }
      if end < offset + |d| { return true; }
      ghost var grown := data;
      var i := 0;
      while i < |d|
        invariant 0 <= i <= |d| && |data| == |grown|
        invariant forall j :: 0 <= j < |data| ==>
                    data[j] == if offset <= j < offset + i then d[j - offset] else grown[j]
      {
        data := data[offset + i := d[i]];
        i := i + 1;
      }
      assert data == grown[..offset] + d + grown[offset + |d|..];
      return false;
    }
  }

  /** The values of a set of node objects. */
  ghost function Values(nodes: set<FSNode>): (h: Heap<FSNode>)
    reads nodes
    ensures h.Keys == nodes
  { map n | n in nodes :: n.Value() }

  /** Every child of a node is a node. */
  ghost predicate Within(h: Heap<FSNode>) { forall x, c :: x in h && c in h[x].children ==> c in h }

  ghost predicate SelfContained(nodes: set<FSNode>)
    reads nodes
  { Within(Values(nodes)) }

  /** What Lookup says about every name, as the map Children returns. */
  ghost predicate IsChildMap(nodes: Heap<FSNode>, cs: seq<FSNode>, m: map<Data, FSNode>) {
    forall name :: if Lookup(nodes, cs, name).Some? then name in m && m[name] == Lookup(nodes, cs, name).value
                   else name !in m
  }

  lemma ChildMapStep(nodes: Heap<FSNode>, cs: seq<FSNode>, m: map<Data, FSNode>, c: FSNode)
    requires IsChildMap(nodes, cs, m)
    ensures IsChildMap(nodes, cs + [c], m[NameOf(nodes, c) := c])
  {
    forall name
      ensures Lookup(nodes, cs + [c], name) == if NameOf(nodes, c) == name then Some(c) else Lookup(nodes, cs, name)
    {
      assert (cs + [c])[..|cs|] == cs;
    }
  }

  /** fs/static.go:120-128 */
  method Children(ghost nodes: set<FSNode>, d: FSNode) returns (m: map<Data, FSNode>)
    requires SelfContained(nodes) && d in nodes
    ensures IsChildMap(Values(nodes), d.children, m)
  {
    m := map[];
    var i := 0;
    ghost var h := Values(nodes);
    while i < |d.children|
      invariant 0 <= i <= |d.children| && IsChildMap(h, d.children[..i], m)
    {
      var c := d.children[i];
      ChildMapStep(h, d.children[..i], m, c);
      assert d.children[..i] + [c] == d.children[..i + 1];
      m := m[c.stat.name := c];
      i := i + 1;
    }
    assert d.children[..i] == d.children;
  }

  lemma {:induction false} NoDupCount(a: seq<FSNode>, x: FSNode)
    requires TreeLaws.NoDup(a)
    ensures multiset(a)[x] == if x in a then 1 else 0
  {
    if a != [] {
      var k := |a| - 1;
      NoDupCount(a[..k], x);
      assert a == a[..k] + [a[k]];
      assert a[k] !in a[..k];
    }
  }

  lemma SameMembers(a: seq<FSNode>, b: seq<FSNode>)
    requires TreeLaws.NoDup(a) && TreeLaws.NoDup(b) && forall x :: x in a <==> x in b
    ensures multiset(a) == multiset(b)
  {
    forall x: FSNode ensures multiset(a)[x] == multiset(b)[x] { NoDupCount(a, x); NoDupCount(b, x); }
  }

  /** The visible children are those a lookup of their own name finds, each once. */
  lemma {:induction false} VisibleMember(h: Heap<FSNode>, cs: seq<FSNode>, x: FSNode)
    ensures x in Visible(h, cs) <==> x in cs && Lookup(h, cs, NameOf(h, x)) == Some(x)
  {
    if cs != [] {
      var k := |cs| - 1;
      VisibleMember(h, cs[..k], x);
      TreeLaws.KeepMember(h, Visible(h, cs[..k]), NameOf(h, cs[k]), x);
    }
  }

  lemma {:induction false} VisibleNoDup(h: Heap<FSNode>, cs: seq<FSNode>)
    ensures TreeLaws.NoDup(Visible(h, cs))
  {
    if cs != [] {
      var k := |cs| - 1;
      VisibleNoDup(h, cs[..k]);
      TreeLaws.KeepNoDup(h, Visible(h, cs[..k]), NameOf(h, cs[k]));
      TreeLaws.KeepMember(h, Visible(h, cs[..k]), NameOf(h, cs[k]), cs[k]);
    }
  }

  lemma MapNames(h: Heap<FSNode>, cs: seq<FSNode>, m: map<Data, FSNode>, name: Data)
    requires IsChildMap(h, cs, m) && name in m
    ensures NameOf(h, m[name]) == name && m[name] in cs
  { Paths.LookupSound(h, cs, name); }

  /** The values of the map, in the order the keys come, are the visible children. */
  lemma ListsVisible(h: Heap<FSNode>, cs: seq<FSNode>, m: map<Data, FSNode>, order: seq<FSNode>)
    requires IsChildMap(h, cs, m) && TreeLaws.NoDup(order)
    requires forall x :: x in order <==> exists k :: k in m && m[k] == x
    ensures FileServer.IsPermutation(order, Visible(h, cs))
  {
    forall x ensures x in order <==> x in Visible(h, cs) {
      VisibleMember(h, cs, x);
      if x in order {
        var k :| k in m && m[k] == x;
        MapNames(h, cs, m, k);
      }
    }
    VisibleNoDup(h, cs);
    SameMembers(order, Visible(h, cs));
  }

  /** fs/server.go:260-264: ranging over the map, in whatever order. */
  method ListChildren(ghost nodes: set<FSNode>, d: FSNode) returns (order: seq<FSNode>)
    requires SelfContained(nodes) && d in nodes
    ensures FileServer.IsPermutation(order, Visible(Values(nodes), d.children))
  {
    var m := Children(nodes, d);
    ghost var h := Values(nodes);
    var keys := m.Keys;
    order := [];
    while keys != {}
      invariant keys <= m.Keys && TreeLaws.NoDup(order)
      invariant forall x :: x in order <==> exists k :: k in m && k !in keys && m[k] == x
      decreases |keys|
    {
      var k :| k in keys;
      if m[k] in order {
        var k' :| k' in m && k' !in keys && m[k'] == m[k];
        MapNames(h, d.children, m, k');
      }
      MapNames(h, d.children, m, k);
      assert forall x :: x in order + [m[k]] <==> x in order || x == m[k];
      order := order + [m[k]];
      keys := keys - {k};
    }
    ListsVisible(h, d.children, m, order);
  }

  lemma {:induction false} LookupPrefix(nodes: Heap<FSNode>, cs: seq<FSNode>, name: Data)
    requires forall c :: c in cs ==> NameOf(nodes, c) != name
    ensures Lookup(nodes, cs, name).None?
  { if cs != [] { LookupPrefix(nodes, cs[..|cs| - 1], name); } }

  lemma {:induction false} LookupHit(nodes: Heap<FSNode>, cs: seq<FSNode>, name: Data, i: nat)
    requires i < |cs| && NameOf(nodes, cs[i]) == name
    ensures Lookup(nodes, cs, name).Some?
  { if i < |cs| - 1 { LookupHit(nodes, cs[..|cs| - 1], name, i); } }

  /** fs/static.go:130-142 */
  method LinkChild(ghost nodes: set<FSNode>, d: FSNode, n: FSNode) returns (ok: bool)
    requires SelfContained(nodes) && d in nodes && n in nodes
    modifies d`children, n`parent
    ensures SelfContained(nodes)
    ensures ok == FileTree.AddChild(old(Values(nodes)), d, n).Some?
    ensures Values(nodes) == if ok then FileTree.AddChild(old(Values(nodes)), d, n).value else old(Values(nodes))
  {
    hide Lookup, Within;
    var taken := Taken(nodes, d, n.stat.name);
    if taken { return false; }
    ghost var h := Values(nodes);
    AddedWithin(h, d, n);
    d.children := d.children + [n];
    n.parent := Some(d);
    assert Values(nodes) == FileTree.AddChild(h, d, n).value;
    return true;
  }

  lemma AddedWithin(h: Heap<FSNode>, d: FSNode, n: FSNode)
    requires Within(h) && d in h && n in h
    ensures FileTree.AddChild(h, d, n).Some? ==> Within(FileTree.AddChild(h, d, n).value)
  { hide Lookup; }

  /** Whether some child has the name. */
  method Taken(ghost nodes: set<FSNode>, d: FSNode, name: Data) returns (r: bool)
    requires SelfContained(nodes) && d in nodes
    ensures r == Lookup(Values(nodes), d.children, name).Some?
  {
    ghost var h := Values(nodes);
    for i := 0 to |d.children|
      invariant forall c :: c in d.children[..i] ==> NameOf(h, c) != name
    {
      if d.children[i].stat.name == name {
        LookupHit(h, d.children, name, i);
        return true;
      }
    }
    assert d.children[..|d.children|] == d.children;
    LookupPrefix(h, d.children, name);
    return false;
  }

  lemma {:induction false} KeepStep(nodes: Heap<FSNode>, cs: seq<FSNode>, i: nat, name: Data)
    requires i < |cs|
    ensures Keep(nodes, cs[..i + 1], name) ==
            Keep(nodes, cs[..i], name) + if NameOf(nodes, cs[i]) == name then [] else [cs[i]]
    ensures |Keep(nodes, cs[..i], name)| <= i
    decreases i
  {
    assert cs[..i + 1] == cs[..i] + [cs[i]];
    TreeLaws.KeepSnoc(nodes, cs[..i], cs[i], name);
    if i > 0 { KeepStep(nodes, cs, i - 1, name); }
  }

  /** Where the compaction stands after `i` children: the kept ones moved to the front,
      those of the name without a parent, all else as before. */
  ghost predicate Compacting(h: Heap<FSNode>, nodes: set<FSNode>, d: FSNode, name: Data, i: nat)
    requires d in nodes && nodes == h.Keys && i <= |h[d].children|
    reads nodes
  {
    var cs := h[d].children;
    var kept := Keep(h, cs[..i], name);
    && |kept| <= i
    && d.children == kept + cs[|kept|..]
    && forall x :: x in nodes ==>
         x.Value() == h[x].(children := x.children, parent := Cleared(h, cs[..i], name, x)) &&
         (x != d ==> x.children == h[x].children)
  }

  function Cleared(h: Heap<FSNode>, cs: seq<FSNode>, name: Data, x: FSNode): Option<FSNode>
    requires x in h
  { if x in cs && NameOf(h, x) == name then None else h[x].parent }

  lemma ClearedStep(h: Heap<FSNode>, cs: seq<FSNode>, i: nat, name: Data, x: FSNode)
    requires x in h && i < |cs|
    ensures Cleared(h, cs[..i + 1], name, x) ==
            if x == cs[i] && NameOf(h, x) == name then None else Cleared(h, cs[..i], name, x)
  { assert cs[..i + 1] == cs[..i] + [cs[i]]; }

  lemma WithinAt(h: Heap<FSNode>, d: FSNode, i: nat)
    requires Within(h) && d in h && i < |h[d].children|
    ensures h[d].children[i] in h
  {}

  /** fs/static.go:144-158: the list is compacted in place. */
  method UnlinkChild(ghost nodes: set<FSNode>, d: FSNode, name: Data)
    requires SelfContained(nodes) && d in nodes
    modifies d`children, nodes`parent
    ensures SelfContained(nodes)
    ensures Values(nodes) == FileTree.DeleteChild(old(Values(nodes)), d, name)
  {
    hide *;
    ghost var h := Values(nodes);
    ghost var cs := d.children;
    var n, k, i := |d.children|, 0, 0;
    CompactStart(h, nodes, d, name);
    while i < n
      invariant 0 <= i <= n && k == |Keep(h, cs[..i], name)|
      invariant Compacting(h, nodes, d, name, i)
    {
      k := DeleteOne(h, nodes, d, name, i, k);
      i := i + 1;
    }
    assert cs[..n] == cs;
    Truncate(h, nodes, d, name, k);
  }

  lemma CompactStart(h: Heap<FSNode>, nodes: set<FSNode>, d: FSNode, name: Data)
    requires SelfContained(nodes) && d in nodes && h == Values(nodes)
    ensures Within(h) && h[d].children == d.children
    ensures Compacting(h, nodes, d, name, 0) && |Keep(h, h[d].children[..0], name)| == 0
  { KeepNil(h, name); }

  method DeleteOne(ghost h: Heap<FSNode>, ghost nodes: set<FSNode>, d: FSNode, name: Data, i: nat, k: nat)
    returns (k': nat)
    requires d in nodes && nodes == h.Keys && i < |h[d].children| && k == |Keep(h, h[d].children[..i], name)|
    requires Within(h) && Compacting(h, nodes, d, name, i)
    modifies d`children, nodes`parent
    ensures Compacting(h, nodes, d, name, i + 1)
    ensures k' == |Keep(h, h[d].children[..i + 1], name)|
  {
    hide Keep, Within, Cleared;
    ghost var cs := h[d].children;
    KeepStep(h, cs, i, name);
    CompactStep(h, cs, i, k, name, d.children);
    WithinAt(h, d, i);
    forall x | x in nodes
      ensures Cleared(h, cs[..i + 1], name, x) ==
              if x == cs[i] && NameOf(h, x) == name then None else Cleared(h, cs[..i], name, x)
    { ClearedStep(h, cs, i, name, x); }
    var c := d.children[i];
    if c.stat.name != name {
      d.children := d.children[k := c];
      return k + 1;
    }
    c.parent := None;
    return k;
  }

  method Truncate(ghost h: Heap<FSNode>, ghost nodes: set<FSNode>, d: FSNode, name: Data, k: nat)
    requires d in nodes && nodes == h.Keys && k == |Keep(h, h[d].children, name)|
    requires Within(h) && Compacting(h, nodes, d, name, |h[d].children|)
    modifies d`children
    ensures SelfContained(nodes) && Values(nodes) == FileTree.DeleteChild(h, d, name)
  {
    hide Keep;
    ghost var cs := h[d].children;
    assert cs[..|cs|] == cs;
    d.children := d.children[..k];
    forall c ensures c in Keep(h, cs, name) ==> c in cs { TreeLaws.KeepMember(h, cs, name, c); }
  }

  lemma KeepNil(h: Heap<FSNode>, name: Data)
    ensures Keep(h, [], name) == []
  {}

  /** The next child is still in its place, and moving it down extends the kept front. */
  lemma CompactStep(h: Heap<FSNode>, cs: seq<FSNode>, i: nat, k: nat, name: Data, now: seq<FSNode>)
    requires i < |cs| && k <= i && k == |Keep(h, cs[..i], name)| && now == Keep(h, cs[..i], name) + cs[k..]
    ensures |now| == |cs| && now[i] == cs[i]
    ensures now[k := cs[i]] == Keep(h, cs[..i], name) + [cs[i]] + cs[k + 1..]
  {}

  lemma ChildInside(h: Heap<FSNode>, d: FSNode, name: Data)
    requires Within(h) && d in h && Lookup(h, h[d].children, name).Some?
    ensures Lookup(h, h[d].children, name).value in h
  { Paths.LookupSound(h, h[d].children, name); }

  /** FS, with a ghost record of all its nodes. */
  class FileSystem {
    const root: FSNode
    var uid: nat
    ghost var nodes: set<FSNode>

    ghost predicate Valid()
      reads this, nodes
    { SelfContained(nodes) && root in nodes }

    ghost function View(): FS<FSNode>
      reads this, nodes
    { FS(Values(nodes), root, uid) }

    /** fs/filesystem.go:215-223 */
    constructor (user: Data, group: Data, perms: u32, now: u32)
      ensures Valid() && fresh(nodes) && View() == NewFS(root, user, group, perms, now)
    {
      var d := new FSNode.Make(NewStat(0, [47], user, group, WithDirBit(perms), now));
      root, uid, nodes := d, 1, {d};
    }

    method WriteData(n: FSNode, offset: u64, d: Data) returns (panicked: bool)
      requires Valid() && n in nodes
      modifies n
      ensures Valid() && (panicked <==> WritePanics(|old(n.data)|, offset, |d|))
      ensures View() == SetData(old(View()), n, Written(old(n.data), offset, d))
    {
      hide Written;
      panicked := n.Write(offset, d);
    }

    /** fs/static.go:36-43 */
    method Truncate(n: FSNode)
      requires Valid() && n in nodes
      modifies n
      ensures Valid() && View() == SetData(old(View()), n, [])
    { n.data := []; }

    /** fs/filesystem.go:146-151, fs/static.go:101-106 */
    method WriteStat(n: FSNode, stat: Stat)
      requires Valid() && n in nodes
      modifies n
      ensures Valid() && View() == SetStat(old(View()), n, stat)
    { n.stat := stat; }

    /** fs/static.go:163-184 */
    method CreateStatic(d: FSNode, user: Data, name: Data, perm: u32, now: u32) returns (n: FSNode, ok: bool)
      requires Valid() && d in nodes
      modifies this, d
      ensures Valid() && fresh(n) && n !in old(nodes) && nodes == old(nodes) + {n} && n.kind != AuthStream
      ensures (View(), ok) == Create(old(View()), d, n, user, name, perm, now)
    {
      hide FileTree.AddChild, SelfContained, NewDir, NewFile;
      n := Loose(NewStat(uid, name, user, user, perm, now));
      uid := uid + 1;
      ok := LinkChild(nodes, d, n);
    }

    /** A new node that nothing refers to yet. */
    method Loose(stat: Stat) returns (n: FSNode)
      requires Valid()
      modifies this`nodes
      ensures Valid() && fresh(n) && n !in old(nodes) && nodes == old(nodes) + {n} && n.kind != AuthStream
      ensures Values(nodes) == old(Values(nodes))[n := if DirBit(stat.mode) then NewDir(stat) else NewFile(stat)]
    {
      n := new FSNode.Make(stat);
      nodes := nodes + {n};
    }

    /** fs/server.go:116-120: the file of an authentication, in no directory. */
    method AuthFile(stat: Stat) returns (n: FSNode)
      requires Valid()
      modifies this
      ensures Valid() && fresh(n) && n !in old(nodes) && nodes == old(nodes) + {n}
      ensures View() == old(View()).(nodes := old(View()).nodes[n := Node(AuthStream, stat, None, [], [])],
                                     uid := old(uid) + 1)
    {
      n := new FSNode(AuthStream, stat);
      nodes := nodes + {n};
      uid := uid + 1;
    }

    /** fs/filesystem.go:263-269 */
    method RMFile(n: FSNode) returns (ok: bool)
      requires Valid() && n in nodes && (n.parent.Some? ==> n.parent.value in nodes)
      modifies nodes
      ensures Valid() && (View(), ok) == Remove(old(View()), n)
    {
      if n.parent.None? || n.parent.value.kind != Directory { return false; }
      UnlinkChild(nodes, n.parent.value, n.stat.name);
      hide FileTree.DeleteChild, Within;
      return true;
    }

    /** fs/server.go:205-234: the loop of Walk. */
    method WalkLoop(n: FSNode, names: seq<Data>) returns (m: Option<FSNode>, qids: seq<Qid>)
      requires Valid() && n in nodes
      ensures m == Paths.Descend(Values(nodes), n, names)
      ensures m.Some? ==> m.value in nodes && qids == FileServer.WalkQids(Values(nodes), n, names)
    {
      ghost var h := Values(nodes);
      var cur, i := n, 0;
      qids := [];
      assert names[0..] == names;
      while i < |names|
        invariant 0 <= i <= |names| && cur in nodes
        invariant Paths.Descend(h, cur, names[i..]) == Paths.Descend(h, n, names)
        invariant qids + FileServer.WalkQids(h, cur, names[i..]) == FileServer.WalkQids(h, n, names)
      {
        assert names[i..][1..] == names[i + 1..];
        if cur.kind != Directory { return None, qids; }
        var children := Children(nodes, cur);
        if names[i] !in children { return None, qids; }
        ChildInside(h, cur, names[i]);
        cur := children[names[i]];
        ghost var rest := FileServer.WalkQids(h, cur, names[i + 1..]);
        assert qids + ([cur.stat.qid] + rest) == (qids + [cur.stat.qid]) + rest;
        qids := qids + [cur.stat.qid];
        i := i + 1;
      }
      assert qids + [] == qids;
      return Some(cur), qids;
    }
  }
}
