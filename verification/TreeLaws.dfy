/** What every operation on the tree keeps, and the paths it gives. */
module TreeLaws {
  import opened Bytes
  import opened Proto
  import opened FileTree

  predicate NoDup<N(==)>(cs: seq<N>) { forall i, j :: 0 <= i < j < |cs| ==> cs[i] != cs[j] }

  /** Children and parent pointers agree. */
  ghost predicate NodeOk<N>(nodes: Heap<N>, x: N)
    requires x in nodes
  {
    var n := nodes[x];
    && NoDup(n.children)
    && (forall c :: c in n.children ==> c in nodes && nodes[c].parent == Some(x))
    && (n.parent.Some? ==> n.parent.value in nodes && x in nodes[n.parent.value].children)
    && (n.kind != Directory ==> n.children == [])
  }

  ghost predicate Linked<N>(nodes: Heap<N>) { forall x :: x in nodes ==> NodeOk(nodes, x) }

  function Uid<N>(n: Node<N>): nat { n.stat.qid.uid }

  /** Uids are distinct and below the counter, and a child is younger than its parent. */
  ghost predicate Aged<N>(nodes: Heap<N>, uid: nat) {
    && (forall x :: x in nodes ==> Uid(nodes[x]) < uid)
    && (forall x, y :: x in nodes && y in nodes && x != y ==> Uid(nodes[x]) != Uid(nodes[y]))
    && (forall x :: x in nodes && nodes[x].parent.Some? && nodes[x].parent.value in nodes ==>
          Uid(nodes[nodes[x].parent.value]) < Uid(nodes[x]))
  }

  /** The qid's type byte is the mode's high byte, and the directory bit tells the kind. */
  predicate KindOk<N>(n: Node<N>) {
    n.stat.qid.qtype == HighByte(n.stat.mode) && (DirBit(n.stat.mode) <==> n.kind == Directory)
  }

  ghost predicate KindsOk<N>(nodes: Heap<N>) { forall x :: x in nodes ==> KindOk(nodes[x]) }

  ghost predicate TreeOk<N>(fs: FS<N>) {
    && Linked(fs.nodes) && Aged(fs.nodes, fs.uid) && KindsOk(fs.nodes)
    && fs.uid <= TWO64
    && fs.root in fs.nodes && fs.nodes[fs.root].kind == Directory && fs.nodes[fs.root].parent == None
  }

  // ---------------------------------------------------------------- mode bits

  lemma HighByteDir(mode: u32)
    ensures HighByte(mode) >= 128 <==> DirBit(mode)
  {}

  /** Replacing the permission bits leaves everything above them alone. */
  lemma PermKeepsKind(mode: u32, perm: u32)
    ensures HighByte(WithPerm(mode, perm)) == HighByte(mode)
    ensures DirBit(WithPerm(mode, perm)) <==> DirBit(mode)
    ensures WithPerm(mode, perm) % 512 == perm % 512
    ensures WithPerm(mode, perm) / 512 == mode / 512
  {
    var m := WithPerm(mode, perm);
    assert m == 512 * (mode / 512) + perm % 512;
    assert m / 0x100_0000 == (m / 512) / 0x8000;
    assert mode / 0x100_0000 == (mode / 512) / 0x8000;
  }

  // ---------------------------------------------------------------- operations

  lemma NewFSOk<N>(root: N, user: Data, group: Data, perms: u32, now: u32)
    ensures TreeOk(NewFS(root, user, group, perms, now))
  {}

  /** A new node that nothing refers to yet. */
  lemma KindsSet<N>(nodes: Heap<N>, n: N, node: Node<N>)
    requires KindsOk(nodes) && KindOk(node)
    ensures KindsOk(nodes[n := node])
  { hide KindOk; }

  lemma LooseLinked<N>(nodes: Heap<N>, n: N, node: Node<N>)
    requires Linked(nodes) && n !in nodes && node.parent == None && node.children == []
    ensures Linked(nodes[n := node])
  {
    var nodes' := nodes[n := node];
    forall x | x in nodes' ensures NodeOk(nodes', x) { if x != n { assert NodeOk(nodes, x); } }
  }

  lemma LooseAged<N>(nodes: Heap<N>, uid: nat, n: N, node: Node<N>)
    requires Aged(nodes, uid) && n !in nodes && node.parent == None && Uid(node) == uid
    requires Linked(nodes)
    ensures Aged(nodes[n := node], uid + 1)
  {
    hide Uid;
    forall x | x in nodes && nodes[x].parent.Some? ensures nodes[x].parent.value in nodes { assert NodeOk(nodes, x); }
  }

  lemma LooseKeeps<N>(fs: FS<N>, n: N, node: Node<N>)
    requires TreeOk(fs) && n !in fs.nodes && fs.uid < TWO64
    requires node.parent == None && node.children == [] && KindOk(node) && Uid(node) == fs.uid
    ensures TreeOk(fs.(nodes := fs.nodes[n := node], uid := fs.uid + 1))
  {
    hide Linked, Aged, KindsOk, KindOk;
    LooseLinked(fs.nodes, n, node);
    LooseAged(fs.nodes, fs.uid, n, node);
    KindsSet(fs.nodes, n, node);
  }

  /** Linking a loose node below a directory older than it. */
  lemma LinkKeeps<N>(nodes: Heap<N>, d: N, n: N)
    requires Linked(nodes) && d in nodes && n in nodes && d != n
    requires nodes[d].kind == Directory && nodes[n].parent == None
    ensures AddChild(nodes, d, n).Some? ==> Linked(AddChild(nodes, d, n).value)
  {
    if AddChild(nodes, d, n).Some? {
      forall x | x in nodes ensures NodeOk(AddChild(nodes, d, n).value, x) {
        assert NodeOk(nodes, n) && NodeOk(nodes, d) && NodeOk(nodes, x);
        LinkedNode(nodes, d, n, x);
      }
    }
    hide Lookup, NodeOk;
  }

  lemma LinkedNode<N>(nodes: Heap<N>, d: N, n: N, x: N)
    requires d in nodes && n in nodes && x in nodes && d != n && NodeOk(nodes, d) && NodeOk(nodes, n)
             && NodeOk(nodes, x)
    requires nodes[d].kind == Directory && nodes[n].parent == None && AddChild(nodes, d, n).Some?
    ensures NodeOk(AddChild(nodes, d, n).value, x)
  {
    hide Lookup, NoDup;
    var cs := nodes[d].children;
    assert n !in cs;
    NoDupSnoc(cs, n);
    if x == d { assert forall c :: c in cs + [n] <==> c in cs || c == n; }
    else if x == n { assert n in cs + [n]; }
  }

  lemma NoDupSnoc<N>(cs: seq<N>, n: N)
    requires NoDup(cs) && n !in cs
    ensures NoDup(cs + [n])
  {}

  lemma CreatedOk<N>(uid: nat, user: Data, name: Data, perm: u32, now: u32)
    ensures var n: Node<N> := Created(uid, user, name, perm, now);
            KindOk(n) && (uid < TWO64 ==> Uid(n) == uid) && n.parent == None && n.children == [] && n.stat.name == name
  {}

  /** Same nodes with the same stats; only links differ. */
  ghost predicate Relinked<N>(nodes: Heap<N>, nodes': Heap<N>) {
    && nodes'.Keys == nodes.Keys
    && forall x :: x in nodes ==> nodes'[x].stat == nodes[x].stat && nodes'[x].kind == nodes[x].kind
  }

  /** A new parent pointer must lead to an older node. */
  ghost predicate OlderParents<N>(nodes: Heap<N>, nodes': Heap<N>)
    requires Relinked(nodes, nodes')
  {
    forall x :: x in nodes ==>
      || nodes'[x].parent == None || nodes'[x].parent == nodes[x].parent
      || (nodes'[x].parent.value in nodes && Uid(nodes[nodes'[x].parent.value]) < Uid(nodes[x]))
  }

  lemma RelinkKeeps<N>(fs: FS<N>, nodes': Heap<N>)
    requires TreeOk(fs) && Linked(nodes') && Relinked(fs.nodes, nodes') && OlderParents(fs.nodes, nodes')
    requires nodes'[fs.root].parent == None
    ensures TreeOk(fs.(nodes := nodes'))
  {
    hide Linked;
  }

  lemma LinkTree<N>(fs: FS<N>, d: N, n: N)
    requires TreeOk(fs) && d in fs.nodes && n in fs.nodes
    requires fs.nodes[d].kind == Directory && fs.nodes[n].parent == None && n != fs.root
    requires Uid(fs.nodes[d]) < Uid(fs.nodes[n])
    ensures AddChild(fs.nodes, d, n).Some? ==> TreeOk(fs.(nodes := AddChild(fs.nodes, d, n).value))
  {
    hide Linked, Aged, KindsOk;
    LinkKeeps(fs.nodes, d, n);
    if AddChild(fs.nodes, d, n).Some? { RelinkKeeps(fs, AddChild(fs.nodes, d, n).value); }
  }

  lemma CreateKeeps<N>(fs: FS<N>, d: N, n: N, user: Data, name: Data, perm: u32, now: u32)
    requires TreeOk(fs) && d in fs.nodes && n !in fs.nodes && fs.uid < TWO64
    requires fs.nodes[d].kind == Directory
    ensures TreeOk(Create(fs, d, n, user, name, perm, now).0)
  {
    hide AddChild, Created, Linked, KindsOk;
    var node: Node<N> := Created(fs.uid, user, name, perm, now);
    CreatedOk<N>(fs.uid, user, name, perm, now);
    LooseKeeps(fs, n, node);
    LinkTree(fs.(nodes := fs.nodes[n := node], uid := fs.uid + 1), d, n);
  }

  lemma {:induction false} KeepMember<N>(nodes: Heap<N>, cs: seq<N>, name: Data, x: N)
    ensures x in Keep(nodes, cs, name) <==> x in cs && NameOf(nodes, x) != name
  {
    if cs != [] { KeepMember(nodes, cs[1..], name, x); }
  }

  lemma {:induction false} KeepNoDup<N>(nodes: Heap<N>, cs: seq<N>, name: Data)
    requires NoDup(cs)
    ensures NoDup(Keep(nodes, cs, name))
  {
    if cs != [] {
      KeepNoDup(nodes, cs[1..], name);
      KeepMember(nodes, cs[1..], name, cs[0]);
      assert cs[0] !in cs[1..];
    }
  }

  lemma DeletedNode<N>(nodes: Heap<N>, d: N, name: Data, x: N)
    requires d in nodes && x in nodes && NodeOk(nodes, d) && NodeOk(nodes, x)
    ensures NodeOk(DeleteChild(nodes, d, name), x)
  {
    var nodes', cs := DeleteChild(nodes, d, name), nodes[d].children;
    assert cs == [] ==> Keep(nodes, cs, name) == [];
    hide Keep, NoDup;
    KeepNoDup(nodes, cs, name);
    forall c | c in nodes'[x].children ensures c in nodes' && nodes'[c].parent == Some(x) {
      if x == d { KeepMember(nodes, cs, name, c); }
    }
    if nodes'[x].parent == Some(d) { KeepMember(nodes, cs, name, x); }
  }

  lemma RemoveKeeps<N>(fs: FS<N>, n: N)
    requires TreeOk(fs) && n in fs.nodes
    ensures TreeOk(Remove(fs, n).0)
  {
    hide Keep, Linked, Aged, KindsOk;
    if Remove(fs, n).1 {
      DeleteLinked(fs.nodes, fs.nodes[n].parent.value, NameOf(fs.nodes, n));
      RelinkKeeps(fs, Remove(fs, n).0.nodes);
    }
  }

  lemma DeleteLinked<N>(nodes: Heap<N>, d: N, name: Data)
    requires Linked(nodes) && d in nodes
    ensures Linked(DeleteChild(nodes, d, name))
  {
    assert NodeOk(nodes, d);
    forall x | x in nodes ensures NodeOk(DeleteChild(nodes, d, name), x) { DeletedNode(nodes, d, name, x); }
  }

  lemma LinksSame<N>(nodes: Heap<N>, nodes': Heap<N>)
    requires Linked(nodes) && nodes'.Keys == nodes.Keys
    requires forall x :: x in nodes ==>
               nodes'[x].parent == nodes[x].parent && nodes'[x].children == nodes[x].children
               && nodes'[x].kind == nodes[x].kind
    ensures Linked(nodes')
  {
    hide NoDup;
    forall x | x in nodes' ensures NodeOk(nodes', x) { assert NodeOk(nodes, x); }
  }

  lemma AgedSame<N>(nodes: Heap<N>, nodes': Heap<N>, uid: nat)
    requires Aged(nodes, uid) && nodes'.Keys == nodes.Keys
    requires forall x :: x in nodes ==> nodes'[x].parent == nodes[x].parent && Uid(nodes'[x]) == Uid(nodes[x])
    ensures Aged(nodes', uid)
  { hide Uid; }

  lemma SetStatKeeps<N>(fs: FS<N>, n: N, stat: Stat)
    requires TreeOk(fs) && n in fs.nodes
    requires stat.qid == fs.nodes[n].stat.qid && HighByte(stat.mode) == HighByte(fs.nodes[n].stat.mode)
    ensures TreeOk(SetStat(fs, n, stat))
  {
    assert KindOk(fs.nodes[n].(stat := stat)) by {
      assert KindOk(fs.nodes[n]);
      HighByteDir(stat.mode);
      HighByteDir(fs.nodes[n].stat.mode);
    }
    hide Linked, Aged, KindsOk, KindOk;
    var nodes' := SetStat(fs, n, stat).nodes;
    LinksSame(fs.nodes, nodes');
    AgedSame(fs.nodes, nodes', fs.uid);
    KindsSet(fs.nodes, n, nodes'[n]);
  }

  lemma SetDataKeeps<N>(fs: FS<N>, n: N, data: Data)
    requires TreeOk(fs) && n in fs.nodes
    ensures TreeOk(SetData(fs, n, data))
  {
    assert KindOk(fs.nodes[n].(data := data)) by { assert KindOk(fs.nodes[n]); }
    hide Linked, Aged, KindsOk, KindOk;
    var nodes' := SetData(fs, n, data).nodes;
    LinksSame(fs.nodes, nodes');
    AgedSame(fs.nodes, nodes', fs.uid);
    KindsSet(fs.nodes, n, nodes'[n]);
  }

  // ------------------------------------------------------------------ consequences

  /** A child has one home: it is in its parent's list, once, and in no other. */
  lemma OneHome<N>(fs: FS<N>, x: N, d: N, i: nat, j: nat)
    requires TreeOk(fs) && x in fs.nodes && d in fs.nodes
    requires i < |fs.nodes[d].children| && fs.nodes[d].children[i] == x
    ensures fs.nodes[x].parent == Some(d)
    ensures j < |fs.nodes[d].children| && fs.nodes[d].children[j] == x ==> j == i
  {
    hide Aged, KindsOk;
    assert NodeOk(fs.nodes, d);
  }

  lemma {:induction false} LookupNone<N>(nodes: Heap<N>, cs: seq<N>, name: Data)
    requires Lookup(nodes, cs, name).None?
    ensures forall i :: 0 <= i < |cs| ==> NameOf(nodes, cs[i]) != name
  { if cs != [] { LookupNone(nodes, cs[..|cs| - 1], name); } }

  lemma {:induction false} KeepAll<N>(nodes: Heap<N>, cs: seq<N>, name: Data)
    requires forall i :: 0 <= i < |cs| ==> NameOf(nodes, cs[i]) != name
    ensures Keep(nodes, cs, name) == cs
  { if cs != [] { KeepAll(nodes, cs[1..], name); } }

  lemma Regroup<N>(a: seq<N>, b: seq<N>, c: seq<N>)
    ensures a + (b + c) == (a + b) + c
  {}

  lemma {:induction false} KeepSnoc<N>(nodes: Heap<N>, cs: seq<N>, x: N, name: Data)
    ensures Keep(nodes, cs + [x], name) ==
            Keep(nodes, cs, name) + if NameOf(nodes, x) == name then [] else [x]
  {
    if cs == [] { assert cs + [x] == [x] && [x][1..] == []; }
    else {
      KeepSnoc(nodes, cs[1..], x, name);
      assert (cs + [x])[1..] == cs[1..] + [x] && (cs + [x])[0] == cs[0];
      var head: seq<N> := if NameOf(nodes, cs[0]) == name then [] else [cs[0]];
      var last: seq<N> := if NameOf(nodes, x) == name then [] else [x];
      assert Keep(nodes, cs + [x], name) == head + (Keep(nodes, cs[1..], name) + last);
      Regroup(head, Keep(nodes, cs[1..], name), last);
    }
    hide Keep;
  }

  /** Remove undoes create: afterwards every node there was before is as it was, and the
      new one is loose. */
  lemma RemoveUndoesCreate<N>(fs: FS<N>, d: N, n: N, user: Data, name: Data, perm: u32, now: u32)
    requires TreeOk(fs) && d in fs.nodes && n !in fs.nodes && fs.nodes[d].kind == Directory
    requires Create(fs, d, n, user, name, perm, now).1
    ensures var fs1 := Create(fs, d, n, user, name, perm, now).0;
            var (fs2, ok) := Remove(fs1, n);
            && ok && fs2.nodes.Keys == fs.nodes.Keys + {n}
            && fs2.nodes[n].parent == None
            && forall x :: x in fs.nodes ==> fs2.nodes[x] == fs.nodes[x]
  {
    hide Keep, Lookup, Linked, Aged, KindsOk, Created;
    CreatedOk<N>(fs.uid, user, name, perm, now);
    var fs1 := Create(fs, d, n, user, name, perm, now).0;
    var cs := fs.nodes[d].children;
    ChildrenInside(fs, d);
    LookupNone(fs.nodes[n := Created(fs.uid, user, name, perm, now)], cs, name);
    KeepAll(fs1.nodes, cs, name);
    KeepSnoc(fs1.nodes, cs, n, name);
    UnlinkLast(fs.nodes, fs1.nodes, d, n, name);
  }

  lemma ChildrenInside<N>(fs: FS<N>, d: N)
    requires TreeOk(fs) && d in fs.nodes
    ensures forall c :: c in fs.nodes[d].children ==> c in fs.nodes
  { assert NodeOk(fs.nodes, d); }

  lemma UnlinkLast<N>(nodes: Heap<N>, nodes1: Heap<N>, d: N, n: N, name: Data)
    requires d in nodes && n !in nodes && n in nodes1 && NameOf(nodes1, n) == name
    requires forall c :: c in nodes[d].children ==> c in nodes && NameOf(nodes1, c) != name
    requires nodes1 == nodes[d := nodes[d].(children := nodes[d].children + [n])][n := nodes1[n]]
    requires Keep(nodes1, nodes1[d].children, name) == nodes[d].children
    ensures var nodes2 := DeleteChild(nodes1, d, name);
            nodes2[n].parent == None && forall x :: x in nodes ==> nodes2[x] == nodes[x]
  { hide Keep; }
}
