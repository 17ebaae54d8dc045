/** Names within a directory. Creating refuses a name that is taken, renaming does not, so
    siblings keep different names exactly as long as every rename is to a free one. */
module Siblings {
  import opened Bytes
  import opened Proto
  import opened FileTree
  import opened FileServer
  import TreeLaws
  import Paths
  import Permissions
  import ServerLaws
  import ServerResults
  import Provenance
  import Replies

  /** No two children of a directory have the same name. */
  ghost predicate Distinct<N>(nodes: Heap<N>) {
    forall d, x, y :: d in nodes && x in nodes[d].children && y in nodes[d].children && x != y ==>
      NameOf(nodes, x) != NameOf(nodes, y)
  }

  /** Directories gained no children, and the children they have kept their names. */
  ghost predicate Shrinks<N>(nodes: Heap<N>, nodes': Heap<N>) {
    forall d, x :: d in nodes' && x in nodes'[d].children ==> Kept(nodes, nodes', d, x)
  }

  predicate Kept<N>(nodes: Heap<N>, nodes': Heap<N>, d: N, x: N) {
    d in nodes && x in nodes[d].children && NameOf(nodes', x) == NameOf(nodes, x)
  }

  lemma ShrinkKeeps<N>(nodes: Heap<N>, nodes': Heap<N>)
    requires Distinct(nodes) && Shrinks(nodes, nodes')
    ensures Distinct(nodes')
  { hide NameOf; }

  lemma ChildrenThere<N>(nodes: Heap<N>)
    requires TreeLaws.Linked(nodes)
    ensures forall d, x :: d in nodes && x in nodes[d].children ==> x in nodes
  {
    forall d | d in nodes ensures forall x :: x in nodes[d].children ==> x in nodes {
      assert TreeLaws.NodeOk(nodes, d);
    }
  }

  lemma CreateKeeps<N>(fs: FS<N>, d: N, n: N, user: Data, name: Data, perm: u32, now: u32)
    requires TreeLaws.Linked(fs.nodes) && Distinct(fs.nodes) && d in fs.nodes && n !in fs.nodes
    ensures Distinct(Create(fs, d, n, user, name, perm, now).0.nodes)
  {
    hide Distinct, AddChild;
    var nodes := fs.nodes[n := Created(fs.uid, user, name, perm, now)];
    ChildrenThere(fs.nodes);
    ShrinkKeeps(fs.nodes, nodes);
    if AddChild(nodes, d, n).Some? { AddKeeps(nodes, d, n); }
  }

  lemma AddKeeps<N>(nodes: Heap<N>, d: N, n: N)
    requires Distinct(nodes) && d in nodes && n in nodes && AddChild(nodes, d, n).Some?
    ensures Distinct(AddChild(nodes, d, n).value)
  {
    hide Lookup;
    var nodes', cs := AddChild(nodes, d, n).value, nodes[d].children;
    Paths.LookupSound(nodes, cs, NameOf(nodes, n));
    assert forall x :: x in cs ==> NameOf(nodes, x) != NameOf(nodes, n);
    forall e, x, y | e in nodes' && x in nodes'[e].children && y in nodes'[e].children && x != y
      ensures NameOf(nodes', x) != NameOf(nodes', y)
    {
      assert NameOf(nodes', x) == NameOf(nodes, x) && NameOf(nodes', y) == NameOf(nodes, y);
      if e == d { assert x in cs || x == n; assert y in cs || y == n; }
    }
  }

  lemma DeleteShrinks<N>(nodes: Heap<N>, d: N, name: Data)
    requires d in nodes
    ensures Shrinks(nodes, DeleteChild(nodes, d, name))
  {
    hide DeleteChild;
    var nodes' := DeleteChild(nodes, d, name);
    forall e, x | e in nodes' && x in nodes'[e].children ensures Kept(nodes, nodes', e, x) {
      DeleteLeaves(nodes, d, name, e, x);
    }
  }

  lemma DeleteLeaves<N>(nodes: Heap<N>, d: N, name: Data, e: N, x: N)
    requires d in nodes && e in nodes && x in DeleteChild(nodes, d, name)[e].children
    ensures Kept(nodes, DeleteChild(nodes, d, name), e, x)
  {
    TreeLaws.KeepMember(nodes, nodes[d].children, name, x);
    hide Keep;
  }

  /** No sibling of the node has the name. */
  ghost predicate Free<N>(nodes: Heap<N>, n: N, name: Data) {
    forall d, x :: d in nodes && n in nodes[d].children && x in nodes[d].children && x != n ==> NameOf(nodes, x) != name
  }

  /** Giving a node a stat keeps siblings apart exactly when its name is free. */
  lemma SetStatKeepsIff<N>(fs: FS<N>, n: N, stat: Stat)
    requires Distinct(fs.nodes) && n in fs.nodes
    ensures Distinct(SetStat(fs, n, stat).nodes) <==> Free(fs.nodes, n, stat.name)
  {
    var nodes' := SetStat(fs, n, stat).nodes;
    assert forall d :: d in fs.nodes ==> nodes'[d].children == fs.nodes[d].children;
    if Free(fs.nodes, n, stat.name) {
      forall d, x, y | d in nodes' && x in nodes'[d].children && y in nodes'[d].children && x != y
        ensures NameOf(nodes', x) != NameOf(nodes', y)
      { assert NameOf(fs.nodes, x) != NameOf(fs.nodes, y); }
    } else {
      var d, x :| d in fs.nodes && n in fs.nodes[d].children && x in fs.nodes[d].children && x != n
                  && NameOf(fs.nodes, x) == stat.name;
      assert x in nodes'[d].children && n in nodes'[d].children && NameOf(nodes', x) == NameOf(nodes', n);
    }
  }

  // ---------------------------------------------------------------------- the handlers

  lemma AttachSame<N>(cfg: Config, s: Sys<N>, c: u32, fid: u32, afid: u32, uname: Data)
    requires c in s.conns && s.fs.root in s.fs.nodes
    ensures Attach(cfg, s, c, fid, afid, uname).0.fs == s.fs
  { hide Frames; }

  lemma WalkSame<N>(s: Sys<N>, c: u32, fid: u32, newfid: u32, names: seq<Data>)
    requires c in s.conns
    ensures Walk(s, c, fid, newfid, names).0.fs == s.fs
  { hide Frames, NamesStay, WalkQids; }

  lemma ReadSame<N>(s: Sys<N>, c: u32, fid: u32, offset: u64, count: u32, env: Env<N>)
    requires c in s.conns
    ensures Read(s, c, fid, offset, count, env).0.fs == s.fs
  { hide Frames, NamesStay, StatsOf; }

  lemma ClunkSame<N>(s: Sys<N>, c: u32, fid: u32)
    requires c in s.conns
    ensures Clunk(s, c, fid).0.fs == s.fs
  { hide Frames, NamesStay; }

  lemma DataShrinks<N>(fs: FS<N>, n: N, data: Data)
    requires n in fs.nodes
    ensures Shrinks(fs.nodes, SetData(fs, n, data).nodes)
  {}

  lemma WriteShrinks<N>(s: Sys<N>, c: u32, fid: u32, offset: u64, data: Data, env: Env<N>)
    requires c in s.conns
    ensures Shrinks(s.fs.nodes, Write(s, c, fid, offset, data, env).0.fs.nodes)
  {
    hide Frames, NamesStay, Written, SetData, Shrinks;
    Unchanged(s.fs.nodes);
    if fid in s.conns[c].fids && s.conns[c].fids[fid].node in s.fs.nodes {
      var n := s.conns[c].fids[fid].node;
      DataShrinks(s.fs, n, Written(s.fs.nodes[n].data, offset, data));
    }
  }

  lemma Unchanged<N>(nodes: Heap<N>)
    ensures Shrinks(nodes, nodes)
  {}

  lemma OpenShrinks<N>(cfg: Config, s: Sys<N>, c: u32, fid: u32, omode: byte, env: Env<N>)
    requires c in s.conns
    ensures Shrinks(s.fs.nodes, Open(cfg, s, c, fid, omode, env).0.fs.nodes)
  {
    hide Frames, NamesStay, SetData, Shrinks, ListingOrder, Permissions.OpenPermission;
    Unchanged(s.fs.nodes);
    if fid in s.conns[c].fids && s.conns[c].fids[fid].node in s.fs.nodes {
      DataShrinks(s.fs, s.conns[c].fids[fid].node, []);
    }
  }

  lemma AuthShrinks<N>(cfg: Config, s: Sys<N>, c: u32, afid: u32, env: Env<N>)
    requires c in s.conns && env.addr !in s.fs.nodes && TreeLaws.Linked(s.fs.nodes)
    ensures Shrinks(s.fs.nodes, Auth(cfg, s, c, afid, env).0.fs.nodes)
  {
    hide Frames, NamesStay;
    ChildrenThere(s.fs.nodes);
  }

  lemma RemoveShrinks<N>(cfg: Config, s: Sys<N>, c: u32, fid: u32)
    requires c in s.conns
    ensures Shrinks(s.fs.nodes, RemoveNode(cfg, s, c, fid).0.fs.nodes)
  {
    hide Frames, NamesStay, Shrinks, DeleteChild, Permissions.OpenPermission;
    Unchanged(s.fs.nodes);
    if fid in s.conns[c].fids && s.conns[c].fids[fid].node in s.fs.nodes {
      var n := s.conns[c].fids[fid].node;
      var d := s.fs.nodes[n].parent;
      if d.Some? && d.value in s.fs.nodes { DeleteShrinks(s.fs.nodes, d.value, NameOf(s.fs.nodes, n)); }
    }
  }

  lemma CreateNodeKeeps<N>(cfg: Config, s: Sys<N>, c: u32, fid: u32, name: Data, perm: u32, omode: byte, env: Env<N>)
    requires c in s.conns && env.addr !in s.fs.nodes && TreeLaws.Linked(s.fs.nodes) && Distinct(s.fs.nodes)
    ensures Distinct(CreateNode(cfg, s, c, fid, name, perm, omode, env).0.fs.nodes)
  {
    hide Frames, NamesStay, Distinct, Create, SetData, Permissions.OpenPermission;
    if fid in s.conns[c].fids && s.conns[c].fids[fid].node in s.fs.nodes {
      var info := s.conns[c].fids[fid];
      CreateKeeps(s.fs, info.node, env.addr, info.uname, name, perm, env.now);
      var fs' := Create(s.fs, info.node, env.addr, info.uname, name, perm, env.now).0;
      if env.addr in fs'.nodes {
        DataShrinks(fs', env.addr, []);
        ShrinkKeeps(fs'.nodes, SetData(fs', env.addr, []).nodes);
      }
    }
  }

  /** Requests that leave the names alone. */
  lemma OtherShrinks<N>(cfg: Config, s: Sys<N>, c: u32, m: FCall, env: Env<N>)
    requires c in s.conns && env.addr !in s.fs.nodes && s.fs.root in s.fs.nodes && TreeLaws.Linked(s.fs.nodes)
    requires !m.body.TCreate? && !m.body.TWstat?
    ensures Shrinks(s.fs.nodes, Handle(cfg, s, c, m, env).0.fs.nodes)
  {
    hide Frames, NamesStay, Negotiate, Auth, Attach, Walk, Open, Read, Write, Clunk, RemoveNode, StatNode, Shrinks,
      TreeLaws.Linked;
    Unchanged(s.fs.nodes);
    match m.body
    case TAuth(afid, _, _) => AuthShrinks(cfg, s, c, afid, env);
    case TAttach(fid, afid, uname, _) => AttachSame(cfg, s, c, fid, afid, uname);
    case TWalk(fid, newfid, _, names) => WalkSame(s, c, fid, newfid, names);
    case TOpen(fid, omode) => OpenShrinks(cfg, s, c, fid, omode, env);
    case TRead(fid, offset, count) => ReadSame(s, c, fid, offset, count, env);
    case TWrite(fid, offset, _, data) => WriteShrinks(s, c, fid, offset, data, env);
    case TClunk(fid) => ClunkSame(s, c, fid);
    case TRemove(fid) => RemoveShrinks(cfg, s, c, fid);
    case TStat(fid) => ServerLaws.StatChangesNothing(s, c, fid);
    case _ =>
  }

  /** A wstat that goes through keeps siblings apart exactly when it asks for no name, or
      for one that is free. */
  lemma WstatKeepsIff<N>(cfg: Config, s: Sys<N>, c: u32, fid: u32, t: Stat)
    requires c in s.conns && Distinct(s.fs.nodes) && Wstat(cfg, s, c, fid, t).1.Answer?
    ensures fid in s.conns[c].fids
    ensures Distinct(Wstat(cfg, s, c, fid, t).0.fs.nodes) <==>
              t.name == [] || Free(s.fs.nodes, s.conns[c].fids[fid].node, t.name)
  {
    hide Frames, NamesStay, Distinct, Free, WstatDenied;
    var n := s.conns[c].fids[fid].node;
    SetStatKeepsIff(s.fs, n, Merged(StatOf(s.fs.nodes[n]), t));
    if t.name == [] { OwnNameFree(s.fs.nodes, n); }
  }

  lemma OwnNameFree<N>(nodes: Heap<N>, n: N)
    requires Distinct(nodes) && n in nodes
    ensures Free(nodes, n, nodes[n].stat.name)
  { assert nodes[n].stat.name == NameOf(nodes, n); }

  // ------------------------------------------------------------------------ every run

  /** If the step renames a node, then to a name its siblings do not have. */
  ghost predicate Careful<N>(s: Sys<N>, a: Action<N>) {
    a.Request? && a.c in s.conns && a.m.body.TWstat? && a.m.body.stat.name != [] ==>
      var fids := s.conns[a.c].fids;
      a.m.body.fid in fids ==> Free(s.fs.nodes, fids[a.m.body.fid].node, a.m.body.stat.name)
  }

  ghost predicate CarefulRun<N>(cfg: Config, s: Sys<N>, acts: seq<Action<N>>)
    decreases |acts|
  { acts == [] || (Careful(s, acts[0]) && CarefulRun(cfg, Next(cfg, s, acts[0]), acts[1..])) }

  lemma StepKeeps<N>(cfg: Config, s: Sys<N>, a: Action<N>)
    requires TreeLaws.Linked(s.fs.nodes) && Distinct(s.fs.nodes) && Careful(s, a)
    ensures Distinct(Next(cfg, s, a).fs.nodes)
  {
    hide TreeLaws.Linked, Distinct, Shrinks, Free, Frames, NamesStay, Negotiate, Auth, Attach, Walk, Open, CreateNode,
      Read, Write, Clunk, RemoveNode, StatNode, Wstat;
    if a.Request? && a.c in s.conns && a.env.addr !in s.fs.nodes && s.fs.root in s.fs.nodes {
      match a.m.body
      case TCreate(fid, name, perm, omode) => CreateNodeKeeps(cfg, s, a.c, fid, name, perm, omode, a.env);
      case TWstat(fid, t) =>
        WstatAnswered(cfg, s, a.c, fid, t);
        if Wstat(cfg, s, a.c, fid, t).1.Answer? { WstatKeepsIff(cfg, s, a.c, fid, t); }
      case _ =>
        OtherShrinks(cfg, s, a.c, a.m, a.env);
        ShrinkKeeps(s.fs.nodes, Next(cfg, s, a).fs.nodes);
    }
  }

  lemma WstatAnswered<N>(cfg: Config, s: Sys<N>, c: u32, fid: u32, t: Stat)
    requires c in s.conns
    ensures !Wstat(cfg, s, c, fid, t).1.Answer? ==> Wstat(cfg, s, c, fid, t).0 == s
  { hide Frames, NamesStay, WstatDenied, Merged; }

  lemma {:induction false} RunKeeps<N>(cfg: Config, s: Sys<N>, acts: seq<Action<N>>)
    requires ServerLaws.Inv(cfg, s) && s.fs.uid + |acts| <= TWO64 && Distinct(s.fs.nodes) && CarefulRun(cfg, s, acts)
    ensures Distinct(Run(cfg, s, acts).fs.nodes)
    decreases |acts|
  {
    hide ServerLaws.Inv, Next, Distinct, Careful, TreeLaws.TreeOk;
    if acts != [] {
      ServerLaws.InvTree(cfg, s);
      TreeLinked(s.fs);
      StepKeeps(cfg, s, acts[0]);
      ServerLaws.NextKeeps(cfg, s, acts[0]);
      RunKeeps(cfg, Next(cfg, s, acts[0]), acts[1..]);
    }
  }

  lemma TreeLinked<N>(fs: FS<N>)
    requires TreeLaws.TreeOk(fs)
    ensures TreeLaws.Linked(fs.nodes)
  {}

  /** In every run in which each rename is to a name free at that moment, no two siblings
      share a name, and so walking by its name leads to every child. */
  lemma NamesDistinct<N>(cfg: Config, root: N, user: Data, group: Data, perms: u32, now: u32,
                         acts: seq<Action<N>>, d: N, x: N)
    requires |acts| < TWO64 && CarefulRun(cfg, Start(NewFS(root, user, group, perms, now)), acts)
    ensures var nodes := Run(cfg, Start(NewFS(root, user, group, perms, now)), acts).fs.nodes;
            && Distinct(nodes)
            && (d in nodes && x in nodes[d].children ==>
                  Lookup(nodes, nodes[d].children, NameOf(nodes, x)) == Some(x))
  {
    hide Run, CarefulRun, TreeLaws.TreeOk, Lookup;
    var fs := NewFS(root, user, group, perms, now);
    TreeLaws.NewFSOk(root, user, group, perms, now);
    ServerLaws.StartOk(cfg, fs);
    RunKeeps(cfg, Start(fs), acts);
    var nodes := Run(cfg, Start(fs), acts).fs.nodes;
    if d in nodes && x in nodes[d].children { Paths.LookupSound(nodes, nodes[d].children, NameOf(nodes, x)); }
  }

  // ------------------------------------------------------ a name that is taken is in reach

  /** A new child of the root, opened. */
  ghost predicate Added<N>(s: Sys<N>, s': Sys<N>, root: N, n: N, fid: u32, name: Data, u: Data) {
    && s'.conns.Keys == s.conns.Keys && 1 in s.conns && s'.fs.root == s.fs.root
    && s'.conns[1].fids == s.conns[1].fids[fid := Fid(n, OREAD, u, NoExtra)]
    && root in s.fs.nodes && s'.fs.nodes.Keys == s.fs.nodes.Keys + {n} && n !in s.fs.nodes
    && s'.fs.nodes[root] == s.fs.nodes[root].(children := s.fs.nodes[root].children + [n])
    && s'.fs.nodes[n].stat.name == name && s'.fs.nodes[n].stat.uid == u
    && forall x :: x in s.fs.nodes && x != root ==> s'.fs.nodes[x] == s.fs.nodes[x]
  }

  lemma CreateAdds<N>(cfg: Config, s: Sys<N>, root: N, fid: u32, name: Data, u: Data, env: Env<N>)
    requires cfg.createFile && 1 in s.conns && fid in s.conns[1].fids && s.conns[1].fids[fid] == NewFid(u, root)
    requires root in s.fs.nodes && s.fs.nodes[root].kind == Directory && env.addr !in s.fs.nodes
    requires Permissions.OpenPermission(StatOf(s.fs.nodes[root]), u, OWRITE)
    requires forall x :: x in s.fs.nodes[root].children ==> x in s.fs.nodes && s.fs.nodes[x].stat.name != name
    ensures Added(s, CreateNode(cfg, s, 1, fid, name, 0, OREAD, env).0, root, env.addr, fid, name, u)
  {
    hide Frames, NamesStay, Lookup, Permissions.OpenPermission;
    var nodes := s.fs.nodes[env.addr := Created(s.fs.uid, u, name, 0, env.now)];
    Paths.LookupSound(nodes, nodes[root].children, name);
    assert Lookup(nodes, nodes[root].children, name).None?;
  }

  /** Two fids for the root. */
  function Twice<N>(root: N, now: u32, u: Data): Sys<N> {
    var s := Start(NewFS(root, GLENDA, GLENDA, 511, now));
    s.(conns := map[1 := Conn(map[0 := NewFid(u, root), 1 := NewFid(u, root)], 0, {u})])
  }

  function Attaching<N>(fid: u32, u: Data, env: Env<N>): Action<N> {
    Request(1, FCall(104, 0, TAttach(fid, 0, u, [])), env)
  }

  function Creating<N>(fid: u32, name: Data, env: Env<N>): Action<N> {
    Request(1, FCall(114, 0, TCreate(fid, name, 0, OREAD)), env)
  }

  /** A stat that asks for a name and nothing else. */
  function Named(name: Data): Stat {
    Stat(0, 0, Qid(0, 0, 0), MAX32, MAX32, MAX32, MAX64, name, [], [], [])
  }

  function Renaming<N>(fid: u32, name: Data, env: Env<N>): Action<N> {
    Request(1, FCall(126, 0, TWstat(fid, Named(name))), env)
  }

  lemma AttachTwice<N>(root: N, now: u32, u: Data, env: Env<N>)
    requires env.addr != root
    ensures Run(Replies.OPEN_CFG, Start(NewFS(root, GLENDA, GLENDA, 511, now)),
                [Connect, Attaching(0, u, env), Attaching(1, u, env)]) == Twice(root, now, u)
  {
    hide Run;
    var s := Start(NewFS(root, GLENDA, GLENDA, 511, now));
    Replies.ThreeSteps(s, Connect, Attaching(0, u, env), Attaching(1, u, env));
    Replies.FreshRuns(root, now);
    Replies.AttachJoins(root, now, u, 0, env);
    var fids := map[0 := NewFid(u, root)];
    assert fids[1 := NewFid(u, root)] == map[0 := NewFid(u, root), 1 := NewFid(u, root)];
  }

  lemma CreateNext<N>(s: Sys<N>, fid: u32, name: Data, env: Env<N>)
    requires 1 in s.conns && env.addr !in s.fs.nodes && s.fs.root in s.fs.nodes
    ensures Next(Replies.OPEN_CFG, s, Creating(fid, name, env)) ==
            CreateNode(Replies.OPEN_CFG, s, 1, fid, name, 0, OREAD, env).0
  { hide CreateNode; }

  /** A user who renames a file of theirs to the name of a sibling gets through. */
  lemma RenameClashes<N>(s: Sys<N>, root: N, a: N, b: N, fid: u32, name: Data, u: Data, env: Env<N>)
    requires 1 in s.conns && fid in s.conns[1].fids && s.conns[1].fids[fid].node == b && s.conns[1].fids[fid].uname == u
    requires env.addr !in s.fs.nodes && s.fs.root in s.fs.nodes && {root, a, b} <= s.fs.nodes.Keys
    requires a in s.fs.nodes[root].children && b in s.fs.nodes[root].children && a != b && b != root
    requires s.fs.nodes[a].stat.name == name && s.fs.nodes[b].stat.uid == u && name != []
    ensures !Distinct(Next(Replies.OPEN_CFG, s, Renaming(fid, name, env)).fs.nodes)
  {
    var st := StatOf(s.fs.nodes[b]);
    assert st.uid == u;
    ServerResults.WstatAllowed(Replies.OPEN_CFG, st, u, Named(name));
    hide WstatDenied, Frames, NamesStay;
    var s' := Next(Replies.OPEN_CFG, s, Renaming(fid, name, env));
    assert s' == Wstat(Replies.OPEN_CFG, s, 1, fid, Named(name)).0;
    assert NameOf(s'.fs.nodes, b) == name && NameOf(s'.fs.nodes, a) == name;
    assert a in s'.fs.nodes[root].children && b in s'.fs.nodes[root].children;
  }

  /** The two files, as RenameClashes wants them. */
  lemma TwoFiles<N>(root: N, now: u32, u: Data, x: Data, y: Data, env: Env<N>, env1: Env<N>)
    requires x != y && env.addr != root && env1.addr !in {root, env.addr}
    ensures var s := Next(Replies.OPEN_CFG, Next(Replies.OPEN_CFG, Twice(root, now, u), Creating(0, x, env)),
                          Creating(1, y, env1));
            && 1 in s.conns && 1 in s.conns[1].fids && s.conns[1].fids[1] == Fid(env1.addr, OREAD, u, NoExtra)
            && s.fs.root == root && s.fs.nodes.Keys == {root, env.addr, env1.addr}
            && s.fs.nodes[root].children == [env.addr, env1.addr]
            && s.fs.nodes[env.addr].stat.name == x && s.fs.nodes[env1.addr].stat.uid == u
  {
    hide Next, CreateNode, Permissions.OpenPermission;
    var s0 := Twice(root, now, u);
    Replies.AnybodyWrites(root, now, u);
    CreateNext(s0, 0, x, env);
    CreateAdds(Replies.OPEN_CFG, s0, root, 0, x, u, env);
    var s1 := Next(Replies.OPEN_CFG, s0, Creating(0, x, env));
    assert StatOf(s1.fs.nodes[root]) == StatOf(s0.fs.nodes[root]);
    CreateNext(s1, 1, y, env1);
    CreateAdds(Replies.OPEN_CFG, s1, root, 1, y, u, env1);
  }

  /** A user with two fids for the root creates `x` and `y` and renames `y` to `x`: then two
      siblings have one name. */
  lemma SharedName<N>(root: N, now: u32, u: Data, x: Data, y: Data, env: Env<N>, env1: Env<N>, env2: Env<N>)
    requires x != y && x != []
    requires env.addr != root && env1.addr !in {root, env.addr} && env2.addr !in {root, env.addr, env1.addr}
    ensures var s := Run(Replies.OPEN_CFG, Start(NewFS(root, GLENDA, GLENDA, 511, now)),
                         [Connect, Attaching(0, u, env), Attaching(1, u, env), Creating(0, x, env),
                          Creating(1, y, env1), Renaming(1, x, env2)]);
            !Distinct(s.fs.nodes)
  {
    hide Run, Next, Distinct;
    var s0 := Start(NewFS(root, GLENDA, GLENDA, 511, now));
    var acts := [Connect, Attaching(0, u, env), Attaching(1, u, env)];
    var a, b, c := Creating(0, x, env), Creating(1, y, env1), Renaming(1, x, env2);
    AttachTwice(root, now, u, env);
    TwoFiles(root, now, u, x, y, env, env1);
    var s1 := Next(Replies.OPEN_CFG, Twice(root, now, u), a);
    var s2 := Next(Replies.OPEN_CFG, s1, b);
    RenameClashes(s2, root, env.addr, env1.addr, 1, x, u, env2);
    Provenance.RunSnoc(Replies.OPEN_CFG, s0, acts, a);
    Provenance.RunSnoc(Replies.OPEN_CFG, s0, acts + [a], b);
    Provenance.RunSnoc(Replies.OPEN_CFG, s0, acts + [a] + [b], c);
    assert acts + [a] + [b] + [c] ==
           [Connect, Attaching(0, u, env), Attaching(1, u, env), Creating(0, x, env), Creating(1, y, env1),
            Renaming(1, x, env2)];
  }
}
