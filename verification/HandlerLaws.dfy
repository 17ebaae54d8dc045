/** When each request succeeds, exactly, and what it leaves behind. */
module HandlerLaws {
  import opened Bytes
  import opened Proto
  import opened FileTree
  import opened TreeLaws
  import opened Permissions
  import opened FileServer
  import opened ServerLaws

  /** Nothing but this one fid of this one connection differs in the tables. */
  ghost predicate OnlyFid<N>(s: Sys<N>, s': Sys<N>, c: u32, fid: u32)
    requires c in s.conns && c in s'.conns
  {
    && s'.conns.Keys == s.conns.Keys && s'.sessions == s.sessions
    && (forall d :: d in s.conns && d != c ==> s'.conns[d] == s.conns[d])
    && (forall f :: f != fid ==> (f in s'.conns[c].fids <==> f in s.conns[c].fids))
    && (forall f :: f != fid && f in s.conns[c].fids ==> s'.conns[c].fids[f] == s.conns[c].fids[f])
  }

  /** What an Open finds acceptable. */
  predicate MayOpen<N>(cfg: Config, node: Node<N>, info: Fid<N>, omode: byte) {
    && info.omode == NONE
    && (cfg.ignorePerms || OpenPermission(StatOf(node), info.uname, omode % 16))
    && (IsFile(node) || (omode % 16 != 1 && omode % 16 != 2))
  }


  /** Open succeeds exactly on a closed fid whose user has the permission, and never for
      writing on a directory. A file is then open under the fid's id and emptied exactly
      when truncation was asked for; a directory gets its children as a snapshot. */
  lemma OpenLaw<N>(cfg: Config, s: Sys<N>, c: u32, m: FCall, fid: u32, omode: byte, env: Env<N>)
    requires Inv(cfg, s) && Ready(s, c, env) && m.body == TOpen(fid, omode) && fid in s.conns[c].fids
    ensures var info := s.conns[c].fids[fid];
            var (s', r) := Handle(cfg, s, c, m, env);
            && info.node in s.fs.nodes
            && (r.Answer? <==> MayOpen(cfg, s.fs.nodes[info.node], info, omode))
            && (!r.Answer? ==> s' == s)
            && (r.Answer? ==>
                  && r.body == ROpen(s.fs.nodes[info.node].stat.qid, 16384)
                  && c in s'.conns && fid in s'.conns[c].fids && OnlyFid(s, s', c, fid)
                  && Opens(s, s', s.fs.nodes[info.node], info, s'.conns[c].fids[fid], ConnFid(c, fid), omode))
  {
    hide Inv, OpenPermission, Visible, IsOpen, FidOk, Frames, NamesStay, Negotiate, Auth, Attach, Walk, CreateNode,
      Read, Write, Clunk, RemoveNode, StatNode, Wstat;
    var info := s.conns[c].fids[fid];
    NodeThere(cfg, s, c, fid);
    IsOpenLog(s.trace, Opened(info.node, ConnFid(c, fid)), info.node, ConnFid(c, fid));
  }

  ghost predicate Opens<N>(s: Sys<N>, s': Sys<N>, node: Node<N>, info: Fid<N>, info': Fid<N>, id: u64, omode: byte)
    requires info.node in s.fs.nodes
  {
    && info' == info.(omode := omode, extra := info'.extra)
    && (IsFile(node) ==>
          && IsOpen(s'.trace, info.node, id) && info'.extra == info.extra
          && s'.fs == SetData(s.fs, info.node, if node.kind == Regular && omode / 16 % 2 == 1 then [] else node.data))
    && (!IsFile(node) ==>
          && s'.fs == s.fs && s'.trace == s.trace
          && info'.extra.Snapshot? && IsPermutation(info'.extra.nodes, Visible(s.fs.nodes, node.children)))
  }

  lemma NodeThere<N>(cfg: Config, s: Sys<N>, c: u32, fid: u32)
    requires Inv(cfg, s) && c in s.conns && fid in s.conns[c].fids
    ensures s.conns[c].fids[fid].node in s.fs.nodes
    ensures s.fs.nodes[s.conns[c].fids[fid].node := s.fs.nodes[s.conns[c].fids[fid].node]] == s.fs.nodes
  { Found(cfg, s, c, fid); }

  /** Clunk always succeeds and frees the fid; an open file gets exactly one Close, after
      which the handle is not open. */
  lemma ClunkLaw<N>(cfg: Config, s: Sys<N>, c: u32, m: FCall, fid: u32, env: Env<N>)
    requires Inv(cfg, s) && Ready(s, c, env) && m.body == TClunk(fid)
    ensures var (s', r) := Handle(cfg, s, c, m, env);
            && r == Answer(RClunk) && c in s'.conns && fid !in s'.conns[c].fids && OnlyFid(s, s', c, fid)
            && s'.fs == s.fs
            && (fid !in s.conns[c].fids ==> s' == s)
            && (fid in s.conns[c].fids ==>
                  var info := s.conns[c].fids[fid];
                  && info.node in s.fs.nodes
                  && var open := info.omode != NONE && IsFile(s.fs.nodes[info.node]);
                  && s'.trace == s.trace + (if open then [Closed(info.node, ConnFid(c, fid))] else [])
                  && (open ==> IsOpen(s.trace, info.node, ConnFid(c, fid))
                               && !IsOpen(s'.trace, info.node, ConnFid(c, fid))))
  {
    hide Inv, IsOpen;
    if fid in s.conns[c].fids {
      Found(cfg, s, c, fid);
      var info := s.conns[c].fids[fid];
      IsOpenLog(s.trace, Closed(info.node, ConnFid(c, fid)), info.node, ConnFid(c, fid));
      assert s.trace + [] == s.trace;
    }
  }

  // ------------------------------------------------------------- create and remove

  lemma LookupLast<N>(nodes: Heap<N>, cs: seq<N>, n: N, name: Data)
    ensures Lookup(nodes, cs + [n], name) == if NameOf(nodes, n) == name then Some(n) else Lookup(nodes, cs, name)
  { assert (cs + [n])[..|cs|] == cs; }

  lemma {:induction false} LookupNames<N>(a: Heap<N>, b: Heap<N>, cs: seq<N>, name: Data)
    requires forall c :: c in cs ==> NameOf(a, c) == NameOf(b, c)
    ensures Lookup(a, cs, name) == Lookup(b, cs, name)
  { if cs != [] { LookupNames(a, b, cs[..|cs| - 1], name); } }

  /** Deleting a name hides that name and no other. */
  lemma {:induction false} LookupKept<N>(nodes: Heap<N>, cs: seq<N>, name: Data, other: Data)
    ensures Lookup(nodes, Keep(nodes, cs, name), other) == if other == name then None else Lookup(nodes, cs, other)
  {
    if cs != [] {
      var k := |cs| - 1;
      LookupKept(nodes, cs[..k], name, other);
      KeepSnoc(nodes, cs[..k], cs[k], name);
      assert cs[..k] + [cs[k]] == cs;
      LookupLast(nodes, Keep(nodes, cs[..k], name), cs[k], other);
      assert Keep(nodes, cs[..k], name) + [] == Keep(nodes, cs[..k], name);
    }
  }

  /** The tree after a create: refused exactly when the name is there already; otherwise the
      new node is what the name leads to, and no other name leads elsewhere than before. */
  lemma CreateFound<N>(fs: FS<N>, d: N, n: N, user: Data, name: Data, perm: u32, now: u32, other: Data)
    requires TreeOk(fs) && d in fs.nodes && n !in fs.nodes && fs.nodes[d].kind == Directory
    ensures var (fs', ok) := Create(fs, d, n, user, name, perm, now);
            && (ok <==> Lookup(fs.nodes, fs.nodes[d].children, name).None?)
            && (ok ==> Lookup(fs'.nodes, fs'.nodes[d].children, other) ==
                       if other == name then Some(n) else Lookup(fs.nodes, fs.nodes[d].children, other))
  {
    hide Lookup, Linked, Aged, KindsOk, Created;
    var cs := fs.nodes[d].children;
    ChildrenInside(fs, d);
    CreatedOk<N>(fs.uid, user, name, perm, now);
    var loose := fs.nodes[n := Created(fs.uid, user, name, perm, now)];
    LookupNames(fs.nodes, loose, cs, name);
    var (fs', ok) := Create(fs, d, n, user, name, perm, now);
    if ok {
      LookupNames(fs.nodes, fs'.nodes, cs, other);
      LookupLast(fs'.nodes, cs, n, other);
    }
  }

  /** Create succeeds exactly in a directory the user may write, where files or directories
      may be created and the name is free; then the fid is open on the new node, the name
      leads to it, and it is an empty one of the mode asked for that is the user's. */
  lemma CreateLaw<N>(cfg: Config, s: Sys<N>, c: u32, m: FCall, fid: u32, name: Data, perm: u32, omode: byte,
                     env: Env<N>)
    requires Inv(cfg, s) && Ready(s, c, env) && m.body == TCreate(fid, name, perm, omode) && fid in s.conns[c].fids
    ensures var info := s.conns[c].fids[fid];
            var (s', r) := Handle(cfg, s, c, m, env);
            && info.node in s.fs.nodes
            && var dir := s.fs.nodes[info.node];
            && (r.Answer? <==>
                  && (cfg.ignorePerms || OpenPermission(StatOf(dir), info.uname, OWRITE))
                  && dir.kind == Directory && (if DirBit(perm) then cfg.createDir else cfg.createFile)
                  && Lookup(s.fs.nodes, dir.children, name).None?)
            && (r.Answer? ==>
                  && c in s'.conns && fid in s'.conns[c].fids && OnlyFid(s, s', c, fid)
                  && s'.conns[c].fids[fid] == Fid(env.addr, omode, info.uname, NoExtra)
                  && info.node in s'.fs.nodes
                  && Lookup(s'.fs.nodes, s'.fs.nodes[info.node].children, name) == Some(env.addr)
                  && env.addr in s'.fs.nodes && Newborn(s'.fs.nodes[env.addr], s.fs.uid, info, name, perm, env.now)
                  && OneMore(s.fs.nodes, s'.fs.nodes, info.node, env.addr)
                  && r.body == RCreate(s'.fs.nodes[env.addr].stat.qid, 16384)
                  && (!DirBit(perm) ==> IsOpen(s'.trace, env.addr, ConnFid(c, fid))))
  {
    hide Inv, FidOk, OpenPermission, Lookup, Create, IsOpen, Newborn, OneMore, OpenFile, Frames, NamesStay, Negotiate,
      Auth, Attach, Walk, Open, Read, Write, Clunk, RemoveNode, StatNode, Wstat;
    NodeThere(cfg, s, c, fid);
    var info := s.conns[c].fids[fid];
    if !IsFile(s.fs.nodes[info.node]) {
      CreateThere(cfg, s, info.node, env.addr, info.uname, name, perm, env.now);
      var (fs', ok) := Create(s.fs, info.node, env.addr, info.uname, name, perm, env.now);
      if ok {
        OpenKeepsNames(s.(fs := fs'), info.node, env.addr, ConnFid(c, fid), omode, name);
        IsOpenLog(s.trace, Opened(env.addr, ConnFid(c, fid)), env.addr, ConnFid(c, fid));
        CreateMakes(s.fs, info, env.addr, name, perm, env.now);
        OpenKeepsNewborn(s.(fs := fs'), env.addr, ConnFid(c, fid), omode, s.fs.uid, info, name, perm, env.now);
        OpenKeepsOthers(s.fs.nodes, s.(fs := fs'), info.node, env.addr, ConnFid(c, fid), omode);
      }
    }
  }

  /** A node as it is made: empty, in the directory, with the mode asked for, a qid no other
      node has, and the user as owner, group and last writer. */
  ghost predicate Newborn<N>(n: Node<N>, uid: nat, info: Fid<N>, name: Data, perm: u32, now: u32) {
    && n.kind == (if perm >= 0x8000_0000 then Directory else Regular)
    && n.parent == Some(info.node) && n.children == [] && n.data == []
    && n.stat.name == name && n.stat.mode == perm && n.stat.length == 0
    && n.stat.uid == info.uname && n.stat.gid == info.uname && n.stat.muid == info.uname
    && n.stat.atime == now && n.stat.mtime == now
    && n.stat.qid == Qid(perm / 0x100_0000, 0, uid % TWO64)
  }

  /** The directory has one child more, at the end, and every other node is as it was. */
  ghost predicate OneMore<N>(nodes: Heap<N>, nodes': Heap<N>, d: N, n: N) {
    && d in nodes && n !in nodes && nodes'.Keys == nodes.Keys + {n}
    && nodes'[d] == nodes[d].(children := nodes[d].children + [n])
    && forall x :: x in nodes && x != d ==> nodes'[x] == nodes[x]
  }

  lemma OpenKeepsOthers<N>(nodes: Heap<N>, s: Sys<N>, d: N, n: N, id: u64, omode: byte)
    requires n in s.fs.nodes && OneMore(nodes, s.fs.nodes, d, n)
    ensures OneMore(nodes, OpenFile(s, n, id, omode).fs.nodes, d, n)
  {}

  lemma CreateMakes<N>(fs: FS<N>, info: Fid<N>, n: N, name: Data, perm: u32, now: u32)
    requires info.node in fs.nodes && n !in fs.nodes
    ensures var (fs', ok) := Create(fs, info.node, n, info.uname, name, perm, now);
            && n in fs'.nodes
            && (ok ==>
                  && Newborn(fs'.nodes[n], fs.uid, info, name, perm, now) && OneMore(fs.nodes, fs'.nodes, info.node, n)
                  && (IsFile(fs'.nodes[n]) <==> !DirBit(perm)))
  { hide Lookup; }

  lemma OpenKeepsNewborn<N>(s: Sys<N>, n: N, id: u64, omode: byte, uid: nat, info: Fid<N>, name: Data, perm: u32,
                            now: u32)
    requires n in s.fs.nodes && Newborn(s.fs.nodes[n], uid, info, name, perm, now)
    ensures var s' := OpenFile(s, n, id, omode);
            n in s'.fs.nodes && s'.fs.nodes[n].stat == s.fs.nodes[n].stat && s'.trace == s.trace + [Opened(n, id)]
            && Newborn(s'.fs.nodes[n], uid, info, name, perm, now)
  {}

  lemma CreateThere<N>(cfg: Config, s: Sys<N>, d: N, n: N, user: Data, name: Data, perm: u32, now: u32)
    requires Inv(cfg, s) && d in s.fs.nodes && n !in s.fs.nodes && s.fs.nodes[d].kind == Directory
    ensures var (fs', ok) := Create(s.fs, d, n, user, name, perm, now);
            && d in fs'.nodes && n in fs'.nodes && fs'.nodes[d].kind == Directory
            && (ok <==> Lookup(s.fs.nodes, s.fs.nodes[d].children, name).None?)
            && (ok ==> Lookup(fs'.nodes, fs'.nodes[d].children, name) == Some(n))
  {
    CreateFound(s.fs, d, n, user, name, perm, now, name);
    hide Inv, TreeOk, Lookup;
  }

  lemma OpenKeepsNames<N>(s: Sys<N>, d: N, n: N, id: u64, omode: byte, name: Data)
    requires d in s.fs.nodes && n in s.fs.nodes
    ensures var s' := OpenFile(s, n, id, omode);
            && s'.conns == s.conns && s'.sessions == s.sessions && d in s'.fs.nodes
            && Lookup(s'.fs.nodes, s'.fs.nodes[d].children, name) == Lookup(s.fs.nodes, s.fs.nodes[d].children, name)
  {
    hide Lookup;
    LookupNames(s.fs.nodes, OpenFile(s, n, id, omode).fs.nodes, s.fs.nodes[d].children, name);
  }

  /** Remove gives up its fid and succeeds exactly for a user who may write the node, where
      removing is enabled, on a node that is in a directory. Its name then leads nowhere in
      that directory, and every other name leads where it did. */
  lemma RemoveLaw<N>(cfg: Config, s: Sys<N>, c: u32, m: FCall, fid: u32, env: Env<N>, other: Data)
    requires Inv(cfg, s) && Ready(s, c, env) && m.body == TRemove(fid) && fid in s.conns[c].fids
    ensures var info := s.conns[c].fids[fid];
            var (s', r) := Handle(cfg, s, c, m, env);
            && info.node in s.fs.nodes && c in s'.conns && fid !in s'.conns[c].fids && OnlyFid(s, s', c, fid)
            && var node := s.fs.nodes[info.node];
            && (r.Answer? <==>
                  && (cfg.ignorePerms || OpenPermission(StatOf(node), info.uname, OWRITE))
                  && cfg.removeFile && node.parent.Some?)
            && (!r.Answer? ==> s' == DropFid(s, c, fid))
            && (r.Answer? ==>
                  var d := node.parent.value;
                  && d in s.fs.nodes && d in s'.fs.nodes && info.node in s'.fs.nodes
                  && s'.fs.nodes[info.node].parent == None && Unlinks(s.fs.nodes, s'.fs.nodes, d, node.stat.name)
                  && Lookup(s'.fs.nodes, s'.fs.nodes[d].children, other) ==
                     if other == node.stat.name then None else Lookup(s.fs.nodes, s.fs.nodes[d].children, other))
  {
    hide Inv, FidOk, OpenPermission, Lookup, Remove, Unlinks, Frames, NamesStay, Negotiate, Auth, Attach, Walk, Open,
      CreateNode, Read, Write, Clunk, StatNode, Wstat;
    NodeThere(cfg, s, c, fid);
    Removed(cfg, s, s.conns[c].fids[fid].node, other);
  }

  /** The children of the name have no parent any more, and the directory no such children
      (KeepMember says which are kept); nothing else differs. */
  ghost predicate Unlinks<N>(nodes: Heap<N>, nodes': Heap<N>, d: N, name: Data) {
    && d in nodes && nodes'.Keys == nodes.Keys
    && nodes'[d].children == Keep(nodes, nodes[d].children, name)
    && (forall x :: x in nodes ==>
          && nodes'[x].kind == nodes[x].kind && nodes'[x].stat == nodes[x].stat && nodes'[x].data == nodes[x].data
          && (x != d ==> nodes'[x].children == nodes[x].children)
          && nodes'[x].parent ==
             if x in nodes[d].children && nodes[x].stat.name == name then None else nodes[x].parent)
  }

  lemma DeleteUnlinks<N>(nodes: Heap<N>, d: N, name: Data)
    requires d in nodes
    ensures Unlinks(nodes, DeleteChild(nodes, d, name), d, name)
  { hide Keep; }

  lemma Removed<N>(cfg: Config, s: Sys<N>, n: N, other: Data)
    requires Inv(cfg, s) && n in s.fs.nodes
    ensures var (fs', ok) := Remove(s.fs, n);
            var node := s.fs.nodes[n];
            && (ok <==> node.parent.Some?)
            && (ok ==>
                  var d := node.parent.value;
                  && d in s.fs.nodes && d in fs'.nodes && n in fs'.nodes && fs'.nodes[n].parent == None
                  && Unlinks(s.fs.nodes, fs'.nodes, d, node.stat.name)
                  && Lookup(fs'.nodes, fs'.nodes[d].children, other) ==
                     if other == node.stat.name then None else Lookup(s.fs.nodes, s.fs.nodes[d].children, other))
  {
    hide Lookup, Keep, Unlinks;
    var nodes := s.fs.nodes;
    assert NodeOk(nodes, n);
    if nodes[n].parent.Some? {
      var d, name := nodes[n].parent.value, nodes[n].stat.name;
      assert NodeOk(nodes, d);
      DeleteUnlinks(nodes, d, name);
      LookupKept(nodes, nodes[d].children, name, other);
      LookupNames(nodes, DeleteChild(nodes, d, name), Keep(nodes, nodes[d].children, name), other);
    }
    hide Inv;
  }

  // -------------------------------------------------------------------------- attach

  /** With authentication an Attach succeeds exactly when afid's own authentication has ended
      well, and the name it gives is the one established there, whatever the client asks. */
  lemma AttachLaw<N>(cfg: Config, s: Sys<N>, c: u32, m: FCall, fid: u32, afid: u32, env: Env<N>)
    requires Inv(cfg, s) && Ready(s, c, env) && m.body.TAttach? && m.body.fid == fid && m.body.afid == afid
    ensures var (s', r) := Handle(cfg, s, c, m, env);
            && (r.Answer? <==> !cfg.auth || Proven(s, c, afid).Some?) && (!r.Answer? ==> s' == s)
            && (r.Answer? ==>
                  && c in s'.conns && fid in s'.conns[c].fids && OnlyFid(s, s', c, fid) && s'.fs == s.fs
                  && r.body == RAttach(s.fs.nodes[s.fs.root].stat.qid)
                  && s'.conns[c].fids[fid] ==
                     Fid(s.fs.root, NONE, if cfg.auth then Proven(s, c, afid).value else m.body.uname, NoExtra))
  {
    hide Inv, Frames, NamesStay, Negotiate, Auth, Walk, Open, CreateNode, Read, Write, Clunk, RemoveNode, StatNode,
      Wstat;
  }

  /** The name the authentication behind a fid has established. */
  function Proven<N>(s: Sys<N>, c: u32, afid: u32): Option<Data>
    requires c in s.conns
  {
    if afid !in s.conns[c].fids || !s.conns[c].fids[afid].extra.Session? then None
    else
      var n := s.conns[c].fids[afid].extra.n;
      if n in s.sessions && s.sessions[n].Authenticated? then Some(s.sessions[n].name) else None
  }
}
