/** What every run of the file server keeps: a well-formed tree, open before use, and names
    that came from an Attach. */
module ServerLaws {
  import opened Bytes
  import opened Proto
  import opened FileTree
  import opened TreeLaws
  import opened Permissions
  import opened FileServer
  import Paths

  // ---------------------------------------------------------------- the invariant

  /** The last Open or Close of `n` under `id` is an Open. */
  predicate IsOpen<N(==)>(t: seq<Event<N>>, n: N, id: u64) {
    t != [] &&
    var e := t[|t| - 1];
    if !e.Used? && e.n == n && e.id == id then e.Opened? else IsOpen(t[..|t| - 1], n, id)
  }

  /** A File's Read, Write and Close are only ever called between its Open and its Close. */
  ghost predicate TraceOk<N>(t: seq<Event<N>>) {
    forall i :: 0 <= i < |t| && !t[i].Opened? ==> IsOpen(t[..i], t[i].n, t[i].id)
  }

  ghost predicate FidOk<N>(nodes: Heap<N>, names: set<Data>, t: seq<Event<N>>, id: u64, info: Fid<N>) {
    && info.node in nodes
    && (info.extra.Snapshot? ==> forall x :: x in info.extra.nodes ==> x in nodes)
    && (info.omode != NONE && IsFile(nodes[info.node]) ==> IsOpen(t, info.node, id))
    && (info.uname in names || (info.uname == [] && nodes[info.node].kind == AuthStream))
  }

  ghost predicate ConnOk<N>(cfg: Config, s: Sys<N>, c: u32)
    requires c in s.conns
  {
    && (forall fid :: fid in s.conns[c].fids ==>
          FidOk(s.fs.nodes, s.conns[c].attached, s.trace, ConnFid(c, fid), s.conns[c].fids[fid]))
    && s.conns[c].msize <= MAX_MSG_LEN
    && (cfg.auth ==> forall u :: u in s.conns[c].attached ==> Vouched(s.sessions, u))
  }

  /** Some authentication ended with this name. */
  ghost predicate Vouched<N>(sessions: map<N, AuthState>, u: Data) {
    exists n :: n in sessions && sessions[n] == Authenticated(u)
  }

  /** Authentication files are in no directory. */
  ghost predicate AuthLoose<N>(nodes: Heap<N>) {
    forall x :: x in nodes && nodes[x].kind == AuthStream ==> nodes[x].parent == None
  }

  ghost predicate Inv<N>(cfg: Config, s: Sys<N>) {
    && TreeOk(s.fs) && AuthLoose(s.fs.nodes) && TraceOk(s.trace)
    && s.sessions.Keys <= s.fs.nodes.Keys
    && forall c :: c in s.conns ==> ConnOk(cfg, s, c)
  }

  // ------------------------------------------------------------ steps of a handler

  /** What no handler changes about the nodes there are. */
  ghost predicate Grows<N>(a: Heap<N>, b: Heap<N>) {
    a.Keys <= b.Keys && forall x :: x in a ==> b[x].kind == a[x].kind && b[x].stat.qid == a[x].stat.qid
  }

  lemma FsStep<N>(cfg: Config, s: Sys<N>, fs: FS<N>)
    requires Inv(cfg, s) && TreeOk(fs) && AuthLoose(fs.nodes) && Grows(s.fs.nodes, fs.nodes)
    ensures Inv(cfg, s.(fs := fs))
  {
    hide TreeOk, TraceOk, IsOpen;
    var s' := s.(fs := fs);
    forall c | c in s'.conns ensures ConnOk(cfg, s', c) { assert ConnOk(cfg, s, c); }
  }

  lemma PutKeeps<N>(cfg: Config, s: Sys<N>, c: u32, fid: u32, info: Fid<N>)
    requires Inv(cfg, s) && c in s.conns
    requires FidOk(s.fs.nodes, s.conns[c].attached, s.trace, ConnFid(c, fid), info)
    ensures Inv(cfg, PutFid(s, c, fid, info))
  {
    hide TreeOk, TraceOk, FidOk;
    var s' := PutFid(s, c, fid, info);
    forall d | d in s'.conns ensures ConnOk(cfg, s', d) { assert ConnOk(cfg, s, d); }
  }

  lemma DropKeeps<N>(cfg: Config, s: Sys<N>, c: u32, fid: u32)
    requires Inv(cfg, s) && c in s.conns
    ensures Inv(cfg, DropFid(s, c, fid))
  {
    hide TreeOk, TraceOk, FidOk;
    var s' := DropFid(s, c, fid);
    forall d | d in s'.conns ensures ConnOk(cfg, s', d) { assert ConnOk(cfg, s, d); }
  }

  lemma IsOpenLog<N>(t: seq<Event<N>>, e: Event<N>, n: N, id: u64)
    ensures IsOpen(t + [e], n, id) == if !e.Used? && e.n == n && e.id == id then e.Opened? else IsOpen(t, n, id)
  { assert (t + [e])[..|t|] == t; }

  lemma TraceLog<N>(t: seq<Event<N>>, e: Event<N>)
    requires TraceOk(t) && (e.Opened? || IsOpen(t, e.n, e.id))
    ensures TraceOk(t + [e])
  {
    hide IsOpen;
    var t' := t + [e];
    forall i | 0 <= i < |t'| && !t'[i].Opened? ensures IsOpen(t'[..i], t'[i].n, t'[i].id) {
      assert t'[..i] == t[..i];
      assert t[..|t|] == t;
    }
  }

  /** Connection and fid together identify a handle: no other fid has its id. */
  lemma ConnFidInjective(c: u32, fid: u32, d: u32, gid: u32)
    ensures ConnFid(c, fid) == ConnFid(d, gid) <==> c == d && fid == gid
  {}

  lemma LogKeeps<N>(cfg: Config, s: Sys<N>, e: Event<N>)
    requires Inv(cfg, s) && (e.Opened? || IsOpen(s.trace, e.n, e.id))
    requires e.Closed? ==> forall c, fid :: c in s.conns && fid in s.conns[c].fids ==> ConnFid(c, fid) != e.id
    ensures Inv(cfg, Log(s, e))
    ensures e.Opened? ==> IsOpen(Log(s, e).trace, e.n, e.id)
  {
    hide TreeOk, TraceOk, IsOpen;
    var s' := Log(s, e);
    TraceLog(s.trace, e);
    IsOpenLog(s.trace, e, e.n, e.id);
    forall c | c in s'.conns ensures ConnOk(cfg, s', c) {
      assert ConnOk(cfg, s, c);
      forall fid | fid in s.conns[c].fids
        ensures FidOk(s.fs.nodes, s.conns[c].attached, s'.trace, ConnFid(c, fid), s.conns[c].fids[fid])
      {
        IsOpenLog(s.trace, e, s.conns[c].fids[fid].node, ConnFid(c, fid));
      }
    }
  }

  /** The fid a handler works on. */
  lemma Found<N>(cfg: Config, s: Sys<N>, c: u32, fid: u32)
    requires Inv(cfg, s) && c in s.conns && fid in s.conns[c].fids
    ensures FidOk(s.fs.nodes, s.conns[c].attached, s.trace, ConnFid(c, fid), s.conns[c].fids[fid])
  {
    hide TreeOk, TraceOk, FidOk;
    assert ConnOk(cfg, s, c);
  }

  // --------------------------------------------------------------------- handlers

  lemma NegotiateKeeps<N>(cfg: Config, s: Sys<N>, c: u32, typ: byte, msize: u32, version: Data)
    requires Inv(cfg, s) && c in s.conns
    ensures Inv(cfg, Negotiate(s, c, typ, msize, version).0)
  {
    hide TreeOk, TraceOk, FidOk;
    var s' := Negotiate(s, c, typ, msize, version).0;
    forall d | d in s'.conns ensures ConnOk(cfg, s', d) { assert ConnOk(cfg, s, d); }
  }

  /** Starting an authentication, or ending one that runs. */
  lemma SessionKeeps<N>(cfg: Config, s: Sys<N>, n: N, a: AuthState)
    requires Inv(cfg, s) && n in s.fs.nodes && (n in s.sessions ==> !s.sessions[n].Authenticated?)
    ensures Inv(cfg, s.(sessions := s.sessions[n := a]))
  {
    hide TreeOk, TraceOk, FidOk;
    var s' := s.(sessions := s.sessions[n := a]);
    forall d | d in s'.conns ensures ConnOk(cfg, s', d) {
      assert ConnOk(cfg, s, d);
      forall u | cfg.auth && u in s.conns[d].attached ensures Vouched(s'.sessions, u) {
        var m :| m in s.sessions && s.sessions[m] == Authenticated(u);
        assert m in s'.sessions && s'.sessions[m] == Authenticated(u);
      }
    }
  }

  lemma AuthKeeps<N>(cfg: Config, s: Sys<N>, c: u32, afid: u32, env: Env<N>)
    requires Inv(cfg, s) && c in s.conns && env.addr !in s.fs.nodes && s.fs.uid < TWO64
    ensures Inv(cfg, Auth(cfg, s, c, afid, env).0)
  {
    hide TreeOk, TraceOk, ConnOk, IsOpen;
    if cfg.auth {
      var stat := NewStat(s.fs.uid, AUTH, GLENDA, GLENDA, 438, env.now);
      var n, node := env.addr, Node(AuthStream, stat, None, [], []);
      LooseKeeps(s.fs, n, node);
      var fs := s.fs.(nodes := s.fs.nodes[n := node], uid := s.fs.uid + 1);
      FsStep(cfg, s, fs);
      SessionKeeps(cfg, s.(fs := fs), n, Pending);
      var s1 := s.(fs := fs, sessions := s.sessions[n := Pending]);
      LogKeeps(cfg, s1, Opened(n, ConnFid(c, afid)));
      PutKeeps(cfg, Log(s1, Opened(n, ConnFid(c, afid))), c, afid, Fid(n, ORDWR, [], Session(n)));
    }
  }

  lemma AttachAsKeeps<N>(cfg: Config, s: Sys<N>, c: u32, fid: u32, name: Data)
    requires Inv(cfg, s) && c in s.conns && s.fs.root in s.fs.nodes
    requires cfg.auth ==> Vouched(s.sessions, name)
    ensures Inv(cfg, AttachAs(s, c, fid, name).0)
  {
    hide TreeOk, TraceOk, IsOpen;
    var s1 := s.(conns := s.conns[c := s.conns[c].(attached := s.conns[c].attached + {name})]);
    forall d | d in s1.conns ensures ConnOk(cfg, s1, d) { assert ConnOk(cfg, s, d); }
    PutKeeps(cfg, s1, c, fid, NewFid(name, s.fs.root));
  }

  lemma AttachKeeps<N>(cfg: Config, s: Sys<N>, c: u32, fid: u32, afid: u32, uname: Data)
    requires Inv(cfg, s) && c in s.conns && s.fs.root in s.fs.nodes
    ensures Inv(cfg, Attach(cfg, s, c, fid, afid, uname).0)
  {
    hide Inv, AttachAs;
    if !cfg.auth { AttachAsKeeps(cfg, s, c, fid, uname); }
    else if afid in s.conns[c].fids {
      var x := s.conns[c].fids[afid].extra;
      if x.Session? && x.n in s.sessions && s.sessions[x.n].Authenticated? {
        AttachAsKeeps(cfg, s, c, fid, s.sessions[x.n].name);
      }
    }
  }

  /** A closed fid on another node, with the name it was walked from. */
  lemma DeriveOk<N>(cfg: Config, s: Sys<N>, c: u32, fid: u32, newfid: u32, n: N)
    requires Inv(cfg, s) && c in s.conns && fid in s.conns[c].fids && n in s.fs.nodes
    requires n == s.conns[c].fids[fid].node || s.fs.nodes[s.conns[c].fids[fid].node].kind != AuthStream
    ensures Inv(cfg, PutFid(s, c, newfid, Derive(s.conns[c].fids[fid], n)))
  {
    hide Inv, IsOpen;
    Found(cfg, s, c, fid);
    PutKeeps(cfg, s, c, newfid, Derive(s.conns[c].fids[fid], n));
  }

  lemma {:induction false} DescendInside<N>(fs: FS<N>, n: N, names: seq<Data>)
    requires TreeOk(fs) && n in fs.nodes && Paths.Descend(fs.nodes, n, names).Some?
    ensures Paths.Descend(fs.nodes, n, names).value in fs.nodes
    ensures Paths.Descend(fs.nodes, n, names).value == n || fs.nodes[n].kind == Directory
    decreases |names|
  {
    hide TreeOk, Lookup;
    if names != [] { DescendInside(fs, Lookup(fs.nodes, fs.nodes[n].children, names[0]).value, names[1..]); }
  }

  lemma WalkKeeps<N>(cfg: Config, s: Sys<N>, c: u32, fid: u32, newfid: u32, names: seq<Data>)
    requires Inv(cfg, s) && c in s.conns
    ensures Inv(cfg, Walk(s, c, fid, newfid, names).0)
  {
    hide Linked, Aged, KindsOk, TraceOk, ConnOk, IsOpen, WalkQids, PutFid, Derive;
    if fid in s.conns[c].fids {
      var n := s.conns[c].fids[fid].node;
      Found(cfg, s, c, fid);
      if names != [] && names[0] == DOTDOT {
        var p := s.fs.nodes[n].parent;
        if p.Some? && p.value in s.fs.nodes { DeriveOk(cfg, s, c, fid, newfid, p.value); }
      } else if names != [] && names[0] == DOT {
        DeriveOk(cfg, s, c, fid, newfid, n);
      } else if Paths.Descend(s.fs.nodes, n, names).Some? {
        DescendInside(s.fs, n, names);
        DeriveOk(cfg, s, c, fid, newfid, Paths.Descend(s.fs.nodes, n, names).value);
      }
    }
  }

  lemma OpenFileKeeps<N>(cfg: Config, s: Sys<N>, n: N, id: u64, omode: byte)
    requires Inv(cfg, s) && n in s.fs.nodes
    ensures var s' := OpenFile(s, n, id, omode);
            Inv(cfg, s') && IsOpen(s'.trace, n, id) && s'.conns == s.conns && Grows(s.fs.nodes, s'.fs.nodes)
            && s'.fs.nodes[n].kind == s.fs.nodes[n].kind
  {
    hide Linked, Aged, KindsOk, TraceOk, ConnOk, IsOpen;
    var s1 := Log(s, Opened(n, id));
    LogKeeps(cfg, s, Opened(n, id));
    SetDataKeeps(s.fs, n, []);
    if s.fs.nodes[n].kind == Regular && TruncBit(omode) { FsStep(cfg, s1, SetData(s.fs, n, [])); }
  }

  lemma {:induction false} VisibleInside<N>(nodes: Heap<N>, cs: seq<N>, x: N)
    ensures x in Visible(nodes, cs) ==> x in cs
  {
    if cs != [] {
      var k := |cs| - 1;
      VisibleInside(nodes, cs[..k], x);
      KeepMember(nodes, Visible(nodes, cs[..k]), NameOf(nodes, cs[k]), x);
    }
  }

  lemma ListingInside<N>(s: Sys<N>, d: N, order: seq<N>, x: N)
    requires TreeOk(s.fs) && d in s.fs.nodes && x in ListingOrder(s.fs.nodes, d, order)
    ensures x in s.fs.nodes
  {
    var v := Visible(s.fs.nodes, s.fs.nodes[d].children);
    assert x in multiset(ListingOrder(s.fs.nodes, d, order));
    assert x in multiset(v);
    VisibleInside(s.fs.nodes, s.fs.nodes[d].children, x);
    assert NodeOk(s.fs.nodes, d);
  }

  lemma OpenKeeps<N>(cfg: Config, s: Sys<N>, c: u32, fid: u32, omode: byte, env: Env<N>)
    requires Inv(cfg, s) && c in s.conns
    ensures Inv(cfg, Open(cfg, s, c, fid, omode, env).0)
  {
    hide Inv, IsOpen, OpenFile, ListingOrder, OpenPermission, PutFid;
    if fid in s.conns[c].fids {
      Found(cfg, s, c, fid);
      var info := s.conns[c].fids[fid];
      var st := StatOf(s.fs.nodes[info.node]);
      if info.omode == NONE && (cfg.ignorePerms || OpenPermission(st, info.uname, omode % 16)) {
        if IsFile(s.fs.nodes[info.node]) {
          var id := ConnFid(c, fid);
          OpenFileKeeps(cfg, s, info.node, id, omode);
          PutKeeps(cfg, OpenFile(s, info.node, id, omode), c, fid, info.(omode := omode));
        } else if omode % 16 != OWRITE && omode % 16 != ORDWR {
          var order := ListingOrder(s.fs.nodes, info.node, env.order);
          forall x | x in order ensures x in s.fs.nodes { InvTree(cfg, s); ListingInside(s, info.node, env.order, x); }
          PutKeeps(cfg, s, c, fid, info.(omode := omode, extra := Snapshot(order)));
        }
      }
    }
  }

  lemma InvTree<N>(cfg: Config, s: Sys<N>)
    requires Inv(cfg, s)
    ensures TreeOk(s.fs) && AuthLoose(s.fs.nodes)
  {}

  lemma CreateGrows<N>(fs: FS<N>, d: N, n: N, user: Data, name: Data, perm: u32, now: u32)
    requires TreeOk(fs) && AuthLoose(fs.nodes) && d in fs.nodes && n !in fs.nodes && fs.uid < TWO64
    requires fs.nodes[d].kind == Directory
    ensures var (fs', ok) := Create(fs, d, n, user, name, perm, now);
            TreeOk(fs') && AuthLoose(fs'.nodes) && Grows(fs.nodes, fs'.nodes) && n in fs'.nodes
            && fs'.nodes[n].kind != AuthStream && fs'.root == fs.root
  {
    hide Linked, Aged, KindsOk, Lookup;
    CreateKeeps(fs, d, n, user, name, perm, now);
  }

  lemma CreateNodeKeeps<N>(cfg: Config, s: Sys<N>, c: u32, fid: u32, name: Data, perm: u32, omode: byte, env: Env<N>)
    requires Inv(cfg, s) && c in s.conns && env.addr !in s.fs.nodes && s.fs.uid < TWO64
    ensures Inv(cfg, CreateNode(cfg, s, c, fid, name, perm, omode, env).0)
  {
    hide Inv, IsOpen, OpenFile, OpenPermission, PutFid, TreeOk, Create;
    if fid in s.conns[c].fids {
      Found(cfg, s, c, fid);
      InvTree(cfg, s);
      var info, n := s.conns[c].fids[fid], env.addr;
      if !IsFile(s.fs.nodes[info.node]) {
        CreateGrows(s.fs, info.node, n, info.uname, name, perm, env.now);
        var fs' := Create(s.fs, info.node, n, info.uname, name, perm, env.now).0;
        FsStep(cfg, s, fs');
        CreatedBound(cfg, s, s.(fs := fs'), c, fid, n, omode);
      }
    }
  }

  /** Binding the fid to the node it created, opened if it is a file. */
  lemma CreatedBound<N>(cfg: Config, s: Sys<N>, s1: Sys<N>, c: u32, fid: u32, n: N, omode: byte)
    requires Inv(cfg, s) && Inv(cfg, s1) && s1 == s.(fs := s1.fs) && n in s1.fs.nodes
    requires c in s.conns && fid in s.conns[c].fids && s.conns[c].fids[fid].node in s.fs.nodes
    requires s.fs.nodes[s.conns[c].fids[fid].node].kind == Directory
    ensures var info := s.conns[c].fids[fid];
            var s2 := if IsFile(s1.fs.nodes[n]) then OpenFile(s1, n, ConnFid(c, fid), omode) else s1;
            Inv(cfg, PutFid(s2, c, fid, Derive(info, n).(omode := omode)))
  {
    hide Inv, IsOpen, OpenFile;
    Found(cfg, s, c, fid);
    OpenFileKeeps(cfg, s1, n, ConnFid(c, fid), omode);
    var info := s.conns[c].fids[fid];
    var s2 := if IsFile(s1.fs.nodes[n]) then OpenFile(s1, n, ConnFid(c, fid), omode) else s1;
    PutKeeps(cfg, s2, c, fid, Derive(info, n).(omode := omode));
  }

  lemma ReadKeeps<N>(cfg: Config, s: Sys<N>, c: u32, fid: u32, offset: u64, count: u32, env: Env<N>)
    requires Inv(cfg, s) && c in s.conns
    ensures Inv(cfg, Read(s, c, fid, offset, count, env).0)
  {
    hide Inv, IsOpen, Log, StatsOf;
    if fid in s.conns[c].fids {
      Found(cfg, s, c, fid);
      var info := s.conns[c].fids[fid];
      if Readable(info.omode) && IsFile(s.fs.nodes[info.node]) { LogKeeps(cfg, s, Used(info.node, ConnFid(c, fid))); }
    }
  }

  lemma WriteKeeps<N>(cfg: Config, s: Sys<N>, c: u32, fid: u32, offset: u64, data: Data, env: Env<N>)
    requires Inv(cfg, s) && c in s.conns
    ensures Inv(cfg, Write(s, c, fid, offset, data, env).0)
  {
    hide Linked, Aged, KindsOk, TraceOk, ConnOk, IsOpen, Written;
    if fid in s.conns[c].fids {
      Found(cfg, s, c, fid);
      var info := s.conns[c].fids[fid];
      var node := s.fs.nodes[info.node];
      if Writable(info.omode) && IsFile(node) {
        var s1 := Log(s, Used(info.node, ConnFid(c, fid)));
        LogKeeps(cfg, s, Used(info.node, ConnFid(c, fid)));
        var fs' := SetData(s.fs, info.node, Written(node.data, offset, data));
        SetDataKeeps(s.fs, info.node, Written(node.data, offset, data));
        FsStep(cfg, s1, fs');
      }
    }
  }

  lemma ClunkKeeps<N>(cfg: Config, s: Sys<N>, c: u32, fid: u32)
    requires Inv(cfg, s) && c in s.conns
    ensures Inv(cfg, Clunk(s, c, fid).0)
  {
    hide Inv, IsOpen, Log;
    if fid in s.conns[c].fids {
      Found(cfg, s, c, fid);
      var info, s1 := s.conns[c].fids[fid], DropFid(s, c, fid);
      DropKeeps(cfg, s, c, fid);
      if info.omode != NONE && IsFile(s.fs.nodes[info.node]) {
        forall d, gid | d in s1.conns && gid in s1.conns[d].fids ensures ConnFid(d, gid) != ConnFid(c, fid) {
          ConnFidInjective(c, fid, d, gid);
        }
        LogKeeps(cfg, s1, Closed(info.node, ConnFid(c, fid)));
      }
    }
  }

  lemma RemoveGrows<N>(fs: FS<N>, n: N)
    requires TreeOk(fs) && AuthLoose(fs.nodes) && n in fs.nodes
    ensures var fs' := Remove(fs, n).0;
            TreeOk(fs') && AuthLoose(fs'.nodes) && Grows(fs.nodes, fs'.nodes) && fs'.root == fs.root
  {
    hide Linked, Aged, KindsOk, Keep;
    RemoveKeeps(fs, n);
  }

  lemma RemoveNodeKeeps<N>(cfg: Config, s: Sys<N>, c: u32, fid: u32)
    requires Inv(cfg, s) && c in s.conns
    ensures Inv(cfg, RemoveNode(cfg, s, c, fid).0)
  {
    hide Inv, IsOpen, OpenPermission, Remove, TreeOk, AuthLoose;
    if fid in s.conns[c].fids {
      Found(cfg, s, c, fid);
      InvTree(cfg, s);
      DropKeeps(cfg, s, c, fid);
      RemoveGrows(s.fs, s.conns[c].fids[fid].node);
      FsStep(cfg, DropFid(s, c, fid), Remove(s.fs, s.conns[c].fids[fid].node).0);
    }
  }

  lemma WstatKeeps<N>(cfg: Config, s: Sys<N>, c: u32, fid: u32, t: Stat)
    requires Inv(cfg, s) && c in s.conns
    ensures Inv(cfg, Wstat(cfg, s, c, fid, t).0)
  {
    hide Linked, Aged, KindsOk, TraceOk, ConnOk, IsOpen, WstatDenied, HighByte, WithPerm;
    if fid in s.conns[c].fids {
      Found(cfg, s, c, fid);
      var n := s.conns[c].fids[fid].node;
      var st := StatOf(s.fs.nodes[n]);
      PermKeepsKind(st.mode, t.mode);
      SetStatKeeps(s.fs, n, Merged(st, t));
      FsStep(cfg, s, SetStat(s.fs, n, Merged(st, t)));
    }
  }

  // ------------------------------------------------------------------- every run

  lemma HandleKeeps<N>(cfg: Config, s: Sys<N>, c: u32, m: FCall, env: Env<N>)
    requires Inv(cfg, s)
    requires c in s.conns && env.addr !in s.fs.nodes && s.fs.root in s.fs.nodes && s.fs.uid < TWO64
    ensures Inv(cfg, Handle(cfg, s, c, m, env).0)
  {
    hide Inv, Negotiate, Auth, Attach, Walk, Open, CreateNode, Read, Write, Clunk, RemoveNode, StatNode, Wstat;
    match m.body
    case Version(msize, version) => NegotiateKeeps(cfg, s, c, m.typ, msize, version);
    case TAuth(afid, _, _) => AuthKeeps(cfg, s, c, afid, env);
    case TAttach(fid, afid, uname, _) => AttachKeeps(cfg, s, c, fid, afid, uname);
    case TWalk(fid, newfid, _, names) => WalkKeeps(cfg, s, c, fid, newfid, names);
    case TOpen(fid, omode) => OpenKeeps(cfg, s, c, fid, omode, env);
    case TCreate(fid, name, perm, omode) => CreateNodeKeeps(cfg, s, c, fid, name, perm, omode, env);
    case TRead(fid, offset, count) => ReadKeeps(cfg, s, c, fid, offset, count, env);
    case TWrite(fid, offset, _, data) => WriteKeeps(cfg, s, c, fid, offset, data, env);
    case TClunk(fid) => ClunkKeeps(cfg, s, c, fid);
    case TRemove(fid) => RemoveNodeKeeps(cfg, s, c, fid);
    case TStat(fid) => StatChangesNothing(s, c, fid);
    case TWstat(fid, stat) => WstatKeeps(cfg, s, c, fid, stat);
    case _ =>
  }

  lemma StatChangesNothing<N>(s: Sys<N>, c: u32, fid: u32)
    requires c in s.conns
    ensures StatNode(s, c, fid).0 == s
  {}

  /** A request uses up at most one uid. */
  lemma HandleUid<N>(cfg: Config, s: Sys<N>, c: u32, m: FCall, env: Env<N>)
    requires c in s.conns && env.addr !in s.fs.nodes && s.fs.root in s.fs.nodes
    ensures Handle(cfg, s, c, m, env).0.fs.uid <= s.fs.uid + 1
  {
    hide Negotiate, Auth, Attach, Walk, Open, CreateNode, Read, Write, Clunk, RemoveNode, StatNode, Wstat;
  }

  lemma NextKeeps<N>(cfg: Config, s: Sys<N>, a: Action<N>)
    requires Inv(cfg, s) && s.fs.uid < TWO64
    ensures Inv(cfg, Next(cfg, s, a)) && Next(cfg, s, a).fs.uid <= s.fs.uid + 1
  {
    hide TreeOk, TraceOk, FidOk, Handle;
    match a
    case Connect =>
      var s' := Next(cfg, s, a);
      forall c | c in s'.conns ensures ConnOk(cfg, s', c) { if c in s.conns { assert ConnOk(cfg, s, c); } }
    case Request(c, m, env) =>
      if c in s.conns && env.addr !in s.fs.nodes && s.fs.root in s.fs.nodes {
        HandleKeeps(cfg, s, c, m, env);
        HandleUid(cfg, s, c, m, env);
      }
    case AuthResult(n, outcome) =>
      if n in s.sessions && s.sessions[n].Pending? {
        SessionKeeps(cfg, s, n, if outcome.Some? then Authenticated(outcome.value) else Refused);
      }
  }

  /** Every run, whatever the requests, connections and authentications: as long as the uid
      counter has not gone round, the invariant holds throughout. */
  lemma {:induction false} RunKeeps<N>(cfg: Config, s: Sys<N>, acts: seq<Action<N>>)
    requires Inv(cfg, s) && s.fs.uid + |acts| <= TWO64
    ensures Inv(cfg, Run(cfg, s, acts))
    decreases |acts|
  {
    hide Inv, Next;
    if acts != [] {
      NextKeeps(cfg, s, acts[0]);
      RunKeeps(cfg, Next(cfg, s, acts[0]), acts[1..]);
    }
  }

  lemma StartOk<N>(cfg: Config, fs: FS<N>)
    requires TreeOk(fs) && AuthLoose(fs.nodes)
    ensures Inv(cfg, Start(fs))
  {}
}
