/** The server as the objects it is: fid records and tables that handlers update in place,
    over node objects, refining FileServer step by step. */
module ServerObjects {
  import opened Bytes
  import opened Proto
  import opened FileTree
  import opened Permissions
  import opened FileServer
  import opened TreeObjects
  import Paths
  import TreeLaws
  import Listing
  import ServerLaws
  import ServerResults

  /** fs/server.go:14-20 */
  class FidInfo {
    const node: FSNode
    const uname: Data
    ghost const home: (u32, u32)  // the connection and fid it was made for
    var omode: byte
    var extra: Extra<FSNode>

    ghost function Value(): Fid<FSNode>
      reads this
    { Fid(node, omode, uname, extra) }

    constructor (ghost home: (u32, u32), node: FSNode, uname: Data, omode: byte, extra: Extra<FSNode>)
      ensures Value() == Fid(node, omode, uname, extra) && this.home == home
    {
      this.node, this.uname, this.omode, this.extra := node, uname, omode, extra;
      this.home := home;
    }
  }

  /** fs/server.go:38-43 */
  class Connection {
    const id: u32
    var fids: map<u32, FidInfo>
    var msize: u32
    ghost var attached: set<Data>

    ghost function Value(): Conn<FSNode>
      reads this, fids.Values
    { Conn(map f | f in fids :: fids[f].Value(), msize, attached) }

    constructor (id: u32)
      ensures Value() == Conn(map[], 0, {}) && fids == map[] && this.id == id
    { this.id, fids, msize, attached := id, map[], 0, {}; }

    /** A record made on the spot is stored under the fid, whatever was there before. */
    method Bind(fid: u32, node: FSNode, uname: Data, omode: byte, extra: Extra<FSNode>)
      modifies this`fids
      ensures fids.Keys == old(fids.Keys) + {fid} && fids[fid].home == (id, fid)
      ensures forall f :: f in old(fids) && f != fid ==> fids[f] == old(fids[f])
      ensures Value() == old(Value()).(fids := old(Value()).fids[fid := Fid(node, omode, uname, extra)])
    {
      var info := new FidInfo((id, fid), node, uname, omode, extra);
      fids := fids[fid := info];
    }

    method Delete(fid: u32)
      modifies this`fids
      ensures fids == old(fids) - {fid}
      ensures Value() == old(Value()).(fids := old(Value()).fids - {fid})
    { fids := fids - {fid}; }

    method SetSize(m: u32)
      modifies this`msize
      ensures Value() == old(Value()).(msize := m)
    { msize := m; }

    ghost method Admit(name: Data)
      modifies this`attached
      ensures Value() == old(Value()).(attached := old(attached) + {name})
    { attached := attached + {name}; }

    /** The record changes in place. Were it shared with another fid, that one would
        change too. */
    method MarkOpen(fid: u32, omode: byte, extra: Extra<FSNode>)
      requires fid in fids && forall f :: f in fids && fids[f] == fids[fid] ==> f == fid
      modifies fids[fid]
      ensures Value() ==
              old(Value()).(fids := old(Value()).fids[
                fid := old(fids[fid].Value()).(omode := omode, extra := extra)])
    {
      var info := fids[fid];
      info.omode, info.extra := omode, extra;
    }
  }

  class Server {
    const cfg: Config
    var conns: map<u32, Connection>
    const fs: FileSystem
    var sessions: map<FSNode, AuthState>
    ghost var trace: seq<Event<FSNode>>

    /** Every connection object and every fid record is where it belongs, so none is in
        two places. */
    ghost predicate Owned()
      reads this, conns.Values
    {
      forall c :: c in conns ==>
        conns[c].id == c && forall f :: f in conns[c].fids ==> conns[c].fids[f].home == (c, f)
    }

    /** The fid records in use. */
    ghost function Records(): set<FidInfo>
      reads this, conns.Values
    { set c, f | c in conns && f in conns[c].fids :: conns[c].fids[f] }

    ghost function Tables(): map<u32, Conn<FSNode>>
      reads this, conns.Values, Records()
    { map c | c in conns :: conns[c].Value() }

    ghost predicate Valid()
      reads this, conns.Values, fs, fs.nodes
    { Owned() && fs.Valid() }

    ghost function View(): Sys<FSNode>
      reads this, conns.Values, Records(), fs, fs.nodes
    { Sys(fs.View(), Tables(), sessions, trace) }

    constructor (cfg: Config, fs: FileSystem)
      requires fs.Valid()
      ensures Valid() && View() == Start(fs.View()) && this.cfg == cfg && this.fs == fs
    {
      this.cfg, this.fs := cfg, fs;
      conns, sessions, trace := map[], map[], [];
    }

    method DeleteFid(c: u32, fid: u32)
      requires Valid() && c in conns
      modifies conns[c]
      ensures Valid() && View() == DropFid(old(View()), c, fid)
    {
      conns[c].Delete(fid);
      Changed(c);
    }

    method MarkOpen(c: u32, fid: u32, omode: byte, extra: Extra<FSNode>)
      requires Valid() && c in conns && fid in conns[c].fids
      modifies conns[c].fids[fid]
      ensures Valid()
      ensures View() == PutFid(old(View()), c, fid,
                               old(View()).conns[c].fids[fid].(omode := omode, extra := extra))
    {
      hide FileSystem.Valid, FileSystem.View;
      conns[c].MarkOpen(fid, omode, extra);
      Changed(c);
    }

    /** The tables differ in one connection. */
    twostate lemma Changed(c: u32)
      requires old(Owned()) && Owned() && conns == old(conns) && c in conns
      requires forall d :: d in conns && d != c ==> conns[d].Value() == old(conns[d].Value())
      ensures Tables() == old(Tables())[c := conns[c].Value()]
    {}

    /** Only the tree differs. */
    twostate lemma TreeChanged()
      requires old(Valid()) && fs.Valid() && conns == old(conns) && sessions == old(sessions) && trace == old(trace)
      requires forall c :: c in conns ==> unchanged(conns[c]) && conns[c].Value() == old(conns[c].Value())
      ensures Valid() && View() == old(View()).(fs := fs.View())
    { hide FileSystem.Valid, FileSystem.View; }

    method SetSize(c: u32, m: u32)
      requires Valid() && c in conns
      modifies conns[c]
      ensures Valid() && View() == old(View()).(conns := old(View()).conns[c := old(View()).conns[c].(msize := m)])
    {
      conns[c].SetSize(m);
      Changed(c);
    }

    method TruncateNode(n: FSNode)
      requires Valid() && n in fs.nodes
      modifies n
      ensures Valid() && View() == old(View()).(fs := SetData(old(View()).fs, n, []))
    { fs.Truncate(n); }

    method ListNode(n: FSNode) returns (order: seq<FSNode>)
      requires Valid() && n in fs.nodes
      ensures Valid() && View() == old(View())
      ensures n in View().fs.nodes && IsPermutation(order, Visible(View().fs.nodes, View().fs.nodes[n].children))
    {
      hide Visible;
      order := ListChildren(fs.nodes, n);
    }

    /** `c.fids.Store`. */
    method Bind(c: u32, fid: u32, node: FSNode, uname: Data, omode: byte, extra: Extra<FSNode>)
      requires Valid() && c in conns
      modifies conns[c]
      ensures Valid() && View() == PutFid(old(View()), c, fid, Fid(node, omode, uname, extra))
    {
      conns[c].Bind(fid, node, uname, omode, extra);
      Changed(c);
    }

    ghost method Admit(c: u32, name: Data)
      requires Valid() && c in conns
      modifies conns[c]
      ensures Valid()
      ensures var s := old(View());
              View() == s.(conns := s.conns[c := s.conns[c].(attached := s.conns[c].attached + {name})])
    {
      conns[c].Admit(name);
      Changed(c);
    }

    method WriteNode(n: FSNode, offset: u64, d: Data) returns (panicked: bool)
      requires Valid() && n in fs.nodes
      modifies n
      ensures Valid() && n in old(View()).fs.nodes && old(View()).fs.nodes[n].data == old(n.data)
      ensures panicked <==> WritePanics(|old(n.data)|, offset, |d|)
      ensures View() == old(View()).(fs := SetData(old(View()).fs, n, Written(old(n.data), offset, d)))
    {
      hide Written;
      panicked := fs.WriteData(n, offset, d);
    }

    method SetNodeStat(n: FSNode, stat: Stat)
      requires Valid() && n in fs.nodes
      modifies n
      ensures Valid() && View() == old(View()).(fs := SetStat(old(View()).fs, n, stat))
    { fs.WriteStat(n, stat); }

    method MakeNode(d: FSNode, user: Data, name: Data, perm: u32, now: u32) returns (n: FSNode, ok: bool)
      requires Valid() && d in fs.nodes
      modifies fs, d
      ensures Valid() && fresh(n) && n !in old(fs.nodes) && n in fs.nodes && n.kind != AuthStream
      ensures View() == old(View()).(fs := FileTree.Create(old(View()).fs, d, n, user, name, perm, now).0)
      ensures ok == FileTree.Create(old(View()).fs, d, n, user, name, perm, now).1
      ensures n in View().fs.nodes && View().fs.nodes[n] == n.Value()
    {
      hide FileTree.Create, SelfContained, Owned, Tables;
      n, ok := fs.CreateStatic(d, user, name, perm, now);
      TreeChanged();
    }

    method RemoveNodeObject(n: FSNode) returns (ok: bool)
      requires Valid() && n in fs.nodes && (n.parent.Some? ==> n.parent.value in fs.nodes)
      modifies fs.nodes
      ensures Valid()
      ensures View() == old(View()).(fs := FileTree.Remove(old(View()).fs, n).0)
      ensures ok == FileTree.Remove(old(View()).fs, n).1
    {
      hide FileTree.Remove, SelfContained, Owned, Tables;
      ok := fs.RMFile(n);
      TreeChanged();
    }

    method Descend(n: FSNode, names: seq<Data>) returns (m: Option<FSNode>, qids: seq<Qid>)
      requires Valid() && n in fs.nodes
      ensures Valid() && View() == old(View()) && n in View().fs.nodes
      ensures m == Paths.Descend(View().fs.nodes, n, names)
      ensures m.Some? ==> m.value in fs.nodes && qids == WalkQids(View().fs.nodes, n, names)
    {
      hide Paths.Descend, WalkQids;
      m, qids := fs.WalkLoop(n, names);
    }

    ghost method Record(e: Event<FSNode>)
      requires Valid()
      modifies this`trace
      ensures Valid() && View() == Log(old(View()), e)
    { trace := trace + [e]; }

    /** File.Open: the call is recorded, and a StaticFile emptied when asked. */
    method OpenNode(n: FSNode, id: u64, omode: byte)
      requires Valid() && n in fs.nodes
      modifies this`trace, n
      ensures Valid() && n in old(View()).fs.nodes && View() == OpenFile(old(View()), n, id, omode)
    {
      hide Owned, Tables, SelfContained;
      Record(Opened(n, id));
      if n.kind == Regular && TruncBit(omode) { TruncateNode(n); }
    }

    // ------------------------------------------------------------------ handlers

    /** What the view says about one fid and the node it stands for. */
    lemma At(c: u32, fid: u32)
      requires Valid() && c in conns && ServerLaws.Inv(cfg, View())
      ensures var s := View();
              && c in s.conns && (fid in s.conns[c].fids <==> fid in conns[c].fids)
              && s.conns[c].msize == conns[c].msize && s.conns[c].attached == conns[c].attached
              && s.sessions == sessions && s.fs.root == fs.root && fs.root in fs.nodes
              && s.fs.uid == fs.uid && s.fs.nodes.Keys == fs.nodes
              && (fid in conns[c].fids ==>
                    && s.conns[c].fids[fid] == conns[c].fids[fid].Value()
                    && conns[c].fids[fid] in Records()
                    && conns[c].fids[fid].node in fs.nodes
                    && s.fs.nodes[conns[c].fids[fid].node] == conns[c].fids[fid].node.Value())
    {
      if fid in conns[c].fids { ServerResults.WalkNode(cfg, View(), c, fid); }
      hide ServerLaws.Inv;
    }

    /** fs/server.go:95-108 */
    method Version(c: u32, typ: byte, msize: u32, version: Data) returns (r: Reply)
      requires Valid() && c in conns
      modifies conns[c]
      ensures Valid() && (View(), r) == Negotiate(old(View()), c, typ, msize, version)
    {
      if typ != 100 || version != VERSION { return GoError; }
      var m := msize;
      if m > MAX_MSG_LEN { m := MAX_MSG_LEN; }
      SetSize(c, m);
      return Answer(Body.Version(m, version));
    }

    /** fs/server.go:239-276. `order` is the order the child map was walked in. */
    method Open(c: u32, fid: u32, omode: byte, ghost env: Env<FSNode>) returns (r: Reply, order: seq<FSNode>)
      requires Valid() && c in conns && ServerLaws.Inv(cfg, View())
      modifies this, Records(), fs.nodes
      ensures Valid() && (View(), r) == FileServer.Open(cfg, old(View()), c, fid, omode, env.(order := order))
    {
      hide Frames, NamesStay, ServerLaws.Inv, OpenPermission, Visible, View, Valid, Records;
      At(c, fid);
      order := [];
      if fid !in conns[c].fids { return Fail(BadFid), order; }
      var info := conns[c].fids[fid];
      var n := info.node;
      var st := n.Stat();
      if info.omode != NONE { return Fail(AlreadyOpen), order; }
      if !cfg.ignorePerms && !OpenPermission(st, info.uname, omode % 16) { return Fail(Denied), order; }
      if n.kind == Directory {
        if omode % 16 == OWRITE || omode % 16 == ORDWR { return Fail(CannotWriteDir), order; }
        order := ListNode(n);
        MarkOpen(c, fid, omode, Snapshot(order));
      } else {
        OpenNode(n, ConnFid(c, fid), omode);
        MarkOpen(c, fid, omode, info.extra);
      }
      return Answer(ROpen(st.qid, IOUNIT)), order;
    }

    /** fs/server.go:146-176 */
    method Attach(c: u32, fid: u32, afid: u32, uname: Data) returns (r: Reply)
      requires Valid() && c in conns && ServerLaws.Inv(cfg, View())
      modifies conns[c]
      ensures Valid() && fs.root in fs.nodes && (View(), r) == FileServer.Attach(cfg, old(View()), c, fid, afid, uname)
    {
      hide Frames, NamesStay, ServerLaws.Inv, Tables, Owned, Records;
      At(c, afid);
      var name := uname;
      if cfg.auth {
        if afid !in conns[c].fids { return Fail(NotAuthenticated); }
        var extra := conns[c].fids[afid].extra;
        if !extra.Session? || extra.n !in sessions { return Fail(NotAuthenticated); }
        match sessions[extra.n]
        case Refused => return Fail(AuthFailed);
        case Pending => return Fail(NotAuthenticated);
        case Authenticated(n) => name := n;
      }
      Admit(c, name);
      Bind(c, fid, fs.root, name, NONE, NoExtra);
      return Answer(RAttach(fs.root.stat.qid));
    }

    /** fs/server.go:178-237 */
    method Walk(c: u32, fid: u32, newfid: u32, names: seq<Data>) returns (r: Reply)
      requires Valid() && c in conns && ServerLaws.Inv(cfg, View())
      modifies conns[c]
      ensures Valid() && (View(), r) == FileServer.Walk(old(View()), c, fid, newfid, names)
    {
      hide Frames, NamesStay, ServerLaws.Inv, View, Valid, Records, Paths.Descend, WalkQids, Owned;
      At(c, fid);
      if fid !in conns[c].fids { return Fail(BadFid); }
      var info := conns[c].fids[fid];
      if |names| > 0 && names[0] == DOTDOT {
        ParentAt(info.node);
        if info.node.parent.None? { return Answer(RWalk(0, [])); }
        var p := info.node.parent.value;
        Bind(c, newfid, p, info.uname, NONE, NoExtra);
        return Answer(RWalk(1, [p.stat.qid]));
      }
      if |names| > 0 && names[0] == DOT {
        Bind(c, newfid, info.node, info.uname, NONE, NoExtra);
        return Answer(RWalk(1, [info.node.stat.qid]));
      }
      var m, qids := Descend(info.node, names);
      if m.None? { return Fail(NoSuchPath); }
      Bind(c, newfid, m.value, info.uname, NONE, NoExtra);
      return Answer(RWalk(Wrap16(|qids|), qids));
    }

    /** A parent is a node of the tree too. */
    lemma ParentAt(n: FSNode)
      requires Valid() && ServerLaws.Inv(cfg, View()) && n in fs.nodes
      ensures n.parent.Some? ==> n.parent.value in fs.nodes && View().fs.nodes[n.parent.value] == n.parent.value.Value()
    { assert TreeLaws.NodeOk(View().fs.nodes, n); }

    /** fs/server.go:278-324 */
    method Create(c: u32, fid: u32, name: Data, perm: u32, omode: byte, now: u32, ghost env: Env<FSNode>)
      returns (r: Reply, ghost n: FSNode)
      requires Valid() && c in conns && ServerLaws.Inv(cfg, View())
      requires env.addr !in fs.nodes && env.now == now
      modifies this, conns[c], fs, fs.nodes
      ensures Valid() && n !in old(fs.nodes)
      ensures (View(), r) == CreateNode(cfg, old(View()), c, fid, name, perm, omode, env.(addr := n))
    {
      hide Frames, NamesStay, ServerLaws.Inv, View, Valid, Records, Owned, Tables, OpenPermission, FileTree.Create,
        OpenFile;
      At(c, fid);
      n := env.addr;
      if fid !in conns[c].fids { return Fail(BadFid), n; }
      var info := conns[c].fids[fid];
      var dir := info.node.Stat();
      if !cfg.ignorePerms && !OpenPermission(dir, info.uname, OWRITE) { return Fail(Denied), n; }
      if info.node.kind != Directory { return Fail(NotDirectory), n; }
      if if DirBit(perm) then !cfg.createDir else !cfg.createFile { return Fail(CannotCreate), n; }
      var node, ok := MakeNode(info.node, info.uname, name, perm, now);
      n := node;
      if !ok { return Fail(Exists), n; }
      var qid := node.stat.qid;
      if node.kind != Directory { OpenNode(node, ConnFid(c, fid), omode); }
      Bind(c, fid, node, info.uname, omode, NoExtra);
      return Answer(RCreate(qid, IOUNIT)), n;
    }

    /** fs/server.go:392-418; `r` is a crash where StaticFile.Write panics. */
    method Write(c: u32, fid: u32, offset: u64, data: Data, ended: bool, ghost env: Env<FSNode>) returns (r: Reply)
      requires Valid() && c in conns && ServerLaws.Inv(cfg, View()) && env.ended == ended
      modifies this, fs.nodes
      ensures Valid() && (View(), r) == FileServer.Write(old(View()), c, fid, offset, data, env)
    {
      hide Frames, NamesStay, ServerLaws.Inv, View, Valid, Records, Owned, Written;
      At(c, fid);
      if fid !in conns[c].fids { return Fail(BadFid); }
      var info := conns[c].fids[fid];
      var n := info.node;
      if !Writable(info.omode) { return Fail(NotOpenForWrite); }
      if DirBit(n.stat.mode) || n.kind == Directory { return Fail(CannotWriteDir); }
      var panicked := false;
      if n.kind == Regular { panicked := WriteNode(n, offset, data); }
      Record(Used(n, ConnFid(c, fid)));
      if panicked { return Crash; }
      if n.kind == AuthStream && ended { return Fail(StreamEnded); }
      return Answer(RWrite(Wrap32(|data|)));
    }

    /** fs/server.go:420-438 */
    method Clunk(c: u32, fid: u32) returns (r: Reply)
      requires Valid() && c in conns && ServerLaws.Inv(cfg, View())
      modifies this, conns[c]
      ensures Valid() && (View(), r) == FileServer.Clunk(old(View()), c, fid)
    {
      hide Frames, NamesStay, ServerLaws.Inv, View, Valid, Records, Owned;
      At(c, fid);
      if fid !in conns[c].fids { return Answer(RClunk); }
      var info := conns[c].fids[fid];
      DeleteFid(c, fid);
      if info.omode != NONE && info.node.kind != Directory { Record(Event.Closed(info.node, ConnFid(c, fid))); }
      return Answer(RClunk);
    }

    /** fs/server.go:440-463 */
    method Remove(c: u32, fid: u32) returns (r: Reply)
      requires Valid() && c in conns && ServerLaws.Inv(cfg, View())
      modifies this, conns[c], fs.nodes
      ensures Valid() && (View(), r) == RemoveNode(cfg, old(View()), c, fid)
    {
      hide Frames, NamesStay, ServerLaws.Inv, View, Valid, Records, Owned, OpenPermission, FileTree.Remove;
      At(c, fid);
      if fid !in conns[c].fids { return Fail(BadFid); }
      var info := conns[c].fids[fid];
      ParentAt(info.node);
      DeleteFid(c, fid);
      if !cfg.ignorePerms && !OpenPermission(info.node.Stat(), info.uname, OWRITE) { return Fail(Denied); }
      if !cfg.removeFile { return Fail(CannotDelete); }
      var ok := RemoveNodeObject(info.node);
      if !ok { NotRemoved(old(View()).fs, info.node); return Fail(NotModifiable); }
      return Answer(RRemove);
    }

    /** fs/server.go:512-591 */
    method Wstat(c: u32, fid: u32, t: Stat) returns (r: Reply)
      requires Valid() && c in conns && ServerLaws.Inv(cfg, View())
      modifies fs.nodes
      ensures Valid() && (View(), r) == FileServer.Wstat(cfg, old(View()), c, fid, t)
    {
      hide Frames, NamesStay, ServerLaws.Inv, View, Valid, Records, Owned, OpenPermission;
      At(c, fid);
      if fid !in conns[c].fids { return Fail(BadFid); }
      var info := conns[c].fids[fid];
      var stat := info.node.Stat();
      if !cfg.ignorePerms {
        var owner := UserRelation(info.uname, stat) == Owner;
        if |t.name| != 0 && !owner { return Fail(Denied); }
        if t.length != MAX64 && t.length != stat.length && !OpenPermission(stat, info.uname, OWRITE) {
          return Fail(Denied);
        }
        if t.mode != MAX32 && t.mode != stat.mode && !owner { return Fail(Denied); }
        if t.mtime != MAX32 && t.mtime != stat.mtime && !owner { return Fail(Denied); }
        if |t.gid| != 0 && (stat.uid != info.uname || !UserInGroup(info.uname, t.gid)) { return Fail(Denied); }
      }
      if |t.name| != 0 { stat := stat.(name := t.name); }
      if t.length != MAX64 { stat := stat.(length := t.length); }
      if t.mode != MAX32 { stat := stat.(mode := WithPerm(stat.mode, t.mode)); }
      if t.mtime != MAX32 { stat := stat.(mtime := t.mtime); }
      if |t.gid| != 0 { stat := stat.(gid := t.gid); }
      SetNodeStat(info.node, stat);
      return Answer(RWstat);
    }

    lemma SnapshotAt(c: u32, fid: u32)
      requires Valid() && c in conns && ServerLaws.Inv(cfg, View()) && fid in conns[c].fids
      requires conns[c].fids[fid].extra.Snapshot?
      ensures forall x :: x in conns[c].fids[fid].extra.nodes ==> x in fs.nodes
    {
      ServerLaws.Found(cfg, View(), c, fid);
      hide ServerLaws.Inv;
    }

    /** The stats of a snapshot as they are now. */
    method CollectStats(ns: seq<FSNode>) returns (ss: seq<Stat>)
      requires Valid() && forall x :: x in ns ==> x in fs.nodes
      ensures Valid() && View() == old(View()) && ss == StatsOf(View().fs.nodes, ns)
    {
      ss := [];
      ghost var h := View().fs.nodes;
      for i := 0 to |ns|
        invariant ss == StatsOf(h, ns[..i])
      {
        StatsSnoc(h, ns[..i], ns[i]);
        assert ns[..i] + [ns[i]] == ns[..i + 1];
        ss := ss + [ns[i].Stat()];
      }
      assert ns[..|ns|] == ns;
    }

    /** fs/server.go:326-390 */
    method Read(c: u32, fid: u32, offset: u64, count: u32, bytes: Data, ghost env: Env<FSNode>) returns (r: Reply)
      requires Valid() && c in conns && ServerLaws.Inv(cfg, View()) && env.bytes == bytes
      modifies this`trace
      ensures Valid() && (View(), r) == FileServer.Read(old(View()), c, fid, offset, count, env)
    {
      hide Frames, NamesStay, ServerLaws.Inv, View, Valid, Records, Owned, StatsOf, Listing.Composable,
        Listing.Window, Listing.ReadDir, ReadAt;
      At(c, fid);
      var n := count;
      if n > Wrap32(conns[c].msize - 11) { n := Wrap32(conns[c].msize - 11); }
      if fid !in conns[c].fids { return Fail(BadFid); }
      var info := conns[c].fids[fid];
      if !Readable(info.omode) { return Fail(NotOpened); }
      if info.node.kind != Directory {
        var d := if info.node.kind == Regular then ReadAt(info.node.data, offset, n) else ReadAt(bytes, 0, n);
        Record(Used(info.node, ConnFid(c, fid)));
        return Answer(RRead(Wrap32(|d|), d));
      }
      if !info.extra.Snapshot? { return Crash; }
      SnapshotAt(c, fid);
      var stats := CollectStats(info.extra.nodes);
      var d := ListWindow(stats, offset, n);
      if d.None? { return Crash; }
      return Answer(RRead(Wrap32(|d.value|), d.value));
    }

    method ListWindow(stats: seq<Stat>, offset: u64, n: u32) returns (d: Option<Data>)
      requires Valid()
      ensures Valid() && View() == old(View())
      ensures d == if Listing.Composable(Listing.Window(stats, offset, n))
                   then Some(Listing.ReadDir(stats, offset, n)) else None
    {
      hide Listing.Composable, Listing.Window, Listing.ReadDir;
      d := Listing.ReadDirLoop(stats, offset, n);
    }

    /** fs/server.go:465-474 */
    method Stat(c: u32, fid: u32) returns (r: Reply)
      requires Valid() && c in conns && ServerLaws.Inv(cfg, View())
      ensures Valid() && (View(), r) == StatNode(old(View()), c, fid)
    {
      hide Frames, NamesStay, ServerLaws.Inv, View, Valid, Records, Owned;
      At(c, fid);
      if fid !in conns[c].fids { return Fail(BadFid); }
      return Answer(RStat(conns[c].fids[fid].node.Stat()));
    }

    /** fs/server.go:110-144 */
    method Auth(c: u32, afid: u32, now: u32, ghost env: Env<FSNode>) returns (r: Reply, ghost n: FSNode)
      requires Valid() && c in conns && ServerLaws.Inv(cfg, View())
      requires env.addr !in fs.nodes && env.now == now
      modifies this, conns[c], fs
      ensures Valid() && n !in old(fs.nodes)
      ensures (View(), r) == FileServer.Auth(cfg, old(View()), c, afid, env.(addr := n))
    {
      hide Frames, NamesStay, ServerLaws.Inv, View, Valid, Records, Owned;
      At(c, afid);
      n := env.addr;
      if !cfg.auth { return Fail(NoAuth), n; }
      var stat := NewStat(fs.uid, AUTH, GLENDA, GLENDA, 438, now);
      var node := MakeAuthFile(stat);
      n := node;
      SetSession(node, Pending);
      Record(Opened(node, ConnFid(c, afid)));
      Bind(c, afid, node, [], ORDWR, Session(node));
      return Answer(RAuth(stat.qid)), n;
    }

    method MakeAuthFile(stat: Stat) returns (n: FSNode)
      requires Valid()
      modifies fs
      ensures Valid() && n !in old(fs.nodes)
      ensures var s := old(View());
              View() == s.(fs := s.fs.(nodes := s.fs.nodes[n := Node(AuthStream, stat, None, [], [])],
                                       uid := s.fs.uid + 1))
    {
      hide SelfContained, Values;
      n := fs.AuthFile(stat);
    }

    method SetSession(n: FSNode, a: AuthState)
      requires Valid()
      modifies this`sessions
      ensures Valid() && View() == old(View()).(sessions := old(View()).sessions[n := a])
    {
      hide SelfContained, Values;
      sessions := sessions[n := a];
    }

    /** fs/server.go:90-93 */
    method NewConn() returns (c: u32)
      requires Valid() && Numbered() && |conns| + 1 < TWO32
      modifies this
      ensures Valid() && Numbered() && View() == Next(cfg, old(View()), Connect)
      ensures c !in old(conns) && conns.Keys == old(conns.Keys) + {c}
    {
      hide Next, View, Valid, Tables, Owned, Records;
      CountTables();
      c := |conns| + 1;
      KeysCount(conns);
      ConnectStep(cfg, View(), c);
      AddConn(c);
      KeysCount(conns);
    }

    lemma CountTables()
      ensures |View().conns| == |conns| && View().conns.Keys == conns.Keys
    {
      assert Tables().Keys == conns.Keys;
      KeysCount(Tables());
      KeysCount(conns);
    }

    /** Connections have the numbers from one on. */
    ghost predicate Numbered()
      reads this
    { forall c :: c in conns ==> c <= |conns| }

    twostate lemma Added(c: u32, new k: Connection)
      requires c !in old(conns) && conns == old(conns)[c := k] && k.Value() == Conn(map[], 0, {})
      requires forall d :: d in old(conns) ==> conns[d].Value() == old(conns[d].Value())
      ensures Tables() == old(Tables())[c := Conn(map[], 0, {})]
    {}

    method AddConn(c: u32)
      requires Valid() && c !in conns
      modifies this`conns
      ensures Valid() && conns.Keys == old(conns.Keys) + {c}
      ensures View() == old(View()).(conns := old(View()).conns[c := Conn(map[], 0, {})])
    {
      hide FileSystem.Valid, FileSystem.View;
      ghost var view := fs.View();
      var k := new Connection(c);
      conns := conns[c := k];
      assert fs.Valid() && fs.View() == view;
      Added(c, k);
    }

    /** The dispatch of handleCall (server.go:184-228) to the handlers. */
    method Dispatch(c: u32, m: FCall, now: u32, bytes: Data, ended: bool, ghost env: Env<FSNode>)
      returns (r: Reply, ghost used: Env<FSNode>)
      requires Valid() && c in conns && ServerLaws.Inv(cfg, View())
      requires env.addr !in fs.nodes && env.now == now && env.bytes == bytes && env.ended == ended
      modifies this, conns[c], Records(), fs, fs.nodes
      ensures Valid() && used.addr !in old(fs.nodes) && fs.root in old(fs.nodes)
      ensures c in old(View()).conns && fs.root == old(View()).fs.root && old(View()).fs.nodes.Keys == old(fs.nodes)
      ensures (View(), r) == Handle(cfg, old(View()), c, m, used)
    {
      hide View, Valid, Records, Owned, Tables, Frames, NamesStay, ServerLaws.Inv, TreeLaws.TreeOk, Negotiate,
        FileServer.Auth, FileServer.Attach, FileServer.Walk, FileServer.Open, CreateNode, FileServer.Read,
        FileServer.Write, FileServer.Clunk, RemoveNode, StatNode, FileServer.Wstat, ServerLaws.FidOk;
      At(c, 0);
      used := env;
      r := GoError;
      match m.body {
        case Version(msize, version) => r := Version(c, m.typ, msize, version);
        case TAuth(afid, _, _) =>
          ghost var n;
          r, n := Auth(c, afid, now, env);
          used := env.(addr := n);
        case TAttach(fid, afid, uname, _) => r := Attach(c, fid, afid, uname);
        case TFlush(_) => r := Answer(RFlush);
        case TWalk(fid, newfid, _, names) => r := Walk(c, fid, newfid, names);
        case TOpen(fid, omode) =>
          var order;
          r, order := Open(c, fid, omode, env);
          used := env.(order := order);
        case TCreate(fid, name, perm, omode) =>
          ghost var n;
          r, n := Create(c, fid, name, perm, omode, now, env);
          used := env.(addr := n);
        case TRead(fid, offset, count) => r := Read(c, fid, offset, count, bytes, env);
        case TWrite(fid, offset, _, data) => r := Write(c, fid, offset, data, ended, env);
        case TClunk(fid) => r := Clunk(c, fid);
        case TRemove(fid) => r := Remove(c, fid);
        case TStat(fid) => r := Stat(c, fid);
        case TWstat(fid, stat) => r := Wstat(c, fid, stat);
        case _ =>
      }
    }

    /** The objects do what Handle says of their view, and keep what every run of the server
        keeps. `used` is what the step took from outside. */
    method Serve(c: u32, m: FCall, now: u32, bytes: Data, ended: bool, ghost env: Env<FSNode>)
      returns (r: Reply, ghost used: Env<FSNode>)
      requires Valid() && c in conns && ServerLaws.Inv(cfg, View()) && fs.uid < TWO64
      requires env.addr !in fs.nodes && env.now == now && env.bytes == bytes && env.ended == ended
      modifies this, conns[c], Records(), fs, fs.nodes
      ensures Valid() && used.addr !in old(fs.nodes) && fs.root in old(fs.nodes)
      ensures c in old(View()).conns && fs.root == old(View()).fs.root && old(View()).fs.nodes.Keys == old(fs.nodes)
      ensures (View(), r) == Handle(cfg, old(View()), c, m, used)
      ensures ServerLaws.Inv(cfg, View())
    {
      hide View, Valid, Records, Owned, Tables, Handle, ServerLaws.Inv;
      At(c, 0);
      r, used := Dispatch(c, m, now, bytes, ended, env);
      ServerLaws.HandleKeeps(cfg, old(View()), c, m, used);
    }
  }

  lemma ConnectStep<N>(cfg: Config, s: Sys<N>, c: u32)
    requires c == |s.conns| + 1 && c !in s.conns
    ensures Next(cfg, s, Connect) == s.(conns := s.conns[c := Conn(map[], 0, {})])
  { hide Handle; }

  lemma KeysCount<A, B>(m: map<A, B>)
    ensures |m| == |m.Keys|
  {}

  lemma {:induction false} StatsSnoc(h: Heap<FSNode>, ns: seq<FSNode>, n: FSNode)
    requires n in h
    ensures StatsOf(h, ns + [n]) == StatsOf(h, ns) + [StatOf(h[n])]
  {
    if ns == [] { assert ns + [n] == [n] && [n][1..] == []; }
    else {
      StatsSnoc(h, ns[1..], n);
      assert (ns + [n])[1..] == ns[1..] + [n] && (ns + [n])[0] == ns[0];
    }
  }

  lemma NotRemoved(fs: FS<FSNode>, n: FSNode)
    requires n in fs.nodes && !FileTree.Remove(fs, n).1
    ensures FileTree.Remove(fs, n).0 == fs
  {}
}
