/** What the remaining requests return, in terms of the tree: reading, writing and asking for
    a stat, starting an authentication, and requests on a fid that stands for nothing. */
module RequestLaws {
  import opened Bytes
  import opened Proto
  import opened FileTree
  import opened TreeLaws
  import opened FileServer
  import opened ServerLaws
  import opened HandlerLaws
  import Listing

  /** A request that names a fid nothing is bound to is refused and changes nothing. */
  lemma UnboundRefused<N>(cfg: Config, s: Sys<N>, c: u32, m: FCall, env: Env<N>)
    requires Ready(s, c, env)
    requires match m.body
             case TWalk(fid, _, _, _) => fid !in s.conns[c].fids
             case TOpen(fid, _) => fid !in s.conns[c].fids
             case TCreate(fid, _, _, _) => fid !in s.conns[c].fids
             case TRead(fid, _, _) => fid !in s.conns[c].fids
             case TWrite(fid, _, _, _) => fid !in s.conns[c].fids
             case TRemove(fid) => fid !in s.conns[c].fids
             case TStat(fid) => fid !in s.conns[c].fids
             case TWstat(fid, _) => fid !in s.conns[c].fids
             case _ => false
    ensures Handle(cfg, s, c, m, env) == (s, Fail(BadFid))
  { hide Frames, NamesStay; }

  /** A version other than "9P2000", or an Rversion, ends the worker. */
  lemma VersionRefused<N>(cfg: Config, s: Sys<N>, c: u32, m: FCall, env: Env<N>)
    requires Ready(s, c, env) && m.body.Version? && (m.typ != 100 || m.body.version != [57, 80, 50, 48, 48, 48])
    ensures Handle(cfg, s, c, m, env) == (s, GoError)
  {}

  lemma FlushLaw<N>(cfg: Config, s: Sys<N>, c: u32, m: FCall, env: Env<N>)
    requires Ready(s, c, env) && m.body.TFlush?
    ensures Handle(cfg, s, c, m, env) == (s, Answer(RFlush))
  {}

  /** A stat is the stored one, but for the length: that of a file's content, none for a
      stream. */
  lemma StatLaw<N>(cfg: Config, s: Sys<N>, c: u32, m: FCall, fid: u32, env: Env<N>)
    requires Inv(cfg, s) && Ready(s, c, env) && m.body == TStat(fid) && fid in s.conns[c].fids
    ensures var n := s.conns[c].fids[fid].node;
            var (s', r) := Handle(cfg, s, c, m, env);
            && n in s.fs.nodes && s' == s && r.Answer? && r.body.RStat?
            && r.body.stat == s.fs.nodes[n].stat.(length := r.body.stat.length)
            && r.body.stat.length ==
               match s.fs.nodes[n].kind
               case Directory => s.fs.nodes[n].stat.length
               case Regular => |s.fs.nodes[n].data| % TWO64
               case AuthStream => 0
  {
    hide Inv, Frames, NamesStay;
    NodeThere(cfg, s, c, fid);
  }

  /** The most a read returns: what the client asks for, within the negotiated size less the
      eleven bytes of the header, where that is not below zero. */
  function Cap(msize: u32, count: u32): nat {
    var most := if msize >= 11 then msize - 11 else TWO32 + msize - 11;
    if count < most then count else most
  }

  /** `d` is what `data` has at the offset, up to so many bytes. */
  ghost predicate Slice(data: Data, offset: nat, most: nat, d: Data) {
    && |d| == (if offset >= |data| then 0 else if |data| - offset < most then |data| - offset else most)
    && forall i :: 0 <= i < |d| ==> d[i] == data[offset + i]
  }

  lemma ReadAtIs(data: Data, offset: nat, n: nat)
    ensures Slice(data, offset, n, ReadAt(data, offset, n))
  {}

  /** Only a fid open for reading or executing can read. A file gives what it has at the
      offset, a stream the next bytes, a directory the entries of its snapshot; nothing but
      the record of calls changes. */
  lemma ReadLaw<N>(cfg: Config, s: Sys<N>, c: u32, m: FCall, fid: u32, offset: u64, count: u32, env: Env<N>)
    requires Inv(cfg, s) && Ready(s, c, env) && m.body == TRead(fid, offset, count) && fid in s.conns[c].fids
    ensures var info := s.conns[c].fids[fid];
            var (s', r) := Handle(cfg, s, c, m, env);
            var most := Cap(s.conns[c].msize, count);
            && info.node in s.fs.nodes && s' == s.(trace := s'.trace)
            && (r.Fail? <==> info.omode % 16 !in {0, 2, 3}) && (r.Fail? ==> s' == s)
            && (r.Answer? ==> r.body.RRead?)
            && var node := s.fs.nodes[info.node];
            && (!r.Fail? && node.kind != Directory ==>
                  && r.Answer? && r.body.count == |r.body.data|
                  && s'.trace == s.trace + [Used(info.node, ConnFid(c, fid))]
                  && if node.kind == Regular then Slice(node.data, offset, most, r.body.data)
                     else Slice(env.bytes, 0, most, r.body.data))
            && (r.Answer? && node.kind == Directory ==>
                  && s' == s && info.extra.Snapshot? && most < TWO32
                  && r.body.data == Listing.ReadDir(StatsOf(s.fs.nodes, info.extra.nodes), offset, most))
  {
    hide Inv, StatsOf, ReadAt, Slice, Listing.ReadDir, Listing.Composable, Listing.Window;
    NodeThere(cfg, s, c, fid);
    var info, most := s.conns[c].fids[fid], Cap(s.conns[c].msize, count);
    CapIs(s.conns[c].msize, count);
    var node := s.fs.nodes[info.node];
    ReadAtIs(node.data, offset, most);
    ReadAtIs(env.bytes, 0, most);
    SliceShort(node.data, offset, most, ReadAt(node.data, offset, most));
    SliceShort(env.bytes, 0, most, ReadAt(env.bytes, 0, most));
  }

  lemma CapIs(msize: u32, count: u32)
    ensures CapCount(msize, count) == Cap(msize, count) < TWO32
  {}

  lemma SliceShort(data: Data, offset: nat, most: nat, d: Data)
    requires Slice(data, offset, most, d)
    ensures |d| <= most
  {}

  /** The stats of a list of nodes, one for each. */
  lemma {:induction false} StatsAre<N>(nodes: Heap<N>, ns: seq<N>, i: nat)
    requires (forall n :: n in ns ==> n in nodes) && i < |ns|
    ensures |StatsOf(nodes, ns)| == |ns| && StatsOf(nodes, ns)[i] == StatOf(nodes[ns[i]])
  {
    if |ns| > 1 { StatsAre(nodes, ns[1..], if i > 0 then i - 1 else 0); }
  }

  /** The content after a write: the new bytes at the offset, elsewhere the old ones, and
      zeroes where there were none. */
  ghost predicate Overwritten(old': Data, offset: nat, d: Data, new': Data) {
    && |new'| == (if offset + |d| > |old'| then offset + |d| else |old'|)
    && forall i :: 0 <= i < |new'| ==>
         new'[i] == if offset <= i < offset + |d| then d[i - offset] else if i < |old'| then old'[i] else 0
  }

  lemma WriteAtIs(data: Data, offset: nat, d: Data)
    ensures Overwritten(data, offset, d, WriteAt(data, offset, d))
  {}

  /** Only a fid open for writing on something that is not a directory can write. All bytes
      of the request go into the file at the offset, unless no slice could hold the result;
      no other node changes. */
  lemma WriteLaw<N>(cfg: Config, s: Sys<N>, c: u32, m: FCall, fid: u32, offset: u64, data: Data, env: Env<N>)
    requires Inv(cfg, s) && Ready(s, c, env) && fid in s.conns[c].fids
    requires m.body.TWrite? && m.body.fid == fid && m.body.offset == offset && m.body.data == data
    ensures var info := s.conns[c].fids[fid];
            var (s', r) := Handle(cfg, s, c, m, env);
            && info.node in s.fs.nodes
            && var node := s.fs.nodes[info.node];
            && (r.Fail? <==>
                  info.omode % 16 !in {1, 2} || node.kind == Directory || (node.kind == AuthStream && env.ended))
            && (r.Answer? ==> r.body == RWrite(|data| % TWO32))
            && (node.kind != Regular || r.Fail? ==> s'.fs == s.fs)
            && (node.kind == Regular && r.Answer? ==>
                  && info.node in s'.fs.nodes
                  && Overwritten(node.data, offset, data, s'.fs.nodes[info.node].data)
                  && s' == s.(fs := SetData(s.fs, info.node, s'.fs.nodes[info.node].data),
                              trace := s.trace + [Used(info.node, ConnFid(c, fid))]))
            && (node.kind == Regular && r == Crash ==> offset + |data| > MAX_ALLOC)
  {
    hide TreeOk, ConnOk, TraceOk, AuthLoose, Overwritten, WriteAt, Frames, NamesStay;
    NodeThere(cfg, s, c, fid);
    var info := s.conns[c].fids[fid];
    KindIs(s.fs, info.node);
    WriteAtIs(s.fs.nodes[info.node].data, offset, data);
  }

  lemma KindIs<N>(fs: FS<N>, n: N)
    requires TreeOk(fs) && n in fs.nodes
    ensures DirBit(fs.nodes[n].stat.mode) <==> fs.nodes[n].kind == Directory
  { assert KindOk(fs.nodes[n]); }

  /** With authentication enabled an Auth makes a file of its own that is in no directory,
      opens it for reading and writing under afid and leaves its outcome to come. */
  lemma AuthLaw<N>(cfg: Config, s: Sys<N>, c: u32, m: FCall, afid: u32, env: Env<N>)
    requires Inv(cfg, s) && Ready(s, c, env) && m.body.TAuth? && m.body.afid == afid
    ensures var (s', r) := Handle(cfg, s, c, m, env);
            && (r.Answer? <==> cfg.auth) && (!r.Answer? ==> s' == s)
            && (r.Answer? ==>
                  && s'.fs.nodes.Keys == s.fs.nodes.Keys + {env.addr} && s'.conns.Keys == s.conns.Keys
                  && (forall x :: x in s.fs.nodes ==> s'.fs.nodes[x] == s.fs.nodes[x])
                  && var n := s'.fs.nodes[env.addr];
                  && n.kind == AuthStream && n.parent == None && r.body == RAuth(n.stat.qid)
                  && n.stat.qid.uid == s.fs.uid % TWO64 && s'.fs.uid == s.fs.uid + 1 && n.stat.mode == 438
                  && n.stat.name == [97, 117, 116, 104] && n.stat.uid == n.stat.gid == [103, 108, 101, 110, 100, 97]
                  && s'.conns[c].fids == s.conns[c].fids[afid := Fid(env.addr, 2, [], Session(env.addr))]
                  && (forall d :: d in s.conns && d != c ==> s'.conns[d] == s.conns[d])
                  && s'.sessions == s.sessions[env.addr := Pending]
                  && IsOpen(s'.trace, env.addr, ConnFid(c, afid)))
  {
    hide Inv, IsOpen, Frames, NamesStay;
    IsOpenLog(s.trace, Opened(env.addr, ConnFid(c, afid)), env.addr, ConnFid(c, afid));
  }

  /** An authentication decides who attaches through its afid: nobody before it has ended,
      nobody after it has failed, and otherwise a user of the name it gave, whatever name the
      request asks for. Its first outcome stands. */
  lemma AuthDecides<N>(cfg: Config, s: Sys<N>, c: u32, m: FCall, fid: u32, afid: u32, env: Env<N>, n: N,
                       outcome: Option<Data>, later: Option<Data>)
    requires cfg.auth && Ready(s, c, env) && m.body.TAttach? && m.body.fid == fid && m.body.afid == afid
    requires afid in s.conns[c].fids && s.conns[c].fids[afid].extra == Session(n)
    requires n in s.sessions && s.sessions[n] == Pending
    ensures Handle(cfg, s, c, m, env) == (s, Fail(NotAuthenticated))
    ensures var s1 := Next(cfg, s, AuthResult(n, outcome));
            && s1 == s.(sessions := s1.sessions) && s1.sessions.Keys == s.sessions.Keys
            && (forall x :: x in s.sessions && x != n ==> s1.sessions[x] == s.sessions[x])
            && Next(cfg, s1, AuthResult(n, later)) == s1
            && var (s2, r) := Handle(cfg, s1, c, m, env);
            && (outcome.None? ==> s2 == s1 && r == Fail(AuthFailed))
            && (outcome.Some? ==>
                  && r == Answer(RAttach(s.fs.nodes[s.fs.root].stat.qid)) && c in s2.conns && fid in s2.conns[c].fids
                  && s2.conns[c].fids[fid] == Fid(s.fs.root, 4, outcome.value, NoExtra))
  { hide Frames, NamesStay, Negotiate, Auth, Walk, Open, CreateNode, Read, Write, Clunk, RemoveNode, StatNode, Wstat; }

  // -------------------------------------------------------------------- the beginning

  /** A new file system is its root: an empty directory called "/" with the owner, group and
      permissions asked for. */
  lemma FreshTree<N>(root: N, user: Data, group: Data, perms: u32, now: u32)
    ensures var fs := NewFS(root, user, group, perms, now);
            && fs.root == root && fs.nodes.Keys == {root} && fs.uid == 1
            && var n := fs.nodes[root];
            && n.kind == Directory && n.parent == None && n.children == [] && n.stat.name == [47]
            && n.stat.uid == n.stat.muid == user && n.stat.gid == group && n.stat.atime == n.stat.mtime == now
            && n.stat.mode >= 0x8000_0000 && n.stat.mode % 0x8000_0000 == perms % 0x8000_0000
            && n.stat.qid == Qid(n.stat.mode / 0x100_0000, 0, 0)
  {}

  /** Connections have the numbers from one on. */
  ghost predicate Numbered<N>(conns: map<u32, Conn<N>>) { forall c: u32 :: c in conns <==> 1 <= c <= |conns| }

  lemma OneMoreConn<N>(conns: map<u32, Conn<N>>, conn: Conn<N>)
    requires Numbered(conns) && |conns| + 1 < TWO32
    ensures Numbered(conns[|conns| + 1 := conn])
  {
    var k: u32 := |conns| + 1;
    var conns' := conns[k := conn];
    assert k !in conns;
    assert |conns'| == k by { assert conns'.Keys == conns.Keys + {k}; }
    forall c: u32 ensures c in conns' <==> 1 <= c <= k { assert c in conns <==> 1 <= c <= k - 1; }
  }

  lemma SameConns<N>(conns: map<u32, Conn<N>>, conns': map<u32, Conn<N>>)
    requires Numbered(conns) && conns'.Keys == conns.Keys
    ensures Numbered(conns')
  { assert |conns'| == |conns'.Keys| == |conns|; }

  lemma HandleConns<N>(cfg: Config, s: Sys<N>, c: u32, m: FCall, env: Env<N>)
    requires Ready(s, c, env)
    ensures Handle(cfg, s, c, m, env).0.conns.Keys == s.conns.Keys
  { hide NamesStay, Negotiate, Auth, Attach, Walk, Open, CreateNode, Read, Write, Clunk, RemoveNode, StatNode, Wstat; }

  lemma StepNumbered<N>(cfg: Config, s: Sys<N>, a: Action<N>)
    requires Numbered(s.conns)
    ensures Numbered(Next(cfg, s, a).conns)
  {
    hide Handle, Numbered;
    match a
    case Connect => if |s.conns| + 1 < TWO32 { OneMoreConn(s.conns, Conn(map[], 0, {})); }
    case Request(c, m, env) =>
      if Ready(s, c, env) {
        HandleConns(cfg, s, c, m, env);
        SameConns(s.conns, Handle(cfg, s, c, m, env).0.conns);
      }
    case AuthResult(_, _) =>
  }

  lemma {:induction false} RunNumbered<N>(cfg: Config, s: Sys<N>, acts: seq<Action<N>>)
    requires Numbered(s.conns)
    ensures Numbered(Run(cfg, s, acts).conns)
    decreases |acts|
  {
    hide Next, Numbered;
    if acts != [] {
      StepNumbered(cfg, s, acts[0]);
      RunNumbered(cfg, Next(cfg, s, acts[0]), acts[1..]);
    }
  }

  /** In every run a new connection gets the next number, which nobody has, and starts with
      no fids, no size agreed on and nobody attached; the others do not notice. */
  lemma ConnectLaw<N>(cfg: Config, fs: FS<N>, acts: seq<Action<N>>)
    ensures var s := Run(cfg, Start(fs), acts);
            var c := |s.conns| + 1;
            var s' := Next(cfg, s, Connect);
            && (forall d: u32 :: d in s.conns <==> 1 <= d < c)
            && (c < TWO32 ==> s' == s.(conns := s.conns[c := Conn(map[], 0, {})]))
            && (c >= TWO32 ==> s' == s)
  {
    hide Run;
    RunNumbered(cfg, Start(fs), acts);
  }
}
