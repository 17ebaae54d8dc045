/** The 9P server over an FS (fs/server.go): connections with their fid tables, and one
    handler per request. A handler runs as one step. `N` is the identity of a node object,
    and `Env` is what a handler takes from outside: the address of a new node, the clock,
    the order in which a Go map is walked, the bytes an authentication stream yields, and
    whether it has ended. */
module FileServer {
  import opened Bytes
  import opened Proto
  import opened FileTree
  import opened Paths
  import opened Permissions
  import Listing

  datatype Config = Config(ignorePerms: bool, auth: bool, createFile: bool, createDir: bool, removeFile: bool)

  datatype Env<N> = Env(addr: N, now: u32, order: seq<N>, bytes: Data, ended: bool)

  datatype Err =
    | BadFid | NoAuth | NotAuthenticated | AuthFailed | NoSuchPath | AlreadyOpen | Denied | CannotWriteDir
    | CannotCreate | Exists | NotDirectory | NotOpened | NotOpenForWrite | StreamEnded | CannotDelete | NotModifiable

  /** An RError, an answer, a Go error that ends the worker, or a panic. */
  datatype Reply = Fail(e: Err) | Answer(body: Body) | GoError | Crash

  /** fidInfo.extra: the child snapshot of an open directory, or the running
      authentication of an auth fid. */
  datatype Extra<N> = NoExtra | Snapshot(nodes: seq<N>) | Session(n: N)

  datatype Fid<N> = Fid(node: N, omode: byte, uname: Data, extra: Extra<N>)

  /** `attached` is history: the names that Attach gave out on this connection. */
  datatype Conn<N> = Conn(fids: map<u32, Fid<N>>, msize: u32, attached: set<Data>)

  datatype AuthState = Pending | Authenticated(name: Data) | Refused

  /** Calls forwarded to File objects, with the connection-wide id of the fid. */
  datatype Event<N> = Opened(n: N, id: u64) | Used(n: N, id: u64) | Closed(n: N, id: u64)

  datatype Sys<N> = Sys(fs: FS<N>, conns: map<u32, Conn<N>>, sessions: map<N, AuthState>, trace: seq<Event<N>>)

  datatype Action<N> =
    | Connect
    | Request(c: u32, m: FCall, env: Env<N>)
    | AuthResult(n: N, outcome: Option<Data>)

  // ------------------------------------------------------------------ fid table

  /** fs/server.go:50-55 */
  function ConnFid(c: u32, fid: u32): u64 { c * 0x1_0000_0000 + fid }

  function GetFid<N>(s: Sys<N>, c: u32, fid: u32): Option<Fid<N>>
    requires c in s.conns
  { if fid in s.conns[c].fids then Some(s.conns[c].fids[fid]) else None }

  function PutFid<N>(s: Sys<N>, c: u32, fid: u32, info: Fid<N>): Sys<N>
    requires c in s.conns
  { s.(conns := s.conns[c := s.conns[c].(fids := s.conns[c].fids[fid := info])]) }

  function DropFid<N>(s: Sys<N>, c: u32, fid: u32): Sys<N>
    requires c in s.conns
  { s.(conns := s.conns[c := s.conns[c].(fids := s.conns[c].fids - {fid})]) }

  function NewFid<N>(uname: Data, n: N): Fid<N> { Fid(n, NONE, uname, NoExtra) }

  function Derive<N>(info: Fid<N>, n: N): Fid<N> { NewFid(info.uname, n) }

  function Log<N>(s: Sys<N>, e: Event<N>): Sys<N> { s.(trace := s.trace + [e]) }

  predicate IsFile<N>(n: Node<N>) { n.kind != Directory }

  // ------------------------------------------------------------------- handlers

  /** What no handler but Version's changes: the root, the connections there are and their
      message sizes. At most one uid is used up. */
  predicate Frames<N>(s: Sys<N>, s': Sys<N>) {
    && s'.fs.root == s.fs.root && s'.fs.uid <= s.fs.uid + 1 && s'.conns.Keys == s.conns.Keys
    && forall d :: d in s.conns ==> s'.conns[d].msize == s.conns[d].msize
  }

  /** And no handler but Attach's gives out a name. */
  predicate NamesStay<N>(s: Sys<N>, s': Sys<N>)
    requires s'.conns.Keys == s.conns.Keys
  { forall d :: d in s.conns ==> s'.conns[d].attached == s.conns[d].attached }

  /** fs/server.go:95-108 */
  function Negotiate<N>(s: Sys<N>, c: u32, typ: byte, msize: u32, version: Data): (x: (Sys<N>, Reply))
    requires c in s.conns
    ensures x.1.Answer? ==> x.1.body.Version? && typ == 100
    ensures x.0.fs == s.fs && x.0.conns.Keys == s.conns.Keys && NamesStay(s, x.0)
    ensures forall d :: d in s.conns && d != c ==> x.0.conns[d] == s.conns[d]
  {
    if typ != 100 || version != VERSION then (s, GoError)
    else
      var m: u32 := if msize > MAX_MSG_LEN then MAX_MSG_LEN else msize;
      (s.(conns := s.conns[c := s.conns[c].(msize := m)]), Answer(Body.Version(m, version)))
  }

  const VERSION: Data := [57, 80, 50, 48, 48, 48]  // "9P2000"
  const GLENDA: Data := [103, 108, 101, 110, 100, 97]
  const AUTH: Data := [97, 117, 116, 104]

  /** fs/server.go:110-144: the auth file is opened and bound to afid, and the
      authentication starts running beside the server. */
  function Auth<N>(cfg: Config, s: Sys<N>, c: u32, afid: u32, env: Env<N>): (x: (Sys<N>, Reply))
    requires c in s.conns && env.addr !in s.fs.nodes
    ensures x.1.Answer? ==> x.1.body.RAuth?
    ensures Frames(s, x.0) && NamesStay(s, x.0)
  {
    if !cfg.auth then (s, Fail(NoAuth))
    else
      var stat := NewStat(s.fs.uid, AUTH, GLENDA, GLENDA, 438, env.now);
      var n := env.addr;
      var s1 := s.(fs := s.fs.(nodes := s.fs.nodes[n := Node(AuthStream, stat, None, [], [])], uid := s.fs.uid + 1),
                   sessions := s.sessions[n := Pending]);
      var s2 := Log(s1, Opened(n, ConnFid(c, afid)));
      (PutFid(s2, c, afid, Fid(n, ORDWR, [], Session(n))), Answer(RAuth(stat.qid)))
  }

  /** fs/server.go:146-176: with authentication configured the name is the one it
      established, not the one the client asks for. */
  function Attach<N>(cfg: Config, s: Sys<N>, c: u32, fid: u32, afid: u32, uname: Data): (x: (Sys<N>, Reply))
    requires c in s.conns && s.fs.root in s.fs.nodes
    ensures x.1.Answer? ==> x.1.body.RAttach?
    ensures Frames(s, x.0)
  {
    if !cfg.auth then AttachAs(s, c, fid, uname)
    else
      match GetFid(s, c, afid)
      case None => (s, Fail(NotAuthenticated))
      case Some(info) =>
        if !info.extra.Session? || info.extra.n !in s.sessions then (s, Fail(NotAuthenticated))
        else
          match s.sessions[info.extra.n]
          case Refused => (s, Fail(AuthFailed))
          case Pending => (s, Fail(NotAuthenticated))
          case Authenticated(name) => AttachAs(s, c, fid, name)
  }

  function AttachAs<N>(s: Sys<N>, c: u32, fid: u32, name: Data): (x: (Sys<N>, Reply))
    requires c in s.conns && s.fs.root in s.fs.nodes
    ensures x.1.Answer? ==> x.1.body.RAttach?
    ensures Frames(s, x.0)
  {
    var s1 := s.(conns := s.conns[c := s.conns[c].(attached := s.conns[c].attached + {name})]);
    (PutFid(s1, c, fid, NewFid(name, s.fs.root)), Answer(RAttach(s.fs.nodes[s.fs.root].stat.qid)))
  }

  const DOT: Data := [46]
  const DOTDOT: Data := [46, 46]

  /** The qids of the nodes along a walk. */
  function WalkQids<N>(nodes: Heap<N>, n: N, names: seq<Data>): seq<Qid>
    requires n in nodes
    decreases |names|
  {
    if names == [] || nodes[n].kind != Directory then []
    else
      var next := Lookup(nodes, nodes[n].children, names[0]);
      if next.None? || next.value !in nodes then []
      else [nodes[next.value].stat.qid] + WalkQids(nodes, next.value, names[1..])
  }

  /** fs/server.go:178-237 without a WalkFail handler. A first name of ".." or "." is
      answered on its own, whatever follows it. */
  function Walk<N>(s: Sys<N>, c: u32, fid: u32, newfid: u32, names: seq<Data>): (x: (Sys<N>, Reply))
    requires c in s.conns
    ensures x.1.Answer? ==> x.1.body.RWalk?
    ensures Frames(s, x.0) && NamesStay(s, x.0)
  {
    match GetFid(s, c, fid)
    case None => (s, Fail(BadFid))
    case Some(info) =>
      if info.node !in s.fs.nodes then (s, Crash)
      else if names != [] && names[0] == DOTDOT then
        var parent := s.fs.nodes[info.node].parent;
        if parent.None? || parent.value !in s.fs.nodes then (s, Answer(RWalk(0, [])))
        else (PutFid(s, c, newfid, Derive(info, parent.value)), Answer(RWalk(1, [s.fs.nodes[parent.value].stat.qid])))
      else if names != [] && names[0] == DOT then
        (PutFid(s, c, newfid, Derive(info, info.node)), Answer(RWalk(1, [s.fs.nodes[info.node].stat.qid])))
      else
        match Descend(s.fs.nodes, info.node, names)
        case None => (s, Fail(NoSuchPath))
        case Some(m) =>
          var qids := WalkQids(s.fs.nodes, info.node, names);
          (PutFid(s, c, newfid, Derive(info, m)), Answer(RWalk(Wrap16(|qids|), qids)))
  }

  predicate IsPermutation<N(==)>(a: seq<N>, b: seq<N>) { multiset(a) == multiset(b) }

  /** The order a directory is listed in: that of a Go map, hence any. */
  function ListingOrder<N>(nodes: Heap<N>, d: N, order: seq<N>): seq<N>
    requires d in nodes
  {
    var v := Visible(nodes, nodes[d].children);
    if IsPermutation(order, v) then order else v
  }

  predicate TruncBit(omode: byte) { omode / 16 % 2 == 1 }

  /** A File's Open: a StaticFile drops its data when asked to truncate. */
  function OpenFile<N>(s: Sys<N>, n: N, id: u64, omode: byte): Sys<N>
    requires n in s.fs.nodes
  {
    var s1 := Log(s, Opened(n, id));
    if s.fs.nodes[n].kind == Regular && TruncBit(omode) then s1.(fs := SetData(s.fs, n, [])) else s1
  }

  /** fs/server.go:239-276 */
  function Open<N>(cfg: Config, s: Sys<N>, c: u32, fid: u32, omode: byte, env: Env<N>): (x: (Sys<N>, Reply))
    requires c in s.conns
    ensures x.1.Answer? ==> x.1.body.ROpen?
    ensures Frames(s, x.0) && NamesStay(s, x.0)
  {
    match GetFid(s, c, fid)
    case None => (s, Fail(BadFid))
    case Some(info) =>
      if info.node !in s.fs.nodes then (s, Crash)
      else
        var st := StatOf(s.fs.nodes[info.node]);
        if info.omode != NONE then (s, Fail(AlreadyOpen))
        else if !cfg.ignorePerms && !OpenPermission(st, info.uname, omode % 16) then (s, Fail(Denied))
        else if IsFile(s.fs.nodes[info.node]) then
          (PutFid(OpenFile(s, info.node, ConnFid(c, fid), omode), c, fid, info.(omode := omode)),
           Answer(ROpen(st.qid, IOUNIT)))
        else if omode % 16 == OWRITE || omode % 16 == ORDWR then (s, Fail(CannotWriteDir))
        else
          var order := ListingOrder(s.fs.nodes, info.node, env.order);
          (PutFid(s, c, fid, info.(omode := omode, extra := Snapshot(order))),
           Answer(ROpen(st.qid, IOUNIT)))
  }

  /** fs/server.go:278-324 with CreateStaticFile and CreateStaticDir as the hooks. */
  function CreateNode<N>(cfg: Config, s: Sys<N>, c: u32, fid: u32, name: Data, perm: u32, omode: byte, env: Env<N>)
    : (x: (Sys<N>, Reply))
    requires c in s.conns && env.addr !in s.fs.nodes
    ensures x.1.Answer? ==> x.1.body.RCreate?
    ensures Frames(s, x.0) && NamesStay(s, x.0)
  {
    match GetFid(s, c, fid)
    case None => (s, Fail(BadFid))
    case Some(info) =>
      if info.node !in s.fs.nodes then (s, Crash)
      else
        var dir := StatOf(s.fs.nodes[info.node]);
        if !cfg.ignorePerms && !OpenPermission(dir, info.uname, OWRITE) then (s, Fail(Denied))
        else if IsFile(s.fs.nodes[info.node]) then (s, Fail(NotDirectory))
        else if if DirBit(perm) then !cfg.createDir else !cfg.createFile then (s, Fail(CannotCreate))
        else
          var n := env.addr;
          var (fs', ok) := Create(s.fs, info.node, n, info.uname, name, perm, env.now);
          var s1 := s.(fs := fs');
          if !ok || n !in fs'.nodes then (s1, Fail(Exists))
          else
            var s2 := if IsFile(fs'.nodes[n]) then OpenFile(s1, n, ConnFid(c, fid), omode) else s1;
            (PutFid(s2, c, fid, Derive(info, n).(omode := omode)),
             Answer(RCreate(fs'.nodes[n].stat.qid, IOUNIT)))
  }

  predicate Readable(omode: byte) { omode % 16 == OREAD || omode % 16 == ORDWR || omode % 16 == OEXEC }

  predicate Writable(omode: byte) { omode % 16 == OWRITE || omode % 16 == ORDWR }

  /** The count a read may return; `msize-11` is uint32 arithmetic. */
  function CapCount(msize: u32, count: u32): u32 {
    if count > Wrap32(msize - 11) then Wrap32(msize - 11) else count
  }

  function StatsOf<N>(nodes: Heap<N>, ns: seq<N>): seq<Stat> {
    if ns == [] then []
    else (if ns[0] in nodes then [StatOf(nodes[ns[0]])] else []) + StatsOf(nodes, ns[1..])
  }

  function ReadReply(d: Data): Reply { Answer(RRead(Wrap32(|d|), d)) }

  /** fs/server.go:326-356. A directory fid without a snapshot fails a type assertion. */
  function Read<N>(s: Sys<N>, c: u32, fid: u32, offset: u64, count: u32, env: Env<N>): (x: (Sys<N>, Reply))
    requires c in s.conns
    ensures x.1.Answer? ==> x.1.body.RRead?
    ensures Frames(s, x.0) && NamesStay(s, x.0)
  {
    match GetFid(s, c, fid)
    case None => (s, Fail(BadFid))
    case Some(info) =>
      if info.node !in s.fs.nodes then (s, Crash)
      else
        var n := CapCount(s.conns[c].msize, count);
        var node := s.fs.nodes[info.node];
        if !Readable(info.omode) then (s, Fail(NotOpened))
        else if IsFile(node) then
          var d := ReadAt(if node.kind == Regular then node.data else env.bytes,
                          if node.kind == Regular then offset else 0, n);
          (Log(s, Used(info.node, ConnFid(c, fid))), ReadReply(d))
        else if !info.extra.Snapshot? then (s, Crash)
        else
          var stats := StatsOf(s.fs.nodes, info.extra.nodes);
          if Listing.Composable(Listing.Window(stats, offset, n))
          then (s, ReadReply(Listing.ReadDir(stats, offset, n))) else (s, Crash)
  }

  /** fs/server.go:392-418. A stream that has ended takes nothing. */
  function Write<N>(s: Sys<N>, c: u32, fid: u32, offset: u64, data: Data, env: Env<N>): (x: (Sys<N>, Reply))
    requires c in s.conns
    ensures x.1.Answer? ==> x.1.body.RWrite?
    ensures Frames(s, x.0) && NamesStay(s, x.0)
  {
    match GetFid(s, c, fid)
    case None => (s, Fail(BadFid))
    case Some(info) =>
      if info.node !in s.fs.nodes then (s, Crash)
      else
        var node := s.fs.nodes[info.node];
        if !Writable(info.omode) then (s, Fail(NotOpenForWrite))
        else if DirBit(node.stat.mode) || !IsFile(node) then (s, Fail(CannotWriteDir))
        else
          var s1 := Log(s, Used(info.node, ConnFid(c, fid)));
          if node.kind == AuthStream then
            (s1, if env.ended then Fail(StreamEnded) else Answer(RWrite(Wrap32(|data|))))
          else
            (s1.(fs := SetData(s.fs, info.node, Written(node.data, offset, data))),
             if WritePanics(|node.data|, offset, |data|) then Crash else Answer(RWrite(Wrap32(|data|))))
  }

  /** fs/server.go:420-438 */
  function Clunk<N>(s: Sys<N>, c: u32, fid: u32): (x: (Sys<N>, Reply))
    requires c in s.conns
    ensures x.1.Answer? ==> x.1.body.RClunk?
    ensures Frames(s, x.0) && NamesStay(s, x.0)
  {
    match GetFid(s, c, fid)
    case None => (s, Answer(RClunk))
    case Some(info) =>
      var s1 := DropFid(s, c, fid);
      if info.omode != NONE && info.node in s.fs.nodes && IsFile(s.fs.nodes[info.node])
      then (Log(s1, Closed(info.node, ConnFid(c, fid))), Answer(RClunk)) else (s1, Answer(RClunk))
  }

  /** fs/server.go:440-463 with RMFile as the hook; the fid goes in any case. */
  function RemoveNode<N>(cfg: Config, s: Sys<N>, c: u32, fid: u32): (x: (Sys<N>, Reply))
    requires c in s.conns
    ensures x.1.Answer? ==> x.1.body.RRemove?
    ensures Frames(s, x.0) && NamesStay(s, x.0)
  {
    match GetFid(s, c, fid)
    case None => (s, Fail(BadFid))
    case Some(info) =>
      if info.node !in s.fs.nodes then (s, Crash)
      else
        var s1 := DropFid(s, c, fid);
        if !cfg.ignorePerms && !OpenPermission(StatOf(s.fs.nodes[info.node]), info.uname, OWRITE)
        then (s1, Fail(Denied))
        else if !cfg.removeFile then (s1, Fail(CannotDelete))
        else
          var (fs', ok) := Remove(s.fs, info.node);
          if ok then (s1.(fs := fs'), Answer(RRemove)) else (s1, Fail(NotModifiable))
  }

  /** fs/server.go:465-474 */
  function StatNode<N>(s: Sys<N>, c: u32, fid: u32): (x: (Sys<N>, Reply))
    requires c in s.conns
    ensures x.1.Answer? ==> x.1.body.RStat?
    ensures Frames(s, x.0) && NamesStay(s, x.0)
  {
    match GetFid(s, c, fid)
    case None => (s, Fail(BadFid))
    case Some(info) =>
      if info.node !in s.fs.nodes then (s, Crash) else (s, Answer(RStat(StatOf(s.fs.nodes[info.node]))))
  }

  const MAX32: u32 := 0xFFFF_FFFF
  const MAX64: u64 := 0xFFFF_FFFF_FFFF_FFFF

  /** The stat after the changes asked for; a maximal integer or an empty string asks for
      nothing. */
  function Merged(st: Stat, t: Stat): Stat {
    st.(name := if t.name != [] then t.name else st.name,
        length := if t.length != MAX64 then t.length else st.length,
        mode := if t.mode != MAX32 then WithPerm(st.mode, t.mode) else st.mode,
        mtime := if t.mtime != MAX32 then t.mtime else st.mtime,
        gid := if t.gid != [] then t.gid else st.gid)
  }

  /** fs/server.go:524-562: every check comes before any change. */
  predicate WstatDenied(cfg: Config, st: Stat, uname: Data, t: Stat) {
    var owner := UserRelation(uname, st) == Owner;
    !cfg.ignorePerms &&
    (|| (t.name != [] && !owner)
     || (t.length != MAX64 && t.length != st.length && !OpenPermission(st, uname, OWRITE))
     || (t.mode != MAX32 && t.mode != st.mode && !owner)
     || (t.mtime != MAX32 && t.mtime != st.mtime && !owner)
     || (t.gid != [] && (st.uid != uname || !UserInGroup(uname, t.gid))))
  }

  /** fs/server.go:512-591 */
  function Wstat<N>(cfg: Config, s: Sys<N>, c: u32, fid: u32, t: Stat): (x: (Sys<N>, Reply))
    requires c in s.conns
    ensures x.1.Answer? ==> x.1.body.RWstat?
    ensures Frames(s, x.0) && NamesStay(s, x.0)
  {
    match GetFid(s, c, fid)
    case None => (s, Fail(BadFid))
    case Some(info) =>
      if info.node !in s.fs.nodes then (s, Crash)
      else
        var st := StatOf(s.fs.nodes[info.node]);
        if WstatDenied(cfg, st, info.uname, t) then (s, Fail(Denied))
        else (s.(fs := SetStat(s.fs, info.node, Merged(st, t))), Answer(RWstat))
  }

  // ----------------------------------------------------------------- dispatch

  /** What Handle asks of its callers: a connection, and a fresh address for what the request
      may create. */
  predicate Ready<N>(s: Sys<N>, c: u32, env: Env<N>) {
    c in s.conns && env.addr !in s.fs.nodes && s.fs.root in s.fs.nodes
  }

  function Handle<N>(cfg: Config, s: Sys<N>, c: u32, m: FCall, env: Env<N>): (Sys<N>, Reply)
    requires c in s.conns && env.addr !in s.fs.nodes && s.fs.root in s.fs.nodes
  {
    match m.body
    case Version(msize, version) => Negotiate(s, c, m.typ, msize, version)
    case TAuth(afid, _, _) => Auth(cfg, s, c, afid, env)
    case TAttach(fid, afid, uname, _) => Attach(cfg, s, c, fid, afid, uname)
    case TFlush(_) => (s, Answer(RFlush))
    case TWalk(fid, newfid, _, names) => Walk(s, c, fid, newfid, names)
    case TOpen(fid, omode) => Open(cfg, s, c, fid, omode, env)
    case TCreate(fid, name, perm, omode) => CreateNode(cfg, s, c, fid, name, perm, omode, env)
    case TRead(fid, offset, count) => Read(s, c, fid, offset, count, env)
    case TWrite(fid, offset, _, data) => Write(s, c, fid, offset, data, env)
    case TClunk(fid) => Clunk(s, c, fid)
    case TRemove(fid) => RemoveNode(cfg, s, c, fid)
    case TStat(fid) => StatNode(s, c, fid)
    case TWstat(fid, stat) => Wstat(cfg, s, c, fid, stat)
    case _ => (s, GoError)
  }

  function ReplyType(b: Body): byte {
    match b
    case Version(_, _) => 101
    case RAuth(_) => 103
    case RAttach(_) => 105
    case RFlush => 109
    case RWalk(_, _) => 111
    case ROpen(_, _) => 113
    case RCreate(_, _) => 115
    case RRead(_, _) => 117
    case RWrite(_) => 119
    case RClunk => 121
    case RRemove => 123
    case RStat(_) => 125
    case RWstat => 127
    case _ => 107
  }

  /** The message a handler's result is sent as; `text` is the wording of an error. Every
      handler copies the tag of its request. */
  function Response(m: FCall, r: Reply, text: Data): Option<FCall> {
    match r
    case Fail(_) => Some(FCall(107, m.tag, RError(text)))
    case Answer(body) => Some(FCall(ReplyType(body), m.tag, body))
    case _ => None
  }

  /** NewConn numbers connections from one; the counter is uint32. */
  function Next<N>(cfg: Config, s: Sys<N>, a: Action<N>): Sys<N> {
    match a
    case Connect =>
      var c := |s.conns| + 1;
      if c >= TWO32 || c in s.conns then s else s.(conns := s.conns[c := Conn(map[], 0, {})])
    case Request(c, m, env) =>
      if c !in s.conns || env.addr in s.fs.nodes || s.fs.root !in s.fs.nodes then s
      else Handle(cfg, s, c, m, env).0
    case AuthResult(n, outcome) =>
      if n !in s.sessions || !s.sessions[n].Pending? then s
      else s.(sessions := s.sessions[n := if outcome.Some? then Authenticated(outcome.value) else Refused])
  }

  function Run<N>(cfg: Config, s: Sys<N>, acts: seq<Action<N>>): Sys<N>
    decreases |acts|
  { if acts == [] then s else Run(cfg, Next(cfg, s, acts[0]), acts[1..]) }

  function Start<N>(fs: FS<N>): Sys<N> { Sys(fs, map[], map[], []) }
}
