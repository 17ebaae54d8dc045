/** What clients can rely on, stated about whole runs and about single requests. */
module ServerResults {
  import opened Bytes
  import opened Proto
  import opened FileTree
  import opened TreeLaws
  import opened Permissions
  import opened FileServer
  import opened ServerLaws
  import Paths

  // ------------------------------------------------------------- open before use

  /** `j` is the Open that event `i` belongs to: same file, same handle, nothing closed
      in between. */
  predicate OpenedAt<N(==)>(t: seq<Event<N>>, i: nat, n: N, id: u64, j: nat) {
    j < i <= |t| && t[j] == Opened(n, id) && forall k :: j < k < i ==> t[k] != Closed(n, id)
  }

  lemma {:induction false} OpenedEarlier<N>(t: seq<Event<N>>, i: nat, n: N, id: u64)
    requires i <= |t|
    ensures IsOpen(t[..i], n, id) <==> exists j: nat :: OpenedAt(t, i, n, id, j)
  {
    if i > 0 {
      var e := t[i - 1];
      assert t[..i][..i - 1] == t[..i - 1] && t[..i][i - 1] == e;
      OpenedEarlier(t, i - 1, n, id);
      if e == Opened(n, id) {
        assert OpenedAt(t, i, n, id, i - 1);
      } else if e != Closed(n, id) {
        if IsOpen(t[..i], n, id) {
          var j: nat :| OpenedAt(t, i - 1, n, id, j);
          assert OpenedAt(t, i, n, id, j);
        }
        if j: nat :| OpenedAt(t, i, n, id, j) { assert OpenedAt(t, i - 1, n, id, j); }
      }
    }
  }

  /** In every run from a fresh file system, each Read, Write or Close a File receives comes
      after an Open of that File under the same handle with no Close in between. */
  lemma OpenBeforeUse<N>(cfg: Config, root: N, user: Data, group: Data, perms: u32, now: u32,
                         acts: seq<Action<N>>, i: nat)
    requires |acts| < TWO64
    requires i < |Run(cfg, Start(NewFS(root, user, group, perms, now)), acts).trace|
    ensures var t := Run(cfg, Start(NewFS(root, user, group, perms, now)), acts).trace;
            t[i].Opened? || exists j: nat :: OpenedAt(t, i, t[i].n, t[i].id, j)
  {
    hide Run, TreeOk, IsOpen;
    var fs := NewFS(root, user, group, perms, now);
    NewFSOk(root, user, group, perms, now);
    StartOk(cfg, fs);
    RunKeeps(cfg, Start(fs), acts);
    var t := Run(cfg, Start(fs), acts).trace;
    OpenedEarlier(t, i, t[i].n, t[i].id);
  }

  /** In every run the tree stays a tree: parent and child links agree, no two nodes share a
      uid, a parent is older than its children, and the qid tells the kind. */
  lemma TreeAlwaysOk<N>(cfg: Config, root: N, user: Data, group: Data, perms: u32, now: u32, acts: seq<Action<N>>)
    requires |acts| < TWO64
    ensures TreeOk(Run(cfg, Start(NewFS(root, user, group, perms, now)), acts).fs)
  {
    hide Run, TreeOk;
    var fs := NewFS(root, user, group, perms, now);
    NewFSOk(root, user, group, perms, now);
    StartOk(cfg, fs);
    RunKeeps(cfg, Start(fs), acts);
  }

  // ------------------------------------------------------------------------ walk

  /** `q` is the qid of the node that the first i+1 names lead to. */
  predicate QidAt<N>(nodes: Heap<N>, n: N, names: seq<Data>, i: nat, q: Qid)
    requires n in nodes && i < |names|
  {
    var m := Paths.Descend(nodes, n, names[..i + 1]);
    m.Some? && m.value in nodes && q == nodes[m.value].stat.qid
  }

  /** The i-th qid of a walk is that of the node the first i+1 names lead to. */
  lemma {:induction false} WalkQidsAre<N>(nodes: Heap<N>, n: N, names: seq<Data>, i: nat)
    requires n in nodes && Paths.Descend(nodes, n, names).Some? && i < |names|
    ensures |WalkQids(nodes, n, names)| == |names|
    ensures QidAt(nodes, n, names, i, WalkQids(nodes, n, names)[i])
    decreases |names|
  {
    var next := Lookup(nodes, nodes[n].children, names[0]).value;
    assert names[..i + 1][0] == names[0];
    if i == 0 {
      assert names[..1][1..] == [];
      if |names| > 1 { WalkQidsAre(nodes, next, names[1..], 0); }
    } else {
      WalkQidsAre(nodes, next, names[1..], i - 1);
      assert names[..i + 1][1..] == names[1..][..i];
    }
  }

  /** The tables after a fid of one connection is bound, to a node and not open. */
  function Rebound<N>(s: Sys<N>, c: u32, fid: u32, n: N, uname: Data): Sys<N>
    requires c in s.conns
  {
    var conn := s.conns[c];
    s.(conns := s.conns[c := conn.(fids := conn.fids[fid := Fid(n, 4, uname, NoExtra)])])
  }

  /** A walk that does not start with "." or ".." succeeds exactly when the names lead
      somewhere. It then binds the new fid to that node, closed and under the same user
      name, and answers with one qid per name; otherwise nothing changes. */
  lemma WalkLaw<N>(cfg: Config, s: Sys<N>, c: u32, m: FCall, fid: u32, newfid: u32, names: seq<Data>, env: Env<N>)
    requires Inv(cfg, s) && Ready(s, c, env) && fid in s.conns[c].fids && |names| < TWO16
    requires m.body == TWalk(fid, newfid, |names|, names) && (names == [] || (names[0] != DOT && names[0] != DOTDOT))
    ensures var info := s.conns[c].fids[fid];
            var (s', r) := Handle(cfg, s, c, m, env);
            && info.node in s.fs.nodes
            && (r.Answer? <==> Paths.Descend(s.fs.nodes, info.node, names).Some?)
            && (!r.Answer? ==> r == Fail(NoSuchPath) && s' == s)
            && (r.Answer? ==>
                  && s' == Rebound(s, c, newfid, Paths.Descend(s.fs.nodes, info.node, names).value, info.uname)
                  && r.body.RWalk? && r.body.nwqid == |r.body.wqid| == |names|
                  && forall i :: 0 <= i < |names| ==> QidAt(s.fs.nodes, info.node, names, i, r.body.wqid[i]))
  {
    hide Inv, FidOk, Paths.Descend, WalkQids, Frames, NamesStay;
    WalkNode(cfg, s, c, fid);
    var n := s.conns[c].fids[fid].node;
    if Paths.Descend(s.fs.nodes, n, names).Some? {
      WalkQidsCount(s.fs.nodes, n, names);
      forall i | 0 <= i < |names| ensures QidAt(s.fs.nodes, n, names, i, WalkQids(s.fs.nodes, n, names)[i]) {
        WalkQidsAre(s.fs.nodes, n, names, i);
      }
    }
  }

  /** A first name of ".." leads to the parent, and "." to the node itself, each with that
      node's qid and whatever names follow. Without a parent nothing is bound and no qid is
      returned. */
  lemma DotsLaw<N>(cfg: Config, s: Sys<N>, c: u32, m: FCall, fid: u32, newfid: u32, names: seq<Data>, env: Env<N>)
    requires Inv(cfg, s) && Ready(s, c, env) && fid in s.conns[c].fids && |names| < TWO16
    requires m.body == TWalk(fid, newfid, |names|, names) && names != [] && names[0] in {[46], [46, 46]}
    ensures var info := s.conns[c].fids[fid];
            && info.node in s.fs.nodes
            && var up := s.fs.nodes[info.node].parent;
            && (up.Some? ==> up.value in s.fs.nodes)
            && Handle(cfg, s, c, m, env) ==
               if names[0] == [46] then
                 (Rebound(s, c, newfid, info.node, info.uname), Answer(RWalk(1, [s.fs.nodes[info.node].stat.qid])))
               else if up.Some? then
                 (Rebound(s, c, newfid, up.value, info.uname), Answer(RWalk(1, [s.fs.nodes[up.value].stat.qid])))
               else (s, Answer(RWalk(0, [])))
  {
    hide ConnOk, TraceOk, AuthLoose, Aged, KindsOk, Frames, NamesStay, Paths.Descend, WalkQids;
    WalkNode(cfg, s, c, fid);
    assert NodeOk(s.fs.nodes, s.conns[c].fids[fid].node);
  }

  /** Down by a name and up again is back where one was. */
  lemma DownAndUp<N>(cfg: Config, s: Sys<N>, c: u32, m: FCall, m': FCall, fid: u32, newfid: u32, name: Data,
                     env: Env<N>)
    requires Inv(cfg, s) && Ready(s, c, env) && fid in s.conns[c].fids && name != DOT && name != DOTDOT
    requires m.body == TWalk(fid, newfid, 1, [name]) && m'.body == TWalk(newfid, newfid, 1, [[46, 46]])
    requires Handle(cfg, s, c, m, env).1.Answer?
    ensures var info, s1 := s.conns[c].fids[fid], Handle(cfg, s, c, m, env).0;
            && Ready(s1, c, env)
            && Handle(cfg, s1, c, m', env).0 == Rebound(s, c, newfid, info.node, info.uname)
            && info.node in s.fs.nodes
            && Handle(cfg, s1, c, m', env).1 == Answer(RWalk(1, [s.fs.nodes[info.node].stat.qid]))
  {
    hide Inv, Handle, Walk, Paths.Descend, QidAt;
    var info := s.conns[c].fids[fid];
    WalkLaw(cfg, s, c, m, fid, newfid, [name], env);
    WalkIs(cfg, s, c, m, fid, newfid, [name], env);
    WalkKeeps(cfg, s, c, fid, newfid, [name]);
    OneDown(cfg, s, info.node, name);
    var child := Paths.Descend(s.fs.nodes, info.node, [name]).value;
    var s1 := Rebound(s, c, newfid, child, info.uname);
    DotsLaw(cfg, s1, c, m', newfid, newfid, [[46, 46]], env);
    BoundTwice(s, c, newfid, child, info.node, info.uname);
    hide Rebound;
  }

  lemma WalkIs<N>(cfg: Config, s: Sys<N>, c: u32, m: FCall, fid: u32, newfid: u32, names: seq<Data>, env: Env<N>)
    requires Ready(s, c, env) && |names| < TWO16 && m.body == TWalk(fid, newfid, |names|, names)
    ensures Handle(cfg, s, c, m, env) == Walk(s, c, fid, newfid, names)
  { hide Walk; }

  lemma BoundTwice<N>(s: Sys<N>, c: u32, fid: u32, n: N, n': N, uname: Data)
    requires c in s.conns
    ensures Rebound(Rebound(s, c, fid, n, uname), c, fid, n', uname) == Rebound(s, c, fid, n', uname)
  {
    var conn := s.conns[c];
    assert conn.fids[fid := Fid(n, 4, uname, NoExtra)][fid := Fid(n', 4, uname, NoExtra)] ==
           conn.fids[fid := Fid(n', 4, uname, NoExtra)];
  }

  lemma OneDown<N>(cfg: Config, s: Sys<N>, n: N, name: Data)
    requires Inv(cfg, s) && n in s.fs.nodes
    ensures var r := Paths.Descend(s.fs.nodes, n, [name]);
            r.Some? ==> r.value in s.fs.nodes && s.fs.nodes[r.value].parent == Some(n)
  {
    hide ConnOk, TraceOk, AuthLoose, Linked, Aged, KindsOk;
    Paths.ChildFound(s.fs, n, name);
    assert [name][1..] == [];
  }

  /** The path that ".." leads to is the path without its last name. */
  lemma UpPath<N>(fs: FS<N>, n: N)
    requires TreeOk(fs) && n in fs.nodes && fs.nodes[n].parent.Some? && Paths.NameLike(fs.nodes[n].stat.name)
    ensures fs.nodes[n].parent.value in fs.nodes
    ensures var up := Paths.FullPath(fs, fs.nodes[n].parent.value);
            Paths.Clean(up) ==> Paths.FullPath(fs, n) == Paths.Extend(up, fs.nodes[n].stat.name)
                                && Paths.Above(Paths.FullPath(fs, n)) == up
  {
    assert NodeOk(fs.nodes, n);
    var up := Paths.FullPath(fs, fs.nodes[n].parent.value);
    if Paths.Clean(up) {
      Paths.SqueezeJoin(up, fs.nodes[n].stat.name);
      Paths.AboveExtend(up, fs.nodes[n].stat.name);
    }
  }

  lemma WalkNode<N>(cfg: Config, s: Sys<N>, c: u32, fid: u32)
    requires Inv(cfg, s) && c in s.conns && fid in s.conns[c].fids
    ensures s.conns[c].fids[fid].node in s.fs.nodes
  { Found(cfg, s, c, fid); }

  lemma WalkQidsCount<N>(nodes: Heap<N>, n: N, names: seq<Data>)
    requires n in nodes && Paths.Descend(nodes, n, names).Some?
    ensures |WalkQids(nodes, n, names)| == |names|
  { if names != [] { WalkQidsAre(nodes, n, names, 0); } }

  /** Walking from the root and asking for the path are inverse: the fid's node has the
      path made of the walked names. */
  lemma WalkThenPath<N>(cfg: Config, s: Sys<N>, c: u32, fid: u32, newfid: u32, names: seq<Data>)
    requires Inv(cfg, s) && c in s.conns && fid in s.conns[c].fids && |names| < TWO16
    requires s.conns[c].fids[fid].node == s.fs.root && NameOf(s.fs.nodes, s.fs.root) == [Paths.SLASH]
    requires forall i :: 0 <= i < |names| ==> Paths.NameLike(names[i])
    requires names == [] || (names[0] != DOT && names[0] != DOTDOT)
    requires Walk(s, c, fid, newfid, names).1.Answer?
    ensures var s' := Walk(s, c, fid, newfid, names).0;
            && s'.fs == s.fs && c in s'.conns && newfid in s'.conns[c].fids
            && TreeOk(s.fs) && s'.conns[c].fids[newfid].node in s.fs.nodes
            && Paths.FullPath(s.fs, s'.conns[c].fids[newfid].node) == [Paths.SLASH] + Paths.JoinSlash(names)
  {
    hide Paths.Descend, WalkQids, Paths.FullPath, ConnOk, TraceOk, Linked, Aged, KindsOk;
    Paths.WalkFromRoot(s.fs, names);
  }

  // ----------------------------------------------------------------------- wstat

  /** All or nothing: a refused wstat changes nothing. One that is accepted changes the stat
      of this node alone, as asked. */
  lemma WstatAllOrNothing<N>(cfg: Config, s: Sys<N>, c: u32, m: FCall, fid: u32, t: Stat, env: Env<N>)
    requires Inv(cfg, s) && Ready(s, c, env) && m.body == TWstat(fid, t) && fid in s.conns[c].fids
    ensures var info := s.conns[c].fids[fid];
            var (s', r) := Handle(cfg, s, c, m, env);
            && info.node in s.fs.nodes
            && var was := s.fs.nodes[info.node];
            && (r == Answer(RWstat) <==> !WstatDenied(cfg, StatOf(was), info.uname, t))
            && (r != Answer(RWstat) ==> s' == s)
            && (r == Answer(RWstat) ==>
                  && s' == s.(fs := s'.fs) && s'.fs == s.fs.(nodes := s'.fs.nodes)
                  && s'.fs.nodes.Keys == s.fs.nodes.Keys
                  && (forall x :: x in s.fs.nodes && x != info.node ==> s'.fs.nodes[x] == s.fs.nodes[x])
                  && s'.fs.nodes[info.node] == was.(stat := s'.fs.nodes[info.node].stat)
                  && Restated(StatOf(was), t, s'.fs.nodes[info.node].stat))
  {
    hide Inv, FidOk, WstatDenied, Frames, NamesStay;
    WalkNode(cfg, s, c, fid);
    var st := StatOf(s.fs.nodes[s.conns[c].fids[fid].node]);
    PermKeepsKind(st.mode, t.mode);
    hide WithPerm;
  }

  /** Name, group, length and times are what was asked for, or as they were where the
      request has the "don't touch" value; so are the nine permission bits, while the bits
      above them, the owner, the qid and the rest stay. */
  ghost predicate Restated(st: Stat, t: Stat, st': Stat) {
    && st'.name == (if t.name == [] then st.name else t.name)
    && st'.gid == (if t.gid == [] then st.gid else t.gid)
    && st'.length == (if t.length == 0xFFFF_FFFF_FFFF_FFFF then st.length else t.length)
    && st'.mtime == (if t.mtime == 0xFFFF_FFFF then st.mtime else t.mtime)
    && st'.mode % 512 == (if t.mode == 0xFFFF_FFFF then st.mode % 512 else t.mode % 512)
    && st'.mode / 512 == st.mode / 512
    && st'.typ == st.typ && st'.dev == st.dev && st'.qid == st.qid && st'.atime == st.atime
    && st'.uid == st.uid && st'.muid == st.muid
  }

  /** Who may do what: the exact condition under which a wstat is let through. */
  lemma WstatAllowed(cfg: Config, st: Stat, user: Data, t: Stat)
    ensures !WstatDenied(cfg, st, user, t) <==>
              || cfg.ignorePerms
              || (&& (user == st.uid
                      || (t.name == [] && (t.mode == MAX32 || t.mode == st.mode)
                          && (t.mtime == MAX32 || t.mtime == st.mtime)))
                  && (t.gid == [] || (user == st.uid && user == t.gid))
                  && (t.length == MAX64 || t.length == st.length || OpenPermission(st, user, OWRITE)))
  {}

  /** Asking twice is asking once. */
  lemma MergedIdempotent(st: Stat, t: Stat)
    ensures Merged(Merged(st, t), t) == Merged(st, t)
  {
    PermKeepsKind(st.mode, t.mode);
    PermKeepsKind(WithPerm(st.mode, t.mode), t.mode);
    var m := WithPerm(st.mode, t.mode);
    assert m == 512 * (m / 512) + m % 512;
    assert WithPerm(m, t.mode) == m;
    hide WithPerm;
  }

  // ------------------------------------------------------------------- refusals

  /** A refused request leaves everything as it was, except that Remove gives up its fid
      in any case, a refused create may leave a node behind that nothing refers to, and a
      stream that refuses a write was asked. */
  lemma RefusalChangesNothing<N>(cfg: Config, s: Sys<N>, c: u32, m: FCall, env: Env<N>)
    requires c in s.conns && env.addr !in s.fs.nodes && s.fs.root in s.fs.nodes
    requires Handle(cfg, s, c, m, env).1.Fail?
    ensures var s' := Handle(cfg, s, c, m, env).0;
            if m.body.TRemove? then s' == DropFid(s, c, m.body.fid)
            else if m.body.TCreate? then
              s' == s.(fs := s'.fs) && s.fs.nodes.Keys <= s'.fs.nodes.Keys <= s.fs.nodes.Keys + {env.addr}
              && forall x :: x in s.fs.nodes ==> s'.fs.nodes[x] == s.fs.nodes[x]
            else if m.body.TWrite? then s' == s.(trace := s'.trace)
            else s' == s
  {
    hide Frames, NamesStay, Negotiate, Auth, Attach, Walk, Open, CreateNode, Read, Write, Clunk, RemoveNode,
      StatNode, Wstat;
    match m.body
    case TAuth(afid, _, _) => AuthRefused(cfg, s, c, afid, env);
    case TAttach(fid, afid, uname, _) => AttachRefused(cfg, s, c, fid, afid, uname);
    case TWalk(fid, newfid, _, names) => WalkRefused(s, c, fid, newfid, names);
    case TOpen(fid, omode) => OpenRefused(cfg, s, c, fid, omode, env);
    case TCreate(fid, name, perm, omode) => CreateRefused(cfg, s, c, fid, name, perm, omode, env);
    case TRead(fid, offset, count) => ReadRefused(s, c, fid, offset, count, env);
    case TWrite(fid, offset, _, data) => WriteRefused(s, c, fid, offset, data, env);
    case TClunk(fid) => ClunkAnswers(s, c, fid);
    case TRemove(fid) => RemoveRefused(cfg, s, c, fid);
    case TStat(fid) => StatChangesNothing(s, c, fid);
    case TWstat(fid, stat) => WstatRefused(cfg, s, c, fid, stat);
    case Version(msize, version) => VersionErrs(s, c, m.typ, msize, version);
    case _ =>
  }

  lemma VersionErrs<N>(s: Sys<N>, c: u32, typ: byte, msize: u32, version: Data)
    requires c in s.conns
    ensures !Negotiate(s, c, typ, msize, version).1.Fail?
  {}

  lemma AuthRefused<N>(cfg: Config, s: Sys<N>, c: u32, afid: u32, env: Env<N>)
    requires c in s.conns && env.addr !in s.fs.nodes
    ensures Auth(cfg, s, c, afid, env).1.Fail? ==> Auth(cfg, s, c, afid, env).0 == s
  {}

  lemma AttachRefused<N>(cfg: Config, s: Sys<N>, c: u32, fid: u32, afid: u32, uname: Data)
    requires c in s.conns && s.fs.root in s.fs.nodes
    ensures Attach(cfg, s, c, fid, afid, uname).1.Fail? ==> Attach(cfg, s, c, fid, afid, uname).0 == s
  {}

  lemma WalkRefused<N>(s: Sys<N>, c: u32, fid: u32, newfid: u32, names: seq<Data>)
    requires c in s.conns
    ensures Walk(s, c, fid, newfid, names).1.Fail? ==> Walk(s, c, fid, newfid, names).0 == s
  { hide Paths.Descend, WalkQids; }

  lemma OpenRefused<N>(cfg: Config, s: Sys<N>, c: u32, fid: u32, omode: byte, env: Env<N>)
    requires c in s.conns
    ensures Open(cfg, s, c, fid, omode, env).1.Fail? ==> Open(cfg, s, c, fid, omode, env).0 == s
  { hide OpenPermission, ListingOrder; }

  lemma CreateRefused<N>(cfg: Config, s: Sys<N>, c: u32, fid: u32, name: Data, perm: u32, omode: byte, env: Env<N>)
    requires c in s.conns && env.addr !in s.fs.nodes
    ensures var (s', r) := CreateNode(cfg, s, c, fid, name, perm, omode, env);
            r.Fail? ==>
              && s' == s.(fs := s'.fs) && s.fs.nodes.Keys <= s'.fs.nodes.Keys <= s.fs.nodes.Keys + {env.addr}
              && forall x :: x in s.fs.nodes ==> s'.fs.nodes[x] == s.fs.nodes[x]
  { hide OpenPermission, Lookup; }

  lemma ReadRefused<N>(s: Sys<N>, c: u32, fid: u32, offset: u64, count: u32, env: Env<N>)
    requires c in s.conns
    ensures Read(s, c, fid, offset, count, env).1.Fail? ==> Read(s, c, fid, offset, count, env).0 == s
  { hide StatsOf; }

  lemma WriteRefused<N>(s: Sys<N>, c: u32, fid: u32, offset: u64, data: Data, env: Env<N>)
    requires c in s.conns
    ensures var (s', r) := Write(s, c, fid, offset, data, env); r.Fail? ==> s' == s.(trace := s'.trace)
  { hide Written; }

  lemma ClunkAnswers<N>(s: Sys<N>, c: u32, fid: u32)
    requires c in s.conns
    ensures Clunk(s, c, fid).1 == Answer(RClunk)
  {}

  lemma WstatRefused<N>(cfg: Config, s: Sys<N>, c: u32, fid: u32, t: Stat)
    requires c in s.conns
    ensures Wstat(cfg, s, c, fid, t).1.Fail? ==> Wstat(cfg, s, c, fid, t).0 == s
  { hide WstatDenied, Merged; }

  lemma RemoveRefused<N>(cfg: Config, s: Sys<N>, c: u32, fid: u32)
    requires c in s.conns && RemoveNode(cfg, s, c, fid).1.Fail?
    ensures RemoveNode(cfg, s, c, fid).0 == DropFid(s, c, fid)
  {
    hide Remove, OpenPermission;
    if fid !in s.conns[c].fids {
      assert s.conns[c].fids - {fid} == s.conns[c].fids;
      assert s.conns[c := s.conns[c]] == s.conns;
    }
  }
}
