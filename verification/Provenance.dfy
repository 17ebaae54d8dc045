/** Where every fid's user name and openness came from, over every run. */
module Provenance {
  import opened Bytes
  import opened Proto
  import opened FileTree
  import opened TreeLaws
  import opened Permissions
  import opened FileServer
  import opened ServerLaws
  import HandlerLaws

  /** The action is a request on this connection that the server takes up. */
  predicate Takes<N>(s: Sys<N>, a: Action<N>, c: u32) {
    a.Request? && a.c == c && c in s.conns && a.env.addr !in s.fs.nodes && s.fs.root in s.fs.nodes
  }

  /** The action is an Attach on this connection that gives out the name: the one asked for,
      or with authentication the one that afid's authentication has established by then. */
  predicate GivesName<N>(cfg: Config, s: Sys<N>, a: Action<N>, c: u32, name: Data) {
    && Takes(s, a, c) && a.m.body.TAttach?
    && Attach(cfg, s, c, a.m.body.fid, a.m.body.afid, a.m.body.uname).1.Answer?
    && if cfg.auth then HandlerLaws.Proven(s, c, a.m.body.afid) == Some(name) else a.m.body.uname == name
  }

  predicate Permits(cfg: Config, st: Stat, user: Data, omode: byte) {
    cfg.ignorePerms || OpenPermission(st, user, omode % 16)
  }

  /** The action is what opens the fid as `info` has it: an Open of the node, whose stat at
      that moment permits the mode to that user; a Create, in a directory whose stat at that
      moment permits writing to that user, of the node; or an Auth that makes the file. */
  predicate Grants<N>(cfg: Config, s: Sys<N>, a: Action<N>, c: u32, fid: u32, info: Fid<N>) {
    && Takes(s, a, c)
    && match a.m.body
       case TOpen(f, omode) =>
         && f == fid && omode == info.omode && fid in s.conns[c].fids
         && var was := s.conns[c].fids[fid];
         && was.omode == NONE && was.node == info.node && was.uname == info.uname && info.node in s.fs.nodes
         && Permits(cfg, StatOf(s.fs.nodes[info.node]), info.uname, omode)
       case TCreate(f, _, _, omode) =>
         && f == fid && omode == info.omode && a.env.addr == info.node && fid in s.conns[c].fids
         && var was := s.conns[c].fids[fid];
         && was.uname == info.uname && was.node in s.fs.nodes && s.fs.nodes[was.node].kind == Directory
         && Permits(cfg, StatOf(s.fs.nodes[was.node]), info.uname, OWRITE)
       case TAuth(f, _, _) => cfg.auth && f == fid && a.env.addr == info.node && info.uname == []
       case _ => false
  }

  // ------------------------------------------------------------------------ one step

  /** The fid was open before, on the same node, in the same mode, for the same user. */
  predicate Carried<N>(s: Sys<N>, c: u32, fid: u32, info: Fid<N>) {
    && c in s.conns && fid in s.conns[c].fids
    && s.conns[c].fids[fid].node == info.node && s.conns[c].fids[fid].omode == info.omode
    && s.conns[c].fids[fid].uname == info.uname
  }

  /** No fid but one, of one connection, is open that was not. */
  ghost predicate OpensAtMost<N>(s: Sys<N>, s': Sys<N>, c: u32, fid: u32) {
    forall d, f :: d in s'.conns && f in s'.conns[d].fids && (d != c || f != fid)
                   && s'.conns[d].fids[f].omode != NONE ==>
      Carried(s, d, f, s'.conns[d].fids[f])
  }

  ghost predicate OpensNone<N>(s: Sys<N>, s': Sys<N>) {
    forall d, f :: d in s'.conns && f in s'.conns[d].fids && s'.conns[d].fids[f].omode != NONE ==>
      Carried(s, d, f, s'.conns[d].fids[f])
  }

  lemma QuietHandlers<N>(cfg: Config, s: Sys<N>, c: u32, m: FCall, env: Env<N>)
    requires c in s.conns && env.addr !in s.fs.nodes && s.fs.root in s.fs.nodes
    requires !m.body.TOpen? && !m.body.TCreate? && !m.body.TAuth?
    ensures OpensNone(s, Handle(cfg, s, c, m, env).0)
  {
    hide OpensNone, Frames, NamesStay, Negotiate, Open, CreateNode, Auth, Attach, Walk, Read, Write, Clunk,
      RemoveNode, StatNode, Wstat;
    NothingOpens(s);
    match m.body
    case Version(msize, version) => VersionQuiet(s, c, m.typ, msize, version);
    case TClunk(fid) => DropQuiet(cfg, s, c, fid);
    case TRemove(fid) => DropQuiet(cfg, s, c, fid);
    case TAttach(fid, afid, uname, _) => AttachQuiet(cfg, s, c, fid, afid, uname);
    case TWalk(fid, newfid, _, names) => WalkQuiet(s, c, fid, newfid, names);
    case TRead(fid, offset, count) => ReadQuiet(s, c, fid, offset, count, env);
    case TWrite(fid, offset, _, data) => WriteQuiet(s, c, fid, offset, data, env);
    case TStat(fid) => StatChangesNothing(s, c, fid);
    case TWstat(fid, stat) => WstatQuiet(cfg, s, c, fid, stat);
    case _ =>
  }

  lemma NothingOpens<N>(s: Sys<N>)
    ensures OpensNone(s, s)
  {}

  lemma AttachQuiet<N>(cfg: Config, s: Sys<N>, c: u32, fid: u32, afid: u32, uname: Data)
    requires c in s.conns && s.fs.root in s.fs.nodes
    ensures OpensNone(s, Attach(cfg, s, c, fid, afid, uname).0)
  { hide Frames; }

  lemma VersionQuiet<N>(s: Sys<N>, c: u32, typ: byte, msize: u32, version: Data)
    requires c in s.conns
    ensures OpensNone(s, Negotiate(s, c, typ, msize, version).0)
  {}

  lemma DropQuiet<N>(cfg: Config, s: Sys<N>, c: u32, fid: u32)
    requires c in s.conns
    ensures OpensNone(s, Clunk(s, c, fid).0) && OpensNone(s, RemoveNode(cfg, s, c, fid).0)
  { hide Frames, NamesStay, Remove, OpenPermission; }

  lemma WalkQuiet<N>(s: Sys<N>, c: u32, fid: u32, newfid: u32, names: seq<Data>)
    requires c in s.conns
    ensures OpensNone(s, Walk(s, c, fid, newfid, names).0)
  { hide Frames, NamesStay, WalkQids; }

  lemma ReadQuiet<N>(s: Sys<N>, c: u32, fid: u32, offset: u64, count: u32, env: Env<N>)
    requires c in s.conns
    ensures OpensNone(s, Read(s, c, fid, offset, count, env).0)
  { hide Frames, NamesStay, StatsOf; }

  lemma WriteQuiet<N>(s: Sys<N>, c: u32, fid: u32, offset: u64, data: Data, env: Env<N>)
    requires c in s.conns
    ensures OpensNone(s, Write(s, c, fid, offset, data, env).0)
  { hide Frames, NamesStay, Written; }

  lemma WstatQuiet<N>(cfg: Config, s: Sys<N>, c: u32, fid: u32, t: Stat)
    requires c in s.conns
    ensures OpensNone(s, Wstat(cfg, s, c, fid, t).0)
  { hide Frames, NamesStay, WstatDenied, Merged; }

  lemma OpenGrants<N>(cfg: Config, s: Sys<N>, c: u32, fid: u32, omode: byte, env: Env<N>)
    requires c in s.conns
    ensures var s' := Open(cfg, s, c, fid, omode, env).0;
            && OpensAtMost(s, s', c, fid) && c in s'.conns
            && (fid in s'.conns[c].fids && s'.conns[c].fids[fid].omode != NONE ==>
                  var info := s'.conns[c].fids[fid];
                  || Carried(s, c, fid, info)
                  || (&& fid in s.conns[c].fids && s.conns[c].fids[fid].omode == NONE && omode == info.omode
                      && s.conns[c].fids[fid].node == info.node && s.conns[c].fids[fid].uname == info.uname
                      && info.node in s.fs.nodes && Permits(cfg, StatOf(s.fs.nodes[info.node]), info.uname, omode)))
  { hide Frames, NamesStay, OpenPermission, ListingOrder; }

  lemma CreateGrants<N>(cfg: Config, s: Sys<N>, c: u32, fid: u32, name: Data, perm: u32, omode: byte, env: Env<N>)
    requires c in s.conns && env.addr !in s.fs.nodes
    ensures var s' := CreateNode(cfg, s, c, fid, name, perm, omode, env).0;
            && OpensAtMost(s, s', c, fid) && c in s'.conns
            && (fid in s'.conns[c].fids && s'.conns[c].fids[fid].omode != NONE ==>
                  var info := s'.conns[c].fids[fid];
                  || Carried(s, c, fid, info)
                  || (&& fid in s.conns[c].fids && omode == info.omode && env.addr == info.node
                      && var was := s.conns[c].fids[fid];
                      && was.uname == info.uname && was.node in s.fs.nodes && s.fs.nodes[was.node].kind == Directory
                      && Permits(cfg, StatOf(s.fs.nodes[was.node]), info.uname, OWRITE)))
  { hide Frames, NamesStay, OpenPermission, Create; }

  lemma AuthGrants<N>(cfg: Config, s: Sys<N>, c: u32, afid: u32, env: Env<N>)
    requires c in s.conns && env.addr !in s.fs.nodes
    ensures var s' := Auth(cfg, s, c, afid, env).0;
            && OpensAtMost(s, s', c, afid) && c in s'.conns
            && (afid in s'.conns[c].fids && s'.conns[c].fids[afid].omode != NONE ==>
                  var info := s'.conns[c].fids[afid];
                  Carried(s, c, afid, info) || (cfg.auth && env.addr == info.node && info.uname == []))
  { hide Frames, NamesStay; }

  /** An open fid was open before the step, or the step is what opened it. */
  lemma StepGrants<N>(cfg: Config, s: Sys<N>, a: Action<N>, c: u32, fid: u32)
    requires var s' := Next(cfg, s, a);
             c in s'.conns && fid in s'.conns[c].fids && s'.conns[c].fids[fid].omode != NONE
    ensures var info := Next(cfg, s, a).conns[c].fids[fid];
            Carried(s, c, fid, info) || Grants(cfg, s, a, c, fid, info)
  {
    hide Frames, NamesStay, Negotiate, Auth, Attach, Walk, Open, CreateNode, Read, Write, Clunk, RemoveNode,
      StatNode, Wstat, StatOf;
    if a.Request? && a.c in s.conns && a.env.addr !in s.fs.nodes && s.fs.root in s.fs.nodes {
      match a.m.body
      case TOpen(f, omode) => OpenGrants(cfg, s, a.c, f, omode, a.env);
      case TCreate(f, name, perm, omode) => CreateGrants(cfg, s, a.c, f, name, perm, omode, a.env);
      case TAuth(f, _, _) => AuthGrants(cfg, s, a.c, f, a.env);
      case _ => QuietHandlers(cfg, s, a.c, a.m, a.env);
    }
  }

  lemma HandleNames<N>(cfg: Config, s: Sys<N>, c: u32, m: FCall, env: Env<N>, d: u32, name: Data)
    requires c in s.conns && env.addr !in s.fs.nodes && s.fs.root in s.fs.nodes
    requires d in Handle(cfg, s, c, m, env).0.conns && name in Handle(cfg, s, c, m, env).0.conns[d].attached
    ensures d in s.conns && (name in s.conns[d].attached || GivesName(cfg, s, Request(c, m, env), d, name))
  {
    hide Negotiate, Auth, Walk, Open, CreateNode, Read, Write, Clunk, RemoveNode, StatNode, Wstat;
  }

  lemma StepNames<N>(cfg: Config, s: Sys<N>, a: Action<N>, c: u32, name: Data)
    requires c in Next(cfg, s, a).conns && name in Next(cfg, s, a).conns[c].attached
    ensures (c in s.conns && name in s.conns[c].attached) || GivesName(cfg, s, a, c, name)
  {
    hide Handle, GivesName;
    if a.Request? && a.c in s.conns && a.env.addr !in s.fs.nodes && s.fs.root in s.fs.nodes {
      HandleNames(cfg, s, a.c, a.m, a.env, c, name);
    }
  }

  // ------------------------------------------------------------------------ every run

  lemma {:induction false} RunSnoc<N>(cfg: Config, s: Sys<N>, acts: seq<Action<N>>, a: Action<N>)
    ensures Run(cfg, s, acts + [a]) == Next(cfg, Run(cfg, s, acts), a)
    decreases |acts|
  {
    hide Next;
    if acts == [] {
      assert acts + [a] == [a] && [a][1..] == [];
    } else {
      RunSnoc(cfg, Next(cfg, s, acts[0]), acts[1..], a);
      assert (acts + [a])[1..] == acts[1..] + [a];
    }
  }

  /** The k-th action of the run, in the state it finds, gives out the name. */
  predicate GivenAt<N>(cfg: Config, fs: FS<N>, acts: seq<Action<N>>, c: u32, name: Data, k: nat) {
    k < |acts| && GivesName(cfg, Run(cfg, Start(fs), acts[..k]), acts[k], c, name)
  }

  predicate GrantedAt<N>(cfg: Config, fs: FS<N>, acts: seq<Action<N>>, c: u32, fid: u32, info: Fid<N>, k: nat) {
    k < |acts| && Grants(cfg, Run(cfg, Start(fs), acts[..k]), acts[k], c, fid, info)
  }

  lemma {:induction false} EveryName<N>(cfg: Config, fs: FS<N>, acts: seq<Action<N>>, c: u32, name: Data)
      returns (k: nat)
    requires c in Run(cfg, Start(fs), acts).conns && name in Run(cfg, Start(fs), acts).conns[c].attached
    ensures GivenAt(cfg, fs, acts, c, name, k)
    decreases |acts|
  {
    hide Next, GivesName;
    var n := |acts| - 1;
    var was := Run(cfg, Start(fs), acts[..n]);
    RunSnoc(cfg, Start(fs), acts[..n], acts[n]);
    assert acts[..n] + [acts[n]] == acts;
    StepNames(cfg, was, acts[n], c, name);
    if c in was.conns && name in was.conns[c].attached {
      k := EveryName(cfg, fs, acts[..n], c, name);
      assert acts[..n][..k] == acts[..k];
    } else {
      k := n;
    }
  }

  lemma {:induction false} EveryGrant<N>(cfg: Config, fs: FS<N>, acts: seq<Action<N>>, c: u32, fid: u32, info: Fid<N>)
    returns (k: nat)
    requires Carried(Run(cfg, Start(fs), acts), c, fid, info) && info.omode != NONE
    ensures GrantedAt(cfg, fs, acts, c, fid, info, k)
    decreases |acts|
  {
    hide Next, Grants;
    var n := |acts| - 1;
    var was := Run(cfg, Start(fs), acts[..n]);
    RunSnoc(cfg, Start(fs), acts[..n], acts[n]);
    assert acts[..n] + [acts[n]] == acts;
    StepGrants(cfg, was, acts[n], c, fid);
    var now := Run(cfg, Start(fs), acts).conns[c].fids[fid];
    GrantsSame(cfg, was, acts[n], c, fid, now, info);
    if Carried(was, c, fid, info) {
      k := EveryGrant(cfg, fs, acts[..n], c, fid, info);
      assert acts[..n][..k] == acts[..k];
    } else {
      k := n;
    }
  }

  lemma GrantsSame<N>(cfg: Config, s: Sys<N>, a: Action<N>, c: u32, fid: u32, i: Fid<N>, j: Fid<N>)
    requires i.node == j.node && i.omode == j.omode && i.uname == j.uname
    ensures Grants(cfg, s, a, c, fid, i) == Grants(cfg, s, a, c, fid, j)
  {}

  /** In every run, for every fid: its user name was given out by an Attach on the same
      connection, with authentication one that had proved the name, unless it is the empty
      name on an authentication file. If it is open, some earlier step is the Open, Create
      or Auth of this very fid that made it so, and with permissions enforced the stat that
      the node or its directory had at that step permitted it to that user. */
  lemma AccessWasGranted<N>(cfg: Config, fs: FS<N>, acts: seq<Action<N>>, c: u32, fid: u32)
    requires TreeOk(fs) && AuthLoose(fs.nodes) && fs.uid + |acts| <= TWO64
    requires var s := Run(cfg, Start(fs), acts); c in s.conns && fid in s.conns[c].fids
    ensures var s := Run(cfg, Start(fs), acts);
            var info := s.conns[c].fids[fid];
            && info.node in s.fs.nodes
            && ((info.uname == [] && s.fs.nodes[info.node].kind == AuthStream)
                || exists k: nat :: GivenAt(cfg, fs, acts, c, info.uname, k))
            && (info.omode != NONE ==> exists k: nat :: GrantedAt(cfg, fs, acts, c, fid, info, k))
  {
    hide Run, TreeOk, IsOpen, GivenAt, GrantedAt;
    StartOk(cfg, fs);
    RunKeeps(cfg, Start(fs), acts);
    var s := Run(cfg, Start(fs), acts);
    Found(cfg, s, c, fid);
    var info := s.conns[c].fids[fid];
    if info.uname in s.conns[c].attached { var k := EveryName(cfg, fs, acts, c, info.uname); }
    if info.omode != NONE { var k := EveryGrant(cfg, fs, acts, c, fid, info); }
  }
}
