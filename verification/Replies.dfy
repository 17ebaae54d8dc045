/** What goes back over the wire: replies belong to their requests, fit the negotiated size,
    are accepted by the peer, and fail to be sent only where Go panics. */
module Replies {
  import opened Bytes
  import opened Proto
  import opened FileTree
  import opened TreeLaws
  import opened Permissions
  import opened FileServer
  import opened ServerLaws
  import Listing
  import Paths
  import RoundTrip
  import ServerResults
  import Wire

  // --------------------------------------------------------- negotiated message size

  /** Whole entries up to the end of the window fit into the count. */
  lemma {:induction false} WindowFits(ss: seq<Stat>, k: nat, count: u32, used: nat)
    requires k <= |ss| && used <= count && count + TWO16 < TWO32
    requires Listing.Composable(ss[k..Listing.EndIndex(ss, k, count, used)])
    ensures used + |Listing.Entries(ss[k..Listing.EndIndex(ss, k, count, used)])| <= count
    decreases |ss| - k
  {
    hide PutStat;
    var e := Listing.EndIndex(ss, k, count, used);
    var w := ss[k..e];
    if e > k {
      assert w[0] == ss[k] && StatSize(ss[k]) < TWO16;
      assert w[1..] == ss[k + 1..e];
      RoundTrip.StatFieldsLength(ss[k], []);
      WindowFits(ss, k + 1, count, used + StatSize(ss[k]));
    }
  }

  lemma ReadSize(tag: u16, d: Data)
    ensures Size(FCall(117, tag, RRead(Wrap32(|d|), d))) == 11 + |d|
  {}

  /** A read reply fits the negotiated size exactly when that size is at least the eleven
      bytes of its header; below that the uint32 subtraction goes round and nothing is
      capped. Before any version exchange the size is 0. */
  lemma ReadFits<N>(cfg: Config, s: Sys<N>, c: u32, fid: u32, offset: u64, count: u32, env: Env<N>, tag: u16)
    requires Inv(cfg, s) && c in s.conns
    ensures var r := Read(s, c, fid, offset, count, env).1;
            r.Answer? ==> (Size(FCall(117, tag, r.body)) <= s.conns[c].msize <==> s.conns[c].msize >= 11)
  {
    var r := Read(s, c, fid, offset, count, env).1;
    if r.Answer? {
      assert ConnOk(cfg, s, c);
      hide Inv, ConnOk, StatsOf, Listing.EndIndex, Listing.StartIndex, Listing.Entries, Listing.Composable, PutBody,
        ReadAt;
      var msize, n := s.conns[c].msize, CapCount(s.conns[c].msize, count);
      var info := s.conns[c].fids[fid];
      var node := s.fs.nodes[info.node];
      ReadSize(tag, r.body.data);
      if msize >= 11 {
        if IsFile(node) {
          if node.kind == Regular {
            ReadAtShort(node.data, offset, n);
          } else {
            ReadAtShort(env.bytes, 0, n);
          }
        } else {
          var stats := StatsOf(s.fs.nodes, info.extra.nodes);
          WindowFits(stats, Listing.StartIndex(stats, offset, 0, 0), n, 0);
        }
      }
    }
  }

  lemma ReadAtShort(data: Data, offset: nat, count: nat)
    ensures |ReadAt(data, offset, count)| <= count
  {}

  // ------------------------------------------------------------- request and reply

  /** A reply carries its request's tag and the reply type of its request, or is an RError;
      its type byte is the one the peer dispatches its body on. */
  lemma ReplyMatches<N>(cfg: Config, s: Sys<N>, c: u32, m: FCall, env: Env<N>, text: Data)
    requires c in s.conns && env.addr !in s.fs.nodes && s.fs.root in s.fs.nodes && RoundTrip.TypeMatches(m.typ, m.body)
    ensures var r := Response(m, Handle(cfg, s, c, m, env).1, text);
            r.Some? ==>
              && r.value.tag == m.tag && RoundTrip.TypeMatches(r.value.typ, r.value.body)
              && r.value.typ == if Handle(cfg, s, c, m, env).1.Fail? then 107 else m.typ + 1
  {
    hide Frames, Negotiate, Auth, Attach, Walk, Open, CreateNode, Read, Write, Clunk, RemoveNode, StatNode, Wstat;
  }

  lemma WalkCount<N>(s: Sys<N>, c: u32, fid: u32, newfid: u32, names: seq<Data>)
    requires c in s.conns && |names| < TWO16
    ensures var r := Walk(s, c, fid, newfid, names).1;
            && (r.Answer? ==> r.body.RWalk? && r.body.nwqid == |r.body.wqid|)
            && (r.Answer? && (names == [] || (names[0] != DOT && names[0] != DOTDOT)) ==> |r.body.wqid| == |names|)
            && (r.Answer? && names != [] && (names[0] == DOT || names[0] == DOTDOT) ==> |r.body.wqid| <= 1)
  {
    hide Paths.Descend, WalkQids, PutFid;
    if fid in s.conns[c].fids && s.conns[c].fids[fid].node in s.fs.nodes {
      var n := s.conns[c].fids[fid].node;
      if Paths.Descend(s.fs.nodes, n, names).Some? { ServerResults.WalkQidsCount(s.fs.nodes, n, names); }
    }
  }

  /** The replies of fixed length. */
  predicate Small(b: Body) {
    || b.RAuth? || b.RAttach? || b.RFlush? || b.ROpen? || b.RCreate? || b.RWrite? || b.RClunk? || b.RRemove?
    || b.RWstat?
  }

  lemma SmallFits(m: FCall)
    requires Small(m.body)
    ensures Fits(m)
  {}

  /** Every answer but these four is of fixed length. */
  lemma SmallOrNot<N>(cfg: Config, s: Sys<N>, c: u32, m: FCall, env: Env<N>)
    requires c in s.conns && env.addr !in s.fs.nodes && s.fs.root in s.fs.nodes
    requires !m.body.Version? && !m.body.TWalk? && !m.body.TStat? && !m.body.TRead?
    ensures Handle(cfg, s, c, m, env).1.Answer? ==> Small(Handle(cfg, s, c, m, env).1.body)
  {
    hide Frames, Negotiate, Auth, Attach, Walk, Open, CreateNode, Read, Write, Clunk, RemoveNode, StatNode, Wstat;
  }

  lemma WalkReplySize(m: FCall)
    requires m.body.RWalk? && m.body.nwqid == |m.body.wqid| && Wire.Composes(m)
    ensures Size(m) < TWO16
  { Wire.QidsLength(m.body.wqid, []); }

  lemma StatReplySize(m: FCall)
    requires m.body.RStat?
    ensures Size(m) == 9 + StatSize(m.body.stat)
  { RoundTrip.StatFieldsLength(m.body.stat, []); }

  lemma TextSize(m: FCall)
    ensures m.body.RError? ==> Size(m) == 9 + |m.body.ename|
    ensures m.body.Version? ==> Size(m) == 13 + |m.body.version|
  {}

  lemma ReadReply<N>(s: Sys<N>, c: u32, fid: u32, offset: u64, count: u32, env: Env<N>)
    requires c in s.conns
    ensures var r := Read(s, c, fid, offset, count, env).1;
            r.Answer? ==> r.body.RRead? && r.body.count == Wrap32(|r.body.data|)
  { hide StatsOf, Listing.ReadDir, Listing.Window, Listing.Composable, ReadAt; }

  lemma SizeBound<N>(cfg: Config, s: Sys<N>, c: u32)
    requires Inv(cfg, s) && c in s.conns
    ensures s.conns[c].msize <= MAX_MSG_LEN
  { assert ConnOk(cfg, s, c); }

  /** Counts agree and the size is within a message. */
  predicate Fits(m: FCall) { RoundTrip.CountsMatch(m.body) && Size(m) <= MAX_MSG_LEN }

  lemma VersionFits<N>(s: Sys<N>, c: u32, typ: byte, msize: u32, version: Data, reply: FCall)
    requires c in s.conns && Negotiate(s, c, typ, msize, version).1 == Answer(reply.body)
    ensures Fits(reply)
  { TextSize(reply); }

  lemma WalkFits<N>(s: Sys<N>, c: u32, fid: u32, newfid: u32, names: seq<Data>, reply: FCall)
    requires c in s.conns && |names| < TWO16
    requires Walk(s, c, fid, newfid, names).1 == Answer(reply.body) && Wire.Composes(reply)
    ensures Fits(reply)
  {
    hide Walk, PutBody;
    WalkCount(s, c, fid, newfid, names);
    WalkReplySize(reply);
  }

  lemma StatFits<N>(s: Sys<N>, c: u32, fid: u32, reply: FCall)
    requires c in s.conns && StatNode(s, c, fid).1 == Answer(reply.body) && Wire.Composes(reply)
    ensures Fits(reply)
  {
    hide StatNode, PutBody;
    StatReplySize(reply);
  }

  lemma ReadReplyFits<N>(cfg: Config, s: Sys<N>, c: u32, fid: u32, offset: u64, count: u32, env: Env<N>, reply: FCall)
    requires Inv(cfg, s) && c in s.conns && s.conns[c].msize >= 11 && reply.typ == 117
    requires Read(s, c, fid, offset, count, env).1 == Answer(reply.body)
    ensures Fits(reply) && Size(reply) <= s.conns[c].msize
  {
    hide Inv, Read, PutBody;
    SizeBound(cfg, s, c);
    ReadReply(s, c, fid, offset, count, env);
    ReadFits(cfg, s, c, fid, offset, count, env, reply.tag);
    ReadSize(reply.tag, reply.body.data);
  }

  lemma ReplyFits<N>(cfg: Config, s: Sys<N>, c: u32, m: FCall, env: Env<N>, reply: FCall)
    requires Inv(cfg, s) && c in s.conns && env.addr !in s.fs.nodes && s.fs.root in s.fs.nodes
    requires RoundTrip.CountsMatch(m.body) && (m.body.TRead? ==> s.conns[c].msize >= 11 && reply.typ == 117)
    requires Handle(cfg, s, c, m, env).1 == Answer(reply.body) && Wire.Composes(reply)
    ensures Fits(reply) && (m.body.TRead? ==> Size(reply) <= s.conns[c].msize)
  {
    hide Inv, Fits, PutBody, Frames, Small, Wire.Composes, Negotiate, Auth, Attach, Walk, Open, CreateNode, Read, Write,
      Clunk, RemoveNode, StatNode, Wstat;
    match m.body
    case Version(msize, version) => VersionFits(s, c, m.typ, msize, version, reply);
    case TWalk(fid, newfid, _, names) => WalkFits(s, c, fid, newfid, names, reply);
    case TStat(fid) => StatFits(s, c, fid, reply);
    case TRead(fid, offset, count) => ReadReplyFits(cfg, s, c, fid, offset, count, env, reply);
    case _ =>
      SmallOrNot(cfg, s, c, m, env);
      SmallFits(reply);
  }

  /** Any reply that Compose returns is accepted by the peer, whole and unchanged, if the
      error text is no longer than a message, and for a read if the negotiated size is at
      least that of its header. */
  lemma AcceptedByPeer<N>(cfg: Config, s: Sys<N>, c: u32, m: FCall, env: Env<N>, text: Data)
    requires Inv(cfg, s) && c in s.conns && env.addr !in s.fs.nodes && s.fs.root in s.fs.nodes
    requires RoundTrip.TypeMatches(m.typ, m.body) && RoundTrip.CountsMatch(m.body)
    requires 9 + |text| <= MAX_MSG_LEN && (m.body.TRead? ==> s.conns[c].msize >= 11)
    ensures var r := Response(m, Handle(cfg, s, c, m, env).1, text);
            r.Some? && Wire.Composes(r.value) ==>
              && ParseCall(Encode(r.value)) == Ok(r.value, [])
              && (r.value.body.RRead? ==> Size(r.value) <= s.conns[c].msize)
  {
    hide Handle, Inv, Encode, ParseCall, PutBody;
    var r := Handle(cfg, s, c, m, env).1;
    var reply := Response(m, r, text);
    if reply.Some? && Wire.Composes(reply.value) {
      ReplyMatches(cfg, s, c, m, env, text);
      TextSize(reply.value);
      if r.Answer? { ReplyFits(cfg, s, c, m, env, reply.value); }
      RoundTrip.RoundTripLimit(reply.value);
    }
  }

  // --------------------------------------------------------- what was negotiated stays

  lemma HandleMsize<N>(cfg: Config, s: Sys<N>, c: u32, m: FCall, env: Env<N>, d: u32)
    requires c in s.conns && env.addr !in s.fs.nodes && s.fs.root in s.fs.nodes && d in s.conns
    requires c != d || !m.body.Version?
    ensures d in Handle(cfg, s, c, m, env).0.conns && Handle(cfg, s, c, m, env).0.conns[d].msize == s.conns[d].msize
  {
    hide Negotiate, Auth, Attach, Walk, Open, CreateNode, Read, Write, Clunk, RemoveNode, StatNode, Wstat;
  }

  /** No version exchange on this connection. */
  predicate NoVersion<N>(a: Action<N>, c: u32) { a.Request? && a.c == c ==> !a.m.body.Version? }

  lemma {:induction false} MsizeStays<N>(cfg: Config, s: Sys<N>, acts: seq<Action<N>>, c: u32)
    requires c in s.conns && forall i :: 0 <= i < |acts| ==> NoVersion(acts[i], c)
    ensures c in Run(cfg, s, acts).conns && Run(cfg, s, acts).conns[c].msize == s.conns[c].msize
    decreases |acts|
  {
    hide Handle;
    if acts != [] {
      var a := acts[0];
      assert NoVersion(a, c);
      if a.Request? && a.c in s.conns && a.env.addr !in s.fs.nodes && s.fs.root in s.fs.nodes {
        HandleMsize(cfg, s, a.c, a.m, a.env, c);
      }
      MsizeStays(cfg, Next(cfg, s, a), acts[1..], c);
    }
  }

  /** What a version exchange promises holds from then on: whatever happens on this and all
      other connections until the next exchange, the size is what the client asked for, or the
      maximum, and every answer to a read is within it, if it has room for the header, and
      accepted by the peer. */
  lemma NegotiatedSize<N>(cfg: Config, s: Sys<N>, c: u32, v: FCall, env0: Env<N>, acts: seq<Action<N>>, m: FCall,
                          env: Env<N>, text: Data)
    requires Inv(cfg, s) && s.fs.uid + |acts| <= TWO64 && Ready(s, c, env0)
    requires v.typ == 100 && v.body.Version? && v.body.version == [57, 80, 50, 48, 48, 48]
    requires forall i :: 0 <= i < |acts| ==> NoVersion(acts[i], c)
    requires m.typ == 116 && m.body.TRead?
    ensures var (s0, r) := Handle(cfg, s, c, v, env0);
            var s1 := Run(cfg, s0, acts);
            && r == Answer(Version(if v.body.msize < 65535 then v.body.msize else 65535, v.body.version))
            && s0 == s.(conns := s0.conns) && c in s1.conns && s1.conns[c].msize == r.body.msize
            && (r.body.msize >= 11 && env.addr !in s1.fs.nodes && s1.fs.root in s1.fs.nodes ==>
                  var x := Handle(cfg, s1, c, m, env).1;
                  x.Answer? ==>
                    var reply := Response(m, x, text).value;
                    Size(reply) <= r.body.msize && ParseCall(Encode(reply)) == Ok(reply, []))
  {
    var (s0, r) := Handle(cfg, s, c, v, env0);
    hide Run, Inv, Handle;
    NegotiateKeeps(cfg, s, c, 100, v.body.msize, VERSION);
    RunKeeps(cfg, s0, acts);
    MsizeStays(cfg, s0, acts, c);
    var s1 := Run(cfg, s0, acts);
    if r.body.msize >= 11 && env.addr !in s1.fs.nodes && s1.fs.root in s1.fs.nodes {
      ReadAccepted(cfg, s1, c, m, env, text);
    }
  }

  lemma ReadAccepted<N>(cfg: Config, s: Sys<N>, c: u32, m: FCall, env: Env<N>, text: Data)
    requires Inv(cfg, s) && c in s.conns && env.addr !in s.fs.nodes && s.fs.root in s.fs.nodes
    requires m.typ == 116 && m.body.TRead? && s.conns[c].msize >= 11
    ensures var x := Handle(cfg, s, c, m, env).1;
            x.Answer? ==>
              var reply := Response(m, x, text).value;
              Size(reply) <= s.conns[c].msize && ParseCall(Encode(reply)) == Ok(reply, [])
  {
    hide Inv, Frames, PutBody, ParseCall, Encode, Read;
    var x := Handle(cfg, s, c, m, env).1;
    if x.Answer? {
      ReadReply(s, c, m.body.fid, m.body.offset, m.body.count, env);
      var reply := Response(m, x, text).value;
      ReadReplyFits(cfg, s, c, m.body.fid, m.body.offset, m.body.count, env, reply);
      RoundTrip.RoundTripLimit(reply);
    }
  }

  // --------------------------------------------------------------- always an answer

  /** The handler panics, or the composing of its reply does. */
  predicate Panics<N>(cfg: Config, s: Sys<N>, c: u32, m: FCall, env: Env<N>)
    requires c in s.conns && env.addr !in s.fs.nodes && s.fs.root in s.fs.nodes
  {
    var r := Handle(cfg, s, c, m, env).1;
    r == Crash || (Response(m, r, []).Some? && !Wire.Composes(Response(m, r, []).value))
  }

  /** Exactly these requests run into a Go panic, in the handler or when the reply is
      composed: reading a directory fid that has no snapshot, as it came from a create;
      reading a directory window with a stat too large to compose; an uncapped read of four
      gigabytes; writing to a regular file beyond what a slice holds; asking for a stat too
      large for its message; and walking along so many names that the reply's length leaves
      16 bits. */
  lemma AnsweredUnless<N>(cfg: Config, s: Sys<N>, c: u32, m: FCall, env: Env<N>)
    requires Inv(cfg, s) && c in s.conns && env.addr !in s.fs.nodes && s.fs.root in s.fs.nodes
    requires RoundTrip.TypeMatches(m.typ, m.body) && RoundTrip.CountsMatch(m.body)
    ensures Panics(cfg, s, c, m, env) <==>
              match m.body
              case TRead(fid, offset, count) =>
                ReadStuck(s, c, fid, offset, count) || ReadHuge(s, c, fid, offset, count, env)
              case TWrite(fid, offset, _, data) => WriteStuck(s, c, fid, offset, data)
              case TStat(fid) => StatStuck(s, c, fid)
              case TWalk(fid, _, _, names) => WalkStuck(s, c, fid, names)
              case _ => false
  {
    hide Inv, Frames, ReadStuck, ReadHuge, WriteStuck, StatStuck, WalkStuck, Negotiate, Auth, Attach, Walk, Open,
      CreateNode, Read, Write, Clunk, RemoveNode, StatNode, Wstat;
    match m.body
    case TRead(fid, offset, count) => ReadAnswered(cfg, s, c, fid, offset, count, env);
    case TWrite(fid, offset, _, data) => WriteAnswered(cfg, s, c, fid, offset, data, env);
    case TStat(fid) => StatAnswered(cfg, s, c, fid);
    case TWalk(fid, newfid, _, names) => WalkAnswered(cfg, s, c, fid, newfid, names);
    case _ => OthersAnswered(cfg, s, c, m, env);
  }

  lemma StatAnswered<N>(cfg: Config, s: Sys<N>, c: u32, fid: u32)
    requires Inv(cfg, s) && c in s.conns
    ensures var r := StatNode(s, c, fid).1;
            && r != Crash && (r.Answer? ==> r.body.RStat?)
            && (StatStuck(s, c, fid) <==> r.Answer? && 9 + StatSize(r.body.stat) >= TWO16)
  {
    hide Inv;
    if fid in s.conns[c].fids { ServerResults.WalkNode(cfg, s, c, fid); }
  }

  lemma WalkAnswered<N>(cfg: Config, s: Sys<N>, c: u32, fid: u32, newfid: u32, names: seq<Data>)
    requires Inv(cfg, s) && c in s.conns && |names| < TWO16
    ensures var r := Walk(s, c, fid, newfid, names).1;
            && r != Crash && (r.Answer? ==> r.body.RWalk? && r.body.nwqid == |r.body.wqid|)
            && (WalkStuck(s, c, fid, names) <==> r.Answer? && 9 + 13 * |r.body.wqid| >= TWO16)
  {
    hide Inv, Paths.Descend, WalkQids, PutFid;
    WalkCount(s, c, fid, newfid, names);
    if fid in s.conns[c].fids { ServerResults.WalkNode(cfg, s, c, fid); }
  }

  predicate StatStuck<N>(s: Sys<N>, c: u32, fid: u32)
    requires c in s.conns
  {
    && fid in s.conns[c].fids && s.conns[c].fids[fid].node in s.fs.nodes
    && 9 + StatSize(s.fs.nodes[s.conns[c].fids[fid].node].stat) >= TWO16
  }

  predicate WalkStuck<N>(s: Sys<N>, c: u32, fid: u32, names: seq<Data>)
    requires c in s.conns
  {
    && fid in s.conns[c].fids && s.conns[c].fids[fid].node in s.fs.nodes
    && |names| >= 5041 && names[0] != DOT && names[0] != DOTDOT
    && Paths.Descend(s.fs.nodes, s.conns[c].fids[fid].node, names).Some?
  }

  /** So many bytes that the header does not fit into 32 bits with them. */
  predicate ReadHuge<N>(s: Sys<N>, c: u32, fid: u32, offset: u64, count: u32, env: Env<N>)
    requires c in s.conns
  {
    && fid in s.conns[c].fids
    && var info := s.conns[c].fids[fid];
    && info.node in s.fs.nodes && Readable(info.omode) && !ReadStuck(s, c, fid, offset, count)
    && var node := s.fs.nodes[info.node];
    && var n := CapCount(s.conns[c].msize, count);
    && var length := match node.kind
                     case Regular => |ReadAt(node.data, offset, n)|
                     case AuthStream => |ReadAt(env.bytes, 0, n)|
                     case Directory =>
                       if info.extra.Snapshot?
                       then |Listing.ReadDir(StatsOf(s.fs.nodes, info.extra.nodes), offset, n)| else 0;
    11 + Wrap32(length) >= TWO32
  }

  lemma ReadAnswered<N>(cfg: Config, s: Sys<N>, c: u32, fid: u32, offset: u64, count: u32, env: Env<N>)
    requires Inv(cfg, s) && c in s.conns
    ensures var r := Read(s, c, fid, offset, count, env).1;
            && (r == Crash <==> ReadStuck(s, c, fid, offset, count))
            && (r.Answer? ==> r.body.RRead?)
            && (ReadHuge(s, c, fid, offset, count, env) <==> r.Answer? && 11 + r.body.count >= TWO32)
  {
    hide Inv, StatsOf, Listing.Window, Listing.ReadDir, Listing.Composable, ReadAt;
    if fid in s.conns[c].fids { ServerResults.WalkNode(cfg, s, c, fid); }
  }

  lemma WriteAnswered<N>(cfg: Config, s: Sys<N>, c: u32, fid: u32, offset: u64, data: Data, env: Env<N>)
    requires Inv(cfg, s) && c in s.conns
    ensures var r := Write(s, c, fid, offset, data, env).1;
            (r == Crash <==> WriteStuck(s, c, fid, offset, data)) && (r.Answer? ==> r.body.RWrite?)
  {
    hide Written, TreeOk;
    if fid in s.conns[c].fids {
      ServerResults.WalkNode(cfg, s, c, fid);
      KindOfNode(s.fs, s.conns[c].fids[fid].node);
    }
    hide Inv;
  }

  lemma OthersAnswered<N>(cfg: Config, s: Sys<N>, c: u32, m: FCall, env: Env<N>)
    requires Inv(cfg, s) && c in s.conns && env.addr !in s.fs.nodes && s.fs.root in s.fs.nodes
    requires !m.body.TRead? && !m.body.TWrite?
    ensures Handle(cfg, s, c, m, env).1 != Crash
  {
    hide Inv, Frames, Read, Write, WalkQids, OpenPermission, WstatDenied, Merged, Paths.Descend, Remove, Create,
      ListingOrder, PutFid, DropFid, Log, OpenFile, SetStat;
    forall fid | fid in s.conns[c].fids ensures s.conns[c].fids[fid].node in s.fs.nodes {
      ServerResults.WalkNode(cfg, s, c, fid);
    }
  }

  lemma KindOfNode<N>(fs: FS<N>, n: N)
    requires TreeOk(fs) && n in fs.nodes
    ensures DirBit(fs.nodes[n].stat.mode) <==> !IsFile(fs.nodes[n])
  { assert KindOk(fs.nodes[n]); }

  predicate ReadStuck<N>(s: Sys<N>, c: u32, fid: u32, offset: u64, count: u32)
    requires c in s.conns
  {
    fid in s.conns[c].fids &&
    var info := s.conns[c].fids[fid];
    && info.node in s.fs.nodes && !IsFile(s.fs.nodes[info.node]) && Readable(info.omode)
    && (info.extra.Snapshot? ==>
          !Listing.Composable(Listing.Window(StatsOf(s.fs.nodes, info.extra.nodes), offset,
                                             CapCount(s.conns[c].msize, count))))
  }

  predicate WriteStuck<N>(s: Sys<N>, c: u32, fid: u32, offset: u64, data: Data)
    requires c in s.conns
  {
    fid in s.conns[c].fids &&
    var info := s.conns[c].fids[fid];
    info.node in s.fs.nodes && Writable(info.omode) && s.fs.nodes[info.node].kind == Regular
    && WritePanics(|s.fs.nodes[info.node].data|, offset, |data|)
  }

  // ------------------------------------------------- a stat too large is within reach

  const OPEN_CFG: Config := Config(false, false, true, true, true)

  /** One connection, and a root anybody may write. */
  function Fresh<N>(root: N, now: u32): Sys<N> {
    Start(NewFS(root, GLENDA, GLENDA, 511, now)).(conns := map[1 := Conn(map[], 0, {})])
  }

  lemma FreshRuns<N>(root: N, now: u32)
    ensures Next(OPEN_CFG, Start(NewFS(root, GLENDA, GLENDA, 511, now)), Connect) == Fresh(root, now)
  {}

  lemma AnybodyWrites<N>(root: N, now: u32, u: Data)
    ensures var s := Fresh(root, now); OpenPermission(StatOf(s.fs.nodes[root]), u, OWRITE)
  {
    var st := StatOf(Fresh(root, now).fs.nodes[root]);
    assert st.mode == 0x8000_01FF;
    assert forall r :: Digit(0x8000_01FF, r) == 7;
    assert Bit(7, 2);
  }

  /** After the attach. */
  function Joined<N>(root: N, now: u32, u: Data): Sys<N> { AttachAs(Fresh(root, now), 1, 0, u).0 }

  lemma AttachJoins<N>(root: N, now: u32, u: Data, tag: u16, env: Env<N>)
    requires env.addr != root
    ensures Next(OPEN_CFG, Fresh(root, now), Request(1, FCall(104, tag, TAttach(0, 0, u, [])), env))
            == Joined(root, now, u)
  {}

  lemma CreateLarge<N>(root: N, now: u32, u: Data, name: Data, env: Env<N>)
    requires env.addr != root
    ensures var s := CreateNode(OPEN_CFG, Joined(root, now, u), 1, 0, name, 0, OREAD, env).0;
            && 1 in s.conns && 0 in s.conns[1].fids && s.conns[1].fids[0].node in s.fs.nodes && s.fs.root in s.fs.nodes
            && StatSize(s.fs.nodes[s.conns[1].fids[0].node].stat) == 49 + |name| + 3 * |u|
  {
    hide OpenPermission;
    AnybodyWrites(root, now, u);
    var s := Joined(root, now, u);
    assert Lookup(s.fs.nodes[env.addr := Created(1, u, name, 0, env.now)], [], name).None?;
    assert Create(s.fs, root, env.addr, u, name, 0, env.now).1;
  }

  lemma StatPanics<N>(cfg: Config, s: Sys<N>, c: u32, fid: u32, tag: u16, env: Env<N>)
    requires c in s.conns && env.addr !in s.fs.nodes && s.fs.root in s.fs.nodes && StatStuck(s, c, fid)
    ensures Panics(cfg, s, c, FCall(124, tag, TStat(fid)), env)
  {}

  lemma MessageSizes(u: Data, name: Data)
    ensures Size(FCall(104, 0, TAttach(0, 0, u, []))) == 19 + |u|
            && Size(FCall(114, 0, TCreate(0, name, 0, OREAD))) == 18 + |name|
  {}

  /** A client attaches as `u` and creates a file; both messages are ordinary ones. If the
      names are long enough, asking for the stat of the new file panics, as owner, group and
      last writer are all `u`: twenty-two thousand bytes are enough. */
  lemma OversizedStat<N>(root: N, now: u32, u: Data, name: Data, env: Env<N>, env': Env<N>)
    requires env.addr != root && 19 + |u| <= MAX_MSG_LEN && 18 + |name| <= MAX_MSG_LEN
    requires 58 + |name| + 3 * |u| >= TWO16
    ensures var attach := FCall(104, 0, TAttach(0, 0, u, []));
            var create := FCall(114, 0, TCreate(0, name, 0, OREAD));
            var acts := [Connect, Request(1, attach, env), Request(1, create, env)];
            var s := Run(OPEN_CFG, Start(NewFS(root, GLENDA, GLENDA, 511, now)), acts);
            && RoundTrip.WellFormed(attach) && RoundTrip.WellFormed(create)
            && 1 in s.conns && s.fs.root in s.fs.nodes
            && (env'.addr !in s.fs.nodes ==> Panics(OPEN_CFG, s, 1, FCall(124, 0, TStat(0)), env'))
  {
    hide PutBody, CreateNode, Panics, NewFS, Joined, Fresh, Run, Next;
    var attach, create := FCall(104, 0, TAttach(0, 0, u, [])), FCall(114, 0, TCreate(0, name, 0, OREAD));
    var s0 := Start(NewFS(root, GLENDA, GLENDA, 511, now));
    FreshRuns(root, now);
    AttachJoins(root, now, u, 0, env);
    CreateNext(root, now, u, name, env);
    var s := CreateNode(OPEN_CFG, Joined(root, now, u), 1, 0, name, 0, OREAD, env).0;
    CreateLarge(root, now, u, name, env);
    ThreeSteps(s0, Connect, Request(1, attach, env), Request(1, create, env));
    MessageSizes(u, name);
    if env'.addr !in s.fs.nodes { StatPanics(OPEN_CFG, s, 1, 0, 0, env'); }
  }

  lemma CreateNext<N>(root: N, now: u32, u: Data, name: Data, env: Env<N>)
    requires env.addr != root
    ensures 1 in Joined(root, now, u).conns && env.addr !in Joined(root, now, u).fs.nodes
    ensures Next(OPEN_CFG, Joined(root, now, u), Request(1, FCall(114, 0, TCreate(0, name, 0, OREAD)), env)) ==
            CreateNode(OPEN_CFG, Joined(root, now, u), 1, 0, name, 0, OREAD, env).0
  { hide CreateNode; }

  lemma ThreeSteps<N>(s: Sys<N>, a: Action<N>, b: Action<N>, c: Action<N>)
    ensures Run(OPEN_CFG, s, [a, b, c]) == Next(OPEN_CFG, Next(OPEN_CFG, Next(OPEN_CFG, s, a), b), c)
  {
    hide Next;
    assert [a, b, c][1..] == [b, c] && [b, c][1..] == [c] && [c][1..] == [];
    var s2 := Next(OPEN_CFG, Next(OPEN_CFG, s, a), b);
    assert Run(OPEN_CFG, Next(OPEN_CFG, s, a), [b, c]) == Run(OPEN_CFG, s2, [c]);
    assert Run(OPEN_CFG, s2, [c]) == Run(OPEN_CFG, Next(OPEN_CFG, s2, c), []);
  }
}
