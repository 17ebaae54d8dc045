/** The client's chunked reads and writes (client/client.go:453-458, 644-683, 740-773)
    against the server: many small messages do what one file operation does. */
module ClientIO {
  import opened Bytes
  import opened Proto
  import opened FileTree
  import opened FileServer
  import Permissions
  import Listing
  import Readdir
  import RoundTrip

  // --------------------------------------------------------------- one file

  /** Two adjacent writes are one. */
  lemma WriteAtSplit(data: Data, offset: nat, a: Data, b: Data)
    ensures WriteAt(WriteAt(data, offset, a), offset + |a|, b) == WriteAt(data, offset, a + b)
  {
    var one, two := WriteAt(data, offset, a + b), WriteAt(WriteAt(data, offset, a), offset + |a|, b);
    assert |one| == |two|;
    forall i | 0 <= i < |one| ensures one[i] == two[i] {
      WrittenByte(data, offset, a + b, i);
      WrittenByte(WriteAt(data, offset, a), offset + |a|, b, i);
      if i < |WriteAt(data, offset, a)| { WrittenByte(data, offset, a, i); }
    }
  }

  /** What a write leaves at each place: the new byte, the old one, or a zero in the gap. */
  lemma WrittenByte(data: Data, offset: nat, d: Data, i: nat)
    requires i < |WriteAt(data, offset, d)|
    ensures WriteAt(data, offset, d)[i] ==
            if offset <= i < offset + |d| then d[i - offset] else if i < |data| then data[i] else 0
  {}

  /** Reading back what was written. */
  lemma ReadWritten(data: Data, offset: nat, d: Data)
    ensures ReadAt(WriteAt(data, offset, d), offset, |d|) == d
  {
    var w := WriteAt(data, offset, d);
    forall i | 0 <= i < |d| ensures w[offset + i] == d[i] { WrittenByte(data, offset, d, offset + i); }
  }

  // ----------------------------------------------------------------- writing

  /** What one round of twrite sends; `msize-23` is uint32 arithmetic. */
  function Chunk(msize: u32, iounit: u32, p: Data): Data {
    var b := if |p| > Wrap32(msize - 23) then p[..Wrap32(msize - 23)] else p;
    if |b| > iounit then b[..iounit] else b
  }

  function WriteCall(tag: u16, fid: u32, offset: u64, b: Data): FCall
    requires |b| < TWO32
  { FCall(118, tag, TWrite(fid, offset, |b|, b)) }

  /** A write no longer than a message reaches the server whole. */
  lemma WriteCallAccepted(tag: u16, fid: u32, offset: u64, b: Data)
    requires 23 + |b| <= MAX_MSG_LEN
    ensures var m := WriteCall(tag, fid, offset, b); Size(m) == 23 + |b| && ParseCall(Encode(m)) == Ok(m, [])
  {
    hide ParseCall, Encode;
    RoundTrip.RoundTripLimit(WriteCall(tag, fid, offset, b));
  }

  /** A round makes progress with a message that fits the negotiated size exactly when the
      size leaves room for a byte and the iounit is not zero: at 23 the loop would send
      empty writes for ever, below it the subtraction goes round. */
  lemma ChunkFits(msize: u32, iounit: u32, p: Data)
    requires p != []
    ensures Chunk(msize, iounit, p) != [] && 23 + |Chunk(msize, iounit, p)| <= msize <==> msize > 23 && iounit > 0
    ensures Chunk(msize, iounit, p) <= p
    ensures msize > 23 ==> |Chunk(msize, iounit, p)| == if |p| < Most(msize, iounit) then |p| else Most(msize, iounit)
  {}

  /** The most a message carries. */
  function Most(msize: u32, iounit: u32): nat
    requires msize > 23
  { if msize - 23 < iounit then msize - 23 else iounit }

  /** The regular file a fid may write to. */
  ghost predicate WritesTo<N>(s: Sys<N>, c: u32, fid: u32, n: N) {
    && c in s.conns && fid in s.conns[c].fids && s.conns[c].fids[fid].node == n && n in s.fs.nodes
    && Writable(s.conns[c].fids[fid].omode) && s.fs.nodes[n].kind == Regular && !DirBit(s.fs.nodes[n].stat.mode)
  }

  /** Only the content of `n` and the record of calls differ. */
  ghost predicate Rewritten<N>(s0: Sys<N>, s: Sys<N>, n: N, data: Data)
    requires n in s0.fs.nodes
  { s == s0.(fs := SetData(s0.fs, n, data), trace := s.trace) }

  lemma WriteStep<N>(s0: Sys<N>, s: Sys<N>, c: u32, fid: u32, n: N, data: Data, offset: u64, b: Data, env: Env<N>)
    requires WritesTo(s0, c, fid, n) && Rewritten(s0, s, n, data)
    ensures var (s', r) := Write(s, c, fid, offset, b, env);
            && r == (if WritePanics(|data|, offset, |b|) then Crash else Answer(RWrite(Wrap32(|b|))))
            && Rewritten(s0, s', n, Written(data, offset, b)) && c in s'.conns
  {
    hide Written;
    var d := Written(data, offset, b);
    assert s0.fs.nodes[n := s0.fs.nodes[n].(data := data)][n := s0.fs.nodes[n].(data := d)] ==
           s0.fs.nodes[n := s0.fs.nodes[n].(data := d)];
  }

  /** The content after the first `k` bytes of `p` went out. */
  ghost function Sofar(data: Data, off: nat, p: Data, k: nat): (r: Data)
    requires k <= |p|
    ensures |r| == if k > 0 && off + k > |data| then off + k else |data|
  { if k == 0 then data else WriteAt(data, off, p[..k]) }

  lemma SofarStep(data: Data, off: nat, p: Data, k: nat, b: Data)
    requires k <= |p| && b <= p[k..] && b != []
    ensures WriteAt(Sofar(data, off, p, k), off + k, b) == Sofar(data, off, p, k + |b|)
  {
    hide WriteAt;
    assert p[..k] + b == p[..k + |b|];
    if k == 0 { assert b == p[..|b|]; } else { WriteAtSplit(data, off, p[..k], b); }
  }

  /** Whether the file would have to grow beyond what a slice holds. */
  predicate TooFar(length: nat, end: nat) { end > length && end > MAX_ALLOC }

  /** client/client.go:740-773 against the server's Write, with the message size the two have
      negotiated. `sent` is what went over the wire: each message fits that size and is
      parsed whole at the other end. The loop gets through exactly when one write of the
      whole buffer would; then it reports the whole length and leaves the file as that one
      write would, gap and all. Otherwise the server panics under one of the messages, and
      the file holds what the earlier ones wrote. */
  method Twrite<N>(s0: Sys<N>, c: u32, fid: u32, p: Data, off: u64, iounit: u32, env: Env<N>, ghost n: N)
    returns (s: Sys<N>, wrote: nat, ok: bool, ghost sent: seq<FCall>)
    requires WritesTo(s0, c, fid, n) && 23 < s0.conns[c].msize <= MAX_MSG_LEN && iounit > 0 && off + |p| < TWO64
    ensures ok <==> p == [] || !WritePanics(|s0.fs.nodes[n].data|, off, |p|)
    ensures p == [] ==> s == s0 && sent == []
    ensures ok ==> wrote == |p|
    ensures ok && p != [] ==>
              && Rewritten(s0, s, n, WriteAt(s0.fs.nodes[n].data, off, p))
              && s.fs == Write(s0, c, fid, off, p, env).0.fs
    ensures !ok ==> wrote < |p| && Rewritten(s0, s, n, Sofar(s0.fs.nodes[n].data, off, p, wrote))
    ensures forall m :: m in sent ==> Size(m) <= s0.conns[c].msize && ParseCall(Encode(m)) == Ok(m, [])
    ensures ok ==> Packed(|sent|, Most(s0.conns[c].msize, iounit), |p|, |p|)
  {
    hide WriteAt, Written, Write, PutBody, Sofar, Rewritten, Chunk, ParseCall, Encode;
    var msize := s0.conns[c].msize;
    ghost var most := Most(msize, iounit);
    s, wrote, ok, sent := s0, 0, true, [];
    ghost var data := s0.fs.nodes[n].data;
    var rest := p;
    NothingYet(s0, n, off, p);
    assert Packed(0, most, 0, |p|);
    hide Packed;
    while |rest| > 0
      invariant wrote <= |p| && rest == p[wrote..]
      invariant c in s.conns && (wrote == 0 ==> s == s0 && sent == [])
      invariant Rewritten(s0, s, n, Sofar(data, off, p, wrote)) && (wrote > 0 ==> !TooFar(|data|, off + wrote))
      invariant forall m :: m in sent ==> Size(m) <= msize && ParseCall(Encode(m)) == Ok(m, [])
      invariant Packed(|sent|, most, wrote, |p|)
      decreases |rest|
    {
      var b := Chunk(msize, iounit, rest);
      ChunkFits(msize, iounit, rest);
      WriteCallAccepted(0, fid, off + wrote, b);
      Round(s0, s, c, fid, n, off, p, wrote, b, env);
      OneMoreSent(|sent|, most, wrote, |b|, |p|);
      sent := sent + [WriteCall(0, fid, off + wrote, b)];
      var (s', r) := Write(s, c, fid, off + wrote, b, env);
      if !r.Answer? { return s', wrote, false, sent; }
      s := s';
      wrote := wrote + r.body.count;
      rest := rest[r.body.count..];
    }
    WriteStep(s0, s0, c, fid, n, Sofar(data, off, p, 0), off, p, env);
    WrittenNear(Sofar(data, off, p, 0), off, p);
    if p != [] { WholeWrite(s0, s, Write(s0, c, fid, off, p, env).0, n, off, p); }
  }

  /** What one round does: the chunk is in the file behind those before it, or the file would
      have to grow too far and the server panics. */
  lemma Round<N>(s0: Sys<N>, s: Sys<N>, c: u32, fid: u32, n: N, off: u64, p: Data, wrote: nat, b: Data, env: Env<N>)
    requires WritesTo(s0, c, fid, n) && wrote <= |p| && b != [] && b <= p[wrote..] && off + |p| < TWO64
    requires Rewritten(s0, s, n, Sofar(s0.fs.nodes[n].data, off, p, wrote))
    requires wrote > 0 ==> !TooFar(|s0.fs.nodes[n].data|, off + wrote)
    ensures c in s.conns
    ensures var data := s0.fs.nodes[n].data;
            var (s', r) := Write(s, c, fid, off + wrote, b, env);
            && c in s'.conns
            && (if TooFar(|data|, off + wrote + |b|)
                then r == Crash && Rewritten(s0, s', n, Sofar(data, off, p, wrote))
                else r == Answer(RWrite(Wrap32(|b|))) && Rewritten(s0, s', n, Sofar(data, off, p, wrote + |b|)))
  {
    var data := s0.fs.nodes[n].data;
    WriteStep(s0, s, c, fid, n, Sofar(data, off, p, wrote), off + wrote, b, env);
    WrittenNear(Sofar(data, off, p, wrote), off + wrote, b);
    SofarStep(data, off, p, wrote, b);
    hide WriteAt, Written, Write, Sofar;
  }

  /** So many full messages are out, or all there is in as many as it takes. */
  predicate Packed(k: nat, most: nat, wrote: nat, all: nat) {
    if wrote < all then wrote == k * most else all <= k * most < all + most
  }

  lemma OneMoreSent(k: nat, most: nat, wrote: nat, n: nat, all: nat)
    requires wrote < all && n == (if all - wrote < most then all - wrote else most) && Packed(k, most, wrote, all)
    ensures most > 0 ==> Packed(k + 1, most, wrote + n, all)
  { assert (k + 1) * most == k * most + most; }

  /** Away from the end of uint64 a write that panics leaves the content alone. */
  lemma WrittenNear(data: Data, offset: nat, b: Data)
    requires offset + |b| < TWO64
    ensures Written(data, offset, b) == if WritePanics(|data|, offset, |b|) then data else WriteAt(data, offset, b)
  { hide WriteAt; }

  lemma NothingYet<N>(s0: Sys<N>, n: N, off: nat, p: Data)
    requires n in s0.fs.nodes
    ensures Rewritten(s0, s0, n, Sofar(s0.fs.nodes[n].data, off, p, 0))
  { assert s0.fs.nodes[n := s0.fs.nodes[n]] == s0.fs.nodes; }

  lemma WholeWrite<N>(s0: Sys<N>, s: Sys<N>, one: Sys<N>, n: N, off: nat, p: Data)
    requires n in s0.fs.nodes && Rewritten(s0, s, n, Sofar(s0.fs.nodes[n].data, off, p, |p|))
    requires Rewritten(s0, one, n, WriteAt(Sofar(s0.fs.nodes[n].data, off, p, 0), off, p))
    ensures p != [] ==> Rewritten(s0, s, n, WriteAt(s0.fs.nodes[n].data, off, p)) && s.fs == one.fs
  { assert p[..|p|] == p; hide WriteAt; }

  // ----------------------------------------------------------------- reading

  ghost predicate ReadsFrom<N>(s: Sys<N>, c: u32, fid: u32, n: N) {
    && c in s.conns && fid in s.conns[c].fids && s.conns[c].fids[fid].node == n && n in s.fs.nodes
    && Readable(s.conns[c].fids[fid].omode) && s.fs.nodes[n].kind == Regular
  }

  lemma ReadStep<N>(s0: Sys<N>, s: Sys<N>, c: u32, fid: u32, n: N, offset: u64, count: u32, env: Env<N>)
    requires ReadsFrom(s0, c, fid, n) && s == s0.(trace := s.trace)
    requires 11 < s0.conns[c].msize && count > 0 && offset <= |s0.fs.nodes[n].data|
    ensures var (s', r) := Read(s, c, fid, offset, count, env);
            && s' == s0.(trace := s'.trace) && r.Answer? && r.body.RRead?
            && var d := r.body.data;
            && offset + |d| <= |s0.fs.nodes[n].data| && d == s0.fs.nodes[n].data[offset..offset + |d|]
            && |d| <= count && r.body.count == |d|
            && (d == [] <==> offset == |s0.fs.nodes[n].data|)
  {}

  /** client/client.go:453-458 and 644-683: reading until an empty reply, with whatever
      counts the buffer leaves, collects the whole file and changes nothing. */
  method ReadAll<N>(s0: Sys<N>, c: u32, fid: u32, env: Env<N>, ghost n: N) returns (s: Sys<N>, all: Data)
    requires ReadsFrom(s0, c, fid, n) && 11 < s0.conns[c].msize && |s0.fs.nodes[n].data| < TWO64
    ensures all == s0.fs.nodes[n].data && s == s0.(trace := s.trace)
  {
    hide Read;
    s, all := s0, [];
    var offset := 0;
    while true
      invariant offset <= |s0.fs.nodes[n].data| && all == s0.fs.nodes[n].data[..offset]
      invariant s == s0.(trace := s.trace)
      decreases |s0.fs.nodes[n].data| - offset
    {
      var count: u32 :| count > 0;
      ReadStep(s0, s, c, fid, n, offset, count, env);
      var (s', r) := Read(s, c, fid, offset, count, env);
      s := s';
      if r.body.data == [] { return; }
      all := all + r.body.data;
      offset := offset + |r.body.data|;
    }
  }

  /** Writing a buffer chunk by chunk and reading it back gives the buffer, as long as a
      slice can hold it. */
  method WriteThenRead<N>(s0: Sys<N>, c: u32, fid: u32, p: Data, iounit: u32, env: Env<N>, ghost n: N)
    returns (all: Data, ok: bool)
    requires WritesTo(s0, c, fid, n) && ReadsFrom(s0, c, fid, n) && s0.fs.nodes[n].data == []
    requires 23 < s0.conns[c].msize <= MAX_MSG_LEN && iounit > 0 && |p| < TWO64
    ensures ok <==> |p| <= MAX_ALLOC
    ensures ok ==> all == p
  {
    var s, wrote := s0, 0;
    ghost var sent;
    all := [];
    s, wrote, ok, sent := Twrite(s0, c, fid, p, 0, iounit, env, n);
    if ok { s, all := ReadAll(s, c, fid, env, n); }
  }

  // ----------------------------------------------------------------- directories

  /** The fid is open on a directory with this snapshot. */
  ghost predicate Lists<N>(s: Sys<N>, c: u32, fid: u32, order: seq<N>) {
    && c in s.conns && fid in s.conns[c].fids && s.conns[c].fids[fid].extra == Snapshot(order)
    && s.conns[c].fids[fid].node in s.fs.nodes && s.fs.nodes[s.conns[c].fids[fid].node].kind == Directory
    && Readable(s.conns[c].fids[fid].omode)
  }

  lemma ReadDirStep<N>(s: Sys<N>, c: u32, fid: u32, order: seq<N>, offset: u64, count: u32, env: Env<N>)
    requires Lists(s, c, fid, order) && Listing.Composable(StatsOf(s.fs.nodes, order))
    ensures Read(s, c, fid, offset, count, env) ==
            (s, ReadReply(Listing.ReadDir(StatsOf(s.fs.nodes, order), offset, CapCount(s.conns[c].msize, count))))
  { hide StatsOf, Listing.Entries, Listing.StartIndex, Listing.EndIndex; }

  lemma OpenLists<N>(cfg: Config, s: Sys<N>, c: u32, fid: u32, env: Env<N>)
    requires c in s.conns && fid in s.conns[c].fids && s.conns[c].fids[fid].node in s.fs.nodes
    requires s.fs.nodes[s.conns[c].fids[fid].node].kind == Directory
    requires Open(cfg, s, c, fid, OREAD, env).1.Answer?
    ensures var s1 := Open(cfg, s, c, fid, OREAD, env).0;
            var n := s.conns[c].fids[fid].node;
            && Lists(s1, c, fid, ListingOrder(s.fs.nodes, n, env.order)) && s1.fs == s.fs
            && s1.conns[c].msize == s.conns[c].msize
            && Open(cfg, s, c, fid, OREAD, env).1.body == ROpen(StatOf(s.fs.nodes[n]).qid, IOUNIT)
  { hide ListingOrder, Permissions.OpenPermission; }

  /** client/client.go:647-652: the most a Read asks for, given what a message and the
      server's iounit allow. */
  function MostRead(msize: u32, iounit: u32): u32
    requires msize >= 11
  { if msize - 11 < iounit then msize - 11 else iounit }

  /** A read of so many bytes can be answered in one message within both bounds exactly when
      it asks for no more than that. */
  lemma MostFits(msize: u32, iounit: u32, n: nat)
    requires msize >= 11
    ensures n <= MostRead(msize, iounit) <==> n <= iounit && 11 + n <= msize
  {}

  /** The stats can be composed, and messages have room for their headers. */
  ghost predicate Listable(ss: seq<Stat>, msize: u32) {
    Listing.Composable(ss) && 11 <= msize <= MAX_MSG_LEN && Listing.Offset(ss, |ss|) < TWO64
  }

  /** One read at an entry boundary. */
  lemma DirRead<N>(s: Sys<N>, c: u32, fid: u32, order: seq<N>, k: nat, count: u32, env: Env<N>) returns (e: nat)
    requires Lists(s, c, fid, order)
    requires var ss := StatsOf(s.fs.nodes, order); k <= |ss| && Listable(ss, s.conns[c].msize)
    requires count + 11 <= s.conns[c].msize
    ensures var ss := StatsOf(s.fs.nodes, order);
            && k <= e <= |ss| && e == Listing.EndIndex(ss, k, count, 0) && Listing.Offset(ss, k) < TWO64
            && Read(s, c, fid, Listing.Offset(ss, k), count, env) == (s, ReadReply(Listing.Entries(ss[k..e])))
            && Listing.Offset(ss, e) == Listing.Offset(ss, k) + |Listing.Entries(ss[k..e])|
            && (Listing.Entries(ss[k..e]) == [] <==> k == e)
            && (k == e ==> k == |ss| || StatSize(ss[k]) > count)
  {
    hide Read, Listing.Entries, StatsOf, Listing.ReadDir;
    var ss := StatsOf(s.fs.nodes, order);
    Listing.OffsetMonotone(ss, k, |ss|);
    ReadDirStep(s, c, fid, order, Listing.Offset(ss, k), count, env);
    e := Listing.ReadAtBoundary(ss, k, count);
  }

  /** client/client.go:453-458 and 465-467: read through a buffer of this capacity until an
      empty reply, then parse. The client gets as much of the directory as Stops says. */
  method ReadDirectory<N>(s: Sys<N>, c: u32, fid: u32, iounit: u32, cap: nat, grow: Readdir.Growth, env: Env<N>,
                          ghost order: seq<N>)
    returns (r: Option<seq<Stat>>)
    requires Lists(s, c, fid, order) && Listable(StatsOf(s.fs.nodes, order), s.conns[c].msize) && Readdir.Grows(grow)
    ensures var ss := StatsOf(s.fs.nodes, order);
            r == Some(ss[..Readdir.Stops(ss, 0, cap, MostRead(s.conns[c].msize, iounit), grow)])
  {
    hide Read, Listing.Entries, StatsOf, Listing.Offset, Listing.ParseStats, Listing.EndIndex;
    ghost var ss := StatsOf(s.fs.nodes, order);
    var most := MostRead(s.conns[c].msize, iounit);
    var contents: Data, size: nat := [], cap;
    ghost var k := 0;
    Listing.EntriesNil();
    OffsetZero(ss);
    while true
      invariant k <= |ss| && |contents| == Listing.Offset(ss, k) && contents == Listing.Entries(ss[..k])
      invariant Readdir.Stops(ss, k, size, most, grow) == Readdir.Stops(ss, 0, cap, most, grow)
      decreases |ss| - k
    {
      size := Readdir.Capacity(grow, size, |contents|);
      var count := Readdir.Count(size - |contents|, most);
      ghost var e := DirRead(s, c, fid, order, k, count, env);
      var data := Read(s, c, fid, |contents|, count, env).1.body.data;
      if data == [] { break; }
      Listing.EntriesJoin(ss, 0, k, e);
      assert ss[0..k] == ss[..k] && ss[0..e] == ss[..e];
      contents := contents + data;
      k := e;
    }
    Listing.EntriesRoundTrip(ss[..k]);
    r := Listing.ParseStatsLoop(contents);
  }

  lemma OffsetZero(ss: seq<Stat>)
    ensures Listing.Offset(ss, 0) == 0
  {}

  /** client/client.go:460-474 end to end: open the directory, read through a buffer until
      an empty reply, parse. The client gets the stats of the visible children, each once, in
      the order of the snapshot and as far as Stops says. */
  method ListDirectory<N>(cfg: Config, s0: Sys<N>, c: u32, fid: u32, cap: nat, grow: Readdir.Growth, env: Env<N>)
    returns (r: Option<seq<Stat>>, order: seq<N>)
    requires c in s0.conns && fid in s0.conns[c].fids && s0.conns[c].fids[fid].node in s0.fs.nodes
    requires s0.fs.nodes[s0.conns[c].fids[fid].node].kind == Directory
    requires Open(cfg, s0, c, fid, OREAD, env).1.Answer? && Readdir.Grows(grow)
    requires var ss := StatsOf(s0.fs.nodes, ListingOrder(s0.fs.nodes, s0.conns[c].fids[fid].node, env.order));
             Listable(ss, s0.conns[c].msize)
    ensures IsPermutation(order, Visible(s0.fs.nodes, s0.fs.nodes[s0.conns[c].fids[fid].node].children))
    ensures var ss := StatsOf(s0.fs.nodes, order);
            r == Some(ss[..Readdir.Stops(ss, 0, cap, MostRead(s0.conns[c].msize, IOUNIT), grow)])
  {
    hide StatsOf, Listable, Open, Visible, Readdir.Stops;
    OpenLists(cfg, s0, c, fid, env);
    var (s, reply) := Open(cfg, s0, c, fid, OREAD, env);
    order := ListingOrder(s0.fs.nodes, s0.conns[c].fids[fid].node, env.order);
    r := ReadDirectory(s, c, fid, reply.body.iounit, cap, grow, env, order);
  }
}
