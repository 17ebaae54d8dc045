/** The buffers of package proto: messages composed in place into byte arrays and read
    back from a stream that may return any positive part of what is asked for. A `None`
    result is a Go slice-bounds panic. */
module Wire {
  import opened Bytes
  import opened Proto
  import opened RoundTrip

  // ------------------------------------------------------ reading (marshall.go:8-21)

  /** An io.Reader over the bytes still to come; each read returns some positive prefix. */
  class Reader {
    var pending: Data

    constructor (d: Data)
      ensures pending == d
    { pending := d; }

    method Read(buf: array<byte>, from: nat) returns (n: nat, eof: bool)
      requires from < buf.Length
      modifies this, buf
      ensures eof <==> old(pending) == []
      ensures eof ==> pending == [] && buf[..] == old(buf[..])
      ensures !eof ==> 0 < n && from + n <= buf.Length && n <= |old(pending)|
      ensures !eof ==> pending == old(pending)[n..]
      ensures !eof ==> buf[..from + n] == old(buf[..from]) + old(pending)[..n]
    {
      if pending == [] { return 0, true; }
      n :| 0 < n && n <= |pending| && from + n <= buf.Length;
      eof := false;
      forall i | 0 <= i < n { buf[from + i] := pending[i]; }
      pending := pending[n..];
    }
  }

  /** Fills the whole buffer or reports that the stream ended first. */
  method ReadBytes(r: Reader, buf: array<byte>) returns (err: bool)
    modifies r, buf
    ensures err <==> |old(r.pending)| < buf.Length
    ensures !err ==> buf[..] == old(r.pending)[..buf.Length]
    ensures !err ==> r.pending == old(r.pending)[buf.Length..]
  {
    var read := 0;
    ghost var input := r.pending;
    while read < buf.Length
      invariant read <= buf.Length && read <= |input|
      invariant r.pending == input[read..]
      invariant buf[..read] == input[..read]
    {
      var n, eof := r.Read(buf, read);
      if eof { return true; }
      read := read + n;
    }
    return false;
  }

  /** proto/fcall.go:131-254: every way the reader splits its bytes gives the same result. */
  method ReadCall(r: Reader) returns (res: Parsed<FCall>)
    modifies r
    ensures res == ParseCall(old(r.pending))
    ensures res.Ok? ==> r.pending == res.rest
  {
    hide Take32, ParseFrame;
    ghost var input := r.pending;
    var sizebuf := new byte[4];
    var err := ReadBytes(r, sizebuf);
    if err { return Error; }
    SizeWord(sizebuf[..], input);
    var (length, _) := Take32(sizebuf[..]);
    if length > MAX_MSG_LEN { return Error; }
    var buf := new byte[Wrap32(length - 4)];
    err := ReadBytes(r, buf);
    if err { return Error; }
    var parsed := ParseFrame(buf[..]);
    if !parsed.Ok? { return if parsed.Error? then Error else Panic; }
    return Ok(parsed.value, r.pending);
  }

  lemma SizeWord(word: Data, input: Data)
    requires |input| >= 4 && word == input[..4]
    ensures Take32(input) == (Take32(word).0, input[4..])
  { assert word[..4] == word; }

  /** Reading call after call until the stream ends; together with StreamRoundTrip, a
      stream of well-formed messages yields exactly those messages however it is split. */
  method ReadStream(r: Reader) returns (calls: Option<seq<FCall>>)
    modifies r
    ensures calls == ParseAll(old(r.pending))
    ensures calls.Some? ==> r.pending == []
  {
    var got: seq<FCall> := [];
    PrependLaws([], ParseAll(r.pending));
    while r.pending != []
      invariant ParseAll(old(r.pending)) == Prepend(got, ParseAll(r.pending))
      decreases |r.pending|
    {
      ParseCallConsumes(r.pending);
      var res := ReadCall(r);
      if !res.Ok? { return None; }
      PrependOne(got, res.value, ParseAll(res.rest));
      got := got + [res.value];
    }
    PrependLaws(got, Some([]));
    return Some(got);
  }

  ghost function Prepend(done: seq<FCall>, more: Option<seq<FCall>>): Option<seq<FCall>> {
    if more.Some? then Some(done + more.value) else None
  }

  lemma PrependLaws(done: seq<FCall>, more: Option<seq<FCall>>)
    ensures Prepend([], more) == more
    ensures Prepend(done, Some([])) == Some(done)
  {
    if more.Some? { assert [] + more.value == more.value; }
    assert done + [] == done;
  }

  lemma PrependOne(done: seq<FCall>, m: FCall, more: Option<seq<FCall>>)
    ensures Prepend(done + [m], more) == Prepend(done, Prepend([m], more))
  {
    if more.Some? { assert (done + [m]) + more.value == done + ([m] + more.value); }
  }

  // --------------------------------------------- composing (marshall.go:58-77)

  /** A write of `bs` at `pos`; `rest` is what the caller still has to write. */
  method PutRaw(buf: array<byte>, pos: nat, bs: Data, ghost rest: Data) returns (next: Option<nat>)
    requires pos <= buf.Length
    modifies buf
    ensures next.Some? <==> pos + |bs| <= buf.Length
    ensures next.Some? ==> next.value == pos + |bs|
    ensures next.Some? ==> buf[..next.value] + rest == old(buf[..pos]) + (bs + rest)
    ensures forall i :: pos + |bs| <= i < buf.Length ==> buf[i] == old(buf[i])
  {
    if pos + |bs| > buf.Length { return None; }
    forall i | 0 <= i < |bs| { buf[pos + i] := bs[i]; }
    assert buf[..pos + |bs|] == old(buf[..pos]) + bs;
    return Some(pos + |bs|);
  }

  method ToString(buf: array<byte>, pos: nat, s: Data, ghost rest: Data) returns (next: Option<nat>)
    requires pos <= buf.Length
    modifies buf
    ensures next.Some? <==> pos + 2 + |s| <= buf.Length
    ensures next.Some? ==> next.value == pos + 2 + |s|
    ensures next.Some? ==> buf[..next.value] + rest == old(buf[..pos]) + PutString(s, rest)
  {
    var p :- PutRaw(buf, pos, LE(Wrap16(|s|), 2), s + rest);
    next := PutRaw(buf, p, s, rest);
  }

  method ComposeQid(buf: array<byte>, pos: nat, q: Qid, ghost rest: Data) returns (next: Option<nat>)
    requires pos <= buf.Length
    modifies buf
    ensures next.Some? <==> pos + 13 <= buf.Length
    ensures next.Some? ==> next.value == pos + 13
    ensures next.Some? ==> buf[..next.value] + rest == old(buf[..pos]) + PutQid(q, rest)
  {
    var p :- PutRaw(buf, pos, [q.qtype], Put32(q.vers, Put64(q.uid, rest)));
    p :- PutRaw(buf, p, LE(q.vers, 4), Put64(q.uid, rest));
    next := PutRaw(buf, p, LE(q.uid, 8), rest);
  }

  /** The 39 bytes between a stat's size word and its strings. */
  method ComposeFixed(buf: array<byte>, pos: nat, s: Stat, ghost rest: Data) returns (next: Option<nat>)
    requires pos <= buf.Length
    modifies buf
    ensures next.Some? <==> pos + 39 <= buf.Length
    ensures next.Some? ==> next.value == pos + 39
    ensures next.Some? ==> buf[..next.value] + rest == old(buf[..pos]) + PutFixed(s, rest)
  {
    ghost var k5 := Put64(s.length, rest);
    ghost var k4 := Put32(s.mtime, k5);
    ghost var k3 := Put32(s.atime, k4);
    ghost var k2 := Put32(s.mode, k3);
    ghost var k1 := PutQid(s.qid, k2);
    var p :- PutRaw(buf, pos, LE(s.typ, 2), Put32(s.dev, k1));
    p :- PutRaw(buf, p, LE(s.dev, 4), k1);
    p :- ComposeQid(buf, p, s.qid, k2);
    p :- PutRaw(buf, p, LE(s.mode, 4), k3);
    p :- PutRaw(buf, p, LE(s.atime, 4), k4);
    p :- PutRaw(buf, p, LE(s.mtime, 4), k5);
    next := PutRaw(buf, p, LE(s.length, 8), rest);
  }

  method ComposeNames(buf: array<byte>, pos: nat, s: Stat, ghost rest: Data) returns (next: Option<nat>)
    requires pos <= buf.Length
    modifies buf
    ensures next.Some? <==> pos + StatSize(s) - 41 <= buf.Length
    ensures next.Some? ==> next.value == pos + StatSize(s) - 41
    ensures next.Some? ==> buf[..next.value] + rest == old(buf[..pos]) + PutNames(s, rest)
  {
    ghost var k3 := PutString(s.muid, rest);
    ghost var k2 := PutString(s.gid, k3);
    var p :- ToString(buf, pos, s.name, PutString(s.uid, k2));
    p :- ToString(buf, p, s.uid, k2);
    p :- ToString(buf, p, s.gid, k3);
    next := ToString(buf, p, s.muid, rest);
  }

  /** proto/stat.go:105-125. The buffer has the truncated length, so composing succeeds
      exactly when the stat's true size fits 16 bits. */
  method ComposeStat(s: Stat) returns (r: Option<array<byte>>)
    ensures r.Some? <==> StatSize(s) < TWO16
    ensures r.Some? ==> fresh(r.value) && r.value[..] == PutStat(s, [])
  {
    var length: int := ComposeLength(s);
    var buf := new byte[length];
    ghost var names := PutNames(s, []);
    var p :- PutRaw(buf, 0, LE(Wrap16(length - 2), 2), PutFixed(s, names));
    assert buf[..p] + PutFixed(s, names) == PutStat(s, []);
    p :- ComposeFixed(buf, p, s, names);
    p :- ComposeNames(buf, p, s, []);
    assert buf[..p] + [] == buf[..p];
    r := Some(buf);
  }

  /** Whether Compose of a message returns. The buffers of these messages are sized by uint16
      or uint32 arithmetic, or by a count; of all others by their exact length. */
  predicate Composes(m: FCall) {
    match m.body
    case RWalk(n, qids) => 9 + 13 * |qids| <= Wrap16(9 + 13 * n)
    case RStat(stat) => 9 + StatSize(stat) < TWO16
    case TWstat(_, stat) => 13 + StatSize(stat) < TWO16
    case RRead(count, _) => 11 + count < TWO32
    case TWrite(_, _, count, _) => 23 + count < TWO32
    case _ => true
  }

  /** size[4] type[1] tag[2], the start of every message. */
  method ComposeHeader(buf: array<byte>, length: u32, typ: byte, tag: u16, ghost rest: Data)
    returns (next: Option<nat>)
    modifies buf
    ensures next.Some? <==> 7 <= buf.Length
    ensures next.Some? ==> next.value == 7
    ensures next.Some? ==> buf[..7] + rest == Put32(length, [typ] + Put16(tag, rest))
    ensures forall i :: 7 <= i < buf.Length ==> buf[i] == old(buf[i])
  {
    ghost var k := [typ] + Put16(tag, rest);
    var p :- PutRaw(buf, 0, LE(length, 4), k);
    assert buf[..p] + k == Put32(length, k);
    p :- PutRaw(buf, p, [typ], Put16(tag, rest));
    next := PutRaw(buf, p, LE(tag, 2), rest);
  }

  function NamesSize(ss: seq<Data>): nat {
    if ss == [] then 0 else 2 + |ss[0]| + NamesSize(ss[1..])
  }

  lemma {:induction false} NamesSizeIsLength(ss: seq<Data>, rest: Data)
    ensures |PutStrings(ss, rest)| == NamesSize(ss) + |rest|
  {
    if ss != [] { NamesSizeIsLength(ss[1..], rest); }
  }

  lemma {:induction false} QidsLength(qs: seq<Qid>, rest: Data)
    ensures |PutQids(qs, rest)| == 13 * |qs| + |rest|
  {
    if qs != [] { QidsLength(qs[1..], rest); }
  }

  method NamesLength(names: seq<Data>) returns (length: nat)
    ensures length == NamesSize(names)
  {
    length := 0;
    var i := 0;
    while i < |names|
      invariant i <= |names|
      invariant length + NamesSize(names[i..]) == NamesSize(names)
    {
      assert names[i..][1..] == names[i + 1..];
      length := length + 2 + |names[i]|;
      i := i + 1;
    }
  }

  method ComposeNameList(buf: array<byte>, pos: nat, names: seq<Data>)
    requires pos + NamesSize(names) == buf.Length
    modifies buf
    ensures buf[..] == old(buf[..pos]) + PutStrings(names, [])
  {
    var p, i := pos, 0;
    ghost var bytes := buf[..pos] + PutStrings(names, []);
    assert names[0..] == names;
    while i < |names|
      invariant i <= |names| && 0 <= p <= buf.Length
      invariant p + NamesSize(names[i..]) == buf.Length
      invariant buf[..p] + PutStrings(names[i..], []) == bytes
    {
      assert names[i..][1..] == names[i + 1..];
      var q := ToString(buf, p, names[i], PutStrings(names[i + 1..], []));
      p := q.value;
      i := i + 1;
    }
    assert buf[..p] + [] == buf[..];
  }

  /** proto/walk.go:35-56: the length is an int, so composing never fails. */
  method ComposeTWalk(tag: u16, fid: u32, newfid: u32, nwname: u16, names: seq<Data>) returns (buf: array<byte>)
    ensures fresh(buf) && buf[..] == Encode(FCall(110, tag, TWalk(fid, newfid, nwname, names)))
  {
    var length := NamesLength(names);
    NamesSizeIsLength(names, []);
    buf := new byte[17 + length];
    ghost var k3 := PutStrings(names, []);
    ghost var k2 := Put16(nwname, k3);
    ghost var k1 := Put32(newfid, k2);
    var q := ComposeHeader(buf, Wrap32(17 + length), 110, tag, Put32(fid, k1));
    q := PutRaw(buf, q.value, LE(fid, 4), k1);
    q := PutRaw(buf, q.value, LE(newfid, 4), k2);
    q := PutRaw(buf, q.value, LE(nwname, 2), k3);
    ComposeNameList(buf, q.value, names);
    assert buf[..] == Framed(110, tag, PutBody(TWalk(fid, newfid, nwname, names), []));
  }

  /** proto/walk.go:88-106: the length is uint16 arithmetic on the count alone. With a
      count that matches the list, composing succeeds exactly when nothing wrapped. */
  method ComposeRWalk(tag: u16, nwqid: u16, qids: seq<Qid>) returns (r: Option<array<byte>>)
    ensures r.Some? <==> Composes(FCall(111, tag, RWalk(nwqid, qids)))
    ensures r.Some? ==> fresh(r.value)
    ensures nwqid == |qids| ==> (r.Some? <==> 9 + 13 * nwqid < TWO16)
    ensures nwqid == |qids| && r.Some? ==> r.value[..] == Encode(FCall(111, tag, RWalk(nwqid, qids)))
  {
    var length := Wrap16(9 + 13 * nwqid);
    QidsLength(qids, []);
    var buf := new byte[length];
    ghost var body := Put16(nwqid, PutQids(qids, []));
    ghost var bytes := Put32(length, [111] + Put16(tag, body));
    var p :- ComposeHeader(buf, length, 111, tag, body);
    p :- PutRaw(buf, p, LE(nwqid, 2), PutQids(qids, []));
    assert buf[..p] + PutQids(qids, []) == bytes;
    hide PutQids;
    p :- ComposeQidList(buf, p, qids);
    assert buf[..p] == bytes;
    assert nwqid == |qids| ==> bytes == Encode(FCall(111, tag, RWalk(nwqid, qids)));
    r := Some(buf);
  }

  method ComposeQidList(buf: array<byte>, pos: nat, qids: seq<Qid>) returns (next: Option<nat>)
    requires pos <= buf.Length
    modifies buf
    ensures next.Some? <==> pos + 13 * |qids| <= buf.Length
    ensures next.Some? ==> next.value == pos + 13 * |qids| && buf[..next.value] == old(buf[..pos]) + PutQids(qids, [])
  {
    ghost var bytes := buf[..pos] + PutQids(qids, []);
    var p, i := pos, 0;
    assert qids[0..] == qids;
    while i < |qids|
      invariant i <= |qids| && p == pos + 13 * i <= buf.Length
      invariant buf[..p] + PutQids(qids[i..], []) == bytes
    {
      assert qids[i..][1..] == qids[i + 1..];
      p :- ComposeQid(buf, p, qids[i], PutQids(qids[i + 1..], []));
      i := i + 1;
    }
    assert buf[..p] + [] == buf[..p];
    return Some(p);
  }

  /** The payload as copied into a zeroed buffer of `count` bytes. */
  function Fit(data: Data, count: nat): (d: Data)
    ensures |d| == count
    ensures count == |data| ==> d == data
  {
    if |data| < count then data + seq(count - |data|, _ => 0) else data[..count]
  }

  /** A message that ends in `copy(buffer, data)`: the copy is silently cut, or leaves
      zeroes, when the buffer's length was computed for another payload. */
  method ComposeCopying(typ: byte, tag: u16, length: u32, fields: Data, data: Data)
    returns (r: Option<array<byte>>)
    ensures r.Some? <==> 7 + |fields| <= length
    ensures r.Some? ==> fresh(r.value)
    ensures r.Some? ==> r.value[..] == Framed(typ, tag, fields + Fit(data, length - 7 - |fields|))
  {
    var buf := new byte[length](_ => 0);
    if 7 + |fields| > length { return None; }
    ghost var k := Fit(data, length - 7 - |fields|);
    var q := ComposeHeader(buf, length, typ, tag, fields + k);
    q := PutRaw(buf, q.value, fields, k);
    CopyRest(buf, q.value, data);
    assert buf[..] == buf[..q.value] + buf[q.value..];
    r := Some(buf);
  }

  method CopyRest(buf: array<byte>, pos: nat, data: Data)
    requires pos <= buf.Length
    requires forall i :: pos <= i < buf.Length ==> buf[i] == 0
    modifies buf
    ensures buf[..pos] == old(buf[..pos])
    ensures buf[pos..] == Fit(data, buf.Length - pos)
  {
    forall i | 0 <= i < |data| && pos + i < buf.Length { buf[pos + i] := data[i]; }
  }

  lemma NestedStat(head: Data, s: Stat)
    requires StatSize(s) < TWO16
    ensures |PutStat(s, [])| == StatSize(s)
    ensures (head + LE(StatSize(s), 2)) + PutStat(s, []) == head + Put16(ComposeLength(s), PutStat(s, []))
  {
    StatFieldsLength(s, []);
  }

  /** proto/wstat.go:26-42: the length is computed in uint16; composing succeeds exactly
      when the whole message fits 16 bits. */
  method ComposeTWstat(tag: u16, fid: u32, stat: Stat) returns (r: Option<array<byte>>)
    ensures r.Some? <==> Composes(FCall(126, tag, TWstat(fid, stat)))
    ensures r.Some? ==> fresh(r.value) && r.value[..] == Encode(FCall(126, tag, TWstat(fid, stat)))
  {
    var length: int := ComposeLength(stat);
    var inner :- ComposeStat(stat);
    NestedStat(LE(fid, 4), stat);
    r := ComposeCopying(126, tag, Wrap16(13 + length), LE(fid, 4) + LE(length, 2), inner[..]);
  }

  /** proto/stat.go:146-161, likewise. */
  method ComposeRStat(tag: u16, stat: Stat) returns (r: Option<array<byte>>)
    ensures r.Some? <==> Composes(FCall(125, tag, RStat(stat)))
    ensures r.Some? ==> fresh(r.value) && r.value[..] == Encode(FCall(125, tag, RStat(stat)))
  {
    var length: int := ComposeLength(stat);
    var inner :- ComposeStat(stat);
    NestedStat([], stat);
    r := ComposeCopying(125, tag, Wrap16(9 + length), LE(length, 2), inner[..]);
  }

  /** proto/write.go:27-42: the count sizes the buffer in uint32 arithmetic. */
  method ComposeTWrite(tag: u16, fid: u32, offset: u64, count: u32, data: Data) returns (r: Option<array<byte>>)
    ensures r.Some? <==> Composes(FCall(118, tag, TWrite(fid, offset, count, data)))
    ensures r.Some? ==> fresh(r.value)
    ensures r.Some? ==> r.value[..] == Encode(FCall(118, tag, TWrite(fid, offset, count, Fit(data, count))))
  {
    hide PutBody, LE, Framed, Fit;
    var fields := LE(fid, 4) + LE(offset, 8) + LE(count, 4);
    TWriteBytes(fid, offset, count, Fit(data, count));
    r := ComposeCopying(118, tag, Wrap32(23 + count), fields, data);
  }

  lemma TWriteBytes(fid: u32, offset: u64, count: u32, d: Data)
    ensures var fields := LE(fid, 4) + LE(offset, 8) + LE(count, 4);
            |fields| == 16 && fields + d == PutBody(TWrite(fid, offset, count, d), [])
  {}

  /** proto/read.go:57-70, likewise. */
  method ComposeRRead(tag: u16, count: u32, data: Data) returns (r: Option<array<byte>>)
    ensures r.Some? <==> Composes(FCall(117, tag, RRead(count, data)))
    ensures r.Some? ==> fresh(r.value) && r.value[..] == Encode(FCall(117, tag, RRead(count, Fit(data, count))))
  {
    r := ComposeCopying(117, tag, Wrap32(11 + count), LE(count, 4), data);
    assert LE(count, 4) + Fit(data, count) == PutBody(RRead(count, Fit(data, count)), []);
  }

  // ------------------------------------------------------------------- counted lists

  /** proto/walk.go:27-31: the loop that fills Wname. */
  method ParseNames(n: u16, b: Data) returns (names: seq<Data>, rest: Data)
    ensures (names, rest) == TakeStrings(n, b)
  {
    names, rest := [], b;
    assert names + TakeStrings(n, b).0 == TakeStrings(n, b).0;
    for i := 0 to n
      invariant TakeStrings(n, b) == (names + TakeStrings(n - i, rest).0, TakeStrings(n - i, rest).1)
    {
      var (s, r) := TakeString(rest);
      ghost var more := TakeStrings(n - i - 1, r).0;
      assert names + ([s] + more) == (names + [s]) + more;
      names, rest := names + [s], r;
    }
    assert names + [] == names;
  }

  /** Some qids already parsed, then the rest. */
  ghost function Onto(done: seq<Qid>, more: Parsed<seq<Qid>>): (r: Parsed<seq<Qid>>)
    ensures done == [] ==> r == more
  {
    if more.Ok? then
      assert done == [] ==> done + more.value == more.value;
      Ok(done + more.value, more.rest)
    else more
  }

  lemma OntoOne(done: seq<Qid>, q: Qid, more: Parsed<seq<Qid>>)
    ensures Onto(done, Onto([q], more)) == Onto(done + [q], more)
  { if more.Ok? { assert done + ([q] + more.value) == (done + [q]) + more.value; } }

  /** proto/walk.go:76-84: the loop that fills Wqid, giving up at the first failure. */
  method ParseQidList(n: u16, b: Data) returns (r: Parsed<seq<Qid>>)
    ensures r == ParseQids(n, b)
  {
    hide ParseQid;
    var qids: seq<Qid>, rest := [], b;
    for i := 0 to n
      invariant ParseQids(n, b) == Onto(qids, ParseQids(n - i, rest))
    {
      var p := ParseQid(rest);
      if p.Error? { return Error; }
      if p.Panic? { return Panic; }
      OntoOne(qids, p.value, ParseQids(n - i - 1, p.rest));
      qids, rest := qids + [p.value], p.rest;
    }
    assert qids + [] == qids;
    return Ok(qids, rest);
  }
}
