/** The 9P2000 messages and their wire form (package proto). A Go string is a sequence of
    bytes. `Encode` lays a message out, `ParseCall` reads one back from a byte stream. */
module Proto {
  import opened Bytes

  const MAX_MSG_LEN: int := 65535

  // proto/open.go:9-19
  const OREAD: byte := 0
  const OWRITE: byte := 1
  const ORDWR: byte := 2
  const OEXEC: byte := 3
  const NONE: byte := 4
  const IOUNIT: u32 := 16384

  datatype Qid = Qid(qtype: byte, vers: u32, uid: u64)

  datatype Stat = Stat(typ: u16, dev: u32, qid: Qid, mode: u32, atime: u32, mtime: u32,
                       length: u64, name: Data, uid: Data, gid: Data, muid: Data)

  datatype Body =
    | Version(msize: u32, version: Data)
    | TAuth(afid: u32, uname: Data, aname: Data)
    | RAuth(qid: Qid)
    | TAttach(fid: u32, afid: u32, uname: Data, aname: Data)
    | RAttach(qid: Qid)
    | RError(ename: Data)
    | TFlush(oldtag: u16)
    | RFlush
    | TWalk(fid: u32, newfid: u32, nwname: u16, wname: seq<Data>)
    | RWalk(nwqid: u16, wqid: seq<Qid>)
    | TOpen(fid: u32, omode: byte)
    | ROpen(qid: Qid, iounit: u32)
    | TCreate(fid: u32, name: Data, perm: u32, omode: byte)
    | RCreate(qid: Qid, iounit: u32)
    | TRead(fid: u32, offset: u64, count: u32)
    | RRead(count: u32, data: Data)
    | TWrite(fid: u32, offset: u64, count: u32, data: Data)
    | RWrite(count: u32)
    | TClunk(fid: u32)
    | RClunk
    | TRemove(fid: u32)
    | RRemove
    | TStat(fid: u32)
    | RStat(stat: Stat)
    | TWstat(fid: u32, stat: Stat)
    | RWstat

  /** `typ` and `tag` are the Header every message embeds (proto/fcall.go:69-72). */
  datatype FCall = FCall(typ: byte, tag: u16, body: Body)

  // ------------------------------------------------------------------ encoding

  function PutQid(q: Qid, rest: Data): Data {
    [q.qtype] + Put32(q.vers, Put64(q.uid, rest))
  }

  /** The size of the encoded stat before `ComposeLength` truncates it to 16 bits. */
  function StatSize(s: Stat): nat {
    49 + |s.name| + |s.uid| + |s.gid| + |s.muid|
  }

  /** proto/stat.go:95-103: the sum is converted to uint16. */
  function ComposeLength(s: Stat): u16 { Wrap16(StatSize(s)) }

  function PutFixed(s: Stat, rest: Data): Data {
    Put16(s.typ, Put32(s.dev, PutQid(s.qid, Put32(s.mode, Put32(s.atime, Put32(s.mtime,
      Put64(s.length, rest)))))))
  }

  function PutNames(s: Stat, rest: Data): Data {
    PutString(s.name, PutString(s.uid, PutString(s.gid, PutString(s.muid, rest))))
  }

  function PutStat(s: Stat, rest: Data): Data {
    Put16(Wrap16(ComposeLength(s) - 2), PutFixed(s, PutNames(s, rest)))
  }

  function PutStrings(ss: seq<Data>, rest: Data): Data {
    if ss == [] then rest else PutString(ss[0], PutStrings(ss[1..], rest))
  }

  function PutQids(qs: seq<Qid>, rest: Data): Data {
    if qs == [] then rest else PutQid(qs[0], PutQids(qs[1..], rest))
  }

  function PutBody(b: Body, rest: Data): Data {
    match b
    case Version(msize, version) => Put32(msize, PutString(version, rest))
    case TAuth(afid, uname, aname) => Put32(afid, PutString(uname, PutString(aname, rest)))
    case RAuth(qid) => PutQid(qid, rest)
    case TAttach(fid, afid, uname, aname) =>
      Put32(fid, Put32(afid, PutString(uname, PutString(aname, rest))))
    case RAttach(qid) => PutQid(qid, rest)
    case RError(ename) => PutString(ename, rest)
    case TFlush(oldtag) => Put16(oldtag, rest)
    case RFlush => rest
    case TWalk(fid, newfid, n, names) => Put32(fid, Put32(newfid, Put16(n, PutStrings(names, rest))))
    case RWalk(n, qids) => Put16(n, PutQids(qids, rest))
    case TOpen(fid, mode) => Put32(fid, [mode] + rest)
    case ROpen(qid, iounit) => PutQid(qid, Put32(iounit, rest))
    case TCreate(fid, name, perm, mode) => Put32(fid, PutString(name, Put32(perm, [mode] + rest)))
    case RCreate(qid, iounit) => PutQid(qid, Put32(iounit, rest))
    case TRead(fid, offset, count) => Put32(fid, Put64(offset, Put32(count, rest)))
    case RRead(count, data) => Put32(count, data + rest)
    case TWrite(fid, offset, count, data) => Put32(fid, Put64(offset, Put32(count, data + rest)))
    case RWrite(count) => Put32(count, rest)
    case TClunk(fid) => Put32(fid, rest)
    case RClunk => rest
    case TRemove(fid) => Put32(fid, rest)
    case RRemove => rest
    case TStat(fid) => Put32(fid, rest)
    case RStat(stat) => Put16(ComposeLength(stat), PutStat(stat, rest))
    case TWstat(fid, stat) => Put32(fid, Put16(ComposeLength(stat), PutStat(stat, rest)))
    case RWstat => rest
  }

  /** size[4] type[1] tag[2] body[n]; the size is converted to uint32. */
  function Framed(typ: byte, tag: u16, body: Data): Data {
    Put32(Wrap32(7 + |body|), [typ] + Put16(tag, body))
  }

  function Encode(m: FCall): Data { Framed(m.typ, m.tag, PutBody(m.body, [])) }

  /** The true size of the encoded message, length word included. */
  function Size(m: FCall): nat { 7 + |PutBody(m.body, [])| }

  // ------------------------------------------------------------------- parsing

  /** `Panic` is a Go slice-bounds panic; `Error` a returned error. */
  datatype Parsed<+T> = Ok(value: T, rest: Data) | Error | Panic {
    predicate IsFailure() { !Ok? }
    function PropagateFailure<U>(): Parsed<U>
      requires !Ok?
    { if Error? then Error else Panic }
    function Extract(): (T, Data)
      requires Ok?
    { (value, rest) }
  }

  function ParseQid(b: Data): Parsed<Qid> {
    if b == [] then Error
    else
      var (vers, b1) := Take32(b[1..]);
      var (uid, b2) := Take64(b1);
      Ok(Qid(b[0], vers, uid), b2)
  }

  function ParseStat(b0: Data): Parsed<Stat> {
    var (_, b1) := Take16(b0);
    var (typ, b2) := Take16(b1);
    var (dev, b3) := Take32(b2);
    var (qid, b4) :- ParseQid(b3);
    var (mode, b5) := Take32(b4);
    var (atime, b6) := Take32(b5);
    var (mtime, b7) := Take32(b6);
    var (length, b8) := Take64(b7);
    var (name, b9) := TakeString(b8);
    var (uid, b10) := TakeString(b9);
    var (gid, b11) := TakeString(b10);
    var (muid, b12) := TakeString(b11);
    Ok(Stat(typ, dev, qid, mode, atime, mtime, length, name, uid, gid, muid), b12)
  }

  function TakeStrings(n: nat, b: Data): (r: (seq<Data>, Data))
    ensures |r.0| == n
  {
    if n == 0 then ([], b)
    else
      var (s, b1) := TakeString(b);
      var (ss, b2) := TakeStrings(n - 1, b1);
      ([s] + ss, b2)
  }

  function ParseQids(n: nat, b: Data): (r: Parsed<seq<Qid>>)
    ensures r.Ok? ==> |r.value| == n
  {
    if n == 0 then Ok([], b)
    else
      var (q, b1) :- ParseQid(b);
      var (qs, b2) :- ParseQids(n - 1, b1);
      Ok([q] + qs, b2)
  }

  function ParsePayload(count: u32, b: Data): Parsed<Data> {
    if |b| < count then Panic else Ok(b[..count], b[count..])
  }

  function ParseBody(typ: byte, b: Data): Parsed<Body> {
    match typ
    case 100 => ParseVersion(b)
    case 101 => ParseVersion(b)
    case 102 =>
      var (afid, b1) := Take32(b); var (uname, b2) := TakeString(b1); var (aname, b3) := TakeString(b2);
      Ok(TAuth(afid, uname, aname), b3)
    case 103 => var (q, r) :- ParseQid(b); Ok(RAuth(q), r)
    case 104 =>
      var (fid, b1) := Take32(b); var (afid, b2) := Take32(b1);
      var (uname, b3) := TakeString(b2); var (aname, b4) := TakeString(b3);
      Ok(TAttach(fid, afid, uname, aname), b4)
    case 105 => var (q, r) :- ParseQid(b); Ok(RAttach(q), r)
    case 107 => var (s, r) := TakeString(b); Ok(RError(s), r)
    case 108 => var (t, r) := Take16(b); Ok(TFlush(t), r)
    case 109 => Ok(RFlush, b)
    case 110 =>
      var (fid, b1) := Take32(b); var (newfid, b2) := Take32(b1);
      var (n, b3) := Take16(b2); var (names, b4) := TakeStrings(n, b3);
      Ok(TWalk(fid, newfid, n, names), b4)
    case 111 => var (n, b1) := Take16(b); var (qs, b2) :- ParseQids(n, b1); Ok(RWalk(n, qs), b2)
    case 112 =>
      var (fid, b1) := Take32(b);
      if b1 == [] then Error else Ok(TOpen(fid, b1[0]), b1[1..])
    case 113 => var (q, b1) :- ParseQid(b); var (io, b2) := Take32(b1); Ok(ROpen(q, io), b2)
    case 114 =>
      var (fid, b1) := Take32(b); var (name, b2) := TakeString(b1); var (perm, b3) := Take32(b2);
      if b3 == [] then Panic else Ok(TCreate(fid, name, perm, b3[0]), b3[1..])
    case 115 => var (q, b1) :- ParseQid(b); var (io, b2) := Take32(b1); Ok(RCreate(q, io), b2)
    case 116 =>
      var (fid, b1) := Take32(b); var (off, b2) := Take64(b1); var (n, b3) := Take32(b2);
      Ok(TRead(fid, off, n), b3)
    case 117 =>
      var (n, b1) := Take32(b); var (data, b2) :- ParsePayload(n, b1); Ok(RRead(n, data), b2)
    case 118 =>
      var (fid, b1) := Take32(b); var (off, b2) := Take64(b1); var (n, b3) := Take32(b2);
      var (data, b4) :- ParsePayload(n, b3);
      Ok(TWrite(fid, off, n, data), b4)
    case 119 => var (n, r) := Take32(b); Ok(RWrite(n), r)
    case 120 => var (fid, r) := Take32(b); Ok(TClunk(fid), r)
    case 121 => Ok(RClunk, b)
    case 122 => var (fid, r) := Take32(b); Ok(TRemove(fid), r)
    case 123 => Ok(RRemove, b)
    case 124 => var (fid, r) := Take32(b); Ok(TStat(fid), r)
    case 125 => var (_, b1) := Take16(b); var (s, b2) :- ParseStat(b1); Ok(RStat(s), b2)
    case 126 =>
      var (fid, b1) := Take32(b); var (_, b2) := Take16(b1); var (s, b3) :- ParseStat(b2);
      Ok(TWstat(fid, s), b3)
    case 127 => Ok(RWstat, b)
    case _ => Error
  }

  function ParseVersion(b: Data): Parsed<Body> {
    var (msize, b1) := Take32(b); var (v, b2) := TakeString(b1); Ok(Version(msize, v), b2)
  }

  /** The message after its length word (proto/fcall.go:155-253). */
  function ParseFrame(frame: Data): Parsed<FCall> {
    if |frame| < 3 then Error
    else
      var (tag, b) := Take16(frame[1..]);
      var (body, rest) :- ParseBody(frame[0], b);
      Ok(FCall(frame[0], tag, body), rest)
  }

  /** One call of `ParseCall` on a stream holding `input`. The length word counts itself,
      `length-4` is uint32 arithmetic, and bytes left over inside the frame are dropped. */
  function ParseCall(input: Data): Parsed<FCall> {
    if |input| < 4 then Error
    else
      var (length, b) := Take32(input);
      var n := Wrap32(length - 4);
      if length > MAX_MSG_LEN || |b| < n then Error
      else
        var (m, _) :- ParseFrame(b[..n]);
        Ok(m, b[n..])
  }
}
