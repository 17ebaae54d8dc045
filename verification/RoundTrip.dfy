/** Parsing undoes encoding, for single messages and for whole streams of them. */
module RoundTrip {
  import opened Bytes
  import opened Proto

  /** The header type the constructor of each body is dispatched on. */
  predicate TypeMatches(typ: byte, b: Body) {
    match b
    case Version(_, _) => typ == 100 || typ == 101
    case TAuth(_, _, _) => typ == 102
    case RAuth(_) => typ == 103
    case TAttach(_, _, _, _) => typ == 104
    case RAttach(_) => typ == 105
    case RError(_) => typ == 107
    case TFlush(_) => typ == 108
    case RFlush => typ == 109
    case TWalk(_, _, _, _) => typ == 110
    case RWalk(_, _) => typ == 111
    case TOpen(_, _) => typ == 112
    case ROpen(_, _) => typ == 113
    case TCreate(_, _, _, _) => typ == 114
    case RCreate(_, _) => typ == 115
    case TRead(_, _, _) => typ == 116
    case RRead(_, _) => typ == 117
    case TWrite(_, _, _, _) => typ == 118
    case RWrite(_) => typ == 119
    case TClunk(_) => typ == 120
    case RClunk => typ == 121
    case TRemove(_) => typ == 122
    case RRemove => typ == 123
    case TStat(_) => typ == 124
    case RStat(_) => typ == 125
    case TWstat(_, _) => typ == 126
    case RWstat => typ == 127
  }

  predicate CountsMatch(b: Body) {
    match b
    case TWalk(_, _, n, names) => n == |names|
    case RWalk(n, qids) => n == |qids|
    case RRead(n, data) => n == |data|
    case TWrite(_, _, n, data) => n == |data|
    case _ => true
  }

  /** What the peer accepts: a consistent message no longer than MaxMsgLen. */
  predicate WellFormed(m: FCall) {
    TypeMatches(m.typ, m.body) && CountsMatch(m.body) && Size(m) <= MAX_MSG_LEN
  }

  // ------------------------------------------------------------------- lengths

  lemma StatFieldsLength(s: Stat, rest: Data)
    ensures |PutStat(s, rest)| == StatSize(s) + |rest|
  {}

  lemma {:induction false} StringsLength(ss: seq<Data>, rest: Data, k: nat)
    requires k < |ss|
    ensures |PutStrings(ss, rest)| >= 2 + |ss[k]| + |rest|
  {
    if k > 0 { StringsLength(ss[1..], rest, k - 1); }
    else { StringsGrow(ss[1..], rest); }
  }

  lemma {:induction false} StringsGrow(ss: seq<Data>, rest: Data)
    ensures |PutStrings(ss, rest)| >= |rest|
  {
    if ss != [] { StringsGrow(ss[1..], rest); }
  }

  // -------------------------------------------------------- one item at a time

  /** The fixed-width codecs, as rewrite rules for the message-level proofs. */
  lemma PrimitiveLaws()
    ensures forall v: u16, r: Data {:trigger Put16(v, r)} :: Take16(Put16(v, r)) == (v, r)
    ensures forall v: u32, r: Data {:trigger Put32(v, r)} :: Take32(Put32(v, r)) == (v, r)
    ensures forall v: u64, r: Data {:trigger Put64(v, r)} :: Take64(Put64(v, r)) == (v, r)
    ensures forall s: Data, r: Data {:trigger PutString(s, r)} ::
              |s| < TWO16 ==> TakeString(PutString(s, r)) == (s, r)
  {
    forall v: u16, r: Data ensures Take16(Put16(v, r)) == (v, r) { TakePut16(v, r); }
    forall v: u32, r: Data ensures Take32(Put32(v, r)) == (v, r) { TakePut32(v, r); }
    forall v: u64, r: Data ensures Take64(Put64(v, r)) == (v, r) { TakePut64(v, r); }
    forall s: Data, r: Data | |s| < TWO16 ensures TakeString(PutString(s, r)) == (s, r) { TakePutString(s, r); }
  }

  lemma QidRoundTrip(q: Qid, rest: Data)
    ensures ParseQid(PutQid(q, rest)) == Ok(q, rest)
  {
    PrimitiveLaws();
    assert PutQid(q, rest)[1..] == Put32(q.vers, Put64(q.uid, rest));
  }

  /** A stat whose four strings fit their 16-bit prefixes is read back exactly, whatever
      follows it. */
  lemma StatRoundTrip(s: Stat, rest: Data)
    requires |s.name| < TWO16 && |s.uid| < TWO16 && |s.gid| < TWO16 && |s.muid| < TWO16
    ensures ParseStat(PutStat(s, rest)) == Ok(s, rest)
  {
    PrimitiveLaws();
    QidRoundTrip(s.qid, Put32(s.mode, Put32(s.atime, Put32(s.mtime, Put64(s.length, PutNames(s, rest))))));
  }

  lemma {:induction false} StringsRoundTrip(ss: seq<Data>, rest: Data)
    requires forall k :: 0 <= k < |ss| ==> |ss[k]| < TWO16
    ensures TakeStrings(|ss|, PutStrings(ss, rest)) == (ss, rest)
  {
    if ss != [] {
      TakePutString(ss[0], PutStrings(ss[1..], rest));
      StringsRoundTrip(ss[1..], rest);
      assert ss == [ss[0]] + ss[1..];
    }
  }

  lemma {:induction false} QidsRoundTrip(qs: seq<Qid>, rest: Data)
    ensures ParseQids(|qs|, PutQids(qs, rest)) == Ok(qs, rest)
  {
    if qs != [] {
      QidRoundTrip(qs[0], PutQids(qs[1..], rest));
      QidsRoundTrip(qs[1..], rest);
      assert qs == [qs[0]] + qs[1..];
    }
  }

  lemma PayloadRoundTrip(data: Data, rest: Data)
    requires |data| < TWO32
    ensures ParsePayload(|data|, data + rest) == Ok(data, rest)
  {
    assert (data + rest)[..|data|] == data && (data + rest)[|data|..] == rest;
  }

  // ------------------------------------------------------------------- bodies

  ghost predicate Survives(typ: byte, b: Body, rest: Data) {
    ParseBody(typ, PutBody(b, rest)) == Ok(b, rest)
  }

  lemma WalkSurvives(typ: byte, b: Body, rest: Data)
    requires b.TWalk? || b.RWalk?
    requires TypeMatches(typ, b) && CountsMatch(b) && |PutBody(b, [])| < TWO16
    ensures Survives(typ, b, rest)
  {
    PrimitiveLaws();
    match b
    case TWalk(_, _, _, names) =>
      forall k | 0 <= k < |names| ensures |names[k]| < TWO16 { StringsLength(names, [], k); }
      StringsRoundTrip(names, rest);
    case RWalk(_, qids) => QidsRoundTrip(qids, rest);
  }

  lemma PayloadSurvives(typ: byte, b: Body, rest: Data)
    requires b.TWrite? || b.RRead?
    requires TypeMatches(typ, b) && CountsMatch(b)
    ensures Survives(typ, b, rest)
  {
    PrimitiveLaws();
    PayloadRoundTrip(b.data, rest);
  }

  lemma RStatSurvives(typ: byte, b: Body, rest: Data)
    requires b.RStat? && TypeMatches(typ, b) && StatSize(b.stat) < TWO16
    ensures Survives(typ, b, rest)
  {
    var inner := PutStat(b.stat, rest);
    StatRoundTrip(b.stat, rest);
    TakePut16(ComposeLength(b.stat), inner);
  }

  lemma TWstatSurvives(typ: byte, b: Body, rest: Data)
    requires b.TWstat? && TypeMatches(typ, b) && StatSize(b.stat) < TWO16
    ensures Survives(typ, b, rest)
  {
    hide PutStat, ParseStat;
    var inner := PutStat(b.stat, rest);
    StatRoundTrip(b.stat, rest);
    TakePut16(ComposeLength(b.stat), inner);
    TakePut32(b.fid, Put16(ComposeLength(b.stat), inner));
  }

  lemma QidSurvives(typ: byte, b: Body, rest: Data)
    requires b.RAuth? || b.RAttach? || b.ROpen? || b.RCreate?
    requires TypeMatches(typ, b)
    ensures Survives(typ, b, rest)
  {
    PrimitiveLaws();
    QidRoundTrip(b.qid, if b.ROpen? || b.RCreate? then Put32(b.iounit, rest) else rest);
  }

  lemma StringSurvives(typ: byte, b: Body, rest: Data)
    requires b.Version? || b.RError? || b.TCreate?
    requires TypeMatches(typ, b) && |PutBody(b, [])| < TWO16
    ensures Survives(typ, b, rest)
  {
    match b
    case Version(msize, version) =>
      TakePut32(msize, PutString(version, rest));
      TakePutString(version, rest);
    case RError(ename) => TakePutString(ename, rest);
    case TCreate(fid, name, perm, mode) =>
      TakePut32(fid, PutString(name, Put32(perm, [mode] + rest)));
      TakePutString(name, Put32(perm, [mode] + rest));
      TakePut32(perm, [mode] + rest);
      assert ([mode] + rest)[1..] == rest;
  }

  lemma NamesSurvive(typ: byte, b: Body, rest: Data)
    requires b.TAuth? || b.TAttach?
    requires TypeMatches(typ, b) && |PutBody(b, [])| < TWO16
    ensures Survives(typ, b, rest)
  {
    var k2 := PutString(b.aname, rest);
    var k1 := PutString(b.uname, k2);
    TakePutString(b.aname, rest);
    TakePutString(b.uname, k2);
    TakePut32(b.afid, k1);
    if b.TAttach? { TakePut32(b.fid, Put32(b.afid, k1)); }
  }

  lemma FixedSurvives(typ: byte, b: Body, rest: Data)
    requires b.TFlush? || b.TOpen? || b.TRead? || b.RWrite? || b.TClunk? || b.TRemove? || b.TStat?
          || b.RFlush? || b.RClunk? || b.RRemove? || b.RWstat?
    requires TypeMatches(typ, b)
    ensures Survives(typ, b, rest)
  {
    PrimitiveLaws();
    if b.TOpen? { assert ([b.omode] + rest)[1..] == rest; }
  }

  lemma BodyRoundTrip(typ: byte, b: Body, rest: Data)
    requires TypeMatches(typ, b) && CountsMatch(b) && |PutBody(b, [])| < TWO16
    ensures Survives(typ, b, rest)
  {
    if b.TWalk? || b.RWalk? { WalkSurvives(typ, b, rest); }
    else if b.TWrite? || b.RRead? { PayloadSurvives(typ, b, rest); }
    else if b.RStat? { StatFieldsLength(b.stat, []); RStatSurvives(typ, b, rest); }
    else if b.TWstat? { StatFieldsLength(b.stat, []); TWstatSurvives(typ, b, rest); }
    else if b.RAuth? || b.RAttach? || b.ROpen? || b.RCreate? { QidSurvives(typ, b, rest); }
    else if b.Version? || b.RError? || b.TCreate? { StringSurvives(typ, b, rest); }
    else if b.TAuth? || b.TAttach? { NamesSurvive(typ, b, rest); }
    else { FixedSurvives(typ, b, rest); }
  }

  // ------------------------------------------------------------------ framing

  function Frame(m: FCall): Data { [m.typ] + Put16(m.tag, PutBody(m.body, [])) }

  lemma FrameRoundTrip(m: FCall)
    requires WellFormed(m)
    ensures ParseFrame(Frame(m)) == Ok(m, [])
  {
    var b := PutBody(m.body, []);
    assert Frame(m)[1..] == Put16(m.tag, b);
    TakePut16(m.tag, b);
    BodyRoundTrip(m.typ, m.body, []);
  }

  lemma Unframe(e: Data, frame: Data, m: FCall, rest: Data)
    requires 4 + |frame| <= MAX_MSG_LEN
    requires e == Put32(4 + |frame|, frame)
    requires ParseFrame(frame) == Ok(m, [])
    ensures ParseCall(e + rest) == Ok(m, rest)
  {
    assert e + rest == Put32(4 + |frame|, frame + rest);
    TakePut32(4 + |frame|, frame + rest);
    assert (frame + rest)[..|frame|] == frame && (frame + rest)[|frame|..] == rest;
  }

  lemma EncodeFramed(m: FCall)
    requires Size(m) <= MAX_MSG_LEN
    ensures Size(m) == 4 + |Frame(m)|
    ensures Encode(m) == Put32(4 + |Frame(m)|, Frame(m))
  {}

  /** One framed message is read back exactly and nothing after it is touched. */
  lemma CallRoundTrip(m: FCall, rest: Data)
    requires WellFormed(m)
    ensures ParseCall(Encode(m) + rest) == Ok(m, rest)
  {
    FrameRoundTrip(m);
    EncodeFramed(m);
    Unframe(Encode(m), Frame(m), m, rest);
  }

  lemma TooLongRejected(frame: Data)
    requires MAX_MSG_LEN < 4 + |frame| < TWO32
    ensures ParseCall(Put32(4 + |frame|, frame)) == Error
  {
    TakePut32(4 + |frame|, frame);
  }

  /** MaxMsgLen is the exact limit: a consistent message whose size the length word can
      hold is read back if and only if it is no longer than that. */
  lemma RoundTripLimit(m: FCall)
    requires TypeMatches(m.typ, m.body) && CountsMatch(m.body) && Size(m) < TWO32
    ensures ParseCall(Encode(m)) == Ok(m, []) <==> Size(m) <= MAX_MSG_LEN
  {
    if Size(m) <= MAX_MSG_LEN {
      CallRoundTrip(m, []);
      assert Encode(m) + [] == Encode(m);
    } else {
      TooLongRejected(Frame(m));
    }
  }

  function EncodeAll(ms: seq<FCall>): Data {
    if ms == [] then [] else Encode(ms[0]) + EncodeAll(ms[1..])
  }

  lemma ParseCallConsumes(input: Data)
    ensures ParseCall(input).Ok? ==> |ParseCall(input).rest| <= |input| - 4
  {}

  /** Repeated `ParseCall` until the stream is empty or a call fails. */
  function ParseAll(input: Data): Option<seq<FCall>>
    decreases |input|
  {
    if input == [] then Some([])
    else
      ParseCallConsumes(input);
      var r := ParseCall(input);
      if !r.Ok? then None
      else
        var ms :- ParseAll(r.rest);
        Some([r.value] + ms)
  }

  /** A stream of well-formed messages parses back to exactly that list. */
  lemma {:induction false} StreamRoundTrip(ms: seq<FCall>)
    requires forall k :: 0 <= k < |ms| ==> WellFormed(ms[k])
    ensures ParseAll(EncodeAll(ms)) == Some(ms)
  {
    hide ParseCall, Encode, WellFormed;
    if ms != [] {
      CallRoundTrip(ms[0], EncodeAll(ms[1..]));
      ParseCallConsumes(EncodeAll(ms));
      StreamRoundTrip(ms[1..]);
      assert ms == [ms[0]] + ms[1..];
    }
  }
}
