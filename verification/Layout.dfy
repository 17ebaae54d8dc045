/** The layout of the messages as section 5 of the Plan 9 manual gives it: a list of fields,
    integers with their low byte first, strings and stats behind a count of two bytes. */
module Layout {
  import opened Bytes
  import opened Proto
  import RoundTrip

  datatype Field = U8(b: byte) | U16(h: u16) | U32(w: u32) | U64(d: u64) | Str(s: Data) | Raw(r: Data)

  function Octets(f: Field): Data {
    match f
    case U8(v) => [v]
    case U16(v) => [v % 256, v / 256 % 256]
    case U32(v) => [v % 256, v / 256 % 256, v / 65536 % 256, v / 16777216 % 256]
    case U64(v) =>
      [v % 256, v / 256 % 256, v / 65536 % 256, v / 16777216 % 256, v / 0x1_0000_0000 % 256,
       v / 0x100_0000_0000 % 256, v / 0x1_0000_0000_0000 % 256, v / 0x100_0000_0000_0000 % 256]
    case Str(s) => [|s| % 256, |s| / 256 % 256] + s
    case Raw(r) => r
  }

  function Render(fs: seq<Field>): Data { if fs == [] then [] else Octets(fs[0]) + Render(fs[1..]) }

  function QidFields(q: Qid): seq<Field> { [U8(q.qtype), U32(q.vers), U64(q.uid)] }

  /** size[2] type[2] dev[4] qid[13] mode[4] atime[4] mtime[4] length[8] name[s] uid[s] gid[s]
      muid[s] */
  function StatFields(s: Stat): seq<Field> {
    [U16(Wrap16(Wrap16(StatSize(s)) - 2)), U16(s.typ), U32(s.dev)] + QidFields(s.qid)
    + [U32(s.mode), U32(s.atime), U32(s.mtime), U64(s.length), Str(s.name), Str(s.uid), Str(s.gid), Str(s.muid)]
  }

  function Strs(names: seq<Data>): seq<Field> { if names == [] then [] else [Str(names[0])] + Strs(names[1..]) }

  function Qids(qs: seq<Qid>): seq<Field> { if qs == [] then [] else QidFields(qs[0]) + Qids(qs[1..]) }

  /** The type bytes a body goes with, and its fields. */
  function Fields(b: Body): (set<byte>, seq<Field>) {
    match b
    case Version(msize, version) => ({100, 101}, [U32(msize), Str(version)])
    case TAuth(afid, uname, aname) => ({102}, [U32(afid), Str(uname), Str(aname)])
    case RAuth(q) => ({103}, QidFields(q))
    case TAttach(fid, afid, uname, aname) => ({104}, [U32(fid), U32(afid), Str(uname), Str(aname)])
    case RAttach(q) => ({105}, QidFields(q))
    case RError(ename) => ({107}, [Str(ename)])
    case TFlush(oldtag) => ({108}, [U16(oldtag)])
    case RFlush => ({109}, [])
    case TWalk(fid, newfid, n, names) => ({110}, [U32(fid), U32(newfid), U16(n)] + Strs(names))
    case RWalk(n, qids) => ({111}, [U16(n)] + Qids(qids))
    case TOpen(fid, mode) => ({112}, [U32(fid), U8(mode)])
    case ROpen(q, iounit) => ({113}, QidFields(q) + [U32(iounit)])
    case TCreate(fid, name, perm, mode) => ({114}, [U32(fid), Str(name), U32(perm), U8(mode)])
    case RCreate(q, iounit) => ({115}, QidFields(q) + [U32(iounit)])
    case TRead(fid, offset, count) => ({116}, [U32(fid), U64(offset), U32(count)])
    case RRead(count, data) => ({117}, [U32(count), Raw(data)])
    case TWrite(fid, offset, count, data) => ({118}, [U32(fid), U64(offset), U32(count), Raw(data)])
    case RWrite(count) => ({119}, [U32(count)])
    case TClunk(fid) => ({120}, [U32(fid)])
    case RClunk => ({121}, [])
    case TRemove(fid) => ({122}, [U32(fid)])
    case RRemove => ({123}, [])
    case TStat(fid) => ({124}, [U32(fid)])
    case RStat(stat) => ({125}, [U16(Wrap16(StatSize(stat)))] + StatFields(stat))
    case TWstat(fid, stat) => ({126}, [U32(fid), U16(Wrap16(StatSize(stat)))] + StatFields(stat))
    case RWstat => ({127}, [])
  }

  // ---------------------------------------------------------------------- integers

  lemma Two(v: u16)
    ensures LE(v, 2) == [v % 256, v / 256 % 256]
  { Powers(); }

  lemma Four(v: u32)
    ensures LE(v, 4) == [v % 256, v / 256 % 256, v / 65536 % 256, v / 16777216 % 256]
  { Powers(); }

  lemma Eight(v: u64)
    ensures LE(v, 8) == Octets(U64(v))
  { Powers(); }

  lemma Powers()
    ensures Pow256(0) == 1 && Pow256(1) == 256 && Pow256(2) == 65536 && Pow256(3) == 16777216
    ensures Pow256(4) == 0x1_0000_0000 && Pow256(5) == 0x100_0000_0000
    ensures Pow256(6) == 0x1_0000_0000_0000 && Pow256(7) == 0x100_0000_0000_0000
  {
    assert Pow256(1) == 256 * Pow256(0);
    assert Pow256(2) == 256 * Pow256(1);
    assert Pow256(3) == 256 * Pow256(2);
    assert Pow256(4) == 256 * Pow256(3);
    assert Pow256(5) == 256 * Pow256(4);
    assert Pow256(6) == 256 * Pow256(5);
    assert Pow256(7) == 256 * Pow256(6);
  }

  /** What each Put lays out. */
  lemma Puts()
    ensures forall v: u16, r: Data {:trigger Put16(v, r)} :: Put16(v, r) == Octets(U16(v)) + r
    ensures forall v: u32, r: Data {:trigger Put32(v, r)} :: Put32(v, r) == Octets(U32(v)) + r
    ensures forall v: u64, r: Data {:trigger Put64(v, r)} :: Put64(v, r) == Octets(U64(v)) + r
  {
    forall v: u16, r: Data ensures Put16(v, r) == Octets(U16(v)) + r { Two(v); }
    forall v: u32, r: Data ensures Put32(v, r) == Octets(U32(v)) + r { Four(v); }
    forall v: u64, r: Data ensures Put64(v, r) == Octets(U64(v)) + r { Eight(v); }
  }

  lemma PutStr(s: Data, r: Data)
    ensures PutString(s, r) == Octets(Str(s)) + r
  {
    LowTwo(|s|);
    Two(Wrap16(|s|));
    Associates(LE(Wrap16(|s|), 2), s, r);
  }

  lemma LowTwo(n: nat)
    ensures Wrap16(n) % 256 == n % 256 && Wrap16(n) / 256 % 256 == n / 256 % 256
  {
    var q, w := n / 65536, n % 65536;
    assert n == 65536 * q + w;
    assert n / 256 == 256 * q + w / 256;
  }

  // ------------------------------------------------------------------------ fields

  /** The fields in front of `rest`, one after the other. */
  function Onto(fs: seq<Field>, rest: Data): Data { if fs == [] then rest else Octets(fs[0]) + Onto(fs[1..], rest) }

  lemma {:induction false} OntoRender(fs: seq<Field>, rest: Data)
    ensures Onto(fs, rest) == Render(fs) + rest
  {
    hide Octets;
    if fs == [] { assert [] + rest == rest; }
    else {
      OntoRender(fs[1..], rest);
      Associates(Octets(fs[0]), Render(fs[1..]), rest);
    }
  }

  lemma {:induction false} OntoConcat(a: seq<Field>, b: seq<Field>, rest: Data)
    ensures Onto(a + b, rest) == Onto(a, Onto(b, rest))
  {
    hide Octets;
    if a == [] { assert a + b == b; }
    else {
      OntoConcat(a[1..], b, rest);
      assert (a + b)[1..] == a[1..] + b;
    }
  }

  lemma OntoOne(a: Field, rest: Data)
    ensures Onto([a], rest) == Octets(a) + rest
  { assert [a][1..] == []; }

  lemma OntoTwo(a: Field, b: Field, rest: Data)
    ensures Onto([a, b], rest) == Octets(a) + (Octets(b) + rest)
  {
    assert [a, b][1..] == [b];
    OntoOne(b, rest);
  }

  lemma OntoThree(a: Field, b: Field, c: Field, rest: Data)
    ensures Onto([a, b, c], rest) == Octets(a) + (Octets(b) + (Octets(c) + rest))
  {
    assert [a, b, c][1..] == [b, c];
    OntoTwo(b, c, rest);
  }

  lemma OntoFour(a: Field, b: Field, c: Field, d: Field, rest: Data)
    ensures Onto([a, b, c, d], rest) == Octets(a) + (Octets(b) + (Octets(c) + (Octets(d) + rest)))
  {
    assert [a, b, c, d][1..] == [b, c, d];
    OntoThree(b, c, d, rest);
  }

  lemma QidLayout(q: Qid, rest: Data)
    ensures PutQid(q, rest) == Onto(QidFields(q), rest)
  {
    Puts();
    OntoThree(U8(q.qtype), U32(q.vers), U64(q.uid), rest);
  }

  lemma {:induction false} StringsLayout(ss: seq<Data>, rest: Data)
    ensures PutStrings(ss, rest) == Onto(Strs(ss), rest)
  {
    if ss != [] {
      StringsLayout(ss[1..], rest);
      PutStr(ss[0], PutStrings(ss[1..], rest));
      OntoConcat([Str(ss[0])], Strs(ss[1..]), rest);
      OntoOne(Str(ss[0]), Onto(Strs(ss[1..]), rest));
    }
  }

  lemma {:induction false} QidsLayout(qs: seq<Qid>, rest: Data)
    ensures PutQids(qs, rest) == Onto(Qids(qs), rest)
  {
    if qs != [] {
      QidsLayout(qs[1..], rest);
      QidLayout(qs[0], PutQids(qs[1..], rest));
      OntoConcat(QidFields(qs[0]), Qids(qs[1..]), rest);
    }
  }

  lemma NamesLayout(s: Stat, rest: Data)
    ensures PutNames(s, rest) == Onto([Str(s.name), Str(s.uid), Str(s.gid), Str(s.muid)], rest)
  {
    var r3 := PutString(s.muid, rest);
    var r2 := PutString(s.gid, r3);
    PutStr(s.muid, rest);
    PutStr(s.gid, r3);
    PutStr(s.uid, r2);
    PutStr(s.name, PutString(s.uid, r2));
    hide Octets, PutString;
    OntoFour(Str(s.name), Str(s.uid), Str(s.gid), Str(s.muid), rest);
  }

  lemma FixedLayout(s: Stat, rest: Data)
    ensures PutFixed(s, rest) ==
            Onto([U16(s.typ), U32(s.dev)],
                 Onto(QidFields(s.qid), Onto([U32(s.mode), U32(s.atime), U32(s.mtime), U64(s.length)], rest)))
  {
    Puts();
    var r := Onto([U32(s.mode), U32(s.atime), U32(s.mtime), U64(s.length)], rest);
    hide Octets, Onto, QidFields;
    OntoFour(U32(s.mode), U32(s.atime), U32(s.mtime), U64(s.length), rest);
    QidLayout(s.qid, r);
    OntoTwo(U16(s.typ), U32(s.dev), Onto(QidFields(s.qid), r));
  }

  lemma StatLayout(s: Stat, rest: Data)
    ensures PutStat(s, rest) == Onto(StatFields(s), rest)
  {
    Puts();
    hide Octets, Onto, QidFields, StatFields, PutFixed, PutNames;
    var size, front := U16(Wrap16(Wrap16(StatSize(s)) - 2)), [U16(s.typ), U32(s.dev)];
    var times := [U32(s.mode), U32(s.atime), U32(s.mtime), U64(s.length)];
    var names := [Str(s.name), Str(s.uid), Str(s.gid), Str(s.muid)];
    StatParts(s, size, front, times, names);
    NamesLayout(s, rest);
    FixedLayout(s, Onto(names, rest));
    OntoConcat(times, names, rest);
    OntoConcat(QidFields(s.qid), times + names, rest);
    OntoConcat(front, QidFields(s.qid) + (times + names), rest);
    OntoConcat([size], front + (QidFields(s.qid) + (times + names)), rest);
    OntoOne(size, PutFixed(s, PutNames(s, rest)));
  }

  lemma StatParts(s: Stat, size: Field, front: seq<Field>, times: seq<Field>, names: seq<Field>)
    requires size == U16(Wrap16(Wrap16(StatSize(s)) - 2)) && front == [U16(s.typ), U32(s.dev)]
    requires times == [U32(s.mode), U32(s.atime), U32(s.mtime), U64(s.length)]
    requires names == [Str(s.name), Str(s.uid), Str(s.gid), Str(s.muid)]
    ensures StatFields(s) == [size] + (front + (QidFields(s.qid) + (times + names)))
  {
    hide QidFields;
    assert [size] + front == [size, U16(s.typ), U32(s.dev)];
    assert times + names == [U32(s.mode), U32(s.atime), U32(s.mtime), U64(s.length), Str(s.name), Str(s.uid),
                             Str(s.gid), Str(s.muid)];
  }

  // ---------------------------------------------------------------------- messages

  lemma StringBodies(b: Body, rest: Data)
    requires b.Version? || b.TAuth? || b.TAttach? || b.RError? || b.TCreate?
    ensures PutBody(b, rest) == Onto(Fields(b).1, rest)
  {
    Puts();
    hide Octets, Onto, PutString;
    match b
    case Version(msize, version) =>
      PutStr(version, rest);
      OntoTwo(U32(msize), Str(version), rest);
    case TAuth(afid, uname, aname) =>
      PutStr(aname, rest);
      PutStr(uname, PutString(aname, rest));
      OntoThree(U32(afid), Str(uname), Str(aname), rest);
    case TAttach(fid, afid, uname, aname) =>
      PutStr(aname, rest);
      PutStr(uname, PutString(aname, rest));
      OntoFour(U32(fid), U32(afid), Str(uname), Str(aname), rest);
    case RError(ename) =>
      PutStr(ename, rest);
      OntoOne(Str(ename), rest);
    case TCreate(fid, name, perm, mode) =>
      assert Octets(U8(mode)) == [mode] by { OctetsOfByte(mode); }
      PutStr(name, Put32(perm, [mode] + rest));
      OntoFour(U32(fid), Str(name), U32(perm), U8(mode), rest);
  }

  lemma OntoNone(rest: Data)
    ensures Onto([], rest) == rest
  {}

  lemma OctetsOfByte(b: byte)
    ensures Octets(U8(b)) == [b]
  {}

  lemma OctetsOfRaw(d: Data)
    ensures Octets(Raw(d)) == d
  {}

  lemma FixedBodies(b: Body, rest: Data)
    requires b.TFlush? || b.RWrite? || b.TClunk? || b.TRemove? || b.TStat? || b.RFlush? || b.RClunk? || b.RRemove?
             || b.RWstat?
    ensures PutBody(b, rest) == Onto(Fields(b).1, rest)
  {
    Puts();
    OntoNone(rest);
    hide Octets, Onto;
    match b
    case TFlush(oldtag) => OntoOne(U16(oldtag), rest);
    case RWrite(count) => OntoOne(U32(count), rest);
    case TClunk(fid) => OntoOne(U32(fid), rest);
    case TRemove(fid) => OntoOne(U32(fid), rest);
    case TStat(fid) => OntoOne(U32(fid), rest);
    case _ =>
  }

  lemma PayloadBodies(b: Body, rest: Data)
    requires b.TOpen? || b.TRead? || b.RRead? || b.TWrite?
    ensures PutBody(b, rest) == Onto(Fields(b).1, rest)
  {
    Puts();
    hide Octets, Onto;
    match b
    case TOpen(fid, mode) =>
      OctetsOfByte(mode);
      OntoTwo(U32(fid), U8(mode), rest);
    case TRead(fid, offset, count) => OntoThree(U32(fid), U64(offset), U32(count), rest);
    case RRead(count, data) =>
      OctetsOfRaw(data);
      OntoTwo(U32(count), Raw(data), rest);
    case TWrite(fid, offset, count, data) =>
      OctetsOfRaw(data);
      OntoFour(U32(fid), U64(offset), U32(count), Raw(data), rest);
  }

  lemma QidBodies(b: Body, rest: Data)
    requires b.RAuth? || b.RAttach? || b.ROpen? || b.RCreate? || b.RWalk?
    ensures PutBody(b, rest) == Onto(Fields(b).1, rest)
  {
    Puts();
    hide Octets, Onto, QidFields, PutQid;
    match b
    case RWalk(n, qids) =>
      QidsLayout(qids, rest);
      OntoConcat([U16(n)], Qids(qids), rest);
      OntoOne(U16(n), PutQids(qids, rest));
    case RAuth(q) => QidLayout(q, rest);
    case RAttach(q) => QidLayout(q, rest);
    case ROpen(q, iounit) => QidUnit(q, iounit, rest);
    case RCreate(q, iounit) => QidUnit(q, iounit, rest);
  }

  lemma QidUnit(q: Qid, iounit: u32, rest: Data)
    ensures PutQid(q, Put32(iounit, rest)) == Onto(QidFields(q) + [U32(iounit)], rest)
  {
    Puts();
    hide Octets, Onto, QidFields, PutQid;
    QidLayout(q, Put32(iounit, rest));
    OntoConcat(QidFields(q), [U32(iounit)], rest);
    OntoOne(U32(iounit), rest);
  }

  lemma OtherBodies(b: Body, rest: Data)
    requires b.TWalk? || b.RStat? || b.TWstat?
    ensures PutBody(b, rest) == Onto(Fields(b).1, rest)
  {
    Puts();
    hide Octets, Onto, StatFields, PutStat;
    match b
    case TWalk(fid, newfid, n, names) =>
      StringsLayout(names, rest);
      OntoConcat([U32(fid), U32(newfid), U16(n)], Strs(names), rest);
      OntoThree(U32(fid), U32(newfid), U16(n), PutStrings(names, rest));
    case RStat(stat) =>
      StatLayout(stat, rest);
      OntoConcat([U16(Wrap16(StatSize(stat)))], StatFields(stat), rest);
      OntoOne(U16(Wrap16(StatSize(stat))), PutStat(stat, rest));
    case TWstat(fid, stat) =>
      StatLayout(stat, rest);
      OntoConcat([U32(fid), U16(Wrap16(StatSize(stat)))], StatFields(stat), rest);
      OntoTwo(U32(fid), U16(Wrap16(StatSize(stat))), PutStat(stat, rest));
  }

  lemma BodyLayout(b: Body, rest: Data)
    ensures PutBody(b, rest) == Onto(Fields(b).1, rest)
  {
    hide PutBody, Onto, Fields;
    match b
    case Version(_, _) => StringBodies(b, rest);
    case TAuth(_, _, _) => StringBodies(b, rest);
    case TAttach(_, _, _, _) => StringBodies(b, rest);
    case RError(_) => StringBodies(b, rest);
    case TCreate(_, _, _, _) => StringBodies(b, rest);
    case RAuth(_) => QidBodies(b, rest);
    case RAttach(_) => QidBodies(b, rest);
    case ROpen(_, _) => QidBodies(b, rest);
    case RCreate(_, _) => QidBodies(b, rest);
    case RWalk(_, _) => QidBodies(b, rest);
    case TWalk(_, _, _, _) => OtherBodies(b, rest);
    case RStat(_) => OtherBodies(b, rest);
    case TWstat(_, _) => OtherBodies(b, rest);
    case TOpen(_, _) => PayloadBodies(b, rest);
    case TRead(_, _, _) => PayloadBodies(b, rest);
    case RRead(_, _) => PayloadBodies(b, rest);
    case TWrite(_, _, _, _) => PayloadBodies(b, rest);
    case _ => FixedBodies(b, rest);
  }

  /** Every message is size[4] type[1] tag[2] and the fields of its body, the size that of the
      whole, and the type bytes are those of the protocol. */
  lemma MessageLayout(m: FCall)
    requires Size(m) < TWO32
    ensures RoundTrip.TypeMatches(m.typ, m.body) <==> m.typ in Fields(m.body).0
    ensures Encode(m) == Render([U32(Size(m)), U8(m.typ), U16(m.tag)] + Fields(m.body).1)
    ensures |Encode(m)| == Size(m)
  {
    TypesAgree(m.typ, m.body);
    Puts();
    hide Octets, PutBody, Onto, Render, Fields, RoundTrip.TypeMatches;
    var fs, head := Fields(m.body).1, [U32(Size(m)), U8(m.typ), U16(m.tag)];
    BodyLayout(m.body, []);
    OctetsOfByte(m.typ);
    OntoThree(U32(Size(m)), U8(m.typ), U16(m.tag), PutBody(m.body, []));
    OntoConcat(head, fs, []);
    OntoRender(head + fs, []);
    assert Render(head + fs) + [] == Render(head + fs);
  }

  lemma TypesAgree(typ: byte, b: Body)
    ensures RoundTrip.TypeMatches(typ, b) <==> typ in Fields(b).0
  { hide QidFields, StatFields, Strs, Qids; }
}
