/** Directory reads: the server's readDir (fs/server.go:358-390), the client's ParseStats
    (proto/stat.go:62-93) and the loop that ties them together (client/client.go:453-474). */
module Listing {
  import opened Bytes
  import opened Proto
  import opened RoundTrip
  import Wire

  predicate Composable(ss: seq<Stat>) { forall i :: 0 <= i < |ss| ==> StatSize(ss[i]) < TWO16 }

  /** The concatenated entries of a directory. */
  function Entries(ss: seq<Stat>): Data {
    if ss == [] then [] else PutStat(ss[0], []) + Entries(ss[1..])
  }

  /** The byte offset at which the entry after the first `k` begins. */
  function Offset(ss: seq<Stat>, k: nat): nat
    requires k <= |ss|
  {
    if k == 0 then 0 else Offset(ss, k - 1) + StatSize(ss[k - 1])
  }

  // ------------------------------------------------------------------ ParseStats

  lemma ParseStatConsumes(b: Data)
    ensures ParseStat(b).Ok? ==> |ParseStat(b).rest| < |b|
  {}

  function ParseStats(b: Data): Option<seq<Stat>>
    decreases |b|
  {
    if b == [] then Some([])
    else
      ParseStatConsumes(b);
      var r := ParseStat(b);
      if !r.Ok? then None
      else
        var ss :- ParseStats(r.rest);
        Some([r.value] + ss)
  }

  lemma PutStatAppends(s: Stat, rest: Data)
    ensures PutStat(s, rest) == PutStat(s, []) + rest
  {
    NamesAppend(s, rest);
    FixedAppends(s, PutNames(s, []), rest);
    var size := LE(Wrap16(ComposeLength(s) - 2), 2);
    assert size + (PutFixed(s, PutNames(s, [])) + rest) == (size + PutFixed(s, PutNames(s, []))) + rest;
  }

  lemma NamesAppend(s: Stat, rest: Data)
    ensures PutNames(s, rest) == PutNames(s, []) + rest
  {
    StringAppends(s.muid, [], rest);
    StringAppends(s.gid, PutString(s.muid, []), rest);
    StringAppends(s.uid, PutString(s.gid, PutString(s.muid, [])), rest);
    StringAppends(s.name, PutString(s.uid, PutString(s.gid, PutString(s.muid, []))), rest);
    assert [] + rest == rest;
  }

  lemma StringAppends(s: Data, k: Data, rest: Data)
    ensures PutString(s, k + rest) == PutString(s, k) + rest
  {}

  lemma FixedAppends(s: Stat, k: Data, rest: Data)
    ensures PutFixed(s, k + rest) == PutFixed(s, k) + rest
  {
    var k3 := Put64(s.length, k);
    assert Put64(s.length, k + rest) == k3 + rest;
    var k2 := Put32(s.mode, Put32(s.atime, Put32(s.mtime, k3)));
    assert Put32(s.mode, Put32(s.atime, Put32(s.mtime, k3 + rest))) == k2 + rest;
    var k1 := PutQid(s.qid, k2);
    assert PutQid(s.qid, k2 + rest) == k1 + rest;
    assert Put16(s.typ, Put32(s.dev, k1 + rest)) == Put16(s.typ, Put32(s.dev, k1)) + rest;
  }

  lemma EntryRoundTrip(s: Stat, rest: Data)
    requires StatSize(s) < TWO16
    ensures PutStat(s, []) != []
    ensures ParseStat(PutStat(s, []) + rest) == Ok(s, rest)
  {
    PutStatAppends(s, rest);
    StatFieldsLength(s, []);
    StatRoundTrip(s, rest);
  }

  lemma ParseStatsStep(b: Data, s: Stat, rest: Data, ss: seq<Stat>)
    requires b != [] && ParseStat(b) == Ok(s, rest)
    requires ParseStats(rest) == Some(ss)
    ensures ParseStats(b) == Some([s] + ss)
  {}

  /** Entries parse back to the stats they were composed from. */
  lemma {:induction false} EntriesRoundTrip(ss: seq<Stat>)
    requires Composable(ss)
    ensures ParseStats(Entries(ss)) == Some(ss)
  {
    hide PutStat, ParseStat;
    if ss != [] {
      EntriesRoundTrip(ss[1..]);
      EntryRoundTrip(ss[0], Entries(ss[1..]));
      ParseStatsStep(Entries(ss), ss[0], Entries(ss[1..]), ss[1..]);
      assert ss == [ss[0]] + ss[1..];
    }
  }

  /** proto/stat.go:62-74 as the loop it is. */
  method ParseStatsLoop(b: Data) returns (r: Option<seq<Stat>>)
    ensures r == ParseStats(b)
  {
    var buff, stats := b, [];
    while |buff| > 0
      invariant ParseStats(b) == Join(stats, ParseStats(buff))
      decreases |buff|
    {
      ParseStatConsumes(buff);
      var p := ParseStat(buff);
      if !p.Ok? { return None; }
      JoinOne(stats, p.value, ParseStats(p.rest));
      buff := p.rest;
      stats := stats + [p.value];
    }
    return Some(stats);
  }

  ghost function Join(done: seq<Stat>, more: Option<seq<Stat>>): (r: Option<seq<Stat>>)
    ensures done == [] ==> r == more
    ensures more == Some([]) ==> r == Some(done)
  {
    assert done + [] == done;
    if more.Some? then assert [] + more.value == more.value; Some(done + more.value) else None
  }

  lemma JoinOne(done: seq<Stat>, s: Stat, more: Option<seq<Stat>>)
    ensures Join(done + [s], more) == Join(done, Join([s], more))
  {
    if more.Some? { assert (done + [s]) + more.value == done + ([s] + more.value); }
  }

  // --------------------------------------------------------------------- readDir

  /** The first entry that ends beyond `offset`, or `|ss|`. */
  function StartIndex(ss: seq<Stat>, offset: nat, from: nat, length: nat): (k: nat)
    requires from <= |ss|
    ensures from <= k <= |ss|
    decreases |ss| - from
  {
    if from == |ss| then from
    else if length + ComposeLength(ss[from]) > offset then from
    else StartIndex(ss, offset, from + 1, length + ComposeLength(ss[from]))
  }

  /** How far whole entries starting at `k` fit into `count` bytes, `used` of them taken;
      the sum is uint32 arithmetic. */
  function EndIndex(ss: seq<Stat>, k: nat, count: u32, used: nat): (e: nat)
    requires k <= |ss|
    ensures k <= e <= |ss|
    decreases |ss| - k
  {
    if k == |ss| || Wrap32(used + ComposeLength(ss[k])) > count then k
    else EndIndex(ss, k + 1, count, used + ComposeLength(ss[k]))
  }

  /** The entries a read returns. */
  function Window(ss: seq<Stat>, offset: nat, count: u32): seq<Stat> {
    var k := StartIndex(ss, offset, 0, 0);
    ss[k..EndIndex(ss, k, count, 0)]
  }

  function ReadDir(ss: seq<Stat>, offset: nat, count: u32): Data { Entries(Window(ss, offset, count)) }

  /** fs/server.go:358-390 as its two loops; `None` is the panic of composing a stat whose
      size does not fit 16 bits. */
  method ReadDirLoop(ss: seq<Stat>, offset: u64, count: u32) returns (r: Option<Data>)
    ensures r == if Composable(Window(ss, offset, count)) then Some(ReadDir(ss, offset, count)) else None
  {
    hide PutStat, Entries;
    var start := FindStart(ss, offset);
    r := FillFrom(ss, start, count);
  }

  method FindStart(ss: seq<Stat>, offset: u64) returns (start: nat)
    ensures start == StartIndex(ss, offset, 0, 0)
  {
    var length: nat := 0;
    start := 0;
    while start < |ss|
      invariant start <= |ss|
      invariant StartIndex(ss, offset, start, length) == StartIndex(ss, offset, 0, 0)
    {
      if length + ComposeLength(ss[start]) > offset { return; }
      length := length + ComposeLength(ss[start]);
      start := start + 1;
    }
  }

  method FillFrom(ss: seq<Stat>, start: nat, count: u32) returns (r: Option<Data>)
    requires start <= |ss|
    ensures var w := ss[start..EndIndex(ss, start, count, 0)];
            r == if Composable(w) then Some(Entries(w)) else None
  {
    hide PutStat, Entries;
    ghost var end := EndIndex(ss, start, count, 0);
    EntriesNil();
    var contents: Data, k := [], start;
    assert ss[start..start] == [];
    while k < |ss|
      invariant start <= k <= end
      invariant Composable(ss[start..k]) && contents == Entries(ss[start..k])
      invariant EndIndex(ss, k, count, |contents|) == end
    {
      if Wrap32(|contents| + ComposeLength(ss[k])) > count { break; }
      var st := Wire.ComposeStat(ss[k]);
      if st.None? { assert ss[start..end][k - start] == ss[k]; return None; }
      StatFieldsLength(ss[k], []);
      EntriesSnoc(ss[start..k], ss[k]);
      assert ss[start..k] + [ss[k]] == ss[start..k + 1];
      contents := contents + st.value[..];
      k := k + 1;
    }
    return Some(contents);
  }

  lemma EntriesNil()
    ensures Entries([]) == []
  {}

  lemma {:induction false} EntriesSnoc(ss: seq<Stat>, s: Stat)
    ensures Entries(ss + [s]) == Entries(ss) + PutStat(s, [])
  {
    hide PutStat;
    if ss == [] {
      assert ss + [s] == [s];
      assert PutStat(s, []) + [] == PutStat(s, []);
      assert [] + PutStat(s, []) == PutStat(s, []);
    } else {
      EntriesSnoc(ss[1..], s);
      assert (ss + [s])[1..] == ss[1..] + [s];
    }
  }

  // ------------------------------------------------------- reading a whole directory

  lemma {:induction false} OffsetMonotone(ss: seq<Stat>, j: nat, k: nat)
    requires j <= k <= |ss|
    ensures Offset(ss, j) <= Offset(ss, k)
    ensures j < k ==> Offset(ss, j) + StatSize(ss[j]) <= Offset(ss, k)
    decreases k - j
  {
    if j < k {
      OffsetMonotone(ss, j + 1, k);
      assert Offset(ss, j + 1) == Offset(ss, j) + StatSize(ss[j]);
    }
  }

  /** An offset on an entry boundary selects exactly that entry. */
  lemma {:induction false} StartAtBoundary(ss: seq<Stat>, j: nat, k: nat)
    requires Composable(ss) && j <= k <= |ss|
    ensures StartIndex(ss, Offset(ss, k), j, Offset(ss, j)) == k
    decreases k - j
  {
    if j < |ss| { assert Offset(ss, j + 1) == Offset(ss, j) + StatSize(ss[j]); }
    if j < k {
      OffsetMonotone(ss, j, k);
      StartAtBoundary(ss, j + 1, k);
    }
  }

  lemma {:induction false} EntriesLength(ss: seq<Stat>, j: nat, k: nat)
    requires j <= k <= |ss|
    ensures |Entries(ss[j..k])| == Offset(ss, k) - Offset(ss, j)
    decreases k - j
  {
    hide PutStat;
    if j < k {
      EntriesLength(ss, j + 1, k);
      assert ss[j..k][1..] == ss[j + 1..k];
      StatFieldsLength(ss[j], []);
      assert Offset(ss, j + 1) == Offset(ss, j) + StatSize(ss[j]);
    }
  }

  /** The greedy choice: whole entries up to `e` fit in `count`, and one more would not. */
  lemma {:induction false} EndIsGreedy(ss: seq<Stat>, k: nat, count: u32, used: nat)
    requires Composable(ss) && k <= |ss| && used <= count
    requires count + TWO16 < TWO32
    ensures var e := EndIndex(ss, k, count, used);
            && OffsetOf(ss, k, e) + used <= count
            && (e < |ss| ==> OffsetOf(ss, k, e) + StatSize(ss[e]) + used > count)
    decreases |ss| - k
  {
    if k < |ss| && used + StatSize(ss[k]) <= count {
      EndIsGreedy(ss, k + 1, count, used + StatSize(ss[k]));
      assert Offset(ss, k + 1) == Offset(ss, k) + StatSize(ss[k]);
    }
  }

  function OffsetOf(ss: seq<Stat>, j: nat, k: nat): int
    requires j <= |ss| && k <= |ss|
  { Offset(ss, k) - Offset(ss, j) }

  /** A read at an entry boundary returns whole entries, as many as fit, and ends on a
      boundary again. It returns something exactly when there is an entry left and the
      count has room for it; otherwise the client sees end of file. */
  lemma ReadAtBoundary(ss: seq<Stat>, k: nat, count: u32) returns (e: nat)
    requires Composable(ss) && k <= |ss| && count + TWO16 < TWO32
    ensures k <= e <= |ss| && e == EndIndex(ss, k, count, 0)
    ensures ReadDir(ss, Offset(ss, k), count) == Entries(ss[k..e])
    ensures |Entries(ss[k..e])| == Offset(ss, e) - Offset(ss, k) <= count
    ensures e < |ss| ==> Offset(ss, e) - Offset(ss, k) + StatSize(ss[e]) > count
    ensures e > k <==> k < |ss| && StatSize(ss[k]) <= count
    ensures Entries(ss[k..e]) == [] <==> k == |ss| || StatSize(ss[k]) > count
  {
    e := EndIndex(ss, k, count, 0);
    StartAtBoundary(ss, 0, k);
    EndIsGreedy(ss, k, count, 0);
    EntriesLength(ss, k, e);
    if e > k { OffsetMonotone(ss, k, e); }
  }

  lemma {:induction false} StartIs(ss: seq<Stat>, offset: nat, j: nat)
    requires Composable(ss) && j <= |ss| && Offset(ss, j) <= offset
    ensures var k := StartIndex(ss, offset, j, Offset(ss, j));
            Offset(ss, k) <= offset && (k < |ss| ==> offset < Offset(ss, k + 1))
    decreases |ss| - j
  {
    if j < |ss| {
      StatFieldsLength(ss[j], []);
      if Offset(ss, j + 1) <= offset { StartIs(ss, offset, j + 1); }
    }
  }

  /** A read from anywhere inside an entry is a read from its start, and one from beyond the
      last entry is a read from the end. */
  lemma ReadAnywhere(ss: seq<Stat>, offset: nat, count: u32) returns (k: nat)
    requires Composable(ss)
    ensures k <= |ss| && Offset(ss, k) <= offset && (k < |ss| ==> offset < Offset(ss, k + 1))
    ensures ReadDir(ss, offset, count) == ReadDir(ss, Offset(ss, k), count)
  {
    hide Entries;
    k := StartIndex(ss, offset, 0, 0);
    StartIs(ss, offset, 0);
    StartAtBoundary(ss, 0, k);
  }

  lemma {:induction false} EntriesConcat(a: seq<Stat>, b: seq<Stat>)
    ensures Entries(a + b) == Entries(a) + Entries(b)
  {
    hide PutStat;
    if a == [] { assert a + b == b; assert [] + Entries(b) == Entries(b); }
    else {
      EntriesConcat(a[1..], b);
      assert (a + b)[1..] == a[1..] + b;
    }
  }

  /** The bytes a client collects by reading with the given counts, advancing the offset
      by what each read returned and stopping at an empty one (client/client.go:644-683). */
  function Session(ss: seq<Stat>, offset: nat, counts: seq<u32>): Data
    decreases |counts|
  {
    if counts == [] then []
    else
      var d := ReadDir(ss, offset, counts[0]);
      if d == [] then [] else d + Session(ss, offset + |d|, counts[1..])
  }

  /** How many entries such reads get past when they start at the k-th. */
  function Reached(ss: seq<Stat>, k: nat, counts: seq<u32>): (r: nat)
    requires k <= |ss|
    ensures k <= r <= |ss|
    decreases |counts|
  {
    if counts == [] then k
    else
      var e := EndIndex(ss, k, counts[0], 0);
      if e == k then k else Reached(ss, e, counts[1..])
  }

  /** No count that readDir's uint32 sum could go round on. */
  predicate Sane(counts: seq<u32>) { forall i :: 0 <= i < |counts| ==> counts[i] + TWO16 < TWO32 }

  lemma {:induction false} SessionFrom(ss: seq<Stat>, k: nat, counts: seq<u32>)
    requires Composable(ss) && k <= |ss| && Sane(counts)
    ensures Session(ss, Offset(ss, k), counts) == Entries(ss[k..Reached(ss, k, counts)])
    decreases |counts|
  {
    hide Entries, ReadDir, Offset;
    EntriesNil();
    assert ss[k..k] == [];
    if counts != [] {
      var e := ReadAtBoundary(ss, k, counts[0]);
      if e > k {
        SessionFrom(ss, e, counts[1..]);
        EntriesJoin(ss, k, e, Reached(ss, e, counts[1..]));
      }
    }
  }

  lemma EntriesJoin(ss: seq<Stat>, i: nat, j: nat, k: nat)
    requires i <= j <= k <= |ss|
    ensures Entries(ss[i..k]) == Entries(ss[i..j]) + Entries(ss[j..k])
  {
    hide Entries;
    EntriesConcat(ss[i..j], ss[j..k]);
    assert ss[i..j] + ss[j..k] == ss[i..k];
  }

  /** Whatever counts the client uses, it collects the entries once and in order up to
      where it stops, and parsing the bytes gives back that much of the directory. */
  lemma ListingRoundTrip(ss: seq<Stat>, counts: seq<u32>)
    requires Composable(ss) && Sane(counts)
    ensures ParseStats(Session(ss, 0, counts)) == Some(ss[..Reached(ss, 0, counts)])
  {
    hide Entries, ParseStats, Session, Reached;
    var r := Reached(ss, 0, counts);
    SessionFrom(ss, 0, counts);
    assert ss[0..r] == ss[..r];
    EntriesRoundTrip(ss[..r]);
  }

  /** Every entry from the k-th on fits the count. */
  predicate HoldsFrom(ss: seq<Stat>, k: nat, count: u32) { forall j :: k <= j < |ss| ==> StatSize(ss[j]) <= count }

  /** Counts with room for every entry left get to the end. */
  lemma {:induction false} ReachesEnd(ss: seq<Stat>, k: nat, least: u32, counts: seq<u32>)
    requires Composable(ss) && Sane(counts) && k <= |ss| <= k + |counts| && HoldsFrom(ss, k, least)
    requires forall i :: 0 <= i < |counts| ==> least <= counts[i]
    ensures Reached(ss, k, counts) == |ss|
    decreases |counts|
  {
    hide Composable;
    if k < |ss| {
      var e := EndIndex(ss, k, counts[0], 0);
      EndIsGreedy(ss, k, counts[0], 0);
      assert StatSize(ss[k]) <= least <= counts[0];
      ReachesEnd(ss, e, least, counts[1..]);
    }
  }

  /** With room for the largest entry in every count and enough reads the client gets the
      whole directory, and the next read tells it so. */
  lemma WholeListing(ss: seq<Stat>, room: u32, counts: seq<u32>, next: u32)
    requires Composable(ss) && HoldsFrom(ss, 0, room) && |counts| >= |ss| && Sane(counts + [next])
    requires forall i :: 0 <= i < |counts| ==> room <= counts[i]
    ensures ParseStats(Session(ss, 0, counts)) == Some(ss)
    ensures ReadDir(ss, |Session(ss, 0, counts)|, next) == []
  {
    hide Entries, ParseStats, Session, Reached, ReadDir;
    assert (counts + [next])[..|counts|] == counts && (counts + [next])[|counts|] == next;
    assert Sane(counts) by { assert forall i :: 0 <= i < |counts| ==> counts[i] == (counts + [next])[i]; }
    ReachesEnd(ss, 0, room, counts);
    ListingRoundTrip(ss, counts);
    SessionFrom(ss, 0, counts);
    EntriesLength(ss, 0, |ss|);
    var e := ReadAtBoundary(ss, |ss|, next);
    EntriesNil();
    assert ss[..|ss|] == ss;
  }
}
