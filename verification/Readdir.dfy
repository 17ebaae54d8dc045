/** Listing a directory the way the client does it (client/client.go:453-474): reads into a
    bytes.Buffer until one comes back empty. How much a read asks for is what the buffer has
    free, within what a message and the server allow; the buffer grows only when it has less
    than MIN_READ bytes free. So an entry can be too large for a read while the buffer does
    not grow, and the empty reply is taken for the end. */
module Readdir {
  import opened Bytes
  import opened Proto
  import opened Listing

  /** bytes.MinRead */
  const MIN_READ: nat := 512

  /** The capacity a buffer of this capacity and length grows to. */
  type Growth = (nat, nat) -> nat

  /** What ReadFrom promises of it. */
  ghost predicate Grows(grow: Growth) { forall cap: nat, used: nat :: grow(cap, used) >= used + MIN_READ }

  predicate Roomy(cap: nat, used: nat) { cap >= used + MIN_READ }

  function Capacity(grow: Growth, cap: nat, used: nat): nat { if Roomy(cap, used) then cap else grow(cap, used) }

  /** What a read asks for. */
  function Count(free: nat, most: u32): u32 { if free < most then free else most }

  function Least(most: u32): u32 { Count(MIN_READ, most) }

  /** With 512 bytes free or more the buffer stays as it is and a read asks for what is free;
      with less it grows, and a read asks for 512 at least; in both cases within what one
      reply may carry. */
  lemma AskedFor(grow: Growth, cap: nat, used: nat, most: u32)
    requires Grows(grow)
    ensures var size := Capacity(grow, cap, used);
            && used <= size
            && var asked := Count(size - used, most);
            && asked <= most
            && (if cap >= used + 512 then size == cap && (asked == cap - used || asked == most)
                else asked >= 512 || asked == most)
  {}

  /** How many entries the reads get past, from the k-th on. */
  ghost function Stops(ss: seq<Stat>, k: nat, cap: nat, most: u32, grow: Growth): (r: nat)
    requires k <= |ss| && Grows(grow)
    ensures k <= r <= |ss|
    decreases |ss| - k
  {
    var used := Offset(ss, k);
    var c := Capacity(grow, cap, used);
    var e := EndIndex(ss, k, Count(c - used, most), 0);
    if e == k then k else Stops(ss, e, c, most, grow)
  }

  /** How many entries they get past before the buffer has to grow. */
  function Filled(ss: seq<Stat>, k: nat, cap: nat, most: u32): (r: nat)
    requires k <= |ss|
    ensures k <= r <= |ss|
    decreases |ss| - k
  {
    var used := Offset(ss, k);
    if !Roomy(cap, used) then k
    else
      var e := EndIndex(ss, k, Count(cap - used, most), 0);
      if e == k then k else Filled(ss, e, cap, most)
  }

  /** Until then it does not matter how it would grow. */
  lemma {:induction false} FilledFirst(ss: seq<Stat>, k: nat, cap: nat, most: u32, grow: Growth)
    requires k <= |ss| && Grows(grow)
    ensures var j := Filled(ss, k, cap, most);
            Stops(ss, k, cap, most, grow) == if Roomy(cap, Offset(ss, j)) then j else Stops(ss, j, cap, most, grow)
    decreases |ss| - k
  {
    hide EndIndex, Offset;
    var used := Offset(ss, k);
    if Roomy(cap, used) {
      var e := EndIndex(ss, k, Count(cap - used, most), 0);
      if e > k { FilledFirst(ss, e, cap, most, grow); }
    }
  }

  /** Entries that fit the least a read can ask for are all passed. */
  lemma {:induction false} PassesAll(ss: seq<Stat>, k: nat, cap: nat, most: u32, grow: Growth)
    requires Composable(ss) && k <= |ss| && Grows(grow) && most + TWO16 < TWO32 && HoldsFrom(ss, k, Least(most))
    ensures Stops(ss, k, cap, most, grow) == |ss|
    decreases |ss| - k
  {
    hide Composable, Offset;
    var used := Offset(ss, k);
    var c := Capacity(grow, cap, used);
    var count := Count(c - used, most);
    var e := EndIndex(ss, k, count, 0);
    EndIsGreedy(ss, k, count, 0);
    if k < |ss| {
      assert StatSize(ss[k]) <= Least(most) <= count;
      PassesAll(ss, e, c, most, grow);
    }
  }

  /** The least growth there can be. */
  function Tight(cap: nat, used: nat): nat { used + MIN_READ }

  /** A larger entry is not passed when the buffer grows no more than it must. */
  lemma {:induction false} TightStops(ss: seq<Stat>, k: nat, cap: nat, most: u32, j: nat)
    requires Composable(ss) && k <= j < |ss| && most + TWO16 < TWO32 && StatSize(ss[j]) > Least(most)
    requires !Roomy(cap, Offset(ss, k))
    ensures Grows(Tight) && Stops(ss, k, cap, most, Tight) <= j
    decreases |ss| - k
  {
    hide Composable;
    var used := Offset(ss, k);
    var e := EndIndex(ss, k, Least(most), 0);
    EndIsGreedy(ss, k, Least(most), 0);
    OffsetMonotone(ss, k, j);
    if e > j { OffsetMonotone(ss, j, e); }
    assert e <= j;
    if e > k {
      OffsetMonotone(ss, k, e);
      TightStops(ss, e, used + MIN_READ, most, j);
    }
  }

  /** The whole directory is listed, however the buffer grows. */
  ghost predicate Complete(ss: seq<Stat>, cap: nat, most: u32) {
    forall grow: Growth :: Grows(grow) ==> Stops(ss, 0, cap, most, grow) == |ss|
  }

  /** With a buffer of this capacity to begin with that is so exactly when its reads get to
      the end before it must grow, or to a point where it must and beyond which every entry
      fits the least a read can ask for. */
  lemma CompleteIff(ss: seq<Stat>, cap: nat, most: u32)
    requires Composable(ss) && most + TWO16 < TWO32
    ensures var k := Filled(ss, 0, cap, most);
            Complete(ss, cap, most) <==>
              k == |ss| || (!Roomy(cap, Offset(ss, k)) && HoldsFrom(ss, k, Least(most)))
  {
    hide Stops, Filled, Composable, Offset;
    var k := Filled(ss, 0, cap, most);
    if k == |ss| || (!Roomy(cap, Offset(ss, k)) && HoldsFrom(ss, k, Least(most))) {
      forall grow: Growth | Grows(grow) ensures Stops(ss, 0, cap, most, grow) == |ss| {
        FilledFirst(ss, 0, cap, most, grow);
        if !Roomy(cap, Offset(ss, k)) { PassesAll(ss, k, cap, most, grow); }
      }
    } else {
      assert Grows(Tight);
      FilledFirst(ss, 0, cap, most, Tight);
      if !Roomy(cap, Offset(ss, k)) {
        var j :| k <= j < |ss| && StatSize(ss[j]) > Least(most);
        TightStops(ss, k, cap, most, j);
      }
    }
  }

  /** Directories that are cut short without an error: more than 65 entries of 1000 bytes.
      With messages of 65535 bytes the buffer starts with 65536, and the server's iounit
      bounds each read by 16384. Four reads get sixteen entries each, the next one more, and
      the 536 bytes then free are enough for the buffer not to grow, but not for an entry. */
  lemma LostEntries(ss: seq<Stat>, st: Stat, grow: Growth)
    requires |ss| > 65 && StatSize(st) == 1000 && (forall i :: 0 <= i < |ss| ==> ss[i] == st) && Grows(grow)
    ensures Stops(ss, 0, 65536, 16384, grow) == 65 && !Complete(ss, 65536, 16384)
  {
    hide Filled, Stops;
    FilledUniform(ss, st, 0, 16);
    FilledUniform(ss, st, 16, 16);
    FilledUniform(ss, st, 32, 16);
    FilledUniform(ss, st, 48, 16);
    FilledUniform(ss, st, 64, 1);
    FilledUniform(ss, st, 65, 0);
    Uniform(ss, st, 65);
    FilledFirst(ss, 0, 65536, 16384, grow);
  }

  lemma FilledUniform(ss: seq<Stat>, st: Stat, k: nat, n: nat)
    requires k + n < |ss| && StatSize(st) == 1000 && forall i :: 0 <= i < |ss| ==> ss[i] == st
    requires Roomy(65536, k * 1000) && n * 1000 <= Count(65536 - k * 1000, 16384) < (n + 1) * 1000
    ensures Filled(ss, k, 65536, 16384) == if n == 0 then k else Filled(ss, k + n, 65536, 16384)
  {
    Uniform(ss, st, k);
    UniformEnd(ss, st, k, n, Count(65536 - k * 1000, 16384));
    hide EndIndex, Offset;
  }

  lemma UniformEnd(ss: seq<Stat>, st: Stat, k: nat, n: nat, count: u32)
    requires k + n < |ss| && StatSize(st) == 1000 && forall i :: 0 <= i < |ss| ==> ss[i] == st
    requires n * 1000 <= count < (n + 1) * 1000 && count + TWO16 < TWO32
    ensures EndIndex(ss, k, count, 0) == k + n
  {
    hide EndIndex, Offset;
    var e := EndIndex(ss, k, count, 0);
    EndIsGreedy(ss, k, count, 0);
    Uniform(ss, st, k);
    Uniform(ss, st, e);
  }

  lemma {:induction false} Uniform(ss: seq<Stat>, st: Stat, k: nat)
    requires k <= |ss| && forall i :: 0 <= i < k ==> ss[i] == st
    ensures Offset(ss, k) == k * StatSize(st)
  { if k > 0 { Uniform(ss, st, k - 1); } }
}
