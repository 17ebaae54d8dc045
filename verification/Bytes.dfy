/** Little-endian integers and counted strings: how proto/marshall.go moves Go values
    through byte slices. `Put*` prepends an encoding to the bytes that follow it;
    `Take*` strips one from the front, with the source's fallback on a short slice. */
module Bytes {
  type byte = x: int | 0 <= x < 0x100
  type u16 = x: int | 0 <= x < 0x1_0000
  type u32 = x: int | 0 <= x < 0x1_0000_0000
  type u64 = x: int | 0 <= x < 0x1_0000_0000_0000_0000
  type Data = seq<byte>

  const TWO16: int := 0x1_0000
  const TWO32: int := 0x1_0000_0000
  const TWO64: int := 0x1_0000_0000_0000_0000

  datatype Option<+T> = None | Some(value: T) {
    predicate IsFailure() { None? }
    function PropagateFailure<U>(): Option<U>
      requires None?
    { None }
    function Extract(): T
      requires Some?
    { value }
  }

  /** Conversion to uint16, uint32 and uint64. */
  function Wrap16(n: int): u16 { if 0 <= n < 0x1_0000 then n else n % 0x1_0000 }
  function Wrap32(n: int): u32 { if 0 <= n < 0x1_0000_0000 then n else n % 0x1_0000_0000 }
  function Wrap64(n: int): u64 {
    if 0 <= n < 0x1_0000_0000_0000_0000 then n else n % 0x1_0000_0000_0000_0000
  }

  function Pow256(w: nat): nat { if w == 0 then 1 else 256 * Pow256(w - 1) }

  function Byte(v: nat, i: nat): byte { PowPositive(i); v / Pow256(i) % 256 }

  lemma {:induction false} PowPositive(w: nat)
    ensures Pow256(w) > 0
  {
    if w > 0 { PowPositive(w - 1); }
  }

  /** The `w` low-order bytes of `v`, least significant first. */
  function LE(v: nat, w: nat): Data { seq(w, i requires 0 <= i < w => Byte(v, i)) }

  function FromLE(b: Data): nat { if b == [] then 0 else b[0] + 256 * FromLE(b[1..]) }

  lemma {:induction false} FromLEBound(b: Data)
    ensures FromLE(b) < Pow256(|b|)
  {
    if b != [] { FromLEBound(b[1..]); }
  }

  /** Decoding undoes encoding exactly on the values that fit the width. */
  lemma {:induction false} LERoundTrip(v: nat, w: nat)
    ensures FromLE(LE(v, w)) == v <==> v < Pow256(w)
  {
    FromLEBound(LE(v, w));
    if w > 0 && v < Pow256(w) {
      LERoundTrip(v / 256, w - 1);
      LETail(v, w);
    }
  }

  lemma LETail(v: nat, w: nat)
    requires w > 0
    ensures LE(v, w)[0] == v % 256 && LE(v, w)[1..] == LE(v / 256, w - 1)
  {
    forall i: nat | i < w - 1 ensures Byte(v, i + 1) == Byte(v / 256, i) {
      PowPositive(i);
      DivDiv(v, Pow256(i));
    }
  }

  lemma DivDiv(v: nat, p: nat)
    requires p > 0
    ensures v / (256 * p) == v / 256 / p
  {
    var a := v / 256;
    var q, r := a / p, a % p;
    assert v == 256 * (q * p + r) + v % 256;
    assert 0 <= 256 * r + v % 256 < 256 * p;
    DivUnique(v, 256 * p, q, 256 * r + v % 256);
  }

  lemma DivUnique(v: nat, m: nat, q: nat, r: nat)
    requires v == q * m + r && r < m
    ensures v / m == q
  {
    var q', r' := v / m, v % m;
    assert v == q' * m + r';
    assert (q - q') * m == r' - r;
    if q > q' { Scale(q - q', m); } else if q < q' { Scale(q' - q, m); }
  }

  lemma Scale(k: nat, m: nat)
    requires k >= 1
    ensures k * m >= m
  {}

  // ---- proto/marshall.go:23-56: a short slice yields the zero value and no bytes ----

  function TakeLE(b: Data, w: nat): (nat, Data) {
    if |b| < w then (0, []) else (FromLE(b[..w]), b[w..])
  }

  lemma TakeLEBound(b: Data, w: nat)
    ensures TakeLE(b, w).0 < Pow256(w)
  {
    if |b| >= w { FromLEBound(b[..w]); }
    else { LERoundTrip(0, w); FromLEBound(LE(0, w)); }
  }

  function Take16(b: Data): (u16, Data) {
    TakeLEBound(b, 2); assert Pow256(2) == TWO16;
    TakeLE(b, 2)
  }

  function Take32(b: Data): (u32, Data) {
    TakeLEBound(b, 4); assert Pow256(4) == TWO32;
    TakeLE(b, 4)
  }

  function Take64(b: Data): (u64, Data) {
    TakeLEBound(b, 8); assert Pow256(8) == TWO64;
    TakeLE(b, 8)
  }

  function TakeString(b: Data): (Data, Data) {
    var (n, rest) := Take16(b);
    if |rest| < n then ([], []) else (rest[..n], rest[n..])
  }

  // ---- proto/marshall.go:58-77 ----

  function Put16(v: u16, rest: Data): Data { LE(v, 2) + rest }
  function Put32(v: u32, rest: Data): Data { LE(v, 4) + rest }
  function Put64(v: u64, rest: Data): Data { LE(v, 8) + rest }

  /** The length prefix is `uint16(len(s))`, so it wraps on a longer string. */
  function PutString(s: Data, rest: Data): Data { Put16(Wrap16(|s|), s + rest) }

  lemma TakePut(v: nat, w: nat, rest: Data)
    requires v < Pow256(w)
    ensures TakeLE(LE(v, w) + rest, w) == (v, rest)
  {
    var b := LE(v, w) + rest;
    assert b[..w] == LE(v, w) && b[w..] == rest;
    LERoundTrip(v, w);
  }

  lemma TakePut16(v: u16, rest: Data)
    ensures Take16(Put16(v, rest)) == (v, rest)
  { assert Pow256(2) == TWO16; TakePut(v, 2, rest); }

  lemma TakePut32(v: u32, rest: Data)
    ensures Take32(Put32(v, rest)) == (v, rest)
  { assert Pow256(4) == TWO32; TakePut(v, 4, rest); }

  lemma TakePut64(v: u64, rest: Data)
    ensures Take64(Put64(v, rest)) == (v, rest)
  { assert Pow256(8) == TWO64; TakePut(v, 8, rest); }

  /** A string survives the trip exactly when its length fits the 16-bit prefix. */
  lemma TakePutString(s: Data, rest: Data)
    ensures TakeString(PutString(s, rest)) == (s, rest) <==> |s| < TWO16
  {
    TakePut16(Wrap16(|s|), s + rest);
    if |s| < TWO16 {
      assert (s + rest)[..|s|] == s && (s + rest)[|s|..] == rest;
    } else {
      assert |TakeString(PutString(s, rest)).0| < TWO16;
    }
  }

  // ---- sequences of chunks ----

  function Flat(cs: seq<Data>): Data { if cs == [] then [] else cs[0] + Flat(cs[1..]) }

  lemma Associates(a: Data, b: Data, c: Data)
    ensures a + (b + c) == (a + b) + c
  {}

  lemma {:induction false} FlatSnoc(cs: seq<Data>, c: Data)
    ensures Flat(cs + [c]) == Flat(cs) + c
  {
    if cs == [] { assert cs + [c] == [c]; }
    else { FlatSnoc(cs[1..], c); assert (cs + [c])[1..] == cs[1..] + [c]; }
  }

  lemma {:induction false} FlatConcat(a: seq<Data>, b: seq<Data>)
    ensures Flat(a + b) == Flat(a) + Flat(b)
  {
    if a == [] { assert a + b == b && [] + Flat(b) == Flat(b); }
    else {
      FlatConcat(a[1..], b);
      assert (a + b)[0] == a[0] && (a + b)[1..] == a[1..] + b;
      Associates(a[0], Flat(a[1..]), Flat(b));
    }
  }
}
