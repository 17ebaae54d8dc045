/** The way back: StreamReadWriter.Write into the shared `incoming` channel and
    baseStream.Read out of it (fs/streams.go:78-92, 179-208), under any interleaving of
    any number of writers, one reading thread and Close. */
module Duplex {
  import opened Bytes

  const CAPACITY: nat := 10

  /** Outside Read; before its first select; in the inner select, after the first one
      found `incoming` empty. */
  datatype Reader = Outside | First(max: nat) | Second(max: nat)

  /** What a call of Read with room for `max` bytes returned: bytes `lo..lo+|d|` of the `nth`
      accepted write, counted from one, or end of file. */
  datatype Result = Bytes(nth: nat, lo: nat, max: nat, d: Data) | Eof

  /** `writers` are the threads past Write's first check. The last four fields are
      history: accepted writes, how many of them were taken off the channel, how much of
      the last one taken was returned, and the results of Read. */
  datatype State = State(incoming: seq<Data>, leftover: Data, closed: bool,
                         writers: map<nat, Data>, reader: Reader,
                         accepted: seq<Data>, taken: nat, pos: nat, results: seq<Result>)

  datatype Action =
    | EnterWrite(t: nat, bs: Data) | Accept(t: nat) | Refuse(t: nat) | Close
    | EnterRead(max: nat) | TryFirst | TakeSecond | EofSecond

  function Init(): State { State([], [], false, map[], Outside, [], 0, 0, []) }

  function Min(a: nat, b: nat): nat { if a < b then a else b }

  /** `n = copy(p, s.read)` and the return. */
  function Return(s: State, max: nat): State {
    var n := Min(max, |s.leftover|);
    s.(leftover := s.leftover[n..], pos := s.pos + n, reader := Outside,
       results := s.results + [Bytes(s.taken, s.pos, max, s.leftover[..n])])
  }

  /** A chunk comes off the channel; an empty one makes Read go round its loop again. */
  function Receive(s: State, max: nat): State
    requires s.incoming != []
  {
    var s' := s.(incoming := s.incoming[1..], leftover := s.incoming[0], taken := s.taken + 1, pos := 0);
    if s.incoming[0] == [] then s'.(reader := First(max)) else Return(s', max)
  }

  function Next(s: State, a: Action): State {
    match a
    case EnterWrite(t, bs) =>
      if t in s.writers || s.closed then s else s.(writers := s.writers[t := bs])
    case Accept(t) =>
      if t !in s.writers || |s.incoming| >= CAPACITY then s
      else s.(incoming := s.incoming + [s.writers[t]], accepted := s.accepted + [s.writers[t]],
              writers := s.writers - {t})
    case Refuse(t) => if t !in s.writers || !s.closed then s else s.(writers := s.writers - {t})
    case Close => s.(closed := true)
    case EnterRead(max) =>
      if s.reader != Outside then s
      else if s.leftover == [] then s.(reader := First(max))
      else Return(s, max)
    case TryFirst =>
      if !s.reader.First? then s
      else if s.incoming == [] then s.(reader := Second(s.reader.max))
      else Receive(s, s.reader.max)
    case TakeSecond =>
      if !s.reader.Second? || s.incoming == [] then s else Receive(s, s.reader.max)
    case EofSecond =>
      if !s.reader.Second? || !s.closed then s
      else s.(reader := Outside, results := s.results + [Eof])
  }

  function Run(s: State, acts: seq<Action>): State
    decreases |acts|
  { if acts == [] then s else Run(Next(s, acts[0]), acts[1..]) }

  // ------------------------------------------------------------- invariant

  /** The bytes all calls of Read returned. */
  function Got(rs: seq<Result>): Data {
    if rs == [] then []
    else Got(rs[..|rs| - 1]) + if rs[|rs| - 1].Bytes? then rs[|rs| - 1].d else []
  }

  /** A result lies inside a single accepted write, and is as much as fits of what was left
      of it, which was something. */
  predicate WithinChunk(r: Result, accepted: seq<Data>) {
    r.Bytes? ==>
      && 0 < r.nth <= |accepted| && r.lo < |accepted[r.nth - 1]|
      && var left := |accepted[r.nth - 1]| - r.lo;
      && |r.d| == (if r.max < left then r.max else left)
      && r.d == accepted[r.nth - 1][r.lo..r.lo + |r.d|]
  }

  /** The leftover is the unreturned part of the last chunk taken. */
  predicate LeftoverOk(s: State) {
    if s.taken == 0 then s.leftover == []
    else s.taken <= |s.accepted| && s.pos <= |s.accepted[s.taken - 1]|
         && s.leftover == s.accepted[s.taken - 1][s.pos..]
  }

  ghost predicate Inv(s: State) {
    && s.taken <= |s.accepted| && s.incoming == s.accepted[s.taken..]
    && |s.incoming| <= CAPACITY
    && Got(s.results) + s.leftover == Flat(s.accepted[..s.taken])
    && LeftoverOk(s)
    && (!s.reader.Outside? ==> s.leftover == [])
    && (forall i :: 0 <= i < |s.results| ==> WithinChunk(s.results[i], s.accepted))
  }

  lemma GotSnoc(rs: seq<Result>, r: Result)
    ensures Got(rs + [r]) == Got(rs) + if r.Bytes? then r.d else []
  {
    assert (rs + [r])[..|rs|] == rs;
  }

  lemma Cut(g: Data, c: Data, pos: nat, n: nat)
    requires pos + n <= |c|
    ensures c[pos..][..n] == c[pos..pos + n] && c[pos..][n..] == c[pos + n..]
    ensures (g + c[pos..][..n]) + c[pos..][n..] == g + c[pos..]
  {}

  lemma ReturnedWithin(s: State, max: nat, n: nat)
    requires LeftoverOk(s) && s.taken > 0 && s.leftover != []
    requires n == if max < |s.leftover| then max else |s.leftover|
    ensures WithinChunk(Bytes(s.taken, s.pos, max, s.leftover[..n]), s.accepted)
    ensures LeftoverOk(s.(leftover := s.leftover[n..], pos := s.pos + n))
  {
    Cut([], s.accepted[s.taken - 1], s.pos, n);
  }

  lemma ReturnKeeps(s: State, max: nat)
    requires Inv(s.(reader := Outside)) && s.leftover != []
    ensures Inv(Return(s, max))
  {
    hide WithinChunk, Flat, Got;
    var n := Min(max, |s.leftover|);
    ReturnedWithin(s, max, n);
    Cut(Got(s.results), s.leftover, 0, n);
    assert s.leftover[0..] == s.leftover;
    GotSnoc(s.results, Bytes(s.taken, s.pos, max, s.leftover[..n]));
    hide LeftoverOk;
  }

  lemma ReceiveKeeps(s: State, max: nat)
    requires Inv(s) && s.incoming != [] && !s.reader.Outside?
    ensures Inv(Receive(s, max))
  {
    var s' := s.(incoming := s.incoming[1..], leftover := s.incoming[0], taken := s.taken + 1, pos := 0);
    assert s.accepted[..s.taken + 1] == s.accepted[..s.taken] + [s.incoming[0]];
    FlatSnoc(s.accepted[..s.taken], s.incoming[0]);
    assert Got(s.results) + [] == Got(s.results);
    assert Inv(s'.(reader := Outside));
    if s.incoming[0] != [] { ReturnKeeps(s', max); }
  }

  lemma AcceptKeeps(s: State, t: nat)
    requires Inv(s)
    ensures Inv(Next(s, Accept(t)))
  {
    hide Got, Flat;
    if t in s.writers && |s.incoming| < CAPACITY {
      var a' := s.accepted + [s.writers[t]];
      assert a'[s.taken..] == s.accepted[s.taken..] + [s.writers[t]];
      assert a'[..s.taken] == s.accepted[..s.taken];
      forall i | 0 <= i < |s.results| ensures WithinChunk(s.results[i], a') {
        WithinMore(s.results[i], s.accepted, s.writers[t]);
      }
      hide WithinChunk;
    }
  }

  lemma WithinMore(r: Result, accepted: seq<Data>, d: Data)
    requires WithinChunk(r, accepted)
    ensures WithinChunk(r, accepted + [d])
  {}

  lemma NextKeeps(s: State, a: Action)
    requires Inv(s)
    ensures Inv(Next(s, a))
  {
    hide Got, Flat;
    match a
    case Accept(t) => AcceptKeeps(s, t);
    case EnterRead(max) => if s.reader == Outside && s.leftover != [] { ReturnKeeps(s, max); }
    case TryFirst => if s.reader.First? && s.incoming != [] { ReceiveKeeps(s, s.reader.max); }
    case TakeSecond => if s.reader.Second? && s.incoming != [] { ReceiveKeeps(s, s.reader.max); }
    case EofSecond =>
      if s.reader.Second? && s.closed {
        GotSnoc(s.results, Eof);
        assert Got(s.results) + [] == Got(s.results);
      }
    case _ =>
  }

  lemma {:induction false} RunKeeps(s: State, acts: seq<Action>)
    requires Inv(s)
    ensures Inv(Run(s, acts))
    decreases |acts|
  {
    if acts != [] { NextKeeps(s, acts[0]); RunKeeps(Next(s, acts[0]), acts[1..]); }
  }

  /** In every run: what Read returned, plus the rest of the current chunk, plus the
      queued chunks, are exactly the accepted writes in the order of acceptance; no single
      Read returns bytes of two writes, and each returns as much as fits. */
  lemma ChunkIntegrity(acts: seq<Action>)
    ensures var s := Run(Init(), acts);
            && Got(s.results) + s.leftover + Flat(s.incoming) == Flat(s.accepted)
            && (forall i :: 0 <= i < |s.results| ==> WithinChunk(s.results[i], s.accepted))
  {
    assert Inv(Init());
    RunKeeps(Init(), acts);
    var s := Run(Init(), acts);
    FlatConcat(s.accepted[..s.taken], s.accepted[s.taken..]);
    assert s.accepted == s.accepted[..s.taken] + s.accepted[s.taken..];
  }

  /** End of file takes nothing with it: it is reported only on a closed stream whose
      current chunk is used up, and everything still queued stays queued. */
  lemma EofDiscardsNothing(acts: seq<Action>)
    ensures var s := Run(Init(), acts);
            var s' := Next(s, EofSecond);
            s' != s ==>
              && s.closed && s.leftover == [] && s'.incoming == s.incoming
              && Got(s'.results) + Flat(s'.incoming) == Flat(s'.accepted)
  {
    assert Inv(Init());
    RunKeeps(Init(), acts);
    ChunkIntegrity(acts);
    var s := Run(Init(), acts);
    hide Run, Flat;
    GotSnoc(s.results, Eof);
    assert Got(s.results) + [] == Got(s.results);
  }

  /** The k-th step was the first select of the Read that is waiting now, and it found the
      channel empty. */
  ghost predicate SawEmpty(acts: seq<Action>, k: nat) {
    && k < |acts| && acts[k] == TryFirst
    && Run(Init(), acts[..k]).reader.First? && Run(Init(), acts[..k]).incoming == []
    && forall j :: k < j <= |acts| ==> Run(Init(), acts[..j]).reader.Second?
  }

  /** A Read gets to where it may report the end of file only by way of an empty channel: what
      was accepted before it looked is returned first. */
  lemma {:induction false} EofSawEmpty(acts: seq<Action>)
    requires Run(Init(), acts).reader.Second?
    ensures exists k: nat :: SawEmpty(acts, k)
    decreases |acts|
  {
    hide Run;
    if acts == [] {
      RunNone(Init());
      assert false;
    }
    var n := |acts| - 1;
    var s := Run(Init(), acts[..n]);
    assert acts == acts[..n] + [acts[n]] && acts[..|acts|] == acts;
    RunSnoc(Init(), acts[..n], acts[n]);
    if s.reader.Second? {
      EofSawEmpty(acts[..n]);
      var k: nat :| SawEmpty(acts[..n], k);
      assert acts[..n][..k] == acts[..k];
      forall j | k < j <= |acts| ensures Run(Init(), acts[..j]).reader.Second? {
        if j <= n { assert acts[..n][..j] == acts[..j]; }
      }
      assert SawEmpty(acts, k);
    } else {
      assert SawEmpty(acts, n);
    }
  }

  lemma RunNone(s: State)
    ensures Run(s, []) == s
  {}

  /** After Close no write gets in but those that were past the first check by then. */
  lemma NoneAfterClose(s: State, acts: seq<Action>)
    ensures var s' := Run(s, [Close] + acts);
            && s'.closed && s'.writers.Keys <= s.writers.Keys && s.accepted <= s'.accepted
            && |s'.accepted| + |s'.writers| <= |s.accepted| + |s.writers|
  {
    assert ([Close] + acts)[1..] == acts;
    Closing(s.(closed := true), acts);
  }

  lemma {:induction false} Closing(s: State, acts: seq<Action>)
    requires s.closed
    ensures var s' := Run(s, acts);
            && s'.closed && s'.writers.Keys <= s.writers.Keys && s.accepted <= s'.accepted
            && |s'.accepted| + |s'.writers| <= |s.accepted| + |s.writers|
    decreases |acts|
  {
    hide Next;
    if acts != [] {
      ClosingStep(s, acts[0]);
      Closing(Next(s, acts[0]), acts[1..]);
    }
  }

  lemma ClosingStep(s: State, a: Action)
    requires s.closed
    ensures var s' := Next(s, a);
            && s'.closed && s'.writers.Keys <= s.writers.Keys && s.accepted <= s'.accepted
            && |s'.accepted| + |s'.writers| <= |s.accepted| + |s.writers|
  {
    if a.Accept? || a.Refuse? {
      if a.t in s.writers { OneOut(s.writers, a.t); }
    } else {
      OthersKeep(s, a);
      hide Next;
    }
  }

  lemma OthersKeep(s: State, a: Action)
    requires s.closed && !a.Accept? && !a.Refuse?
    ensures var s' := Next(s, a); s'.closed && s'.writers == s.writers && s'.accepted == s.accepted
  {}

  lemma OneOut(writers: map<nat, Data>, t: nat)
    requires t in writers
    ensures |writers - {t}| == |writers| - 1 && (writers - {t}).Keys == writers.Keys - {t}
  {
    assert (writers - {t}).Keys == writers.Keys - {t};
  }

  // ------------------------------------------------------------ the object

  lemma {:induction false} RunSnoc(s: State, acts: seq<Action>, a: Action)
    ensures Run(s, acts + [a]) == Next(Run(s, acts), a)
    decreases |acts|
  {
    hide Next;
    if acts == [] {
      assert acts + [a] == [a] && [a][1..] == [];
    } else {
      RunSnoc(Next(s, acts[0]), acts[1..], a);
      assert (acts + [a])[1..] == acts[1..] + [a];
    }
  }

  /** The same fields as an object, each call running without interference. */
  class Pipe {
    var incoming: seq<Data>
    var leftover: Data
    var closed: bool
    ghost var accepted: seq<Data>
    ghost var taken: nat
    ghost var pos: nat
    ghost var results: seq<Result>

    ghost function Pending(): Data
      reads this
    { leftover + Flat(incoming) }

    ghost function Value(): State
      reads this
    { State(incoming, leftover, closed, map[], Outside, accepted, taken, pos, results) }

    constructor ()
      ensures Pending() == [] && Value() == Init()
    {
      incoming, leftover, closed := [], [], false;
      accepted, taken, pos, results := [], 0, 0, [];
    }

    /** fs/streams.go:78-92: refused after Close, blocked on a full channel, else accepted
        whole. */
    method Write(bs: Data, ghost t: nat) returns (eof: bool, blocked: bool)
      modifies `incoming, `accepted
      ensures eof <==> closed
      ensures blocked <==> !closed && |old(incoming)| >= CAPACITY
      ensures incoming == if eof || blocked then old(incoming) else old(incoming) + [bs]
      ensures Pending() == if eof || blocked then old(Pending()) else old(Pending()) + bs
      ensures !blocked ==> Value() == Run(old(Value()), [EnterWrite(t, bs), Accept(t)])
    {
      hide Flat;
      assert [EnterWrite(t, bs), Accept(t)] == [EnterWrite(t, bs)] + [Accept(t)];
      RunSnoc(Value(), [EnterWrite(t, bs)], Accept(t));
      RunSnoc(Value(), [], EnterWrite(t, bs));
      assert [] + [EnterWrite(t, bs)] == [EnterWrite(t, bs)];
      if closed { return true, false; }
      if |incoming| >= CAPACITY { return false, true; }
      FlatSnoc(incoming, bs);
      assert map[t := bs] - {t} == map[];
      incoming, accepted := incoming + [bs], accepted + [bs];
      return false, false;
    }

    /** fs/streams.go:218-232 */
    method Close()
      modifies `closed
      ensures closed && Value() == Run(old(Value()), [Action.Close])
    {
      RunOne(Value(), Action.Close);
      closed := true;
    }

    /** The loop: a chunk comes off the queue until one has bytes. */
    method Fill(max: nat, ghost s0: State, ghost done: seq<Action>) returns (ghost acts: seq<Action>)
      requires leftover == [] && Run(s0, done) == Value().(reader := First(max))
      modifies `incoming, `leftover, `taken, `pos
      ensures Pending() == old(Pending()) && (leftover == [] ==> incoming == [])
      ensures leftover == [] || leftover in old(incoming)
      ensures Run(s0, acts) == if leftover == [] then Value().(reader := Second(max)) else Return(Value(), max)
    {
      hide Flat, Run;
      acts := done;
      while true
        invariant leftover == [] && Pending() == old(Pending())
        invariant forall c :: c in incoming ==> c in old(incoming)
        invariant Run(s0, acts) == Value().(reader := First(max))
        decreases |incoming|
      {
        FlatStep(incoming);
        RunSnoc(s0, acts, TryFirst);
        acts := acts + [TryFirst];
        if incoming == [] { return; }
        leftover := incoming[0];
        incoming := incoming[1..];
        taken, pos := taken + 1, 0;
        if leftover != [] { return; }
      }
    }

    /** `n = copy(p, s.read)` */
    method CopyOut(max: nat) returns (d: Data)
      requires leftover != []
      modifies `leftover, `pos, `results
      ensures Value() == Return(old(Value()), max) && d + leftover == old(leftover)
      ensures |d| == if max < |old(leftover)| then max else |old(leftover)|
      ensures d + Pending() == old(Pending()) && results == old(results) + [Bytes(taken, old(pos), max, d)]
    {
      hide Flat;
      var n := if max < |leftover| then max else |leftover|;
      d := leftover[..n];
      assert d + leftover[n..] == leftover;
      assert d + (leftover[n..] + Flat(incoming)) == (d + leftover[n..]) + Flat(incoming);
      results, pos := results + [Bytes(taken, pos, max, d)], pos + n;
      leftover := leftover[n..];
    }

    /** fs/streams.go:179-208: the queue is preferred over the close signal, and empty
        chunks are skipped. The result is the front of a single chunk, as much as fits. */
    method Read(max: nat) returns (d: Data, eof: bool, blocked: bool, ghost acts: seq<Action>)
      modifies `incoming, `leftover, `taken, `pos, `results
      ensures d + Pending() == old(Pending())
      ensures eof || blocked <==> old(Pending()) == []
      ensures eof ==> closed && incoming == []
      ensures blocked ==> !closed && incoming == []
      ensures !eof && !blocked ==> |d| == if max < |d + leftover| then max else |d + leftover|
      ensures !eof && !blocked ==> d + leftover == old(leftover) || d + leftover in old(incoming)
      ensures !blocked ==> Value() == Run(old(Value()), acts)
    {
      hide Run, Return, Flat;
      ghost var s0 := Value();
      acts := [EnterRead(max)];
      RunOne(s0, EnterRead(max));
      FlatStep(incoming);
      if leftover == [] { acts := Fill(max, s0, acts); }
      if leftover == [] {
        FlatStep(incoming);
        RunSnoc(s0, acts, EofSecond);
        if closed { acts, results := acts + [EofSecond], results + [Eof]; }
        return [], closed, !closed, acts;
      }
      d := CopyOut(max);
      eof, blocked := false, false;
    }
  }

  lemma RunOne(s: State, a: Action)
    ensures Run(s, [a]) == Next(s, a)
  { assert [a][1..] == []; }

  lemma FlatStep(cs: seq<Data>)
    ensures cs == [] ==> Flat(cs) == [] && [] + Flat(cs) == []
    ensures cs != [] ==> [] + Flat(cs) == cs[0] + Flat(cs[1..])
  {}
}
