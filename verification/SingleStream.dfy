/** SingleStream (fs/streams.go:510-593) before Close: any number of writers and readers
    pass one token through two semaphores. A run is any list of steps of any threads; a
    step that would block leaves the state alone. */
module SingleStream {
  import opened Bytes

  /** Where a thread is inside Write or Read; a thread outside both is not listed. */
  datatype Pc = Writing(p: Data) | Stored | Reading(max: nat) | Copied

  /** `accepted` are the writes stored so far and `got` the bytes Reads returned. */
  datatype State = State(buffer: Data, writesem: nat, readsem: nat, threads: map<nat, Pc>,
                         accepted: seq<Data>, got: Data)

  datatype Action =
    | WriteAcquire(t: nat, p: Data) | WriteStore(t: nat) | WriteSignal(t: nat)
    | ReadAcquire(t: nat, max: nat) | ReadCopy(t: nat) | ReadSignal(t: nat)

  function Init(): State { State([], 1, 0, map[], [], []) }

  function Min(a: nat, b: nat): nat { if a < b then a else b }

  /** Both semaphores are channels of capacity one. */
  function Next(s: State, a: Action): State {
    match a
    case WriteAcquire(t, p) =>
      if t in s.threads || s.writesem == 0 then s
      else s.(writesem := s.writesem - 1, threads := s.threads[t := Writing(p)])
    case WriteStore(t) =>
      if t !in s.threads || !s.threads[t].Writing? then s
      else s.(buffer := s.threads[t].p, accepted := s.accepted + [s.threads[t].p],
              threads := s.threads[t := Stored])
    case WriteSignal(t) =>
      if t !in s.threads || !s.threads[t].Stored? || s.readsem == 1 then s
      else s.(readsem := s.readsem + 1, threads := s.threads - {t})
    case ReadAcquire(t, max) =>
      if t in s.threads || s.readsem == 0 then s
      else s.(readsem := s.readsem - 1, threads := s.threads[t := Reading(max)])
    case ReadCopy(t) =>
      if t !in s.threads || !s.threads[t].Reading? then s
      else
        var n := Min(s.threads[t].max, |s.buffer|);
        s.(got := s.got + s.buffer[..n], buffer := s.buffer[n..], threads := s.threads[t := Copied])
    case ReadSignal(t) =>
      if t !in s.threads || !s.threads[t].Copied? then s
      else if s.buffer == [] then
        if s.writesem == 1 then s else s.(writesem := s.writesem + 1, threads := s.threads - {t})
      else
        if s.readsem == 1 then s else s.(readsem := s.readsem + 1, threads := s.threads - {t})
  }

  function Run(s: State, acts: seq<Action>): State
    decreases |acts|
  { if acts == [] then s else Run(Next(s, acts[0]), acts[1..]) }

  // ------------------------------------------------------------- invariant

  predicate Suffix(b: Data, d: Data) { |b| <= |d| && b == d[|d| - |b|..] }

  /** One token; the buffer is empty whenever a write may start; nothing is lost, and the
      buffer is what is left of the last accepted write. */
  ghost predicate Inv(s: State) {
    && s.writesem + s.readsem + |s.threads| == 1
    && (s.writesem == 1 ==> s.buffer == [])
    && (forall t :: t in s.threads && s.threads[t].Writing? ==> s.buffer == [])
    && s.got + s.buffer == Flat(s.accepted)
    && (s.accepted == [] ==> s.buffer == [])
    && (s.accepted != [] ==> Suffix(s.buffer, s.accepted[|s.accepted| - 1]))
  }

  /** With one token, a thread inside Write or Read is alone. */
  lemma Alone(s: State, t: nat, pc: Pc)
    requires s.writesem + s.readsem + |s.threads| == 1 && t in s.threads
    ensures s.writesem == 0 && s.readsem == 0 && s.threads.Keys == {t}
    ensures |s.threads - {t}| == 0
    ensures |s.threads[t := pc]| == 1
  {
    assert |s.threads.Keys - {t}| == |s.threads| - 1;
    assert s.threads.Keys - {t} == {};
    assert s.threads.Keys == {t};
    assert (s.threads - {t}).Keys == {};
    assert s.threads[t := pc].Keys == {t};
  }

  lemma Enter(s: State, t: nat, pc: Pc)
    requires t !in s.threads
    ensures |s.threads[t := pc]| == |s.threads| + 1
  {
    assert s.threads[t := pc].Keys == s.threads.Keys + {t};
  }

  lemma WriteKeeps(s: State, a: Action)
    requires Inv(s) && (a.WriteAcquire? || a.WriteStore? || a.WriteSignal?)
    ensures Inv(Next(s, a))
  {
    if a.WriteAcquire? {
      if a.t !in s.threads { Enter(s, a.t, Writing(a.p)); }
    } else if a.t in s.threads {
      Alone(s, a.t, Stored);
      if a.WriteStore? && s.threads[a.t].Writing? {
        FlatSnoc(s.accepted, s.threads[a.t].p);
        assert s.got + [] == s.got;
      }
    }
  }

  lemma CopyKeeps(s: State, t: nat)
    requires Inv(s) && t in s.threads && s.threads[t].Reading?
    ensures Inv(Next(s, ReadCopy(t)))
  {
    Alone(s, t, Copied);
    var n := Min(s.threads[t].max, |s.buffer|);
    assert (s.got + s.buffer[..n]) + s.buffer[n..] == s.got + s.buffer;
  }

  lemma ReadKeeps(s: State, a: Action)
    requires Inv(s) && (a.ReadAcquire? || a.ReadCopy? || a.ReadSignal?)
    ensures Inv(Next(s, a))
  {
    if a.ReadAcquire? {
      if a.t !in s.threads { Enter(s, a.t, Reading(a.max)); }
    } else if a.t in s.threads {
      Alone(s, a.t, Copied);
      if a.ReadCopy? && s.threads[a.t].Reading? { CopyKeeps(s, a.t); }
    }
  }

  lemma {:induction false} RunKeeps(s: State, acts: seq<Action>)
    requires Inv(s)
    ensures Inv(Run(s, acts))
    decreases |acts|
  {
    if acts != [] {
      if acts[0].WriteAcquire? || acts[0].WriteStore? || acts[0].WriteSignal? { WriteKeeps(s, acts[0]); }
      else { ReadKeeps(s, acts[0]); }
      RunKeeps(Next(s, acts[0]), acts[1..]);
    }
  }

  /** In every run there is exactly one token; the bytes read plus the buffer are the
      accepted writes; and a write is stored only when everything before it was read. */
  lemma SingleToken(acts: seq<Action>, a: Action)
    ensures var s := Run(Init(), acts);
            && s.writesem + s.readsem + |s.threads| == 1
            && s.got + s.buffer == Flat(s.accepted)
            && (s.writesem == 1 ==> s.buffer == [] && s.got == Flat(s.accepted))
            && (Next(s, a).accepted != s.accepted ==> s.got == Flat(s.accepted))
  {
    RunKeeps(Init(), acts);
    var s := Run(Init(), acts);
    assert s.buffer == [] ==> s.got + s.buffer == s.got;
  }

  /** Neither signal ever blocks: the thread holding the token can always take its next
      step, so the stream never deadlocks while somebody is inside Write or Read. */
  lemma HolderNeverBlocks(acts: seq<Action>, t: nat)
    requires t in Run(Init(), acts).threads
    ensures var s := Run(Init(), acts);
            match s.threads[t]
            case Writing(_) => Next(s, WriteStore(t)) != s
            case Stored => Next(s, WriteSignal(t)) != s
            case Reading(_) => Next(s, ReadCopy(t)) != s
            case Copied => Next(s, ReadSignal(t)) != s
  {
    RunKeeps(Init(), acts);
    Alone(Run(Init(), acts), t, Copied);
    var s := Run(Init(), acts);
    assert t !in s.threads - {t};
    match s.threads[t]
    case Writing(p) => assert s.threads[t := Stored][t] != s.threads[t];
    case Reading(_) => assert s.threads[t := Copied][t] != s.threads[t];
    case _ =>
  }

  // ------------------------------------------------------------- a write is read

  /** A Read that has the token and room returns as much of the buffer as fits. */
  lemma ReadReturns(s: State, t: nat, max: nat)
    requires Inv(s) && s.threads == map[] && s.readsem == 1
    ensures var s' := Run(s, [ReadAcquire(t, max), ReadCopy(t), ReadSignal(t)]);
            && |s'.got| == |s.got| + (if max < |s.buffer| then max else |s.buffer|)
            && s'.got + s'.buffer == s.got + s.buffer && s'.accepted == s.accepted && s'.threads == map[]
            && s'.writesem == (if s'.buffer == [] then 1 else 0) && s'.readsem == 1 - s'.writesem
  {
    hide Run;
    ReadThree(s, t, max);
    var n := Min(max, |s.buffer|);
    assert (s.got + s.buffer[..n]) + s.buffer[n..] == s.got + s.buffer;
  }

  function Reads(t: nat, maxs: seq<nat>): seq<Action> {
    if maxs == [] then []
    else [ReadAcquire(t, maxs[0]), ReadCopy(t), ReadSignal(t)] + Reads(t, maxs[1..])
  }

  lemma RunThreeMore(s: State, a: Action, b: Action, c: Action, rest: seq<Action>)
    ensures Run(s, [a, b, c] + rest) == Run(Run(s, [a, b, c]), rest)
  {
    hide Next;
    RunThree(s, a, b, c);
    assert ([a, b, c] + rest)[1..] == [b, c] + rest && ([b, c] + rest)[1..] == [c] + rest && ([c] + rest)[1..] == rest;
    var s2 := Next(Next(s, a), b);
    assert Run(Next(s, a), [b, c] + rest) == Run(s2, [c] + rest);
    assert Run(s2, [c] + rest) == Run(Next(s2, c), rest);
  }

  /** One of those Reads: unless the writers are free already, less is left to read. */
  lemma ReadShrinks(s: State, t: nat, max: nat)
    requires Inv(s) && s.threads == map[] && max > 0
    ensures var s' := Run(s, [ReadAcquire(t, max), ReadCopy(t), ReadSignal(t)]);
            && Inv(s') && s'.threads == map[] && s'.accepted == s.accepted
            && |s'.buffer| <= (if s.buffer == [] then 0 else |s.buffer| - 1)
            && (s'.readsem == 1 ==> s'.buffer != [])
  {
    RunKeeps(s, [ReadAcquire(t, max), ReadCopy(t), ReadSignal(t)]);
    hide Run, Next, Flat, Suffix;
    ReadThree(s, t, max);
    if s.readsem == 1 { ReadReturns(s, t, max); }
  }

  /** Reads of at least a byte, as many as the buffer has, empty it and free the writers. */
  lemma {:induction false} ReadsDrain(s: State, t: nat, maxs: seq<nat>)
    requires Inv(s) && s.threads == map[] && forall i :: 0 <= i < |maxs| ==> maxs[i] > 0
    requires |maxs| >= |s.buffer| && (s.readsem == 1 ==> maxs != [])
    ensures var s' := Run(s, Reads(t, maxs));
            s'.writesem == 1 && s'.buffer == [] && s'.accepted == s.accepted && s'.got == Flat(s.accepted)
    decreases |maxs|
  {
    if maxs == [] {
      assert s.got + [] == s.got;
    } else {
      RunThreeMore(s, ReadAcquire(t, maxs[0]), ReadCopy(t), ReadSignal(t), Reads(t, maxs[1..]));
      ReadShrinks(s, t, maxs[0]);
      hide Run, Inv;
      ReadsDrain(Run(s, [ReadAcquire(t, maxs[0]), ReadCopy(t), ReadSignal(t)]), t, maxs[1..]);
    }
  }

  /** Whatever has happened before, a Write that finds the token free is read whole by as
      many Reads of at least a byte as it has bytes, one if it has none; then the next
      Write can start. */
  lemma WriteIsRead(s: State, t: nat, p: Data, maxs: seq<nat>)
    requires Inv(s) && s.threads == map[] && s.writesem == 1
    requires maxs != [] && |maxs| >= |p| && forall i :: 0 <= i < |maxs| ==> maxs[i] > 0
    ensures var s' := Run(s, [WriteAcquire(t, p), WriteStore(t), WriteSignal(t)] + Reads(t, maxs));
            s'.writesem == 1 && s'.accepted == s.accepted + [p] && s'.got == Flat(s.accepted + [p])
  {
    var s1 := Run(s, [WriteAcquire(t, p), WriteStore(t), WriteSignal(t)]);
    RunThreeMore(s, WriteAcquire(t, p), WriteStore(t), WriteSignal(t), Reads(t, maxs));
    RunKeeps(s, [WriteAcquire(t, p), WriteStore(t), WriteSignal(t)]);
    RunThree(s, WriteAcquire(t, p), WriteStore(t), WriteSignal(t));
    assert s.threads[t := Writing(p)][t := Stored] - {t} == map[];
    assert s1.buffer == p && s1.readsem == 1 && s1.threads == map[];
    hide Run;
    ReadsDrain(s1, t, maxs);
  }

  // ------------------------------------------------------------ the object

  /** One call at a time, as a thread performs it when no semaphore makes it wait. */
  class Stream {
    var buffer: Data
    var writesem: nat
    var readsem: nat
    ghost var accepted: seq<Data>
    ghost var got: Data

    ghost function Value(): State
      reads this
    { State(buffer, writesem, readsem, map[], accepted, got) }

    constructor ()
      ensures Value() == Init()
    {
      buffer, writesem, readsem, accepted, got := [], 1, 0, [], [];
    }

    /** fs/streams.go:565-570 */
    method Write(p: Data, ghost t: nat) returns (blocked: bool)
      requires Inv(Value())
      modifies this
      ensures Inv(Value())
      ensures blocked <==> old(writesem) == 0
      ensures blocked ==> Value() == old(Value())
      ensures !blocked ==> buffer == p && accepted == old(accepted) + [p] && got == old(got) && readsem == 1
      ensures Value() == Run(old(Value()), [WriteAcquire(t, p), WriteStore(t), WriteSignal(t)])
    {
      ghost var acts := [WriteAcquire(t, p), WriteStore(t), WriteSignal(t)];
      RunKeeps(Value(), acts);
      RunThree(Value(), acts[0], acts[1], acts[2]);
      if writesem == 0 { return true; }
      writesem := writesem - 1;
      buffer, accepted := p, accepted + [p];
      readsem := readsem + 1;
      blocked := false;
      assert old(Value()).threads[t := Writing(p)][t := Stored] - {t} == map[];
    }

    /** fs/streams.go:523-540 */
    method Read(max: nat, ghost t: nat) returns (d: Data, blocked: bool)
      requires Inv(Value())
      modifies this
      ensures Inv(Value())
      ensures blocked <==> old(readsem) == 0
      ensures blocked ==> Value() == old(Value())
      ensures got == old(got) + d && d + buffer == old(buffer) && accepted == old(accepted)
      ensures !blocked ==> |d| == if max < |old(buffer)| then max else |old(buffer)|
      ensures !blocked ==> writesem == (if buffer == [] then 1 else 0) && readsem == (if buffer == [] then 0 else 1)
      ensures Value() == Run(old(Value()), [ReadAcquire(t, max), ReadCopy(t), ReadSignal(t)])
    {
      hide Inv, Run, Next;
      RunKeeps(Value(), [ReadAcquire(t, max), ReadCopy(t), ReadSignal(t)]);
      ReadThree(Value(), t, max);
      d := [];
      if readsem == 0 { return d, true; }
      readsem := readsem - 1;
      var n := Min(max, |buffer|);
      d := buffer[..n];
      buffer, got := buffer[n..], got + d;
      if |buffer| == 0 { writesem := writesem + 1; } else { readsem := readsem + 1; }
      blocked := false;
    }
  }

  /** What the three steps of a Read do together. */
  lemma ReadThree(s: State, t: nat, max: nat)
    requires Inv(s) && s.threads == map[]
    ensures s.writesem + s.readsem == 1
    ensures var b := s.buffer[Min(max, |s.buffer|)..];
            Run(s, [ReadAcquire(t, max), ReadCopy(t), ReadSignal(t)]) ==
            if s.readsem == 0 then s
            else s.(buffer := b, got := s.got + s.buffer[..Min(max, |s.buffer|)],
                    writesem := if b == [] then 1 else 0, readsem := if b == [] then 0 else 1)
  {
    assert s.writesem + s.readsem == 1;
    hide Inv, Run;
    RunThree(s, ReadAcquire(t, max), ReadCopy(t), ReadSignal(t));
    if s.readsem != 0 {
      var n := Min(max, |s.buffer|);
      var s1 := s.(readsem := 0, threads := map[t := Reading(max)]);
      assert Next(s, ReadAcquire(t, max)) == s1;
      var s2 := s1.(got := s.got + s.buffer[..n], buffer := s.buffer[n..], threads := map[t := Copied]);
      assert Next(s1, ReadCopy(t)) == s2;
      assert s2.threads - {t} == map[];
    }
  }

  lemma RunThree(s: State, a: Action, b: Action, c: Action)
    ensures Run(s, [a, b, c]) == Next(Next(Next(s, a), b), c)
  {
    assert [a, b, c][1..] == [b, c] && [b, c][1..] == [c];
    var s2 := Next(Next(s, a), b);
    assert Run(Next(s, a), [b, c]) == Run(s2, [c]) == Run(Next(s2, c), []);
  }
}
