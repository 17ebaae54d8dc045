/** What one pass of a Write does to the readers: who is sent the write, who is dropped and
    who is tried again. */
module Passes {
  import opened Bytes
  import opened Streams
  import opened StreamLaws

  /** One pass of a Write over the untried readers; `ready` are those that accept. */
  ghost function Sweep<R>(cfg: Config, s: State<R>, ready: set<R>): (s': State<R>)
    requires s.writer.Pass? && s.writes != []
    ensures s'.writer.Pass?
    decreases |s.writer.todo|
  {
    if s.writer.todo == [] || s.writer.todo[0] !in s.chans then s
    else
      var s' := OfferTo(cfg, s, s.writer.todo[0] in ready);
      if s'.panicked then s' else Sweep(cfg, s', ready)
  }

  lemma SweepStep<R>(cfg: Config, s: State<R>, ready: set<R>)
    requires s.writer.Pass? && s.writes != [] && s.writer.todo != [] && s.writer.todo[0] in s.chans
    ensures var s' := OfferTo(cfg, s, s.writer.todo[0] in ready);
            Sweep(cfg, s, ready) == if s'.panicked then s' else Sweep(cfg, s', ready)
  {}

  lemma SweepDone<R>(cfg: Config, s: State<R>, ready: set<R>)
    requires s.writer.Pass? && s.writes != [] && s.writer.todo == []
    ensures Sweep(cfg, s, ready) == s
  {}

  /** A pass is a run of the state machine, so the guarantees for all runs hold of it. */
  lemma {:induction false} SweepIsRun<R>(cfg: Config, s: State<R>, ready: set<R>) returns (acts: seq<Action<R>>)
    requires s.writer.Pass? && s.writes != [] && !s.panicked
    ensures Sweep(cfg, s, ready) == Run(cfg, s, acts)
    decreases |s.writer.todo|
  {
    hide OfferTo;
    if s.writer.todo == [] || s.writer.todo[0] !in s.chans {
      acts := [];
    } else {
      var b := s.writer.todo[0] in ready;
      var s' := OfferTo(cfg, s, b);
      OfferShrinks(cfg, s, b);
      var rest: seq<Action<R>> := [];
      if !s'.panicked { rest := SweepIsRun(cfg, s', ready); }
      acts := [Offer(b)] + rest;
      assert acts[1..] == rest;
    }
  }

  lemma OfferShrinks<R>(cfg: Config, s: State<R>, ready: bool)
    requires s.writer.Pass? && s.writer.todo != [] && s.writer.todo[0] in s.chans && s.writes != []
    requires !s.panicked
    ensures var s' := OfferTo(cfg, s, ready);
            s'.writes == s.writes && s'.writer.Pass? && (!s'.panicked ==> s'.writer.todo == s.writer.todo[1..])
  {}

  // ------------------------------------------------------------------- one reader

  /** The channel has a free place; an unbuffered one, a reader that waits for more. */
  predicate Free(bufflen: nat, c: Chan) {
    if bufflen == 0 then c.queue == [] && c.unread == [] else |c.queue| < bufflen
  }

  /** A live reader is sent the write if its channel has a free place, provided that the
      reader is at the other end where there is no buffer, and that no timer fires first
      where there is one. */
  predicate Sent(cfg: Config, c: Chan, ready: bool) {
    c.live && Free(cfg.bufflen, c) && (ready || (cfg.kind == Blocking && cfg.bufflen > 0))
  }

  /** The write is the last in the queue, or what the reader is reading. */
  predicate Took(bufflen: nat, c: Chan, c': Chan, p: Data) {
    && c'.live && c'.joined == c.joined && c'.got == c.got
    && if bufflen == 0
       then c'.queue == [] && c'.unread == p && c'.received == c.received + [p]
       else c'.queue == c.queue + [p] && c'.unread == c.unread && c'.received == c.received
  }

  /** What becomes of a reader that is offered the write. */
  predicate Fate(cfg: Config, c: Chan, c': Chan, p: Data, ready: bool) {
    if Sent(cfg, c, ready) then Took(cfg.bufflen, c, c', p)
    else if cfg.kind == Dropping then c' == c.(live := false)
    else c' == c
  }

  /** Whether the loop goes on listing the reader: as one to try again in a BlockingStream,
      as a reader of the stream in the others. */
  predicate Stays(cfg: Config, c: Chan, ready: bool) {
    match cfg.kind
    case Blocking => c.live && !Sent(cfg, c, ready)
    case Dropping => Sent(cfg, c, ready)
    case Skipping => true
  }

  /** The first reader not yet tried was offered the write, and no other reader. */
  ghost predicate Offered<R>(cfg: Config, s: State<R>, s': State<R>, ready: bool)
    requires s.writer.Pass? && s.writer.todo != [] && s.writer.todo[0] in s.chans
  {
    var r := s.writer.todo[0];
    && !s'.panicked && s'.chans.Keys == s.chans.Keys && Fate(cfg, s.chans[r], s'.chans[r], s.writer.p, ready)
    && (forall x :: x in s.chans && x != r ==> s'.chans[x] == s.chans[x])
    && s'.writer == Pass(s.writer.p, s.writer.todo[1..],
                         if Stays(cfg, s.chans[r], ready) then s.writer.kept + [r] else s.writer.kept)
    && s'.readers == s.readers && s'.closed == s.closed && s'.writes == s.writes
  }

  lemma OfferMeans<R>(cfg: Config, s: State<R>, ready: bool)
    requires !s.panicked && s.writer.Pass? && s.writes != [] && s.writer.todo != [] && s.writer.todo[0] in s.chans
    requires cfg.kind == Blocking || s.chans[s.writer.todo[0]].live
    ensures Offered(cfg, s, Next(cfg, s, Offer(ready)), ready)
  {}

  // ------------------------------------------------------------------- a whole pass

  /** The readers of the list that stay, in order. */
  function Staying<R(==)>(cfg: Config, chans: map<R, Chan>, rs: seq<R>, ready: set<R>): seq<R> {
    if rs == [] then []
    else (if rs[0] in chans && Stays(cfg, chans[rs[0]], rs[0] in ready) then [rs[0]] else [])
         + Staying(cfg, chans, rs[1..], ready)
  }

  /** Every reader of the list was offered the write once, and no other was. */
  ghost predicate Passed<R>(cfg: Config, s: State<R>, s': State<R>, ready: set<R>)
    requires s.writer.Pass?
  {
    && !s'.panicked && s'.chans.Keys == s.chans.Keys
    && (forall r :: r in s.chans && r in s.writer.todo ==>
          Fate(cfg, s.chans[r], s'.chans[r], s.writer.p, r in ready))
    && (forall r :: r in s.chans && r !in s.writer.todo ==> s'.chans[r] == s.chans[r])
    && s'.writer == Pass(s.writer.p, [], s.writer.kept + Staying(cfg, s.chans, s.writer.todo, ready))
    && s'.readers == s.readers && s'.closed == s.closed && s'.writes == s.writes
  }

  lemma {:induction false} PassMeans<R>(cfg: Config, s: State<R>, ready: set<R>)
    requires !s.panicked && s.writer.Pass? && s.writes != [] && Distinct(s.writer.todo)
    requires forall r :: r in s.writer.todo ==> r in s.chans && (cfg.kind == Blocking || s.chans[r].live)
    ensures Passed(cfg, s, Sweep(cfg, s, ready), ready)
    decreases |s.writer.todo|
  {
    hide OfferTo, Passed, Fate, Stays;
    var todo := s.writer.todo;
    if todo == [] { NobodyLeft(cfg, s, ready); }
    else {
      var r := todo[0];
      OfferMeans(cfg, s, r in ready);
      var s1 := OfferTo(cfg, s, r in ready);
      assert s1 == Next(cfg, s, Offer(r in ready));
      hide Next;
      assert r !in todo[1..];
      PassMeans(cfg, s1, ready);
      PassStep(cfg, s, s1, Sweep(cfg, s1, ready), ready);
    }
  }

  lemma NobodyLeft<R>(cfg: Config, s: State<R>, ready: set<R>)
    requires !s.panicked && s.writer.Pass? && s.writer.todo == []
    ensures Passed(cfg, s, s, ready)
  { assert s.writer.kept + [] == s.writer.kept; }

  lemma PassStep<R>(cfg: Config, s: State<R>, s1: State<R>, s': State<R>, ready: set<R>)
    requires s.writer.Pass? && s.writer.todo != [] && s.writer.todo[0] in s.chans && Distinct(s.writer.todo)
    requires Offered(cfg, s, s1, s.writer.todo[0] in ready) && Passed(cfg, s1, s', ready)
    ensures Passed(cfg, s, s', ready)
  {
    hide Fate, Stays;
    var todo := s.writer.todo;
    var r := todo[0];
    assert r !in todo[1..];
    StayingSame(cfg, s.chans, s1.chans, todo[1..], ready);
    StayingStep(cfg, s.chans, todo, ready, s.writer.kept);
    hide Staying;
    forall x | x in s.chans && x in todo ensures Fate(cfg, s.chans[x], s'.chans[x], s.writer.p, x in ready) {
      if x != r { assert x in todo[1..]; }
    }
    forall x | x in s.chans && x !in todo ensures s'.chans[x] == s.chans[x] { assert x !in todo[1..]; }
  }

  lemma StayingStep<R>(cfg: Config, m: map<R, Chan>, rs: seq<R>, ready: set<R>, kept: seq<R>)
    requires rs != [] && rs[0] in m
    ensures kept + Staying(cfg, m, rs, ready) ==
            (if Stays(cfg, m[rs[0]], rs[0] in ready) then kept + [rs[0]] else kept) + Staying(cfg, m, rs[1..], ready)
  {
    hide Stays;
    var r, rest := rs[0], Staying(cfg, m, rs[1..], ready);
    assert kept + ([r] + rest) == (kept + [r]) + rest;
    assert [] + rest == rest;
  }

  lemma {:induction false} StayingSame<R>(cfg: Config, m: map<R, Chan>, m': map<R, Chan>, rs: seq<R>, ready: set<R>)
    requires m'.Keys == m.Keys && forall r :: r in rs && r in m ==> m'[r] == m[r]
    ensures Staying(cfg, m', rs, ready) == Staying(cfg, m, rs, ready)
  { if rs != [] { StayingSame(cfg, m, m', rs[1..], ready); } }

  lemma {:induction false} StayingMember<R>(cfg: Config, m: map<R, Chan>, rs: seq<R>, ready: set<R>, r: R)
    ensures r in Staying(cfg, m, rs, ready) <==> r in rs && r in m && Stays(cfg, m[r], r in ready)
  {
    hide Stays;
    if rs != [] { StayingMember(cfg, m, rs[1..], ready, r); }
  }
}
