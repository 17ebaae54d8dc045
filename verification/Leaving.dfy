/** Joining, reading out and leaving a fan-out stream: what a reader gets from the start, that
    it can have all it was sent, and that one that was removed, dropped or closed gets nothing
    more. */
module Leaving {
  import opened Bytes
  import opened Streams
  import opened StreamLaws

  /** What a reader has been sent is what it was sent before, and it is not live again. */
  ghost predicate Quiet<R>(s: State<R>, s': State<R>, r: R) {
    r in s.chans && !s.chans[r].live ==>
      && r in s'.chans && !s'.chans[r].live && s'.chans[r].taken == s.chans[r].taken
      && s'.chans[r].received + s'.chans[r].queue == s.chans[r].received + s.chans[r].queue
  }

  lemma StepQuiet<R>(cfg: Config, s: State<R>, a: Action<R>, r: R)
    ensures Quiet(s, Next(cfg, s, a), r)
  {
    hide HasRoom, Without;
    if r in s.chans && a.Recv? && a.r == r && s.chans[r].queue != [] {
      var c := s.chans[r];
      assert (c.received + [c.queue[0]]) + c.queue[1..] == c.received + c.queue;
    }
  }

  lemma {:induction false} RunQuiet<R>(cfg: Config, s: State<R>, acts: seq<Action<R>>, r: R)
    ensures Quiet(s, Run(cfg, s, acts), r)
    decreases |acts|
  {
    hide Next;
    if acts != [] {
      StepQuiet(cfg, s, acts[0], r);
      RunQuiet(cfg, Next(cfg, s, acts[0]), acts[1..], r);
    }
  }

  /** Joining an open stream between passes: the reader is listed last, live and with
      nothing sent to it, and counts the writes from now on; the others are as they were. */
  lemma Joins<R>(cfg: Config, s: State<R>, r: R)
    requires Inv(cfg, s) && Unlocked(s) && !s.closed && r !in s.chans
    ensures var s' := Next(cfg, s, Add(r));
            && s'.readers == s.readers + [r] && r in s'.chans && s'.chans[r].live && s'.chans[r].joined == |s.writes|
            && s'.chans[r].queue == [] && s'.chans[r].unread == [] && s'.chans[r].taken == []
            && s'.chans.Keys == s.chans.Keys + {r} && forall x :: x in s.chans ==> s'.chans[x] == s.chans[x]
  {}

  /** Reads that take what is left of the current chunk and then chunk after chunk. */
  function ReadOut<R>(r: R, unread: Data, queue: seq<Data>): seq<Action<R>>
    decreases |queue|
  { [Copy(r, |unread|)] + if queue == [] then [] else [Recv(r)] + ReadOut(r, queue[0], queue[1..]) }

  /** They get the reader everything that was ever sent to it, live or not, and change nothing
      for anybody else. */
  lemma Drained<R>(cfg: Config, s: State<R>, r: R)
    requires Inv(cfg, s) && r in s.chans
    ensures var c := s.chans[r];
            var s' := Run(cfg, s, ReadOut(r, c.unread, c.queue));
            && r in s'.chans && s' == s.(chans := s.chans[r := s'.chans[r]])
            && var c' := s'.chans[r];
            && c'.queue == [] && c'.unread == [] && c'.taken == c.taken && c'.live == c.live
            && Indices(c.taken, 0, |s.writes|) && c'.got == Flat(Pick(s.writes, c.taken))
  {
    hide Run, ListsOk, Pick, Flat;
    var c := s.chans[r];
    var acts := ReadOut(r, c.unread, c.queue);
    ReadsOut(cfg, s, r);
    RunKeeps(cfg, s, acts);
    var c' := Run(cfg, s, acts).chans[r];
    assert ReaderOk(cfg, c', s.writes, Due(cfg, Run(cfg, s, acts), r));
    assert c'.got + [] == c'.got && c'.received + [] == c'.received;
  }

  lemma {:induction false} ReadsOut<R>(cfg: Config, s: State<R>, r: R)
    requires !s.panicked && r in s.chans
    ensures var c := s.chans[r];
            var s' := Run(cfg, s, ReadOut(r, c.unread, c.queue));
            && r in s'.chans && s' == s.(chans := s.chans[r := s'.chans[r]])
            && s'.chans[r].queue == [] && s'.chans[r].unread == []
            && s'.chans[r].taken == c.taken && s'.chans[r].live == c.live
    decreases |s.chans[r].queue|
  {
    hide OfferTo, FinishPass, Kill, Without;
    var c := s.chans[r];
    var acts := ReadOut(r, c.unread, c.queue);
    var s1 := Next(cfg, s, Copy(r, |c.unread|));
    if c.queue == [] {
      assert acts[1..] == [];
    } else {
      var s2 := Next(cfg, s1, Recv(r));
      var more := ReadOut(r, c.queue[0], c.queue[1..]);
      assert acts[1..] == [Recv(r)] + more && acts[1..][1..] == more;
      assert s2 == s.(chans := s.chans[r := s2.chans[r]]);
      ReadsOut(cfg, s2, r);
    }
  }

  /** A reader removed between passes is not listed any more and is sent nothing in any run
      from there, while the others stay as they were. */
  lemma RemovedForGood<R>(cfg: Config, s: State<R>, r: R, acts: seq<Action<R>>)
    requires Inv(cfg, s) && Unlocked(s) && r in s.chans
    ensures var s1 := Next(cfg, s, Remove(r));
            var s' := Run(cfg, s1, acts);
            && (forall x :: x in s1.readers <==> x in s.readers && x != r)
            && s1.chans.Keys == s.chans.Keys && (forall x :: x in s.chans && x != r ==> s1.chans[x] == s.chans[x])
            && r in s'.chans && !s'.chans[r].live && s'.chans[r].taken == s.chans[r].taken
            && s'.chans[r].received + s'.chans[r].queue == s.chans[r].received + s.chans[r].queue
  {
    hide ListsOk, DeliveryOk, Run, Without;
    forall x ensures x in Without(s.readers, r) <==> x in s.readers && x != r { WithoutMember(s.readers, r, x); }
    RunQuiet(cfg, Next(cfg, s, Remove(r)), acts, r);
  }

  /** Closing between passes ends it for every reader there is, and a reader that joins later
      is closed from the start. */
  lemma ClosedForGood<R>(cfg: Config, s: State<R>, acts: seq<Action<R>>, r: R)
    requires Inv(cfg, s) && Unlocked(s) && !s.closed
    ensures var s' := Run(cfg, Next(cfg, s, Close), acts);
            && s'.closed && s'.readers == [] && (r in s'.chans ==> !s'.chans[r].live)
            && (r in s.chans ==>
                  && r in s'.chans && s'.chans[r].taken == s.chans[r].taken
                  && s'.chans[r].received + s'.chans[r].queue == s.chans[r].received + s.chans[r].queue)
            && (r !in s.chans && r in s'.chans ==> s'.chans[r].taken == [] && s'.chans[r].queue == [])
  {
    hide Run, Next, ListsOk, DeliveryOk;
    var s1 := Next(cfg, s, Close);
    CloseShuts(cfg, s);
    StaysShut(cfg, s, s1, acts);
    RunQuiet(cfg, s1, acts, r);
  }

  /** Closed, with nobody live, and those who came since `s0` have got nothing. */
  ghost predicate Shut<R>(cfg: Config, s0: State<R>, s: State<R>) {
    && s.closed && s.readers == [] && s0.chans.Keys <= s.chans.Keys
    && (forall r :: r in s.chans ==> !s.chans[r].live)
    && (forall r :: r in s.chans && r !in s0.chans ==> s.chans[r].taken == [] && s.chans[r].queue == [])
    && (cfg.kind == Blocking || Involved(s.writer) == [])
  }

  lemma CloseShuts<R>(cfg: Config, s: State<R>)
    requires Inv(cfg, s) && Unlocked(s) && !s.closed
    ensures Shut(cfg, s, Next(cfg, s, Close))
    ensures forall r :: r in s.chans ==>
              var c := Next(cfg, s, Close).chans[r];
              c.taken == s.chans[r].taken && c.received + c.queue == s.chans[r].received + s.chans[r].queue
  { hide DeliveryOk; }

  lemma StepShut<R>(cfg: Config, s0: State<R>, s: State<R>, a: Action<R>)
    requires Shut(cfg, s0, s)
    ensures Shut(cfg, s0, Next(cfg, s, a))
  {
    hide HasRoom;
    match a
    case Offer(ready) => OfferShut(cfg, s0, s, ready);
    case EndPass => hide OfferTo, Kill, Without;
    case Recv(_) => hide OfferTo, FinishPass, Kill, Without;
    case Copy(_, _) => hide OfferTo, FinishPass, Kill, Without;
    case Remove(r) => RemoveShut(cfg, s0, s, r);
    case _ => hide OfferTo, FinishPass, Kill, Without;
  }

  lemma RemoveShut<R>(cfg: Config, s0: State<R>, s: State<R>, r: R)
    requires Shut(cfg, s0, s)
    ensures Shut(cfg, s0, Next(cfg, s, Remove(r)))
  { hide OfferTo, FinishPass; }

  /** Nobody involved is live, so the loop goes past them. */
  lemma OfferShut<R>(cfg: Config, s0: State<R>, s: State<R>, ready: bool)
    requires Shut(cfg, s0, s)
    ensures Shut(cfg, s0, Next(cfg, s, Offer(ready)))
  { hide HasRoom, Kill, Without, FinishPass; }

  lemma {:induction false} StaysShut<R>(cfg: Config, s0: State<R>, s: State<R>, acts: seq<Action<R>>)
    requires Shut(cfg, s0, s)
    ensures Shut(cfg, s0, Run(cfg, s, acts))
    decreases |acts|
  {
    hide Next, Shut;
    if acts != [] {
      StepShut(cfg, s0, s, acts[0]);
      StaysShut(cfg, s0, Next(cfg, s, acts[0]), acts[1..]);
    }
  }
}
