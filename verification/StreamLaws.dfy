/** What every run of a fan-out stream keeps. */
module StreamLaws {
  import opened Bytes
  import opened Streams

  predicate Distinct<R(==)>(rs: seq<R>) { forall i, j :: 0 <= i < j < |rs| ==> rs[i] != rs[j] }

  predicate Indices(idx: seq<nat>, lo: nat, hi: nat) {
    && (forall i :: 0 <= i < |idx| ==> lo <= idx[i] < hi)
    && (forall i, j :: 0 <= i < j < |idx| ==> idx[i] < idx[j])
  }

  /** The chosen writes, in order. */
  function Pick(writes: seq<Data>, idx: seq<nat>): seq<Data>
    requires Indices(idx, 0, |writes|)
  { seq(|idx|, i requires 0 <= i < |idx| => writes[idx[i]]) }

  // ------------------------------------------------------------- one reader

  /** The chunks a reader took or still has queued are whole writes made after it joined,
      each at most once and in order; what its Reads returned plus the unread remainder is
      the concatenation of the chunks it took. */
  ghost predicate ChanOk(cfg: Config, c: Chan, writes: seq<Data>) {
    && |c.queue| <= cfg.bufflen
    && Indices(c.taken, c.joined, |writes|) && c.joined <= |writes|
    && c.received + c.queue == Pick(writes, c.taken)
    && c.got + c.unread == Flat(c.received)
  }

  /** Nothing was skipped since the reader joined. */
  predicate Contiguous(c: Chan) { forall i :: 0 <= i < |c.taken| ==> c.taken[i] == c.joined + i }

  /** `due`: the Write in progress has still to reach this reader. */
  ghost predicate ReaderOk(cfg: Config, c: Chan, writes: seq<Data>, due: bool) {
    && ChanOk(cfg, c, writes)
    && (due && c.live ==> c.joined < |writes| && Indices(c.taken, c.joined, |writes| - 1))
    && (cfg.kind != Skipping ==> Contiguous(c))
    && (cfg.kind != Skipping && c.live ==> c.joined + |c.taken| == if due then |writes| - 1 else |writes|)
  }

  lemma DeliverKeeps(cfg: Config, c: Chan, writes: seq<Data>, ready: bool)
    requires ReaderOk(cfg, c, writes, true) && c.live && writes != []
    requires Accepts(cfg, c, ready)
    ensures ReaderOk(cfg, Deliver(cfg, c, |writes| - 1, writes[|writes| - 1]), writes, false)
    ensures Deliver(cfg, c, |writes| - 1, writes[|writes| - 1]).live
  {
    var c' := Send(c, |writes| - 1, writes[|writes| - 1]);
    SendPicks(c, writes);
    if cfg.bufflen == 0 { TakeRest(c', writes); }
    hide Pick, Indices, Flat;
  }

  lemma SendPicks(c: Chan, writes: seq<Data>)
    requires writes != [] && Indices(c.taken, c.joined, |writes| - 1) && c.received + c.queue == Pick(writes, c.taken)
    requires c.joined < |writes|
    ensures var c' := Send(c, |writes| - 1, writes[|writes| - 1]);
            && Indices(c'.taken, c.joined, |writes|) && Indices(c'.taken, 0, |writes|)
            && c'.received + c'.queue == Pick(writes, c'.taken)
  {
    var c' := Send(c, |writes| - 1, writes[|writes| - 1]);
    assert c'.received + c'.queue == (c.received + c.queue) + [writes[|writes| - 1]];
    assert Pick(writes, c'.taken) == Pick(writes, c.taken) + [writes[|writes| - 1]];
  }

  lemma DeadKeeps(cfg: Config, c: Chan, writes: seq<Data>, due: bool, due': bool)
    requires ReaderOk(cfg, c, writes, due)
    ensures ReaderOk(cfg, c.(live := false), writes, due')
  {}

  lemma TakeRest(c: Chan, writes: seq<Data>)
    requires Indices(c.taken, 0, |writes|)
    requires c.queue != [] && c.unread == []
    requires c.received + c.queue == Pick(writes, c.taken) && c.got + c.unread == Flat(c.received)
    ensures Take(c).received + Take(c).queue == Pick(writes, c.taken)
    ensures Take(c).got + Take(c).unread == Flat(Take(c).received)
  {
    FlatSnoc(c.received, c.queue[0]);
    assert (c.received + [c.queue[0]]) + c.queue[1..] == c.received + c.queue;
    assert c.got + [] == c.got;
  }

  lemma TakeKeeps(cfg: Config, c: Chan, writes: seq<Data>, due: bool)
    requires ReaderOk(cfg, c, writes, due) && c.queue != [] && c.unread == []
    ensures ReaderOk(cfg, Take(c), writes, due)
  {
    TakeRest(c, writes);
  }

  lemma ConsumeKeeps(cfg: Config, c: Chan, writes: seq<Data>, n: nat, due: bool)
    requires ReaderOk(cfg, c, writes, due) && n <= |c.unread|
    ensures ReaderOk(cfg, Consume(c, n), writes, due)
  {
    assert (c.got + c.unread[..n]) + c.unread[n..] == c.got + c.unread;
  }

  /** A new write makes every live reader due. */
  lemma GrowKeeps(cfg: Config, c: Chan, writes: seq<Data>, p: Data)
    requires ReaderOk(cfg, c, writes, false)
    ensures ReaderOk(cfg, c, writes + [p], c.live)
  {
    assert Pick(writes + [p], c.taken) == Pick(writes, c.taken);
  }

  // ------------------------------------------------------------ the stream

  /** The readers of the Write in progress, tried or not. */
  function Involved<R>(w: Writer<R>): seq<R> {
    match w
    case Idle => []
    case Pass(_, todo, kept) => kept + todo
    case Waiting(_, laggers) => laggers
  }

  /** Readers that the Write in progress may still send to. */
  ghost predicate Due<R>(cfg: Config, s: State<R>, r: R) {
    if cfg.kind == Blocking then r in Involved(s.writer)
    else s.writer.Pass? && r in s.writer.todo
  }

  ghost predicate ListsOk<R>(cfg: Config, s: State<R>) {
    && Distinct(s.readers) && Distinct(Involved(s.writer))
    && (forall r :: r in s.readers ==> r in s.chans)
    && (forall r :: r in Involved(s.writer) ==> r in s.chans)
    && (s.closed ==> s.readers == [])
    && (forall r :: r in s.chans && s.chans[r].live ==> r in s.readers)
    && (cfg.kind != Dropping || Unlocked(s) ==> forall r :: r in s.readers ==> s.chans[r].live)
    && (cfg.kind != Blocking ==> !s.writer.Waiting?)
    && (cfg.kind == Skipping && s.writer.Pass? ==> Involved(s.writer) == s.readers)
    && (cfg.kind == Dropping && s.writer.Pass? ==>
          forall r :: r in s.chans ==> (s.chans[r].live <==> r in Involved(s.writer)))
    && (!s.writer.Idle? ==> s.writes != [] && s.writer.p == s.writes[|s.writes| - 1])
  }

  ghost predicate DeliveryOk<R>(cfg: Config, s: State<R>) {
    forall r :: r in s.chans ==> ReaderOk(cfg, s.chans[r], s.writes, Due(cfg, s, r))
  }

  ghost predicate Inv<R>(cfg: Config, s: State<R>) {
    !s.panicked && ListsOk(cfg, s) && DeliveryOk(cfg, s)
  }

  // ------------------------------------------------- every action keeps it

  lemma {:induction false} WithoutMember<R>(rs: seq<R>, r: R, x: R)
    ensures x in Without(rs, r) <==> x in rs && x != r
  {
    if rs != [] { WithoutMember(rs[1..], r, x); }
  }

  lemma {:induction false} WithoutDistinct<R>(rs: seq<R>, r: R)
    requires Distinct(rs)
    ensures Distinct(Without(rs, r))
  {
    if rs != [] {
      var rest := Without(rs[1..], r);
      WithoutDistinct(rs[1..], r);
      WithoutMember(rs[1..], r, rs[0]);
      assert rs[0] !in rs[1..];
    }
  }

  lemma AddKeeps<R>(cfg: Config, s: State<R>, r: R)
    requires Inv(cfg, s)
    ensures Inv(cfg, Next(cfg, s, Add(r)))
  {
    hide ListsOk, ReaderOk;
    if Unlocked(s) && r !in s.chans {
      AddLists(cfg, s, r);
      AddDelivery(cfg, s, r);
    }
  }

  lemma AddLists<R>(cfg: Config, s: State<R>, r: R)
    requires ListsOk(cfg, s) && !s.panicked && Unlocked(s) && r !in s.chans
    ensures ListsOk(cfg, Next(cfg, s, Add(r)))
  {
    assert r !in s.readers && r !in Involved(s.writer);
    assert Next(cfg, s, Add(r)).writer == s.writer;
    hide Involved;
  }

  lemma AddDelivery<R>(cfg: Config, s: State<R>, r: R)
    requires DeliveryOk(cfg, s) && ListsOk(cfg, s) && !s.panicked && Unlocked(s) && r !in s.chans
    ensures DeliveryOk(cfg, Next(cfg, s, Add(r)))
  {
    assert r !in Involved(s.writer) && !Due(cfg, s, r);
    NewReader(cfg, !s.closed, s.writes);
    hide ListsOk, ReaderOk, Involved;
  }

  lemma NewReader(cfg: Config, live: bool, writes: seq<Data>)
    ensures ReaderOk(cfg, NewChan(live, |writes|), writes, false)
  {}

  lemma RemoveLists<R>(cfg: Config, s: State<R>, r: R)
    requires ListsOk(cfg, s) && Unlocked(s) && r in s.chans
    ensures ListsOk(cfg, s.(readers := Without(s.readers, r), chans := Kill(s.chans, [r])))
  {
    WithoutDistinct(s.readers, r);
    var readers' := Without(s.readers, r);
    forall x | x in readers' ensures x in s.readers && x != r { WithoutMember(s.readers, r, x); }
    forall x | x in s.readers && x != r ensures x in readers' { WithoutMember(s.readers, r, x); }
  }

  lemma KillDelivery<R>(cfg: Config, s: State<R>, rs: seq<R>)
    requires DeliveryOk(cfg, s)
    ensures DeliveryOk(cfg, s.(chans := Kill(s.chans, rs)))
  {
    hide ReaderOk;
    forall r | r in s.chans
      ensures ReaderOk(cfg, s.chans[r].(live := false), s.writes, Due(cfg, s, r))
    {
      DeadKeeps(cfg, s.chans[r], s.writes, Due(cfg, s, r), Due(cfg, s, r));
    }
  }

  lemma RemoveKeeps<R>(cfg: Config, s: State<R>, r: R)
    requires Inv(cfg, s)
    ensures Inv(cfg, Next(cfg, s, Remove(r)))
  {
    hide ListsOk, ReaderOk;
    KillDelivery(cfg, s, [r]);
    if Unlocked(s) && r in s.chans { RemoveLists(cfg, s, r); }
  }

  lemma CloseKeeps<R>(cfg: Config, s: State<R>)
    requires Inv(cfg, s)
    ensures Inv(cfg, Next(cfg, s, Close))
  {
    hide ReaderOk;
    KillDelivery(cfg, s, s.readers);
  }

  lemma BeginKeeps<R>(cfg: Config, s: State<R>, p: Data)
    requires Inv(cfg, s)
    ensures Inv(cfg, Next(cfg, s, Begin(p)))
  {
    hide ReaderOk;
    var s' := Next(cfg, s, Begin(p));
    if s.writer.Idle? {
      assert Involved(s'.writer) == s.readers;
      forall r | r in s.chans ensures ReaderOk(cfg, s.chans[r], s'.writes, Due(cfg, s', r)) {
        GrowKeeps(cfg, s.chans[r], s.writes, p);
      }
    }
  }

  lemma PassShift<R>(w: Writer<R>)
    requires w.Pass? && w.todo != []
    ensures Involved(w) == Involved(Pass(w.p, w.todo[1..], w.kept + [w.todo[0]]))
  {
    assert w.kept + w.todo == (w.kept + [w.todo[0]]) + w.todo[1..];
  }

  /** Dropping the first untried reader from the lists. */
  lemma PassSkip<R>(w: Writer<R>)
    requires w.Pass? && w.todo != [] && Distinct(Involved(w))
    ensures var w' := Pass(w.p, w.todo[1..], w.kept);
            && Distinct(Involved(w'))
            && w.todo[0] !in Involved(w')
            && (forall x :: x in Involved(w') ==> x in Involved(w))
            && (forall x :: x in Involved(w) && x != w.todo[0] ==> x in Involved(w'))
  {
    var w' := Pass(w.p, w.todo[1..], w.kept);
    var k := |w.kept|;
    assert forall i :: 0 <= i < k ==> Involved(w')[i] == Involved(w)[i];
    assert forall i :: k <= i < |Involved(w')| ==> Involved(w')[i] == Involved(w)[i + 1];
    assert Involved(w)[k] == w.todo[0];
  }

  ghost predicate Offering<R>(cfg: Config, s: State<R>) {
    && Inv(cfg, s)
    && s.writer.Pass? && s.writer.todo != []
  }

  lemma HeadDue<R>(cfg: Config, s: State<R>)
    requires Offering(cfg, s)
    ensures var r := s.writer.todo[0];
            && r in s.chans && Due(cfg, s, r) && r in Involved(s.writer) && s.writes != []
            && (cfg.kind != Blocking ==> s.chans[r].live)
  {
    var r := s.writer.todo[0];
    assert Involved(s.writer)[|s.writer.kept|] == r;
    assert cfg.kind == Skipping ==> r in s.readers;
  }

  /** Replacing one reader's channel, with everyone else as due as before. */
  lemma UpdateDelivery<R>(cfg: Config, s: State<R>, s': State<R>, r: R)
    requires DeliveryOk(cfg, s) && r in s.chans && s'.writes == s.writes
    requires s'.chans.Keys == s.chans.Keys
    requires forall x :: x in s.chans && x != r ==> s'.chans[x] == s.chans[x] && (Due(cfg, s, x) <==> Due(cfg, s', x))
    requires ReaderOk(cfg, s'.chans[r], s.writes, Due(cfg, s', r))
    ensures DeliveryOk(cfg, s')
  {
    hide ReaderOk;
  }

  lemma ListsFrame<R>(cfg: Config, s: State<R>, chans': map<R, Chan>)
    requires ListsOk(cfg, s) && chans'.Keys == s.chans.Keys
    requires forall r :: r in s.chans ==> chans'[r].live == s.chans[r].live
    ensures ListsOk(cfg, s.(chans := chans'))
  {}

  /** The writer moves past its first untried reader, and keeps it or not. */
  lemma ListsShift<R>(cfg: Config, s: State<R>)
    requires ListsOk(cfg, s) && s.writer.Pass? && s.writer.todo != []
    ensures ListsOk(cfg, s.(writer := Pass(s.writer.p, s.writer.todo[1..], s.writer.kept + [s.writer.todo[0]])))
  {
    PassShift(s.writer);
    hide Involved, Distinct;
  }

  lemma ListsSkip<R>(cfg: Config, s: State<R>)
    requires ListsOk(cfg, s) && s.writer.Pass? && s.writer.todo != [] && cfg.kind == Blocking
    ensures ListsOk(cfg, s.(writer := Pass(s.writer.p, s.writer.todo[1..], s.writer.kept)))
  {
    PassSkip(s.writer);
    hide Involved, Distinct;
  }

  lemma SentLists<R>(cfg: Config, s: State<R>, ready: bool)
    requires ListsOk(cfg, s) && s.writer.Pass? && s.writer.todo != [] && s.writer.todo[0] in s.chans
    requires s.chans[s.writer.todo[0]].live && Accepts(cfg, s.chans[s.writer.todo[0]], ready)
    ensures ListsOk(cfg, OfferTo(cfg, s, ready))
  {
    var r := s.writer.todo[0];
    var c' := Deliver(cfg, s.chans[r], |s.writes| - 1, s.writer.p);
    assert c'.live;
    hide Accepts, Deliver;
    ListsFrame(cfg, s, s.chans[r := c']);
    if cfg.kind == Blocking { ListsSkip(cfg, s.(chans := s.chans[r := c'])); }
    else { ListsShift(cfg, s.(chans := s.chans[r := c'])); }
  }

  lemma SentDelivery<R>(cfg: Config, s: State<R>, ready: bool)
    requires DeliveryOk(cfg, s) && s.writer.Pass? && s.writer.todo != [] && s.writer.todo[0] in s.chans
    requires s.writes != [] && s.writer.p == s.writes[|s.writes| - 1] && Distinct(Involved(s.writer))
    requires Due(cfg, s, s.writer.todo[0])
    requires s.chans[s.writer.todo[0]].live && Accepts(cfg, s.chans[s.writer.todo[0]], ready)
    ensures DeliveryOk(cfg, OfferTo(cfg, s, ready))
  {
    hide ReaderOk, Accepts, Deliver;
    PassSkip(s.writer);
    DeliverKeeps(cfg, s.chans[s.writer.todo[0]], s.writes, ready);
    UpdateDelivery(cfg, s, OfferTo(cfg, s, ready), s.writer.todo[0]);
  }

  /** The send goes through. */
  lemma SentKeeps<R>(cfg: Config, s: State<R>, ready: bool)
    requires Offering(cfg, s)
    requires s.writer.todo[0] in s.chans && s.writes != []
    requires s.chans[s.writer.todo[0]].live && Accepts(cfg, s.chans[s.writer.todo[0]], ready)
    ensures Inv(cfg, OfferTo(cfg, s, ready))
  {
    hide ReaderOk, Accepts, Deliver;
    HeadDue(cfg, s);
    SentLists(cfg, s, ready);
    SentDelivery(cfg, s, ready);
  }

  lemma UnsentLists<R>(cfg: Config, s: State<R>, ready: bool)
    requires ListsOk(cfg, s) && s.writer.Pass? && s.writer.todo != [] && s.writer.todo[0] in s.chans
    requires cfg.kind != Blocking ==> s.chans[s.writer.todo[0]].live
    requires !(s.chans[s.writer.todo[0]].live && Accepts(cfg, s.chans[s.writer.todo[0]], ready))
    ensures ListsOk(cfg, OfferTo(cfg, s, ready))
  {
    hide Accepts;
    PassShift(s.writer);
    PassSkip(s.writer);
  }

  lemma UnsentDelivery<R>(cfg: Config, s: State<R>, ready: bool)
    requires DeliveryOk(cfg, s) && s.writer.Pass? && s.writer.todo != [] && s.writer.todo[0] in s.chans
    requires s.writes != [] && Distinct(Involved(s.writer)) && Due(cfg, s, s.writer.todo[0])
    requires cfg.kind != Blocking ==> s.chans[s.writer.todo[0]].live
    requires !(s.chans[s.writer.todo[0]].live && Accepts(cfg, s.chans[s.writer.todo[0]], ready))
    ensures DeliveryOk(cfg, OfferTo(cfg, s, ready))
  {
    hide ReaderOk, Accepts;
    PassShift(s.writer);
    PassSkip(s.writer);
    var c := s.chans[s.writer.todo[0]];
    DeadKeeps(cfg, c, s.writes, true, false);
    assert !c.live ==> c.(live := false) == c;
    SkippedKeeps(cfg, c, s.writes);
    UpdateDelivery(cfg, s, OfferTo(cfg, s, ready), s.writer.todo[0]);
  }

  /** The reader is dead, or the channel is full. */
  lemma UnsentKeeps<R>(cfg: Config, s: State<R>, ready: bool)
    requires Offering(cfg, s)
    requires s.writer.todo[0] in s.chans && s.writes != []
    requires !(s.chans[s.writer.todo[0]].live && Accepts(cfg, s.chans[s.writer.todo[0]], ready))
    ensures Inv(cfg, OfferTo(cfg, s, ready))
  {
    hide ReaderOk, Accepts;
    HeadDue(cfg, s);
    UnsentLists(cfg, s, ready);
    UnsentDelivery(cfg, s, ready);
  }

  lemma SkippedKeeps(cfg: Config, c: Chan, writes: seq<Data>)
    requires ReaderOk(cfg, c, writes, true)
    ensures cfg.kind == Skipping ==> ReaderOk(cfg, c, writes, false)
  {}

  lemma EndLists<R>(cfg: Config, s: State<R>)
    requires ListsOk(cfg, s) && s.writer.Pass? && s.writer.todo == []
    ensures ListsOk(cfg, FinishPass(cfg, s))
  {
    assert Involved(s.writer) == s.writer.kept;
    if cfg.kind == Dropping && s.writer.kept != [] { assert s.writer.kept[0] in s.readers; }
  }

  lemma EndKeeps<R>(cfg: Config, s: State<R>)
    requires Inv(cfg, s)
    ensures Inv(cfg, Next(cfg, s, EndPass))
  {
    hide ReaderOk, ListsOk;
    if s.writer.Pass? && s.writer.todo == [] {
      EndLists(cfg, s);
      assert Involved(s.writer) == s.writer.kept;
      var s' := FinishPass(cfg, s);
      assert forall r :: r in s.chans ==> (Due(cfg, s, r) <==> Due(cfg, s', r));
    }
  }

  lemma RetryKeeps<R>(cfg: Config, s: State<R>)
    requires Inv(cfg, s)
    ensures Inv(cfg, Next(cfg, s, Retry))
  {
    if s.writer.Waiting? {
      var s' := Next(cfg, s, Retry);
      assert Involved(s'.writer) == Involved(s.writer);
    }
  }

  lemma ReadKeeps<R>(cfg: Config, s: State<R>, a: Action<R>)
    requires Inv(cfg, s) && (a.Recv? || a.Copy?)
    ensures Inv(cfg, Next(cfg, s, a))
  {
    hide ReaderOk, ListsOk, Due, Take, Consume;
    if a.r in s.chans {
      var c, due := s.chans[a.r], Due(cfg, s, a.r);
      if a.Recv? && c.unread == [] && c.queue != [] {
        TakeKeeps(cfg, c, s.writes, due);
        TakeLive(c);
        ReadOne(cfg, s, a.r, Take(c));
      }
      if a.Copy? && a.n <= |c.unread| {
        ConsumeKeeps(cfg, c, s.writes, a.n, due);
        ConsumeLive(c, a.n);
        ReadOne(cfg, s, a.r, Consume(c, a.n));
      }
    }
  }

  lemma TakeLive(c: Chan)
    requires c.queue != []
    ensures Take(c).live == c.live
  {}

  lemma ConsumeLive(c: Chan, n: nat)
    requires n <= |c.unread|
    ensures Consume(c, n).live == c.live
  {}

  /** One reader's channel changes and it stays as live as it was. */
  lemma ReadOne<R>(cfg: Config, s: State<R>, r: R, c': Chan)
    requires Inv(cfg, s) && r in s.chans && c'.live == s.chans[r].live
    requires ReaderOk(cfg, c', s.writes, Due(cfg, s, r))
    ensures Inv(cfg, s.(chans := s.chans[r := c']))
  {
    hide ReaderOk, ListsOk;
    ListsFrame(cfg, s, s.chans[r := c']);
    UpdateDelivery(cfg, s, s.(chans := s.chans[r := c']), r);
  }

  lemma NextKeeps<R>(cfg: Config, s: State<R>, a: Action<R>)
    requires Inv(cfg, s)
    ensures Inv(cfg, Next(cfg, s, a))
  {
    match a
    case Add(r) => AddKeeps(cfg, s, r);
    case Remove(r) => RemoveKeeps(cfg, s, r);
    case Close => CloseKeeps(cfg, s);
    case Begin(p) => BeginKeeps(cfg, s, p);
    case Offer(ready) =>
      if s.writer.Pass? && s.writer.todo != [] {
        HeadDue(cfg, s);
        if s.chans[s.writer.todo[0]].live && Accepts(cfg, s.chans[s.writer.todo[0]], ready) {
          SentKeeps(cfg, s, ready);
        } else {
          UnsentKeeps(cfg, s, ready);
        }
      }
    case EndPass => EndKeeps(cfg, s);
    case Retry => RetryKeeps(cfg, s);
    case Recv(_) => ReadKeeps(cfg, s, a);
    case Copy(_, _) => ReadKeeps(cfg, s, a);
  }

  /** Every interleaving of every length keeps the invariant. */
  lemma {:induction false} RunKeeps<R>(cfg: Config, s: State<R>, acts: seq<Action<R>>)
    requires Inv(cfg, s)
    ensures Inv(cfg, Run(cfg, s, acts))
    decreases |acts|
  {
    if acts != [] {
      NextKeeps(cfg, s, acts[0]);
      RunKeeps(cfg, Next(cfg, s, acts[0]), acts[1..]);
    }
  }

  // -------------------------------------------------------------- guarantees

  lemma InitOk<R>(cfg: Config)
    ensures Inv(cfg, Init<R>())
  {}

  lemma PickRange(c: Chan, writes: seq<Data>)
    requires Indices(c.taken, c.joined, |writes|) && Contiguous(c)
    ensures c.taken != [] ==> c.joined + |c.taken| <= |writes|
    ensures c.taken == [] ==> Pick(writes, c.taken) == []
    ensures c.taken != [] ==> Pick(writes, c.taken) == writes[c.joined..c.joined + |c.taken|]
  {
    if c.taken != [] { assert c.taken[|c.taken| - 1] < |writes|; }
  }

  /** What a reader was sent, byte for byte: returned by Read, left over from the last
      chunk, or waiting in its channel. */
  function AllBytes(c: Chan): Data { c.got + c.unread + Flat(c.queue) }

  /** In every run, whatever a reader of a blocking or dropping stream was sent is the
      concatenation of the consecutive whole writes from its joining up to some point. */
  lemma SentIsRange(cfg: Config, c: Chan, writes: seq<Data>, due: bool)
    requires cfg.kind != Skipping && ReaderOk(cfg, c, writes, due)
    ensures c.joined + |c.taken| <= |writes|
    ensures c.received + c.queue == writes[c.joined..c.joined + |c.taken|]
    ensures AllBytes(c) == Flat(writes[c.joined..c.joined + |c.taken|])
  {
    PickRange(c, writes);
    FlatConcat(c.received, c.queue);
  }

  /** BlockingStream: exactly-once delivery. In every interleaving, a live reader has
      been sent every write begun since it joined, each once, whole and in order, except
      for the one write that is still trying to reach it; no send hits a closed channel. */
  lemma BlockingExactlyOnce<R>(bufflen: nat, acts: seq<Action<R>>, r: R)
    ensures var s := Run(Config(Blocking, bufflen), Init<R>(), acts);
            && !s.panicked
            && (r in s.chans && s.chans[r].live ==>
                  var c := s.chans[r];
                  var upto := if r in Involved(s.writer) then |s.writes| - 1 else |s.writes|;
                  && c.joined <= upto && |c.queue| <= bufflen
                  && c.received + c.queue == s.writes[c.joined..upto]
                  && AllBytes(c) == Flat(s.writes[c.joined..upto]))
  {
    var cfg := Config(Blocking, bufflen);
    InitOk<R>(cfg);
    RunKeeps(cfg, Init<R>(), acts);
    var s := Run(cfg, Init<R>(), acts);
    if r in s.chans { SentIsRange(cfg, s.chans[r], s.writes, Due(cfg, s, r)); }
  }

  /** DroppingStream: every reader, dropped or not, got a contiguous run of whole writes
      from its joining on; one that is still live between Writes missed nothing; and the
      listed readers are distinct and exactly the live ones. */
  lemma DroppingContiguous<R>(bufflen: nat, acts: seq<Action<R>>, r: R)
    ensures var s := Run(Config(Dropping, bufflen), Init<R>(), acts);
            && !s.panicked && Distinct(s.readers)
            && (Unlocked(s) ==> (r in s.readers <==> r in s.chans && s.chans[r].live))
            && (r in s.chans ==>
                  var c := s.chans[r];
                  var upto := c.joined + |c.taken|;
                  && upto <= |s.writes| && |c.queue| <= bufflen
                  && c.received + c.queue == s.writes[c.joined..upto]
                  && AllBytes(c) == Flat(s.writes[c.joined..upto])
                  && (c.live && Unlocked(s) ==> upto == |s.writes|))
  {
    var cfg := Config(Dropping, bufflen);
    InitOk<R>(cfg);
    RunKeeps(cfg, Init<R>(), acts);
    var s := Run(cfg, Init<R>(), acts);
    if r in s.chans { SentIsRange(cfg, s.chans[r], s.writes, Due(cfg, s, r)); }
  }

  /** SkippingStream: every reader got a subsequence of the whole writes made since it
      joined, in order, and is dropped only by Remove or Close. */
  lemma SkippingSubsequence<R>(bufflen: nat, acts: seq<Action<R>>, r: R)
    ensures var s := Run(Config(Skipping, bufflen), Init<R>(), acts);
            && !s.panicked && Distinct(s.readers)
            && (r in s.readers <==> r in s.chans && s.chans[r].live)
            && (r in s.chans ==>
                  var c := s.chans[r];
                  && Indices(c.taken, c.joined, |s.writes|) && |c.queue| <= bufflen
                  && c.received + c.queue == Pick(s.writes, c.taken)
                  && AllBytes(c) == Flat(Pick(s.writes, c.taken)))
  {
    var cfg := Config(Skipping, bufflen);
    InitOk<R>(cfg);
    RunKeeps(cfg, Init<R>(), acts);
    var s := Run(cfg, Init<R>(), acts);
    if r in s.chans { FlatConcat(s.chans[r].received, s.chans[r].queue); }
  }

  lemma OfferClears<R>(cfg: Config, s: State<R>)
    requires cfg.kind == Blocking && Inv(cfg, s) && s.writer.Pass? && s.writer.kept == []
    requires s.writer.todo != [] && s.writer.todo[0] in s.chans && Reachable(cfg, s.chans[s.writer.todo[0]])
    ensures var s' := Next(cfg, s, Offer(false));
            && s'.writer == Pass(s.writer.p, s.writer.todo[1..], [])
            && (forall x :: x in s.chans && x != s.writer.todo[0] ==> x in s'.chans && s'.chans[x] == s.chans[x])
            && (forall x :: x in s'.writer.todo ==> x != s.writer.todo[0] && x in s.writer.todo)
  {
    hide DeliveryOk, Deliver;
    assert Involved(s.writer) == s.writer.todo;
  }

  /** A pass over readers that are all dead or have room leaves no lagger behind. */
  lemma {:induction false} PassCompletes<R>(cfg: Config, s: State<R>, n: nat)
    requires cfg.kind == Blocking && Inv(cfg, s) && s.writer.Pass? && s.writer.kept == []
    requires n == |s.writer.todo|
    requires forall r :: r in s.writer.todo ==> r in s.chans && Reachable(cfg, s.chans[r])
    ensures Run(cfg, s, Offers<R>(n) + [EndPass]).writer.Idle?
    decreases n
  {
    var acts := Offers<R>(n) + [EndPass];
    if n == 0 {
      assert acts == [EndPass];
      assert !s.panicked;
      assert Run(cfg, s, acts) == Run(cfg, Next(cfg, s, EndPass), []);
    } else {
      hide Inv, Next;
      assert acts[0] == Offer(false) && acts[1..] == Offers<R>(n - 1) + [EndPass];
      NextKeeps(cfg, s, Offer(false));
      OfferClears(cfg, s);
      PassCompletes(cfg, Next(cfg, s, Offer(false)), n - 1);
    }
  }

  predicate Reachable(cfg: Config, c: Chan) { !c.live || |c.queue| < cfg.bufflen }

  function Offers<R>(n: nat): seq<Action<R>> { seq(n, _ => Offer(false)) }

  /** A blocked Write finishes as soon as every laggard has been removed or made room. */
  lemma BlockedWriteResumes<R>(cfg: Config, s: State<R>)
    requires cfg.kind == Blocking && Inv(cfg, s) && s.writer.Waiting?
    requires forall r :: r in s.writer.laggers ==> r in s.chans && Reachable(cfg, s.chans[r])
    ensures Run(cfg, s, [Retry] + (Offers<R>(|s.writer.laggers|) + [EndPass])).writer.Idle?
  {
    var rest := Offers<R>(|s.writer.laggers|) + [EndPass];
    NextKeeps(cfg, s, Retry);
    PassCompletes(cfg, Next(cfg, s, Retry), |s.writer.laggers|);
    assert ([Retry] + rest)[1..] == rest;
  }
}
