/** The stream objects of fs/streams.go as classes. Each method is one locked region or one
    call of the source; its contract says which steps of the state machine it performs on
    the abstract state of the objects. */
module StreamObjects {
  import opened Bytes
  import opened Streams
  import opened Passes
  import opened StreamLaws

  class ChanReader {
    var queue: seq<Data>  // the buffer of the channel `read`
    var unread: Data
    var live: bool
    ghost var joined: nat
    ghost var taken: seq<nat>
    ghost var received: seq<Data>
    ghost var got: Data

    ghost function Value(): Chan
      reads this
    { Chan(queue, unread, live, joined, taken, received, got) }

    constructor (live: bool, ghost joined: nat)
      ensures Value() == NewChan(live, joined)
    {
      queue, unread, this.live := [], [], live;
      this.joined, taken, received, got := joined, [], [], [];
    }

    method Close()
      modifies this
      ensures Value() == old(Value()).(live := false)
    {
      if live { live := false; }
    }

    /** What has been sent and not yet returned by a Read. */
    ghost function Rest(): Data
      reads this
    { unread + Flat(queue) }

    /** A receive on the channel, followed by remembering the chunk as unread. */
    method Receive()
      requires queue != [] && unread == []
      modifies this
      ensures Value() == Take(old(Value()))
      ensures Rest() == old(Rest())
      ensures received + queue == old(received + queue)
    {
      assert [] + Flat(queue) == Flat(queue);
      assert (received + [queue[0]]) + queue[1..] == received + queue;
      unread, received := queue[0], received + [queue[0]];
      queue := queue[1..];
    }

    method CopyOut(n: nat) returns (d: Data)
      requires n <= |unread|
      modifies this
      ensures Value() == Consume(old(Value()), n) && d == old(unread)[..n]
      ensures d + Rest() == old(Rest())
    {
      d := unread[..n];
      assert unread[..n] + (unread[n..] + Flat(queue)) == unread + Flat(queue);
      unread, got := unread[n..], got + unread[..n];
    }

    /** fs/streams.go:43-76 without interference. It returns as many of the bytes sent so
        far as fit, in order and across chunks; `blocked` is a receive that found nothing
        on an open channel, and an empty result otherwise is end of file. */
    method Read(max: nat) returns (data: Data, blocked: bool)
      modifies this
      ensures got == old(got) + data
      ensures data + Rest() == old(Rest())
      ensures |data| == if max < |old(Rest())| then max else |old(Rest())|
      ensures received + queue == old(received + queue)
      ensures blocked <==> max > 0 && data == [] && live
      ensures live == old(live) && joined == old(joined) && taken == old(taken)
    {
      hide Flat, Rest;
      data, blocked := [], false;
      var left: nat := max;
      assert data + Rest() == Rest();
      while left > 0
        invariant got == old(got) + data
        invariant data + Rest() == old(Rest()) && |data| + left == max
        invariant received + queue == old(received + queue)
        invariant live == old(live) && joined == old(joined) && taken == old(taken)
        decreases left, |queue|, |unread|
      {
        if unread == [] {
          if queue == [] {
            NothingLeft();
            NoMore(data);
            return data, data == [] && live;
          }
          Receive();
        }
        var n := if left < |unread| then left else |unread|;
        ghost var before := Rest();
        var d := CopyOut(n);
        Associates(data, d, Rest());
        data, left := data + d, left - n;
      }
    }

    lemma NoMore(data: Data)
      ensures data + [] == data
    {}

    lemma NothingLeft()
      requires queue == [] && unread == []
      ensures Rest() == []
    {}
  }

  /** baseStream with the three Writes built on it. AddReadWriter, RemoveReader and Close
      take the lock, so the Write `w` in progress, if any, is between two passes. */
  class FanOut {
    const cfg: Config
    var readers: seq<ChanReader>
    var closed: bool
    ghost var known: set<ChanReader>
    ghost var writes: seq<Data>

    ghost function Chans(): (m: map<ChanReader, Chan>)
      reads `known, known
      ensures m.Keys == known
    { map r | r in known :: r.Value() }

    ghost function Abs(w: Writer<ChanReader>): State<ChanReader>
      reads this, known
    { Listing(readers, w) }

    /** As `Abs`, while a loop is rewriting the list. */
    ghost function Listing(rs: seq<ChanReader>, w: Writer<ChanReader>): State<ChanReader>
      reads `known, `closed, `writes, known
    { State(rs, Chans(), closed, w, writes, false) }

    constructor (cfg: Config)
      ensures this.cfg == cfg && known == {} && Abs(Idle) == Init()
    {
      this.cfg := cfg;
      readers, closed, known, writes := [], false, {}, [];
    }

    /** fs/streams.go:146-161 */
    method AddReadWriter(ghost w: Writer<ChanReader>) returns (r: ChanReader)
      requires !w.Pass?
      modifies this
      ensures fresh(r) && known == old(known) + {r}
      ensures Abs(w) == Next(cfg, old(Abs(w)), Add(r))
    {
      ghost var chans := Chans();
      r := new ChanReader(true, |writes|);
      if closed { r.Close(); } else { readers := readers + [r]; }
      known := known + {r};
      assert Chans() == chans[r := NewChan(!closed, |writes|)];
      hide Chans;
    }

    /** The list is compacted in place, then cut. */
    method Compact(r: ChanReader)
      modifies `readers
      ensures readers == Without(old(readers), r)
    {
      var k, i := 0, 0;
      ghost var rs := readers;
      WithoutStart(rs, r);
      hide Without;
      while i < |readers|
        invariant 0 <= k <= i <= |rs| == |readers|
        invariant readers[..k] + Without(rs[i..], r) == Without(rs, r)
        invariant readers[i..] == rs[i..]
      {
        WithoutStep(readers[..k], rs, i, r);
        if readers[i] != r {
          readers := readers[k := readers[i]];
          k := k + 1;
        }
        i := i + 1;
      }
      WithoutEnd(readers[..k], rs, r);
      readers := readers[..k];
    }

    method CloseReader(r: ChanReader)
      requires r in known
      modifies r
      ensures Chans() == old(Chans())[r := old(r.Value()).(live := false)]
    {
      r.Close();
    }

    /** fs/streams.go:163-177 */
    method RemoveReader(r: ChanReader, ghost w: Writer<ChanReader>)
      requires r in known && !w.Pass?
      modifies this, known
      ensures known == old(known)
      ensures Abs(w) == Next(cfg, old(Abs(w)), Remove(r))
    {
      Compact(r);
      assert Chans() == old(Chans());
      CloseReader(r);
      hide Without;
      assert Kill(old(Chans()), [r]) == Chans();
    }

    method CloseAll()
      requires forall r :: r in readers ==> r in known
      modifies known
      ensures Chans() == Kill(old(Chans()), readers)
    {
      var i := 0;
      while i < |readers|
        invariant i <= |readers|
        invariant forall x :: x in known ==>
                    x.Value() == if x in readers[..i] then old(x.Value()).(live := false) else old(x.Value())
      {
        readers[i].Close();
        i := i + 1;
      }
      assert readers[..i] == readers;
    }

    /** fs/streams.go:219-232 */
    method Close(ghost w: Writer<ChanReader>)
      requires !w.Pass? && forall r :: r in readers ==> r in known
      modifies this, known
      ensures known == old(known)
      ensures Abs(w) == Next(cfg, old(Abs(w)), Streams.Close)
    {
      hide Chans, Kill;
      if closed { return; }
      CloseAll();
      readers := [];
      closed := true;
    }

    /** The select around one send: the copy goes into the channel if there is room. */
    method TrySend(r: ChanReader, p: Data, ready: bool) returns (sent: bool)
      requires writes != [] && r in known
      modifies r
      ensures sent <==> Accepts(cfg, old(r.Value()), ready)
      ensures sent ==> Chans() == old(Chans())[r := Deliver(cfg, old(r.Value()), |writes| - 1, p)]
      ensures !sent ==> Chans() == old(Chans())
    {
      sent := HasRoom(cfg, r.queue, r.unread, ready);
      if sent {
        r.queue, r.taken := r.queue + [p], r.taken + [|writes| - 1];
        if cfg.bufflen == 0 { r.Receive(); }
      }
    }

    ghost predicate CanSweep(rs: seq<ChanReader>)
      reads this
    { writes != [] && forall r :: r in rs ==> r in known }

    /** The body of the loop in tryWrite (fs/streams.go:309-318). */
    method TryOne(p: Data, todo: seq<ChanReader>, laggers: seq<ChanReader>, ready: bool)
      returns (laggers': seq<ChanReader>)
      requires cfg.kind == Blocking && todo != [] && CanSweep(todo)
      modifies todo[0]
      ensures Abs(Pass(p, todo[1..], laggers')) == OfferTo(cfg, old(Abs(Pass(p, todo, laggers))), ready)
    {
      hide Accepts, Deliver, Chans;
      laggers' := laggers;
      KnownValue(todo[0]);
      if todo[0].live {
        var sent := TrySend(todo[0], p, ready);
        if !sent { laggers' := laggers + [todo[0]]; }
      }
    }

    method TryPass(rs: seq<ChanReader>, p: Data, ready: set<ChanReader>) returns (laggers: seq<ChanReader>)
      requires cfg.kind == Blocking && CanSweep(rs)
      modifies known
      ensures Abs(Pass(p, [], laggers)) == Sweep(cfg, old(Abs(Pass(p, rs, []))), ready)
    {
      hide OfferTo, Sweep, Chans;
      laggers := [];
      var i := 0;
      assert rs[0..] == rs;
      while i < |rs|
        invariant i <= |rs|
        invariant Sweep(cfg, Abs(Pass(p, rs[i..], laggers)), ready) == Sweep(cfg, old(Abs(Pass(p, rs, []))), ready)
      {
        SweepStep(cfg, Abs(Pass(p, rs[i..], laggers)), ready);
        assert rs[i..][1..] == rs[i + 1..];
        laggers := TryOne(p, rs[i..], laggers, rs[i] in ready);
        i := i + 1;
      }
      assert rs[i..] == [];
      SweepDone(cfg, Abs(Pass(p, [], laggers)), ready);
    }

    /** The body of DroppingStream's loop (fs/streams.go:256-270); `ready` says that the
        send wins over the timer. Sending on a closed channel panics. */
    method DropOne(ghost listed: seq<ChanReader>, p: Data, todo: seq<ChanReader>, ghost kept: seq<ChanReader>,
        ready: bool)
      returns (keep: bool, panicked: bool)
      requires cfg.kind == Dropping && todo != [] && CanSweep(todo)
      modifies todo[0]
      ensures panicked <==> OfferTo(cfg, old(Listing(listed, Pass(p, todo, kept))), ready).panicked
      ensures !panicked ==>
                Listing(listed, Pass(p, todo[1..], if keep then kept + [todo[0]] else kept)) ==
                OfferTo(cfg, old(Listing(listed, Pass(p, todo, kept))), ready)
    {
      hide Accepts, Deliver, Chans;
      KnownValue(todo[0]);
      if !todo[0].live { return false, true; }
      keep := TrySend(todo[0], p, ready);
      if !keep { KnownValue(todo[0]); CloseReader(todo[0]); }
      panicked := false;
    }

    /** A reader that took the copy is moved down the list; one that did not is closed. */
    method DropStep(ghost rs: seq<ChanReader>, p: Data, ready: set<ChanReader>, i: nat, k: nat)
      returns (k': nat, panicked: bool)
      requires cfg.kind == Dropping && k <= i < |readers| == |rs| && readers[i..] == rs[i..] && CanSweep(rs)
      modifies `readers, known
      ensures panicked <==> OfferTo(cfg, old(Listing(rs, Pass(p, rs[i..], readers[..k]))), rs[i] in ready).panicked
      ensures !panicked ==> k <= k' <= i + 1 && |readers| == |rs| && readers[i + 1..] == rs[i + 1..]
      ensures !panicked ==>
                Listing(rs, Pass(p, rs[i + 1..], readers[..k'])) ==
                OfferTo(cfg, old(Listing(rs, Pass(p, rs[i..], readers[..k]))), rs[i] in ready)
    {
      hide OfferTo, Chans;
      assert rs[i..][1..] == rs[i + 1..];
      var r := readers[i];
      ghost var kept := readers[..k];
      var keep;
      keep, panicked := DropOne(rs, p, readers[i..], kept, r in ready);
      k' := k;
      if !panicked && keep {
        readers := readers[k := r];
        k' := k + 1;
        assert readers[..k'] == kept + [r];
      }
    }

    method DropPass(p: Data, ready: set<ChanReader>) returns (panicked: bool)
      requires cfg.kind == Dropping && forall r :: r in readers ==> r in known
      modifies this, known
      ensures writes == old(writes) + [p] && known == old(known)
      ensures var swept := Sweep(cfg, Next(cfg, old(Abs(Idle)), Begin(p)), ready);
              && (panicked <==> swept.panicked)
              && (!panicked ==> Abs(Idle) == FinishPass(cfg, swept))
    {
      hide OfferTo, Sweep, Chans;
      writes := writes + [p];
      ghost var rs := readers;
      ghost var start := Listing(rs, Pass(p, rs, []));
      var k, i := 0, 0;
      assert rs[0..] == rs;
      while i < |readers|
        invariant 0 <= k <= i <= |readers| == |rs| && readers[i..] == rs[i..]
        invariant closed == old(closed) && writes == old(writes) + [p] && known == old(known)
        invariant Sweep(cfg, Listing(rs, Pass(p, rs[i..], readers[..k])), ready) == Sweep(cfg, start, ready)
      {
        SweepStep(cfg, Listing(rs, Pass(p, rs[i..], readers[..k])), ready);
        k, panicked := DropStep(rs, p, ready, i, k);
        if panicked { return true; }
        i := i + 1;
      }
      assert rs[i..] == [];
      readers := readers[..k];
      SweepDone(cfg, Listing(rs, Pass(p, [], readers)), ready);
      return false;
    }

    /** fs/streams.go:340-355, one reader at a time. */
    method SkipOne(p: Data, todo: seq<ChanReader>, ghost kept: seq<ChanReader>, ready: bool) returns (panicked: bool)
      requires cfg.kind == Skipping && todo != [] && CanSweep(todo)
      modifies todo[0]
      ensures panicked <==> OfferTo(cfg, old(Abs(Pass(p, todo, kept))), ready).panicked
      ensures !panicked ==>
                Abs(Pass(p, todo[1..], kept + [todo[0]])) == OfferTo(cfg, old(Abs(Pass(p, todo, kept))), ready)
    {
      hide Accepts, Deliver, Chans;
      KnownValue(todo[0]);
      if !todo[0].live { return true; }
      var sent := TrySend(todo[0], p, ready);
      panicked := false;
    }

    method SkipPass(p: Data, ready: set<ChanReader>) returns (panicked: bool)
      requires cfg.kind == Skipping && forall r :: r in readers ==> r in known
      modifies this, known
      ensures writes == old(writes) + [p] && known == old(known)
      ensures var swept := Sweep(cfg, Next(cfg, old(Abs(Idle)), Begin(p)), ready);
              && (panicked <==> swept.panicked)
              && (!panicked ==> Abs(Idle) == FinishPass(cfg, swept))
    {
      hide OfferTo, Sweep, Chans;
      writes := writes + [p];
      ghost var start := Abs(Pass(p, readers, []));
      var i := 0;
      assert readers[0..] == readers;
      while i < |readers|
        invariant i <= |readers| && readers == old(readers)
        invariant closed == old(closed) && writes == old(writes) + [p] && known == old(known)
        invariant Sweep(cfg, Abs(Pass(p, readers[i..], readers[..i])), ready) == Sweep(cfg, start, ready)
      {
        SweepStep(cfg, Abs(Pass(p, readers[i..], readers[..i])), ready);
        assert readers[i..][1..] == readers[i + 1..];
        assert readers[..i] + [readers[i]] == readers[..i + 1];
        var panic := SkipOne(p, readers[i..], readers[..i], readers[i] in ready);
        if panic { return true; }
        i := i + 1;
      }
      assert readers[i..] == [];
      SweepDone(cfg, Abs(Pass(p, [], readers[..i])), ready);
      return false;
    }

    /** fs/streams.go:304-321: of distinct readers exactly the live ones with room get the
        write, and the live ones without are the laggards, in order. */
    method TryWrite(rs: seq<ChanReader>, p: Data, ready: set<ChanReader>) returns (laggers: seq<ChanReader>)
      requires cfg.kind == Blocking && CanSweep(rs)
      modifies known
      ensures Abs(Pass(p, [], laggers)) == Sweep(cfg, old(Abs(Pass(p, rs, []))), ready)
      ensures Distinct(rs) ==>
                && laggers == Staying(cfg, old(Chans()), rs, ready)
                && forall r :: r in rs ==> Fate(cfg, old(r.Value()), r.Value(), p, r in ready)
    {
      hide Sweep, Chans, Fate, OfferTo;
      ghost var start := Abs(Pass(p, rs, []));
      forall r | r in rs { KnownValue(r); }
      laggers := TryPass(rs, p, ready);
      if Distinct(rs) {
        PassMeans(cfg, start, ready);
        forall r | r in rs ensures r in Chans() && Chans()[r] == r.Value() { KnownValue(r); }
      }
    }

    /** fs/streams.go:251-273: of distinct live readers exactly those that are ready and have
        room get the write and stay, in order; the others are closed. */
    method DropWrite(p: Data, ready: set<ChanReader>) returns (panicked: bool)
      requires cfg.kind == Dropping && forall r :: r in readers ==> r in known
      modifies this, known
      ensures writes == old(writes) + [p] && known == old(known)
      ensures var swept := Sweep(cfg, Next(cfg, old(Abs(Idle)), Begin(p)), ready);
              && (panicked <==> swept.panicked)
              && (!panicked ==> Abs(Idle) == FinishPass(cfg, swept))
      ensures Distinct(old(readers)) && (forall r :: r in old(readers) ==> old(r.live)) ==>
                && !panicked && readers == Staying(cfg, old(Chans()), old(readers), ready)
                && forall r :: r in old(readers) ==> Fate(cfg, old(r.Value()), r.Value(), p, r in ready)
    {
      hide Sweep, Chans, Fate, OfferTo;
      ghost var start := Next(cfg, Abs(Idle), Begin(p));
      forall r | r in readers { KnownValue(r); }
      panicked := DropPass(p, ready);
      if Distinct(old(readers)) && (forall r :: r in old(readers) ==> old(r.live)) {
        PassMeans(cfg, start, ready);
        forall r | r in old(readers) ensures r in Chans() && Chans()[r] == r.Value() { KnownValue(r); }
      }
    }

    /** fs/streams.go:340-355: of distinct live readers exactly those that are ready and have
        room get the write, and all stay. */
    method SkipWrite(p: Data, ready: set<ChanReader>) returns (panicked: bool)
      requires cfg.kind == Skipping && forall r :: r in readers ==> r in known
      modifies this, known
      ensures writes == old(writes) + [p] && known == old(known)
      ensures var swept := Sweep(cfg, Next(cfg, old(Abs(Idle)), Begin(p)), ready);
              && (panicked <==> swept.panicked)
              && (!panicked ==> Abs(Idle) == FinishPass(cfg, swept))
      ensures Distinct(old(readers)) && (forall r :: r in old(readers) ==> old(r.live)) ==>
                && !panicked && readers == old(readers)
                && forall r :: r in readers ==> Fate(cfg, old(r.Value()), r.Value(), p, r in ready)
    {
      hide Sweep, Chans, Fate, OfferTo;
      ghost var start := Next(cfg, Abs(Idle), Begin(p));
      forall r | r in readers { KnownValue(r); }
      panicked := SkipPass(p, ready);
      if Distinct(old(readers)) && (forall r :: r in old(readers) ==> old(r.live)) {
        PassMeans(cfg, start, ready);
        forall r | r in old(readers) ensures r in Chans() && Chans()[r] == r.Value() { KnownValue(r); }
      }
    }

    lemma KnownValue(r: ChanReader)
      requires r in known
      ensures r in Chans() && Chans()[r] == r.Value()
    {}
  }

  lemma WithoutStart<R>(rs: seq<R>, r: R)
    ensures rs[..0] + Without(rs[0..], r) == Without(rs, r)
  { assert rs[0..] == rs; }

  lemma WithoutStep<R>(front: seq<R>, rs: seq<R>, i: nat, r: R)
    requires i < |rs|
    ensures front + Without(rs[i..], r) ==
            if rs[i] == r then front + Without(rs[i + 1..], r) else (front + [rs[i]]) + Without(rs[i + 1..], r)
  {
    assert rs[i..][1..] == rs[i + 1..];
    assert [] + Without(rs[i + 1..], r) == Without(rs[i + 1..], r);
    assert front + ([rs[i]] + Without(rs[i + 1..], r)) == (front + [rs[i]]) + Without(rs[i + 1..], r);
  }

  lemma WithoutEnd<R>(front: seq<R>, rs: seq<R>, r: R)
    ensures front + Without(rs[|rs|..], r) == front
  {}
}
