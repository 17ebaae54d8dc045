/** What the workers of a connection do to the file server, and what takes the process down:
    every run of Rpc is a run of FileServer, so what holds of those holds of the pool. */
module Pool {
  import opened Bytes
  import opened Proto
  import opened Rpc
  import FS = FileServer
  import FT = FileTree
  import TreeLaws
  import RoundTrip
  import ServerResults
  import Replies
  import Wire

  // --------------------------------------------------------- a run of the file server

  /** What a step asks of the file server. */
  function FsStep<C, N>(h: Host, s: State<C, N>, a: Action<C, N>): seq<FS.Action<N>> {
    if !Enabled(h, s, a) then []
    else
      match a
      case Finish(w, env, _) =>
        var msg := s.workers[w].call.msg;
        if IsRequest(msg.body) then [FS.Request(h.conn, msg, env)] else []
      case Serve(b) => [b]
      case _ => []
  }

  /** What a run asks of the file server, in order. */
  function FsActs<C, N>(h: Host, s: State<C, N>, acts: seq<Action<C, N>>): (r: seq<FS.Action<N>>)
    ensures |r| <= |acts|
    decreases |acts|
  { if acts == [] then [] else FsStep(h, s, acts[0]) + FsActs(h, Next(h, s, acts[0]), acts[1..]) }

  lemma StepSys<C, N>(h: Host, s: State<C, N>, a: Action<C, N>)
    ensures Next(h, s, a).sys == FS.Run(h.cfg, s.sys, FsStep(h, s, a))
  {
    hide FS.Handle, FS.Response, IsRequest, Wire.Composes;
    if FsStep(h, s, a) != [] { assert FsStep(h, s, a)[1..] == []; }
  }

  lemma {:induction false} RunConcat<N>(cfg: FS.Config, s: FS.Sys<N>, xs: seq<FS.Action<N>>, ys: seq<FS.Action<N>>)
    ensures FS.Run(cfg, s, xs + ys) == FS.Run(cfg, FS.Run(cfg, s, xs), ys)
    decreases |xs|
  {
    hide FS.Next;
    if xs == [] { assert xs + ys == ys; }
    else {
      RunConcat(cfg, FS.Next(cfg, s, xs[0]), xs[1..], ys);
      assert (xs + ys)[1..] == xs[1..] + ys;
    }
  }

  /** Whatever the interleaving of readers, workers, writer and other connections, the file
      server goes through a run of its own. */
  lemma {:induction false} SysIsRun<C, N>(h: Host, s: State<C, N>, acts: seq<Action<C, N>>)
    ensures Run(h, s, acts).sys == FS.Run(h.cfg, s.sys, FsActs(h, s, acts))
    decreases |acts|
  {
    hide Next, FsStep;
    if acts != [] {
      StepSys(h, s, acts[0]);
      SysIsRun(h, Next(h, s, acts[0]), acts[1..]);
      RunConcat(h.cfg, s.sys, FsStep(h, s, acts[0]), FsActs(h, Next(h, s, acts[0]), acts[1..]));
    }
  }

  /** With a pool of workers too, on a server that has run before: the tree stays a tree, and
      each Read, Write and Close a File gets comes after an Open of it under the same id. */
  lemma PoolSafe<C, N>(h: Host, root: N, user: Data, group: Data, perms: u32, now: u32, before: seq<FS.Action<N>>,
                       workers: nat, acts: seq<Action<C, N>>, i: nat)
    requires |before| + |acts| < TWO64
    ensures var sys := FS.Run(h.cfg, FS.Start(FT.NewFS(root, user, group, perms, now)), before);
            var sys' := Run(h, Init<C, N>(workers, sys), acts).sys;
            && TreeLaws.TreeOk(sys'.fs)
            && (i < |sys'.trace| ==>
                  || sys'.trace[i].Opened?
                  || exists j: nat :: ServerResults.OpenedAt(sys'.trace, i, sys'.trace[i].n, sys'.trace[i].id, j))
  {
    hide Run, FS.Run, TreeLaws.TreeOk, FsActs;
    var fs := FT.NewFS(root, user, group, perms, now);
    var s := Init<C, N>(workers, FS.Run(h.cfg, FS.Start(fs), before));
    SysIsRun(h, s, acts);
    var all := before + FsActs(h, s, acts);
    RunConcat(h.cfg, FS.Start(fs), before, FsActs(h, s, acts));
    ServerResults.TreeAlwaysOk(h.cfg, root, user, group, perms, now, all);
    if i < |FS.Run(h.cfg, FS.Start(fs), all).trace| {
      ServerResults.OpenBeforeUse(h.cfg, root, user, group, perms, now, all, i);
    }
  }

  // --------------------------------------------------------------------- a full queue

  function Busy<C>(ws: seq<Worker<C>>): nat {
    if ws == [] then 0 else (if ws[0].Idle? || ws[0].Gone? then 0 else 1) + Busy(ws[1..])
  }

  lemma {:induction false} BusyUpdate<C>(ws: seq<Worker<C>>, w: nat, x: Worker<C>)
    requires w < |ws|
    ensures Busy(ws[w := x]) == Busy(ws) - Busy([ws[w]]) + Busy([x])
  {
    if w == 0 { assert ws[0 := x][1..] == ws[1..]; }
    else {
      BusyUpdate(ws[1..], w - 1, x);
      assert ws[w := x][1..] == ws[1..][w - 1 := x];
    }
  }

  lemma {:induction false} BusyIdle<C>(n: nat)
    ensures Busy(seq(n, _ => Worker<C>.Idle)) == 0
  {
    if n > 0 {
      BusyIdle<C>(n - 1);
      assert seq(n, _ => Worker<C>.Idle)[1..] == seq(n - 1, _ => Worker<C>.Idle);
    }
  }

  /** Whatever is on its way was sent and is not answered. */
  ghost predicate Tally<C, N>(s: State<C, N>) {
    |s.incoming| + Busy(s.workers) + |s.outgoing| + |s.delivered| <= |s.sent|
  }

  lemma StepTallies<C, N>(h: Host, s: State<C, N>, a: Action<C, N>)
    requires Tally(s)
    ensures Tally(Next(h, s, a))
  {
    hide FinishCall, FS.Next, Wire.Composes;
    if Enabled(h, s, a) {
      if a.Finish? { FinishTallies(h, s, a.w, a.env, a.text); }
      else if a.Take? || a.Begin? || a.Push? { BusyUpdate(s.workers, a.w, Next(h, s, a).workers[a.w]); }
    }
  }

  lemma FinishTallies<C, N>(h: Host, s: State<C, N>, w: nat, env: FS.Env<N>, text: Data)
    requires Tally(s) && w < |s.workers| && s.workers[w].Handling? && CanHandle(h, s.sys, env)
    ensures Tally(FinishCall(h, s, w, env, text))
  {
    hide FS.Handle, FS.Response, IsRequest, Busy;
    var x := FinishCall(h, s, w, env, text).workers[w];
    assert s.workers[w := s.workers[w]] == s.workers;
    BusyUpdate(s.workers, w, x);
    assert Busy([x]) <= Busy([s.workers[w]]) by { BusyOne(x); BusyOne(s.workers[w]); }
  }

  lemma BusyOne<C>(x: Worker<C>)
    ensures Busy([x]) == if x.Idle? || x.Gone? then 0 else 1
  { assert [x][1..] == []; }

  /** The client never has more than a hundred requests unanswered. */
  predicate Modest<C, N>(h: Host, s: State<C, N>, acts: seq<Action<C, N>>)
    decreases |acts|
  {
    acts == [] ||
    ((acts[0].Arrive? ==> |s.sent| - |s.delivered| < CAPACITY) && Modest(h, Next(h, s, acts[0]), acts[1..]))
  }

  lemma {:induction false} ModestRun<C, N>(h: Host, s: State<C, N>, acts: seq<Action<C, N>>)
    requires Tally(s) && Modest(h, s, acts) && s.process != Overflowed
    ensures Run(h, s, acts).process != Overflowed
    decreases |acts|
  {
    hide Tally, Next;
    if acts != [] {
      StepTallies(h, s, acts[0]);
      NoOverflow(h, s, acts[0]);
      ModestRun(h, Next(h, s, acts[0]), acts[1..]);
    }
  }

  lemma NoOverflow<C, N>(h: Host, s: State<C, N>, a: Action<C, N>)
    requires Tally(s) && s.process != Overflowed && (a.Arrive? ==> |s.sent| - |s.delivered| < CAPACITY)
    ensures Next(h, s, a).process != Overflowed
  { hide FS.Handle, FS.Response, FS.Next, IsRequest, Wire.Composes; }

  /** Such a client never makes the queue overflow, however slow the workers are and
      whatever tags it uses. */
  lemma NeverOverflows<C, N>(h: Host, workers: nat, sys: FS.Sys<N>, acts: seq<Action<C, N>>)
    requires Modest(h, Init<C, N>(workers, sys), acts)
    ensures Run(h, Init<C, N>(workers, sys), acts).process != Overflowed
  {
    hide Run, Modest;
    BusyIdle<C>(workers);
    ModestRun(h, Init<C, N>(workers, sys), acts);
  }

  function Arrivals<C, N>(msgs: seq<FCall>): seq<Action<C, N>> {
    seq(|msgs|, i requires 0 <= i < |msgs| => Arrive(msgs[i]))
  }

  /** Requests sent faster than any is taken take the process down exactly when the queue
      has no room for them. */
  lemma {:induction false} FloodOverflowsIff<C, N>(h: Host, s: State<C, N>, msgs: seq<FCall>)
    requires s.process == Running && |s.incoming| <= CAPACITY
    ensures Run(h, s, Arrivals(msgs)).process == Overflowed <==> |s.incoming| + |msgs| > CAPACITY
    decreases |msgs|
  {
    var acts := Arrivals<C, N>(msgs);
    if msgs != [] {
      assert acts[1..] == Arrivals<C, N>(msgs[1..]);
      var s1 := Next(h, s, acts[0]);
      if Full(s) { Down(h, s1, acts[1..]); } else { FloodOverflowsIff(h, s1, msgs[1..]); }
    }
  }

  lemma {:induction false} Down<C, N>(h: Host, s: State<C, N>, acts: seq<Action<C, N>>)
    requires s.process != Running
    ensures Run(h, s, acts) == s
    decreases |acts|
  { if acts != [] { Down(h, s, acts[1..]); } }

  // --------------------------------------------------------------------------- order

  /** The queue is the end of what arrived. */
  ghost predicate InOrder<C, N>(s: State<C, N>) {
    |s.incoming| <= |s.sent| && s.incoming == s.sent[|s.sent| - |s.incoming|..]
  }

  /** What was written or is about to be, in order. */
  function Outs<C, N>(s: State<C, N>): seq<Out> { s.delivered + s.outgoing }

  lemma FinishOrder<C, N>(h: Host, s: State<C, N>, w: nat, env: FS.Env<N>, text: Data)
    requires w < |s.workers| && s.workers[w].Handling? && CanHandle(h, s.sys, env)
    ensures var s' := FinishCall(h, s, w, env, text);
            s'.incoming == s.incoming && s'.sent == s.sent && s'.outgoing == s.outgoing && s'.delivered == s.delivered
  { hide FS.Handle, FS.Response, IsRequest; }

  lemma StepOrder<C, N>(h: Host, s: State<C, N>, a: Action<C, N>)
    ensures InOrder(s) ==> InOrder(Next(h, s, a))
    ensures Outs(s) <= Outs(Next(h, s, a))
  {
    hide FinishCall, FS.Next, Wire.Composes;
    if Enabled(h, s, a) {
      match a
      case Finish(w, env, text) => FinishOrder(h, s, w, env, text);
      case Push(w) => assert s.delivered <= s.delivered + s.outgoing;
      case Write => assert (s.delivered + [s.outgoing[0]]) + s.outgoing[1..] == s.delivered + s.outgoing;
      case _ =>
    }
  }

  lemma {:induction false} RunOrder<C, N>(h: Host, s: State<C, N>, acts: seq<Action<C, N>>)
    ensures InOrder(s) ==> InOrder(Run(h, s, acts))
    ensures Outs(s) <= Outs(Run(h, s, acts))
    decreases |acts|
  {
    hide Next, InOrder, Outs;
    if acts != [] {
      StepOrder(h, s, acts[0]);
      RunOrder(h, Next(h, s, acts[0]), acts[1..]);
    }
  }

  /** In every run requests are taken in the order they arrived: all but the last so many,
      which wait in the queue, have been, and the next worker gets the oldest of those. */
  lemma TakenInOrder<C, N>(h: Host, workers: nat, sys: FS.Sys<N>, acts: seq<Action<C, N>>, w: nat)
    ensures var s := Run(h, Init<C, N>(workers, sys), acts);
            var done := |s.sent| - |s.incoming|;
            && 0 <= done && s.incoming == s.sent[done..]
            && (Enabled(h, s, Take(w)) ==>
                  var s' := Next(h, s, Take(w));
                  s'.workers[w] == Taken(s.sent[done]) && s'.incoming == s.sent[done + 1..])
  {
    hide Run;
    RunOrder(h, Init<C, N>(workers, sys), acts);
  }

  /** Replies are written in the order workers hand them over: whatever happens, the list of
      those written and those queued behind them only grows at its end, by the reply pushed. */
  lemma WrittenInOrder<C, N>(h: Host, s: State<C, N>, w: nat, acts: seq<Action<C, N>>)
    requires Enabled(h, s, Push(w))
    ensures Outs(s) + [Out(s.workers[w].call, s.workers[w].reply)] <= Outs(Run(h, Next(h, s, Push(w)), acts))
  {
    hide Run;
    RunOrder(h, Next(h, s, Push(w)), acts);
    var o := Out(s.workers[w].call, s.workers[w].reply);
    assert s.delivered + (s.outgoing + [o]) == (s.delivered + s.outgoing) + [o];
  }

  // ---------------------------------------------------------------- panics of requests

  /** A step takes the process down exactly when it is a request one too many for the queue,
      a request whose handler panics, or a reply that cannot be composed. */
  lemma DownIff<C, N>(h: Host, s: State<C, N>, a: Action<C, N>)
    requires Enabled(h, s, a)
    ensures var p := Next(h, s, a).process;
            match a
            case Arrive(_) => p == (if |s.incoming| < 100 then Running else Overflowed)
            case Finish(w, env, _) =>
              var call := s.workers[w].call;
              p == if IsRequest(call.msg.body) && FS.Handle(h.cfg, s.sys, h.conn, call.msg, env).1 == FS.Crash
                   then HandlerPanicked(call) else Running
            case Write =>
              p == if Wire.Composes(s.outgoing[0].reply) then Running else ComposePanicked(s.outgoing[0])
            case _ => p == Running
  { hide FS.Handle, FS.Response, FS.Next, IsRequest, Wire.Composes; }

  /** Every message of even type, and an Rversion, goes to the file server; any other ends the
      worker, and the file server does not hear of it. */
  lemma RequestsHandled<C, N>(h: Host, s: State<C, N>, w: nat, env: FS.Env<N>, text: Data)
    requires Enabled(h, s, Finish(w, env, text))
    requires RoundTrip.TypeMatches(s.workers[w].call.msg.typ, s.workers[w].call.msg.body)
    ensures var call := s.workers[w].call;
            var s' := Next(h, s, Finish(w, env, text));
            if call.msg.typ % 2 == 0 || call.msg.typ == 101
            then s'.sys == FS.Handle(h.cfg, s.sys, h.conn, call.msg, env).0
            else s' == s.(workers := s.workers[w := Gone], failed := s.failed + [call])
  {
    hide FS.Handle, FS.Response;
    RequestTypes(s.workers[w].call.msg.typ, s.workers[w].call.msg.body);
    hide IsRequest, RoundTrip.TypeMatches;
  }

  lemma RequestTypes(typ: byte, b: Body)
    requires RoundTrip.TypeMatches(typ, b)
    ensures IsRequest(b) <==> typ % 2 == 0 || typ == 101
  {}

  /** The k-th step of the run handles a request that panics there, or whose reply cannot be
      composed. */
  predicate PanicsAt<C, N>(h: Host, s0: State<C, N>, acts: seq<Action<C, N>>, call: Call, k: nat) {
    k < |acts| &&
    var s, a := Run(h, s0, acts[..k]), acts[k];
    && a.Finish? && Enabled(h, s, a) && s.workers[a.w].call == call
    && Replies.Panics(h.cfg, s.sys, h.conn, call.msg, a.env)
  }

  /** If the process went down under a request, that request met the condition that
      AnsweredUnless spells out when it was handled. */
  lemma DownByRequest<C, N>(h: Host, workers: nat, sys: FS.Sys<N>, acts: seq<Action<C, N>>)
    ensures var s0 := Init<C, N>(workers, sys);
            match Run(h, s0, acts).process
            case HandlerPanicked(call) => exists k: nat :: PanicsAt(h, s0, acts, call, k)
            case ComposePanicked(o) => exists k: nat :: PanicsAt(h, s0, acts, o.call, k)
            case _ => true
  {
    hide Run, Replies.Panics, Makes, Enabled;
    var s0 := Init<C, N>(workers, sys);
    match Run(h, s0, acts).process
    case HandlerPanicked(call) => HandlerPanics(h, s0, acts, call);
    case ComposePanicked(o) =>
      ComposeFails(h, s0, acts, o);
      EveryReply(h, s0, acts, o);
      var k: nat :| MadeAt(h, s0, acts, o, k);
      MadePanics(h, Run(h, s0, acts[..k]), acts[k], o);
      assert PanicsAt(h, s0, acts, o.call, k);
    case _ =>
  }

  lemma MadePanics<C, N>(h: Host, s: State<C, N>, a: Action<C, N>, o: Out)
    requires Makes(h, s, a, o) && !Wire.Composes(o.reply)
    ensures a.Finish? && Enabled(h, s, a) && s.workers[a.w].call == o.call
    ensures Replies.Panics(h.cfg, s.sys, h.conn, o.call.msg, a.env)
  { hide FS.Handle; }

  lemma {:induction false} ComposeFails<C, N>(h: Host, s: State<C, N>, acts: seq<Action<C, N>>, o: Out)
    requires s.process == Running && Run(h, s, acts).process == ComposePanicked(o)
    ensures Has(Run(h, s, acts), o) && !Wire.Composes(o.reply)
    decreases |acts|
  {
    hide FS.Handle, FS.Response, FS.Next, IsRequest, Wire.Composes;
    var s1 := Next(h, s, acts[0]);
    if s1.process == Running { ComposeFails(h, s1, acts[1..], o); } else { Down(h, s1, acts[1..]); }
  }

  lemma {:induction false} HandlerPanics<C, N>(h: Host, s: State<C, N>, acts: seq<Action<C, N>>, call: Call)
    requires s.process == Running && Run(h, s, acts).process == HandlerPanicked(call)
    ensures exists k: nat :: PanicsAt(h, s, acts, call, k)
    decreases |acts|
  {
    hide FS.Handle, FS.Response, FS.Next, IsRequest, Wire.Composes;
    var s1 := Next(h, s, acts[0]);
    if s1.process == Running {
      HandlerPanics(h, s1, acts[1..], call);
      var k: nat :| PanicsAt(h, s1, acts[1..], call, k);
      assert acts[..k + 1][1..] == acts[1..][..k];
      assert PanicsAt(h, s, acts, call, k + 1);
    } else {
      Down(h, s1, acts[1..]);
      assert acts[..0] == [];
      assert PanicsAt(h, s, acts, call, 0);
    }
  }
}
