/** Requests and replies of one connection (server.go:110-228, fs/server.go:57-77): a queue
    in, workers sharing a table of tag contexts and the file server, a queue out. A `Call` is
    a request together with its place in the order of arrival, and an `Out` is a reply on its
    way, with the call whose handling produced it. `C` is the identity of a context object. */
module Rpc {
  import opened Bytes
  import opened Proto
  import FS = FileServer
  import RoundTrip
  import Replies
  import Wire

  datatype Call = Call(id: nat, msg: FCall)

  datatype Out = Out(call: Call, reply: FCall)

  datatype Worker<C> =
    | Idle
    | Taken(call: Call)              // out of the queue, before TagContext
    | Handling(call: Call, ctx: C)   // in the handler, between TagContext and the check
    | Replying(call: Call, reply: FCall)  // about to send on `outgoing`
    | Gone                           // left after a Go error

  /** A Go panic in any goroutine takes the process down: the reader's when the queue is
      full, a handler's, or the writer's when it composes a reply. */
  datatype Process = Running | Overflowed | HandlerPanicked(call: Call) | ComposePanicked(out: Out)

  /** `sent`, `delivered`, `failed` and `suppressed` are histories: what arrived, what was
      written back, what ended in a Go error, and what the context check swallowed. */
  datatype State<C, N> = State(
    incoming: seq<Call>, workers: seq<Worker<C>>, outgoing: seq<Out>,
    tags: map<u16, C>, cancelled: set<C>, known: set<C>, sys: FS.Sys<N>,
    sent: seq<Call>, delivered: seq<Out>, failed: seq<Call>, suppressed: seq<Call>, process: Process)

  /** The server's configuration and the number of this connection. */
  datatype Host = Host(cfg: FS.Config, conn: u32)

  /** Serve is a step of the file server for another connection, or of an authentication. */
  datatype Action<C, N> =
    | Arrive(msg: FCall)
    | Take(w: nat)
    | Begin(w: nat, ctx: C)
    | Finish(w: nat, env: FS.Env<N>, text: Data)
    | Push(w: nat)
    | Write
    | Serve(a: FS.Action<N>)

  const CAPACITY := 100

  function Init<C, N>(workers: nat, sys: FS.Sys<N>): State<C, N> {
    State([], seq(workers, _ => Idle), [], map[], {}, {}, sys, [], [], [], [], Running)
  }

  function Calls(os: seq<Out>): seq<Call> { seq(|os|, i requires 0 <= i < |os| => os[i].call) }

  /** A tag is outstanding from the request's arrival until its reply is written. */
  predicate Outstanding<C, N>(s: State<C, N>, tag: u16) {
    exists i :: 0 <= i < |s.sent| && s.sent[i].msg.tag == tag && s.sent[i] !in Calls(s.delivered)
  }

  /** fs/server.go:57-67: an existing context is shared. */
  function TagContext<C>(tags: map<u16, C>, tag: u16, ctx: C): map<u16, C> {
    if tag in tags then tags else tags[tag := ctx]
  }

  /** What handleCall dispatches; anything else is an invalid call. */
  predicate IsRequest(b: Body) {
    || b.Version? || b.TAuth? || b.TAttach? || b.TFlush? || b.TWalk? || b.TOpen? || b.TCreate? || b.TRead? || b.TWrite?
    || b.TClunk? || b.TRemove? || b.TStat? || b.TWstat?
  }

  predicate CanHandle<N>(h: Host, sys: FS.Sys<N>, env: FS.Env<N>) {
    h.conn in sys.conns && env.addr !in sys.fs.nodes && sys.fs.root in sys.fs.nodes
  }

  /** server.go:184-227 with fs/server.go:69-77: the handler, the check, then the drop of
      whatever context the tag has now. An invalid call returns before all that. */
  function FinishCall<C, N>(h: Host, s: State<C, N>, w: nat, env: FS.Env<N>, text: Data): State<C, N>
    requires w < |s.workers| && s.workers[w].Handling? && CanHandle(h, s.sys, env)
  {
    var call, ctx := s.workers[w].call, s.workers[w].ctx;
    if !IsRequest(call.msg.body) then s.(workers := s.workers[w := Gone], failed := s.failed + [call])
    else
      var (sys, r) := FS.Handle(h.cfg, s.sys, h.conn, call.msg, env);
      var s0 := s.(sys := sys);
      if r == FS.Crash then s0.(process := HandlerPanicked(call))
      else if ctx in s.cancelled then s0.(workers := s.workers[w := Idle], suppressed := s.suppressed + [call])
      else
        var tag := call.msg.tag;
        var s1 := if tag in s.tags
                  then s0.(tags := s.tags - {tag}, cancelled := s.cancelled + {s.tags[tag]}) else s0;
        match FS.Response(call.msg, r, text)
        case None => s1.(workers := s.workers[w := Gone], failed := s.failed + [call])
        case Some(reply) => s1.(workers := s.workers[w := Replying(call, reply)])
  }

  predicate Full<C, N>(s: State<C, N>) { |s.incoming| >= CAPACITY }

  predicate Enabled<C, N>(h: Host, s: State<C, N>, a: Action<C, N>) {
    s.process == Running &&
    match a
    case Arrive(_) => true
    case Take(w) => w < |s.workers| && s.workers[w].Idle? && s.incoming != []
    case Begin(w, ctx) => w < |s.workers| && s.workers[w].Taken? && ctx !in s.known
    case Finish(w, env, _) => w < |s.workers| && s.workers[w].Handling? && CanHandle(h, s.sys, env)
    case Push(w) => w < |s.workers| && s.workers[w].Replying? && |s.outgoing| < CAPACITY
    case Write => s.outgoing != []
    case Serve(_) => true
  }

  function Next<C, N>(h: Host, s: State<C, N>, a: Action<C, N>): State<C, N> {
    if !Enabled(h, s, a) then s
    else
      match a
      case Arrive(msg) =>
        var call := Call(|s.sent|, msg);
        if Full(s) then s.(process := Overflowed)
        else s.(incoming := s.incoming + [call], sent := s.sent + [call])
      case Take(w) => s.(workers := s.workers[w := Taken(s.incoming[0])], incoming := s.incoming[1..])
      case Begin(w, ctx) =>
        var call := s.workers[w].call;
        var tags := TagContext(s.tags, call.msg.tag, ctx);
        s.(workers := s.workers[w := Handling(call, tags[call.msg.tag])], tags := tags, known := s.known + {ctx})
      case Finish(w, env, text) => FinishCall(h, s, w, env, text)
      case Push(w) =>
        s.(workers := s.workers[w := Idle], outgoing := s.outgoing + [Out(s.workers[w].call, s.workers[w].reply)])
      case Write =>
        if !Wire.Composes(s.outgoing[0].reply) then s.(process := ComposePanicked(s.outgoing[0]))
        else s.(outgoing := s.outgoing[1..], delivered := s.delivered + [s.outgoing[0]])
      case Serve(a) => s.(sys := FS.Next(h.cfg, s.sys, a))
  }

  /** The client sends no tag that is still outstanding. */
  predicate Polite<C, N>(h: Host, s: State<C, N>, acts: seq<Action<C, N>>)
    decreases |acts|
  {
    acts == [] ||
    ((acts[0].Arrive? ==> !Outstanding(s, acts[0].msg.tag)) && Polite(h, Next(h, s, acts[0]), acts[1..]))
  }

  function Run<C, N>(h: Host, s: State<C, N>, acts: seq<Action<C, N>>): State<C, N>
    decreases |acts|
  { if acts == [] then s else Run(h, Next(h, s, acts[0]), acts[1..]) }

  // ------------------------------------------------------------------ the invariant

  function Holds<C>(w: Worker<C>, c: Call): nat {
    if !w.Idle? && !w.Gone? && w.call == c then 1 else 0
  }

  /** How many workers have the call in hand. */
  function InHand<C>(ws: seq<Worker<C>>, c: Call): nat {
    if ws == [] then 0 else Holds(ws[0], c) + InHand(ws[1..], c)
  }

  function Count(cs: seq<Call>, c: Call): nat { multiset(cs)[c] }

  /** In how many places on its way a call is. */
  function Pending<C, N>(s: State<C, N>, c: Call): nat {
    Count(s.incoming, c) + InHand(s.workers, c) + Count(Calls(s.outgoing), c)
  }

  /** In how many places a call is at all. */
  function Places<C, N>(s: State<C, N>, c: Call): nat {
    Pending(s, c) + Count(Calls(s.delivered), c) + Count(s.failed, c) + Count(s.suppressed, c)
  }

  /** Calls are numbered as they arrive, and each is in exactly one place. */
  ghost predicate Conserved<C, N>(s: State<C, N>) {
    && (forall i :: 0 <= i < |s.sent| ==> s.sent[i].id == i)
    && (forall c :: Places(s, c) == if c in s.sent then 1 else 0)
  }

  predicate Unanswered<C, N>(s: State<C, N>, c: Call) { c in s.sent && c !in Calls(s.delivered) }

  /** Of the calls not yet answered no two have the same tag. */
  ghost predicate TagsDistinct<C, N>(s: State<C, N>) {
    forall a, b :: Unanswered(s, a) && Unanswered(s, b) && a != b ==> a.msg.tag != b.msg.tag
  }

  /** A call in a handler owns its tag's context, which nobody has cancelled. */
  ghost predicate ContextsOk<C, N>(s: State<C, N>) {
    && (forall w :: 0 <= w < |s.workers| && s.workers[w].Handling? ==>
          var call := s.workers[w].call; call.msg.tag in s.tags && s.tags[call.msg.tag] == s.workers[w].ctx)
    && (forall t :: t in s.tags ==> s.tags[t] in s.known && s.tags[t] !in s.cancelled)
    && (forall t, u :: t in s.tags && u in s.tags && s.tags[t] == s.tags[u] ==> t == u)
    && s.cancelled <= s.known
  }

  /** The reply belongs to the request: same tag, and the request's reply type or RError. */
  predicate Answers(call: Call, reply: FCall) {
    && reply.tag == call.msg.tag
    && (RoundTrip.TypeMatches(call.msg.typ, call.msg.body) ==>
          RoundTrip.TypeMatches(reply.typ, reply.body) && (reply.typ == call.msg.typ + 1 || reply.typ == 107))
  }

  ghost predicate Inv<C, N>(s: State<C, N>) {
    Conserved(s) && TagsDistinct(s) && ContextsOk(s) && s.suppressed == []
  }

  // ------------------------------------------------------------------ every call once

  lemma {:induction false} InHandUpdate<C>(ws: seq<Worker<C>>, w: nat, x: Worker<C>, c: Call)
    requires w < |ws|
    ensures InHand(ws[w := x], c) == InHand(ws, c) - Holds(ws[w], c) + Holds(x, c)
  {
    if w == 0 { assert ws[0 := x][1..] == ws[1..]; }
    else {
      InHandUpdate(ws[1..], w - 1, x, c);
      assert ws[w := x][1..] == ws[1..][w - 1 := x];
    }
  }

  lemma {:induction false} InHandHas<C>(ws: seq<Worker<C>>, w: nat, c: Call)
    requires w < |ws|
    ensures Holds(ws[w], c) <= InHand(ws, c)
  { if w > 0 { InHandHas(ws[1..], w - 1, c); } }

  lemma {:induction false} InHandTwo<C>(ws: seq<Worker<C>>, v: nat, w: nat, c: Call)
    requires v < w < |ws|
    ensures Holds(ws[v], c) + Holds(ws[w], c) <= InHand(ws, c)
  { if v > 0 { InHandTwo(ws[1..], v - 1, w - 1, c); } else { InHandHas(ws[1..], w - 1, c); } }

  lemma {:induction false} InHandIdle<C>(n: nat, c: Call)
    ensures InHand(seq(n, _ => Worker<C>.Idle), c) == 0
  {
    if n > 0 {
      InHandIdle<C>(n - 1, c);
      assert seq(n, _ => Worker<C>.Idle)[1..] == seq(n - 1, _ => Worker<C>.Idle);
    }
  }

  lemma InitOk<C, N>(n: nat, sys: FS.Sys<N>)
    ensures Inv(Init<C, N>(n, sys))
  { forall c ensures Places(Init<C, N>(n, sys), c) == 0 { InHandIdle<C>(n, c); } }

  lemma CallsSnoc(os: seq<Out>, o: Out)
    ensures Calls(os + [o]) == Calls(os) + [o.call]
  {}

  lemma CallsHead(os: seq<Out>)
    requires os != []
    ensures Calls(os)[1..] == Calls(os[1..]) && Calls(os)[0] == os[0].call
  {}

  lemma CountSnoc(cs: seq<Call>, x: Call, c: Call)
    ensures Count(cs + [x], c) == Count(cs, c) + if x == c then 1 else 0
  {}

  lemma CountHead(cs: seq<Call>, c: Call)
    requires cs != []
    ensures Count(cs, c) == Count(cs[1..], c) + if cs[0] == c then 1 else 0
  { assert cs == [cs[0]] + cs[1..]; }

  /** The step is an arrival that is queued. */
  predicate Queues<C, N>(s: State<C, N>, a: Action<C, N>) { a.Arrive? && !Full(s) }

  /** A step moves calls between places; only an arrival adds one. */
  lemma StepPlaces<C, N>(h: Host, s: State<C, N>, a: Action<C, N>, c: Call)
    requires Enabled(h, s, a)
    ensures Places(Next(h, s, a), c) == Places(s, c) + if Queues(s, a) && c == Call(|s.sent|, a.msg) then 1 else 0
  {
    hide InHand, Count, Calls, FinishCall, FS.Next;
    match a
    case Arrive(msg) => CountSnoc(s.incoming, Call(|s.sent|, msg), c);
    case Take(w) =>
      CountHead(s.incoming, c);
      InHandUpdate(s.workers, w, Taken(s.incoming[0]), c);
    case Begin(w, ctx) => InHandUpdate(s.workers, w, Next(h, s, a).workers[w], c);
    case Finish(w, env, text) => FinishPlaces(h, s, w, env, text, c);
    case Push(w) =>
      var o := Out(s.workers[w].call, s.workers[w].reply);
      InHandUpdate(s.workers, w, Idle, c);
      CallsSnoc(s.outgoing, o);
      CountSnoc(Calls(s.outgoing), o.call, c);
    case Write =>
      CallsHead(s.outgoing);
      CallsSnoc(s.delivered, s.outgoing[0]);
      CallsLength(s.outgoing);
      CountHead(Calls(s.outgoing), c);
      CountSnoc(Calls(s.delivered), s.outgoing[0].call, c);
    case Serve(_) =>
  }

  lemma FinishPlaces<C, N>(h: Host, s: State<C, N>, w: nat, env: FS.Env<N>, text: Data, c: Call)
    requires w < |s.workers| && s.workers[w].Handling? && CanHandle(h, s.sys, env)
    ensures Places(FinishCall(h, s, w, env, text), c) == Places(s, c)
  {
    hide InHand, Count, Calls, FS.Handle, FS.Response, IsRequest;
    assert s.workers[w := s.workers[w]] == s.workers;
    InHandUpdate(s.workers, w, FinishCall(h, s, w, env, text).workers[w], c);
    CountSnoc(s.failed, s.workers[w].call, c);
    CountSnoc(s.suppressed, s.workers[w].call, c);
  }

  lemma CallsLength(os: seq<Out>)
    ensures |Calls(os)| == |os|
  {}

  lemma StepConserves<C, N>(h: Host, s: State<C, N>, a: Action<C, N>)
    requires Conserved(s) && Enabled(h, s, a)
    ensures Conserved(Next(h, s, a))
  {
    hide Places, FinishCall, FS.Next;
    var s' := Next(h, s, a);
    StepSent(h, s, a);
    forall c ensures Places(s', c) == if c in s'.sent then 1 else 0 { StepPlaces(h, s, a, c); }
  }

  lemma StepSent<C, N>(h: Host, s: State<C, N>, a: Action<C, N>)
    requires Enabled(h, s, a)
    ensures Next(h, s, a).sent == if Queues(s, a) then s.sent + [Call(|s.sent|, a.msg)] else s.sent
    ensures a.Write? || Next(h, s, a).delivered == s.delivered
  { hide FS.Handle, FS.Response, FS.Next; }

  /** A call in a worker's hands was sent, is not delivered, and is in no other hands. */
  lemma InHandUnanswered<C, N>(s: State<C, N>, w: nat)
    requires Conserved(s) && w < |s.workers| && !s.workers[w].Idle? && !s.workers[w].Gone?
    ensures s.workers[w].call in s.sent && s.workers[w].call !in Calls(s.delivered)
    ensures forall v :: 0 <= v < |s.workers| && v != w && !s.workers[v].Idle? && !s.workers[v].Gone? ==>
              s.workers[v].call != s.workers[w].call
  {
    var c := s.workers[w].call;
    InHandHas(s.workers, w, c);
    assert Places(s, c) == 1;
    forall v | 0 <= v < |s.workers| && v != w && !s.workers[v].Idle? && !s.workers[v].Gone?
      ensures s.workers[v].call != c
    {
      if v < w { InHandTwo(s.workers, v, w, c); } else { InHandTwo(s.workers, w, v, c); }
    }
  }

  // ------------------------------------------------------------------ tags and contexts

  lemma UnansweredOutstanding<C, N>(s: State<C, N>, c: Call)
    requires Unanswered(s, c)
    ensures Outstanding(s, c.msg.tag)
  {}

  lemma StepTags<C, N>(h: Host, s: State<C, N>, a: Action<C, N>)
    requires TagsDistinct(s) && Enabled(h, s, a) && (a.Arrive? ==> !Outstanding(s, a.msg.tag))
    ensures TagsDistinct(Next(h, s, a))
  {
    hide Next, Outstanding, Calls;
    var s' := Next(h, s, a);
    StepSent(h, s, a);
    forall c | Unanswered(s', c) ensures Unanswered(s, c) || (a.Arrive? && c == Call(|s.sent|, a.msg)) {
      if a.Write? && c in Calls(s.delivered) { WriteGrows(h, s, c); }
    }
    forall c | Unanswered(s, c) ensures a.Arrive? ==> c.msg.tag != a.msg.tag { UnansweredOutstanding(s, c); }
  }

  lemma WriteGrows<C, N>(h: Host, s: State<C, N>, c: Call)
    requires Enabled(h, s, Write) && c in Calls(s.delivered)
    ensures c in Calls(Next(h, s, Write).delivered)
  { CallsSnoc(s.delivered, s.outgoing[0]); }

  /** No other handler is at work under the same tag, so dropping the tag's context is safe
      and the check never fires. */
  lemma FinishContexts<C, N>(h: Host, s: State<C, N>, w: nat, env: FS.Env<N>, text: Data)
    requires Inv(s) && w < |s.workers| && s.workers[w].Handling? && CanHandle(h, s.sys, env)
    ensures ContextsOk(FinishCall(h, s, w, env, text)) && FinishCall(h, s, w, env, text).suppressed == []
  {
    hide Conserved, TagsDistinct, FS.Handle, FS.Response, IsRequest;
    AloneUnderTag(s, w);
  }

  lemma AloneUnderTag<C, N>(s: State<C, N>, w: nat)
    requires Conserved(s) && TagsDistinct(s) && w < |s.workers| && s.workers[w].Handling?
    ensures forall v :: 0 <= v < |s.workers| && v != w && s.workers[v].Handling? ==>
              s.workers[v].call.msg.tag != s.workers[w].call.msg.tag
  {
    hide Conserved;
    InHandUnanswered(s, w);
    forall v | 0 <= v < |s.workers| && v != w && s.workers[v].Handling?
      ensures s.workers[v].call.msg.tag != s.workers[w].call.msg.tag
    {
      InHandUnanswered(s, v);
      assert Unanswered(s, s.workers[v].call) && Unanswered(s, s.workers[w].call);
    }
  }

  lemma StepContexts<C, N>(h: Host, s: State<C, N>, a: Action<C, N>)
    requires Inv(s) && Enabled(h, s, a)
    ensures ContextsOk(Next(h, s, a)) && Next(h, s, a).suppressed == []
  {
    hide Conserved, TagsDistinct, FinishCall, FS.Next;
    if a.Finish? { FinishContexts(h, s, a.w, a.env, a.text); }
  }

  /** What the handler's result is sent as belongs to the request. */
  lemma HandlerAnswers<N>(h: Host, sys: FS.Sys<N>, call: Call, env: FS.Env<N>, text: Data)
    requires CanHandle(h, sys, env)
    ensures var r := FS.Response(call.msg, FS.Handle(h.cfg, sys, h.conn, call.msg, env).1, text);
            r.Some? ==> Answers(call, r.value)
  {
    hide FS.Handle, FS.ReplyType;
    if RoundTrip.TypeMatches(call.msg.typ, call.msg.body) {
      Replies.ReplyMatches(h.cfg, sys, h.conn, call.msg, env, text);
    }
  }

  lemma NextKeeps<C, N>(h: Host, s: State<C, N>, a: Action<C, N>)
    requires Inv(s) && (a.Arrive? ==> !Outstanding(s, a.msg.tag))
    ensures Inv(Next(h, s, a))
  {
    hide Conserved, TagsDistinct, ContextsOk, Outstanding, FinishCall, FS.Next;
    if Enabled(h, s, a) {
      StepConserves(h, s, a);
      StepTags(h, s, a);
      StepContexts(h, s, a);
    }
  }

  lemma {:induction false} RunKeeps<C, N>(h: Host, s: State<C, N>, acts: seq<Action<C, N>>)
    requires Inv(s) && Polite(h, s, acts)
    ensures Inv(Run(h, s, acts))
    decreases |acts|
  {
    hide Inv, Next, Outstanding;
    if acts != [] {
      NextKeeps(h, s, acts[0]);
      RunKeeps(h, Next(h, s, acts[0]), acts[1..]);
    }
  }

  // ------------------------------------------------------------------------ results

  /** The reply is on its way or written. */
  ghost predicate Has<C, N>(s: State<C, N>, o: Out) {
    o in s.delivered || o in s.outgoing || Replying(o.call, o.reply) in s.workers
  }

  /** The step is the handler's that made the reply. */
  predicate Makes<C, N>(h: Host, s: State<C, N>, a: Action<C, N>, o: Out) {
    && a.Finish? && Enabled(h, s, a) && s.workers[a.w].call == o.call
    && FS.Response(o.call.msg, FS.Handle(h.cfg, s.sys, h.conn, o.call.msg, a.env).1, a.text) == Some(o.reply)
  }

  /** The k-th step of the run, in the state it finds, makes the reply. */
  predicate MadeAt<C, N>(h: Host, s: State<C, N>, acts: seq<Action<C, N>>, o: Out, k: nat) {
    k < |acts| && Makes(h, Run(h, s, acts[..k]), acts[k], o)
  }

  lemma StepMakes<C, N>(h: Host, s: State<C, N>, a: Action<C, N>, o: Out)
    requires Has(Next(h, s, a), o)
    ensures Has(s, o) || Makes(h, s, a, o)
  { hide FS.Handle, FS.Response, FS.Next, IsRequest, Wire.Composes; }

  lemma {:induction false} RunSnoc<C, N>(h: Host, s: State<C, N>, acts: seq<Action<C, N>>, a: Action<C, N>)
    ensures Run(h, s, acts + [a]) == Next(h, Run(h, s, acts), a)
    decreases |acts|
  {
    hide Next;
    if acts == [] {
      assert acts + [a] == [a] && [a][1..] == [];
    } else {
      RunSnoc(h, Next(h, s, acts[0]), acts[1..], a);
      assert (acts + [a])[1..] == acts[1..] + [a];
    }
  }

  lemma {:induction false} EveryReply<C, N>(h: Host, s: State<C, N>, acts: seq<Action<C, N>>, o: Out)
    requires !Has(s, o) && Has(Run(h, s, acts), o)
    ensures exists k: nat :: MadeAt(h, s, acts, o, k)
    decreases |acts|
  {
    hide Has, Next, Makes;
    if acts != [] {
      var k := |acts| - 1;
      var before, a := acts[..k], acts[k];
      assert acts == before + [a];
      RunSnoc(h, s, before, a);
      StepMakes(h, Run(h, s, before), a, o);
      if Has(Run(h, s, before), o) {
        EveryReply(h, s, before, o);
        var i: nat :| MadeAt(h, s, before, o, i);
        assert before[..i] == acts[..i];
        assert MadeAt(h, s, acts, o, i);
      } else {
        assert MadeAt(h, s, acts, o, k);
      }
    }
  }

  /** In every run of a client that does not reuse an outstanding tag, whatever the other
      connections do: each request is on its way, answered or failed, and in one place only;
      the context check swallows none. What was written back is the only reply to a request
      that was made, the one the file server gave in the state some step of the run found it
      in, with the request's tag and reply type. */
  lemma OneReplyEach<C, N>(h: Host, workers: nat, sys: FS.Sys<N>, acts: seq<Action<C, N>>, c: Call)
    requires Polite(h, Init<C, N>(workers, sys), acts)
    ensures var s := Run(h, Init<C, N>(workers, sys), acts);
            && s.suppressed == []
            && Pending(s, c) + Count(Calls(s.delivered), c) + Count(s.failed, c) == (if c in s.sent then 1 else 0)
            && (forall o :: o in s.delivered ==>
                  && o.call in s.sent && Count(Calls(s.delivered), o.call) == 1 && Answers(o.call, o.reply)
                  && exists k: nat :: MadeAt(h, Init<C, N>(workers, sys), acts, o, k))
  {
    hide Run, Polite, Answers, Pending, Makes;
    var s0 := Init<C, N>(workers, sys);
    InitOk<C, N>(workers, sys);
    RunKeeps(h, s0, acts);
    var s := Run(h, s0, acts);
    assert Places(s, c) == if c in s.sent then 1 else 0;
    forall o | o in s.delivered
      ensures o.call in s.sent && Count(Calls(s.delivered), o.call) == 1 && Answers(o.call, o.reply)
      ensures exists k: nat :: MadeAt(h, s0, acts, o, k)
    {
      CallsIn(s.delivered, o);
      assert Places(s, o.call) == if o.call in s.sent then 1 else 0;
      EveryReply(h, s0, acts, o);
      var k: nat :| MadeAt(h, s0, acts, o, k);
      MadeAnswers(h, Run(h, s0, acts[..k]), acts[k], o);
    }
  }

  lemma MadeAnswers<C, N>(h: Host, s: State<C, N>, a: Action<C, N>, o: Out)
    requires Makes(h, s, a, o)
    ensures Answers(o.call, o.reply)
  {
    hide FS.Handle, FS.Response, Answers;
    HandlerAnswers(h, s.sys, o.call, a.env, a.text);
  }

  lemma CallsIn(os: seq<Out>, o: Out)
    requires o in os
    ensures Count(Calls(os), o.call) >= 1
  {
    var i :| 0 <= i < |os| && os[i] == o;
    assert Calls(os)[i] == o.call;
  }

  /** The server has nothing to do: no step but an arrival can be taken. */
  ghost predicate Quiet<C, N>(s: State<C, N>) {
    && (forall w :: 0 <= w < |s.workers| ==> s.workers[w].Gone? || (s.workers[w].Idle? && s.incoming == []))
    && s.outgoing == []
  }

  lemma {:induction false} NothingInHand<C>(ws: seq<Worker<C>>, c: Call)
    requires forall w :: 0 <= w < |ws| ==> ws[w].Gone? || ws[w].Idle?
    ensures InHand(ws, c) == 0
  { if ws != [] { NothingInHand(ws[1..], c); } }

  /** When a worker is left and nothing can move, every request has been answered, or has
      ended in a Go error. */
  lemma QuietMeansDone<C, N>(s: State<C, N>, w: nat, c: Call)
    requires Inv(s) && Quiet(s) && w < |s.workers| && !s.workers[w].Gone? && c in s.sent
    ensures (c in Calls(s.delivered)) != (c in s.failed)
  {
    NothingInHand(s.workers, c);
    assert Places(s, c) == 1;
  }

  /** Steps still to come. */
  function Weight<C>(w: Worker<C>): nat {
    match w
    case Taken(_) => 4
    case Handling(_, _) => 3
    case Replying(_, _) => 2
    case _ => 0
  }

  function Work<C>(ws: seq<Worker<C>>): nat { if ws == [] then 0 else Weight(ws[0]) + Work(ws[1..]) }

  function Measure<C, N>(s: State<C, N>): nat {
    if s.process != Running then 0 else 1 + 5 * |s.incoming| + Work(s.workers) + |s.outgoing|
  }

  lemma {:induction false} WorkUpdate<C>(ws: seq<Worker<C>>, w: nat, x: Worker<C>)
    requires w < |ws|
    ensures Work(ws[w := x]) == Work(ws) - Weight(ws[w]) + Weight(x)
  {
    if w == 0 { assert ws[0 := x][1..] == ws[1..]; }
    else {
      WorkUpdate(ws[1..], w - 1, x);
      assert ws[w := x][1..] == ws[1..][w - 1 := x];
    }
  }

  /** A step of this connection's server. */
  predicate Own<C, N>(a: Action<C, N>) { !a.Arrive? && !a.Serve? }

  /** Every step of the server gets nearer to the end. */
  lemma StepProgress<C, N>(h: Host, s: State<C, N>, a: Action<C, N>)
    requires Enabled(h, s, a) && Own(a)
    ensures Measure(Next(h, s, a)) < Measure(s)
  {
    hide Work, FS.Handle, FS.Response;
    if !a.Write? && Next(h, s, a).process == Running { WorkUpdate(s.workers, a.w, Next(h, s, a).workers[a.w]); }
  }

  /** All steps can be taken where they stand, and none is an arrival. */
  predicate ServerOnly<C, N>(h: Host, s: State<C, N>, acts: seq<Action<C, N>>)
    decreases |acts|
  { acts == [] || (Enabled(h, s, acts[0]) && Own(acts[0]) && ServerOnly(h, Next(h, s, acts[0]), acts[1..])) }

  /** Left to itself the server stops after boundedly many steps, whatever their order;
      then QuietMeansDone applies. */
  lemma {:induction false} ServerStops<C, N>(h: Host, s: State<C, N>, acts: seq<Action<C, N>>)
    requires ServerOnly(h, s, acts)
    ensures |acts| + Measure(Run(h, s, acts)) <= Measure(s)
    decreases |acts|
  {
    hide Measure, Next, Enabled;
    if acts != [] {
      StepProgress(h, s, acts[0]);
      ServerStops(h, Next(h, s, acts[0]), acts[1..]);
    }
  }

  /** A running server that is not quiet has a step, if there is a context to give and an address. */
  lemma NotQuietMoves<C, N>(h: Host, s: State<C, N>, ctx: C, env: FS.Env<N>) returns (a: Action<C, N>)
    requires !Quiet(s) && s.process == Running && ctx !in s.known && CanHandle(h, s.sys, env)
    ensures Enabled(h, s, a) && Own(a)
  {
    if s.outgoing != [] { return Write; }
    var w :| 0 <= w < |s.workers| && !s.workers[w].Gone? && !(s.workers[w].Idle? && s.incoming == []);
    match s.workers[w]
    case Idle => return Take(w);
    case Taken(_) => return Begin(w, ctx);
    case Handling(_, _) => return Finish(w, env, []);
    case Replying(_, _) => return Push(w);
  }

  /** Without that courtesy replies are lost: whenever two requests with one tag are taken,
      their handlers can share a context, and the first to finish cancels it under the
      second, whose reply is swallowed, unless a handler panics. */
  lemma SharedTagLosesReply<C, N>(h: Host, s: State<C, N>, v: nat, w: nat, x: C, y: C, env: FS.Env<N>, env': FS.Env<N>)
    requires v < |s.workers| && w < |s.workers| && v != w && s.workers[v].Taken? && s.workers[w].Taken?
    requires IsRequest(s.workers[v].call.msg.body) && IsRequest(s.workers[w].call.msg.body)
    requires s.workers[v].call.msg.tag == s.workers[w].call.msg.tag && s.workers[v].call.msg.tag !in s.tags
    requires x !in s.known && y !in s.known && x != y && x !in s.cancelled && CanHandle(h, s.sys, env)
    requires CanHandle(h, FS.Handle(h.cfg, s.sys, h.conn, s.workers[v].call.msg, env).0, env')
    ensures var s' := Run(h, s, [Begin(v, x), Begin(w, y), Finish(v, env, []), Finish(w, env', [])]);
            s'.process == Running ==> s'.suppressed == s.suppressed + [s.workers[w].call]
  {
    hide FS.Handle, FS.Response, IsRequest;
    var s1 := Next(h, s, Begin(v, x));
    var s2 := Next(h, s1, Begin(w, y));
    if s.process == Running {
      assert s2.workers[v] == Handling(s.workers[v].call, x) && s2.workers[w] == Handling(s.workers[w].call, x);
      var s3 := Next(h, s2, Finish(v, env, []));
      assert s3.workers[w] == s2.workers[w] && (s3.process == Running ==> x in s3.cancelled);
    }
    RunFour(h, s, Begin(v, x), Begin(w, y), Finish(v, env, []), Finish(w, env', []));
  }

  lemma RunFour<C, N>(h: Host, s: State<C, N>, a: Action<C, N>, b: Action<C, N>, c: Action<C, N>, d: Action<C, N>)
    ensures Run(h, s, [a, b, c, d]) == Next(h, Next(h, Next(h, Next(h, s, a), b), c), d)
  {
    hide Next;
    assert [a, b, c, d][1..] == [b, c, d] && [b, c, d][1..] == [c, d] && [c, d][1..] == [d] && [d][1..] == [];
    var s1 := Next(h, s, a);
    var s2 := Next(h, s1, b);
    var s3 := Next(h, s2, c);
    assert Run(h, s, [a, b, c, d]) == Run(h, s1, [b, c, d]);
    assert Run(h, s1, [b, c, d]) == Run(h, s2, [c, d]);
    assert Run(h, s2, [c, d]) == Run(h, s3, [d]);
    assert Run(h, s3, [d]) == Run(h, Next(h, s3, d), []);
  }

  // ------------------------------------------------------------------------ objects

  class Context {
    var cancelled: bool
    constructor ()
      ensures !cancelled
    { cancelled := false; }
  }

  /** The tag table of a connection. */
  class TagTable {
    var tags: map<u16, Context>

    /** fs/server.go:57-67 */
    method ContextOf(tag: u16) returns (ctx: Context)
      modifies this
      ensures tag in tags && ctx == tags[tag] && tags == TagContext(old(tags), tag, ctx)
      ensures tag !in old(tags) ==> fresh(ctx) && !ctx.cancelled
    {
      if tag in tags { return tags[tag]; }
      ctx := new Context();
      tags := tags[tag := ctx];
    }

    /** fs/server.go:69-77: exactly the context of this tag is cancelled. */
    method Drop(tag: u16)
      modifies this, tags.Values
      ensures tags == old(tags) - {tag}
      ensures forall c :: c in old(tags.Values) ==>
                c.cancelled == (old(c.cancelled) || (tag in old(tags) && old(tags)[tag] == c))
    {
      if tag !in tags {
        assert tags - {tag} == tags;
        return;
      }
      var ctx := tags[tag];
      tags := tags - {tag};
      ctx.cancelled := true;
    }
  }

  datatype Outcome = Reply | GoError | Invalid

  datatype Handled = Answered | Erred | Swallowed

  /** server.go:184-228 for one call at a time, as handleIO runs it: a table of live
      contexts stays one, and no reply is swallowed, whatever tags the client uses. */
  method HandleCall(t: TagTable, tag: u16, outcome: Outcome) returns (r: Handled)
    requires forall c :: c in t.tags.Values ==> !c.cancelled
    requires forall u, v :: u in t.tags && v in t.tags && t.tags[u] == t.tags[v] ==> u == v
    modifies t, t.tags.Values
    ensures r == match outcome case Reply => Answered case GoError => Erred case Invalid => Erred
    ensures t.tags.Keys == if outcome == Invalid then old(t.tags.Keys) + {tag} else old(t.tags.Keys) - {tag}
    ensures forall c :: c in t.tags.Values ==> !c.cancelled
  {
    var ctx := t.ContextOf(tag);
    if outcome == Invalid { return Erred; }
    if ctx.cancelled { return Swallowed; }
    assert forall u :: u in t.tags && t.tags[u] == ctx ==> u == tag;
    t.Drop(tag);
    return if outcome == Reply then Answered else Erred;
  }
}
