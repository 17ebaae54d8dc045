/** The client's tags (client/client.go:69-95, 292-343): a stack of free tags, a counter for
    fresh ones, a table from tags to waiting calls, and the worker that hands replies over.
    A call is numbered by its caller; a message carries only a tag, and `call` records which
    request it is or answers. */
module ClientTags {
  import opened Bytes

  datatype Msg = Msg(tag: u16, call: nat)

  /** A call has its tag, waits for the reply, or got the reply to call `answers`. */
  datatype Phase = Has(tag: u16) | Waiting(tag: u16) | Done(answers: nat)

  /** The reader of the connection: between messages, about to send on the channel it
      found, or about to return the tag. */
  datatype Worker = Ready | Holding(msg: Msg, chan: nat) | Returning(tag: u16)

  datatype State = State(
    free: seq<u16>, last: u16, calls: map<u16, nat>, phases: map<nat, Phase>,
    requests: seq<Msg>, replies: seq<Msg>, worker: Worker)

  datatype Action =
    | Take(k: nat)
    | Zero(k: nat)
    | Register(k: nat)
    | Answer(i: nat)
    | Pick
    | Deliver
    | Return

  function Init(): State { State([], 1, map[], map[], [], [], Ready) }

  /** client/client.go:322-331: the top of the stack, or a fresh tag from a uint16 counter. */
  function TakeTag(free: seq<u16>, last: u16): (seq<u16>, u16, u16) {
    if free == [] then ([], Wrap16(last + 1), Wrap16(last + 1))
    else (free[..|free| - 1], last, free[|free| - 1])
  }

  /** client/client.go:333-342: tag 0 is never returned. */
  function ReturnTag(s: State, tag: u16): State {
    if tag == 0 then s else s.(free := s.free + [tag], calls := s.calls - {tag})
  }

  predicate InUse(s: State, tag: u16) {
    exists k :: k in s.phases && (s.phases[k] == Has(tag) || s.phases[k] == Waiting(tag))
  }

  predicate Enabled(s: State, a: Action) {
    match a
    case Take(k) => k !in s.phases && (s.free != [] || s.last < 0xFFFF)
    case Zero(k) => k !in s.phases && !InUse(s, 0)
    case Register(k) => k in s.phases && s.phases[k].Has?
    case Answer(i) => i < |s.requests|
    case Pick => s.worker.Ready? && s.replies != []
    case Deliver => s.worker.Holding? && s.worker.chan in s.phases && s.phases[s.worker.chan].Waiting?
    case Return => s.worker.Returning?
  }

  /** Zero is a call of NewClient, which uses tag 0 for one request after another. */
  function Next(s: State, a: Action): State {
    if !Enabled(s, a) then s
    else
      match a
      case Take(k) =>
        var (free, last, tag) := TakeTag(s.free, s.last);
        s.(free := free, last := last, phases := s.phases[k := Has(tag)])
      case Zero(k) => s.(phases := s.phases[k := Has(0)])
      case Register(k) =>
        var tag := s.phases[k].tag;
        s.(calls := s.calls[tag := k], phases := s.phases[k := Waiting(tag)], requests := s.requests + [Msg(tag, k)])
      case Answer(i) =>
        s.(requests := s.requests[..i] + s.requests[i + 1..], replies := s.replies + [s.requests[i]])
      case Pick =>
        var m := s.replies[0];
        s.(replies := s.replies[1..], worker := if m.tag in s.calls then Holding(m, s.calls[m.tag]) else Ready)
      case Deliver =>
        var w := s.worker;
        s.(phases := s.phases[w.chan := Done(w.msg.call)], worker := Returning(w.msg.tag))
      case Return => ReturnTag(s.(worker := Ready), s.worker.tag)
  }

  function Run(s: State, acts: seq<Action>): State
    decreases |acts|
  { if acts == [] then s else Run(Next(s, acts[0]), acts[1..]) }

  // ------------------------------------------------------------------- the invariant

  predicate Live(p: Phase) { !p.Done? }

  /** No tag is free twice, free while in use, or in use twice. */
  ghost predicate TagsOk(s: State) {
    && (forall i, j :: 0 <= i < j < |s.free| ==> s.free[i] != s.free[j])
    && (forall t :: t in s.free ==> 0 < t <= s.last)
    && (forall k :: k in s.phases && Live(s.phases[k]) ==> s.phases[k].tag !in s.free && s.phases[k].tag <= s.last)
    && (forall k, l :: k in s.phases && l in s.phases && k != l && Live(s.phases[k]) && Live(s.phases[l]) ==>
          s.phases[k].tag != s.phases[l].tag)
  }

  /** The worker's tag is still taken, and by nobody else. */
  ghost predicate WorkerOk(s: State) {
    match s.worker
    case Ready => true
    case Holding(m, chan) => chan == m.call && m.call in s.phases && s.phases[m.call] == Waiting(m.tag)
    case Returning(t) =>
      t <= s.last && t !in s.free
      && (t != 0 ==> forall k :: k in s.phases && Live(s.phases[k]) ==> s.phases[k].tag != t)
  }

  /** How many of the messages are about call `k`. */
  function Count(ms: seq<Msg>, k: nat): nat {
    if ms == [] then 0 else (if ms[0].call == k then 1 else 0) + Count(ms[1..], k)
  }

  /** Messages about a call on their way: the request, its reply, or the reply in the
      worker's hand. */
  function InFlight(s: State, k: nat): nat {
    Count(s.requests, k) + Count(s.replies, k) + if s.worker.Holding? && s.worker.msg.call == k then 1 else 0
  }

  ghost predicate MsgsOk(s: State, ms: seq<Msg>) {
    forall m :: m in ms ==> m.call in s.phases && s.phases[m.call] == Waiting(m.tag)
  }

  /** Every waiting call is registered under its tag, and exactly one message about it is
      on its way; there are no other messages. */
  ghost predicate CallsOk(s: State) {
    && MsgsOk(s, s.requests) && MsgsOk(s, s.replies)
    && (forall k :: InFlight(s, k) == if k in s.phases && s.phases[k].Waiting? then 1 else 0)
    && (forall k :: k in s.phases && s.phases[k].Waiting? ==>
          s.phases[k].tag in s.calls && s.calls[s.phases[k].tag] == k)
  }

  /** Nobody ever gets another call's reply. */
  ghost predicate AnswersOk(s: State) { forall k :: k in s.phases && s.phases[k].Done? ==> s.phases[k].answers == k }

  /** No tag is lost: each one given out so far is free, in use or about to be returned. */
  ghost predicate Accounted(s: State) {
    s.last >= 1 && forall t: u16 :: 2 <= t <= s.last ==> t in s.free || InUse(s, t) || s.worker == Returning(t)
  }

  ghost predicate Inv(s: State) { TagsOk(s) && WorkerOk(s) && CallsOk(s) && AnswersOk(s) && Accounted(s) }

  // ---------------------------------------------------------------------- the steps

  lemma InitOk()
    ensures Inv(Init())
  {}

  lemma StepTags(s: State, a: Action)
    requires Inv(s) && Enabled(s, a)
    ensures TagsOk(Next(s, a))
  {
    hide CallsOk, AnswersOk, MsgsOk;
    if a.Take? && s.free != [] {
      var n := |s.free| - 1;
      assert s.free[n] in s.free && s.free[n] !in s.free[..n];
      assert forall t :: t in s.free[..n] ==> t in s.free;
    }
    if a.Zero? { forall k | k in s.phases && Live(s.phases[k]) ensures s.phases[k].tag != 0 { Used(s, k); } }
    hide InUse;
  }

  lemma Used(s: State, k: nat)
    requires k in s.phases && Live(s.phases[k])
    ensures InUse(s, s.phases[k].tag)
  {}

  lemma StepWorker(s: State, a: Action)
    requires Inv(s) && Enabled(s, a)
    ensures WorkerOk(Next(s, a))
  {
    if a.Pick? { assert s.replies[0] in s.replies; }
    hide InUse, InFlight;
  }

  lemma StepAnswers(s: State, a: Action)
    requires Inv(s) && Enabled(s, a)
    ensures AnswersOk(Next(s, a))
  { hide CallsOk, TagsOk, InUse; }

  lemma {:induction false} CountSnoc(ms: seq<Msg>, m: Msg, k: nat)
    ensures Count(ms + [m], k) == Count(ms, k) + if m.call == k then 1 else 0
  {
    if ms == [] { assert ms + [m] == [m] && [m][1..] == []; }
    else {
      CountSnoc(ms[1..], m, k);
      assert (ms + [m])[1..] == ms[1..] + [m];
    }
  }

  lemma {:induction false} CountCut(ms: seq<Msg>, i: nat, k: nat)
    requires i < |ms|
    ensures Count(ms[..i] + ms[i + 1..], k) == Count(ms, k) - if ms[i].call == k then 1 else 0
  {
    var cut := ms[..i] + ms[i + 1..];
    if i == 0 { assert cut == ms[1..]; }
    else {
      CountCut(ms[1..], i - 1, k);
      assert cut[0] == ms[0] && cut[1..] == ms[1..][..i - 1] + ms[1..][i..];
    }
  }

  lemma {:induction false} CountIn(ms: seq<Msg>, m: Msg)
    requires m in ms
    ensures Count(ms, m.call) > 0
  { if ms[0] != m { CountIn(ms[1..], m); } }

  lemma StepFlight(s: State, a: Action, k: nat)
    requires Inv(s) && Enabled(s, a)
    ensures var s' := Next(s, a); InFlight(s', k) == if k in s'.phases && s'.phases[k].Waiting? then 1 else 0
  {
    hide Count, InUse, TagsOk;
    match a
    case Register(j) => CountSnoc(s.requests, Msg(s.phases[j].tag, j), k);
    case Answer(i) =>
      CountCut(s.requests, i, k);
      CountSnoc(s.replies, s.requests[i], k);
    case Pick =>
      CountCut(s.replies, 0, k);
      assert s.replies[..0] + s.replies[1..] == s.replies[1..] && s.replies[0] in s.replies;
    case _ =>
  }

  lemma StepMsgs(s: State, a: Action)
    requires Inv(s) && Enabled(s, a)
    ensures MsgsOk(Next(s, a), Next(s, a).requests) && MsgsOk(Next(s, a), Next(s, a).replies)
  {
    hide Count, InUse, TagsOk;
    if a.Deliver? {
      var c := s.worker.chan;
      assert InFlight(s, c) == 1;
      forall m | m in s.requests ensures m.call != c { CountIn(s.requests, m); }
      forall m | m in s.replies ensures m.call != c { CountIn(s.replies, m); }
    }
    hide InFlight;
  }

  lemma StepCalls(s: State, a: Action)
    requires Inv(s) && Enabled(s, a)
    ensures CallsOk(Next(s, a))
  {
    hide InUse, InFlight;
    forall k ensures var s' := Next(s, a); InFlight(s', k) == if k in s'.phases && s'.phases[k].Waiting? then 1 else 0 {
      StepFlight(s, a, k);
    }
    StepMsgs(s, a);
    hide MsgsOk;
  }

  lemma StillUsed(s: State, s': State, t: u16, j: nat)
    requires InUse(s, t) && forall k :: k in s.phases && k != j ==> k in s'.phases && s'.phases[k] == s.phases[k]
    requires j in s.phases && Live(s.phases[j]) && s.phases[j].tag == t ==> InUse(s', t)
    ensures InUse(s', t)
  {
    var k :| k in s.phases && (s.phases[k] == Has(t) || s.phases[k] == Waiting(t));
    if k != j { assert k in s'.phases && s'.phases[k] == s.phases[k]; }
  }

  lemma TakeAccounts(s: State, k: nat)
    requires Accounted(s) && Enabled(s, Take(k))
    ensures Accounted(Next(s, Take(k)))
  {
    hide InUse;
    var s' := Next(s, Take(k));
    Used(s', k);
    forall t: u16 | 2 <= t <= s'.last ensures t in s'.free || InUse(s', t) || s'.worker == Returning(t) {
      if t <= s.last {
        if InUse(s, t) { StillUsed(s, s', t, k); }
        if t in s.free && t !in s'.free { assert s.free == s'.free + [s.free[|s.free| - 1]]; }
      }
    }
  }

  lemma StepAccounts(s: State, a: Action)
    requires Inv(s) && Enabled(s, a)
    ensures Accounted(Next(s, a))
  {
    hide InUse, TagsOk, CallsOk, AnswersOk;
    var s' := Next(s, a);
    if a.Take? { TakeAccounts(s, a.k); }
    else {
      forall t: u16 | 2 <= t <= s.last && InUse(s, t) ensures InUse(s', t) || s'.worker == Returning(t) {
        match a
        case Zero(k) => StillUsed(s, s', t, k);
        case Register(k) => Used(s', k); StillUsed(s, s', t, k);
        case Deliver => if s.worker.msg.tag != t { StillUsed(s, s', t, s.worker.chan); }
        case _ => UsedSame(s, s', t);
      }
    }
  }

  lemma UsedSame(s: State, s': State, t: u16)
    requires s'.phases == s.phases
    ensures InUse(s', t) == InUse(s, t)
  {}

  lemma NextKeeps(s: State, a: Action)
    requires Inv(s)
    ensures Inv(Next(s, a))
  {
    hide TagsOk, WorkerOk, CallsOk, AnswersOk, Accounted;
    if Enabled(s, a) {
      StepTags(s, a);
      StepWorker(s, a);
      StepCalls(s, a);
      StepAnswers(s, a);
      StepAccounts(s, a);
    }
  }

  lemma {:induction false} RunKeeps(s: State, acts: seq<Action>)
    requires Inv(s)
    ensures Inv(Run(s, acts))
    decreases |acts|
  {
    hide Inv, Next;
    if acts != [] {
      NextKeeps(s, acts[0]);
      RunKeeps(Next(s, acts[0]), acts[1..]);
    }
  }

  // ------------------------------------------------------------------------ results

  /** In every run: a call that got a reply got its own, and a call that waits has exactly
      one message on its way to or from the server. */
  lemma OwnReply(acts: seq<Action>, k: nat)
    requires k in Run(Init(), acts).phases
    ensures var s := Run(Init(), acts);
            && (s.phases[k].Done? ==> s.phases[k].answers == k)
            && (s.phases[k].Waiting? ==> InFlight(s, k) == 1)
  {
    hide Run, InFlight;
    InitOk();
    RunKeeps(Init(), acts);
  }

  /** In every run the free tags are distinct, were given out before, and are disjoint from
      the tags in use, no two calls in use share one, and no tag is lost. */
  lemma TagsExclusive(acts: seq<Action>)
    ensures TagsOk(Run(Init(), acts)) && Accounted(Run(Init(), acts))
  {
    hide Run, TagsOk, Accounted;
    InitOk();
    RunKeeps(Init(), acts);
  }

  /** The worker is never stuck with a reply: whoever it holds one for is waiting. */
  lemma WorkerMoves(acts: seq<Action>)
    ensures var s := Run(Init(), acts); s.worker.Holding? ==> Enabled(s, Deliver)
  {
    hide Run;
    InitOk();
    RunKeeps(Init(), acts);
    hide Inv;
  }

  /** The tag returned last is the next one taken, and nothing else of the tags changes by
      that; a fresh one is taken only when none is free. */
  lemma LastReturnedFirst(s: State, k: nat, tag: u16)
    requires Inv(s) && k !in s.phases
    ensures s.worker == Returning(tag) && tag != 0 ==>
              var s' := Next(Next(s, Return), Take(k));
              s'.phases == s.phases[k := Has(tag)] && s'.free == s.free && s'.last == s.last && tag !in s'.calls
    ensures s.free == [] && s.last < 0xFFFF ==>
              var s' := Next(s, Take(k));
              s'.phases == s.phases[k := Has(s.last + 1)] && s'.free == [] && s'.last == s.last + 1
  {
    hide Inv, InUse;
    assert (s.free + [tag])[..|s.free|] == s.free;
  }

  /** Once all tags are out and none is free the uint16 counter goes round, and the third
      fresh tag from there is one that a call is using. */
  lemma CounterGoesRound(s: State)
    requires Inv(s) && s.free == [] && s.last == 0xFFFF && s.worker.Ready?
    ensures var (_, l1, t1) := TakeTag([], s.last);
            var (_, l2, t2) := TakeTag([], l1);
            var (_, _, t3) := TakeTag([], l2);
            t1 == 0 && t2 == 1 && t3 == 2 && InUse(s, t3)
  { hide InUse, TagsOk, CallsOk; }

  function Takes(k: nat, n: nat): seq<Action> { seq(n, i requires 0 <= i < n => Take(k + i)) }

  lemma {:induction false} TakesRun(s: State, k: nat, n: nat)
    requires s.free == [] && s.last + n <= 0xFFFF && forall j :: j in s.phases ==> j < k
    ensures var s' := Run(s, Takes(k, n)); s'.free == [] && s'.last == s.last + n && s'.worker == s.worker
    decreases n
  {
    if n > 0 {
      var acts := Takes(k, n);
      assert acts[0] == Take(k) && acts[1..] == Takes(k + 1, n - 1);
      TakesRun(Next(s, acts[0]), k + 1, n - 1);
    }
  }

  /** That point is reached: 65534 calls take a tag each before any is answered. */
  lemma TagsRunOut()
    ensures var s := Run(Init(), Takes(0, 65534));
            && Inv(s) && s.free == [] && s.last == 0xFFFF && s.worker.Ready?
            && InUse(s, TakeTag([], TakeTag([], TakeTag([], s.last).1).1).2)
  {
    hide Inv, Run, InUse;
    InitOk();
    RunKeeps(Init(), Takes(0, 65534));
    TakesRun(Init(), 0, 65534);
    CounterGoesRound(Run(Init(), Takes(0, 65534)));
  }

  // ------------------------------------------------------------------------ objects

  /** The fields of the client that its lock guards; the ghost fields are what its callers
      and the connection hold at the same time. A channel is named by its call. */
  class Client {
    var tags: seq<u16>
    var lastTag: u16
    var calls: map<u16, nat>
    var tagFids: map<u16, u32>
    ghost var phases: map<nat, Phase>
    ghost var requests: seq<Msg>
    ghost var replies: seq<Msg>
    ghost var worker: Worker

    ghost function View(): State
      reads this
    { State(tags, lastTag, calls, phases, requests, replies, worker) }

    constructor ()
      ensures View() == Init() && tagFids == map[]
    {
      tags, lastTag, calls, tagFids := [], 1, map[], map[];
      phases, requests, replies, worker := map[], [], [], Ready;
    }

    /** client/client.go:316-331: call `k` gets a tag no other call has. */
    method TakeFor(fid: u32, ghost k: nat) returns (t: u16)
      requires Inv(View()) && Enabled(View(), Take(k))
      modifies this
      ensures Inv(View()) && View() == Next(old(View()), Take(k)) && phases[k] == Has(t)
      ensures forall l :: l in phases && l != k && Live(phases[l]) ==> phases[l].tag != t
      ensures old(tags) != [] ==>
                tags + [t] == old(tags) && lastTag == old(lastTag) && tagFids == old(tagFids)[t := fid]
      ensures old(tags) == [] ==> tags == [] && t == lastTag == old(lastTag) + 1 && tagFids == old(tagFids)
    {
      hide Inv, InUse;
      NextKeeps(View(), Take(k));
      if |tags| == 0 {
        lastTag := Wrap16(lastTag + 1);
        t := lastTag;
      } else {
        t := tags[|tags| - 1];
        tags := tags[..|tags| - 1];
        tagFids := tagFids[t := fid];
      }
      phases := phases[k := Has(t)];
      LiveApart(View(), k);
    }

    /** client/client.go:292-298: the channel is registered and the request written. */
    method Register(tag: u16, k: nat)
      requires Inv(View()) && k in phases && phases[k] == Has(tag)
      modifies this
      ensures Inv(View()) && View() == Next(old(View()), Action.Register(k))
    {
      hide Inv, InUse;
      NextKeeps(View(), Action.Register(k));
      calls := calls[tag := k];
      phases, requests := phases[k := Waiting(tag)], requests + [Msg(tag, k)];
    }

    /** client/client.go:71-94, one round of the worker: the reply with this tag goes to the
        call waiting for it, which is the one it answers, and the tag is returned. */
    method Deliver(tag: u16) returns (chan: nat)
      requires Inv(View()) && worker == Ready && replies != [] && replies[0].tag == tag
      modifies this
      ensures Inv(View()) && View() == Run(old(View()), [Pick, Action.Deliver, Return])
      ensures chan == old(replies[0].call) && chan in phases && phases[chan] == Done(chan)
      ensures tag != 0 ==> tags == old(tags) + [tag] && calls == old(calls) - {tag} && tagFids == old(tagFids) - {tag}
      ensures tag == 0 ==> tags == old(tags) && calls == old(calls) && tagFids == old(tagFids)
    {
      hide Inv, Run, Next;
      ghost var m := replies[0];
      RunKeeps(View(), [Pick, Action.Deliver, Return]);
      WorkerRound(View());
      chan := calls[tag];
      replies := replies[1..];
      phases := phases[chan := Done(m.call)];
      if tag != 0 {
        tags := tags + [tag];
        calls := calls - {tag};
        tagFids := tagFids - {tag};
      }
    }
  }

  lemma LiveApart(s: State, k: nat)
    requires Inv(s) && k in s.phases && Live(s.phases[k])
    ensures forall l :: l in s.phases && l != k && Live(s.phases[l]) ==> s.phases[l].tag != s.phases[k].tag
  {}

  /** The next reply is for a waiting call that its tag is registered to. */
  lemma Found(s: State)
    requires Inv(s) && s.replies != []
    ensures var m := s.replies[0];
            && m.call in s.phases && s.phases[m.call] == Waiting(m.tag)
            && m.tag in s.calls && s.calls[m.tag] == m.call
  { assert s.replies[0] in s.replies; }

  /** What a round of the worker does. */
  lemma WorkerRound(s: State)
    requires Inv(s) && s.worker == Ready && s.replies != []
    ensures var m := s.replies[0];
            && m.tag in s.calls && s.calls[m.tag] == m.call
            && Run(s, [Pick, Deliver, Return]) ==
               ReturnTag(s.(replies := s.replies[1..], phases := s.phases[m.call := Done(m.call)]), m.tag)
  {
    hide Inv, Run, Next;
    var m := s.replies[0];
    Found(s);
    var s1 := s.(replies := s.replies[1..], worker := Holding(m, m.call));
    var s2 := s1.(phases := s.phases[m.call := Done(m.call)], worker := Returning(m.tag));
    assert Next(s, Pick) == s1 && Next(s1, Deliver) == s2 by { PickDeliver(s, s1, s2); }
    RunThree(s, s1, s2);
    ReturnStep(s2);
  }

  lemma PickDeliver(s: State, s1: State, s2: State)
    requires s.worker == Ready && s.replies != []
    requires var m := s.replies[0];
             && m.call in s.phases && s.phases[m.call].Waiting? && m.tag in s.calls && s.calls[m.tag] == m.call
             && s1 == s.(replies := s.replies[1..], worker := Holding(m, m.call))
             && s2 == s1.(phases := s.phases[m.call := Done(m.call)], worker := Returning(m.tag))
    ensures Next(s, Pick) == s1 && Next(s1, Deliver) == s2
  { hide InUse; }

  lemma ReturnStep(s: State)
    requires s.worker.Returning?
    ensures Next(s, Return) == ReturnTag(s.(worker := Ready), s.worker.tag)
  { hide InUse; }

  lemma RunThree(s: State, s1: State, s2: State)
    requires s1 == Next(s, Pick) && s2 == Next(s1, Deliver)
    ensures Run(s, [Pick, Deliver, Return]) == Next(s2, Return)
  {
    hide Next;
    assert [Pick, Deliver, Return][1..] == [Deliver, Return] && [Deliver, Return][1..] == [Return]
           && [Return][1..] == [];
    assert Run(s1, [Deliver, Return]) == Run(s2, [Return]);
    assert Run(s2, [Return]) == Run(Next(s2, Return), []);
  }
}
