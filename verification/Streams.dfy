/** The fan-out streams of fs/streams.go as one state machine. A run is any list of
    actions: each is a region under the stream's lock, one send of a Write's loop over the
    readers, or one channel operation of a reader. An action that would block leaves the
    state alone, so a list of actions is an interleaving. `R` is the identity of a reader. */
module Streams {
  import opened Bytes

  datatype Kind = Blocking | Dropping | Skipping

  /** What NewBlockingStream, NewDroppingStream and NewSkippingStream fix. */
  datatype Config = Config(kind: Kind, bufflen: nat)

  /** A chanReader: the channel's buffer, the partly read chunk and the live flag. The
      last four fields are history: the number of writes begun when it joined, the
      indices of the writes sent to it, the chunks it took off its channel and the bytes
      its Reads returned. */
  datatype Chan = Chan(queue: seq<Data>, unread: Data, live: bool,
                       joined: nat, taken: seq<nat>, received: seq<Data>, got: Data)

  /** The Write in progress. In a pass the stream is locked and `todo` are the readers
      not yet tried; between the passes of a BlockingStream it is `Waiting` unlocked. */
  datatype Writer<R> = Idle | Pass(p: Data, todo: seq<R>, kept: seq<R>) | Waiting(p: Data, laggers: seq<R>)

  datatype State<R> = State(readers: seq<R>, chans: map<R, Chan>, closed: bool,
                            writer: Writer<R>, writes: seq<Data>, panicked: bool)

  datatype Action<R> =
    | Add(r: R) | Remove(r: R) | Close
    | Begin(p: Data) | Offer(ready: bool) | EndPass | Retry
    | Recv(r: R) | Copy(r: R, n: nat)

  function Init<R>(): State<R> { State([], map[], false, Idle, [], false) }

  // ------------------------------------------------------------ one reader

  function NewChan(live: bool, joined: nat): Chan { Chan([], [], live, joined, [], [], []) }

  function Send(c: Chan, i: nat, p: Data): Chan { c.(queue := c.queue + [p], taken := c.taken + [i]) }

  function Take(c: Chan): Chan
    requires c.queue != []
  { c.(queue := c.queue[1..], unread := c.queue[0], received := c.received + [c.queue[0]]) }

  function Consume(c: Chan, n: nat): Chan
    requires n <= |c.unread|
  { c.(unread := c.unread[n..], got := c.got + c.unread[..n]) }

  /** Whether the send goes through: there is room, or the channel is unbuffered and the
      reader is `ready` at the other end. In the streams that wait with a timer, `ready`
      also says that the timer has not fired. */
  predicate HasRoom(cfg: Config, queue: seq<Data>, unread: Data, ready: bool) {
    || ((ready || cfg.kind == Blocking) && |queue| < cfg.bufflen)
    || (ready && cfg.bufflen == 0 && queue == [] && unread == [])
  }

  predicate Accepts(cfg: Config, c: Chan, ready: bool) { HasRoom(cfg, c.queue, c.unread, ready) }

  function Deliver(cfg: Config, c: Chan, i: nat, p: Data): Chan {
    if cfg.bufflen == 0 then Take(Send(c, i, p)) else Send(c, i, p)
  }

  // ------------------------------------------------------------- the stream

  function Without<R(==)>(rs: seq<R>, r: R): seq<R> {
    if rs == [] then [] else (if rs[0] == r then [] else [rs[0]]) + Without(rs[1..], r)
  }

  predicate Unlocked<R>(s: State<R>) { !s.writer.Pass? }

  function Kill<R(==)>(chans: map<R, Chan>, rs: seq<R>): (m: map<R, Chan>)
    ensures m.Keys == chans.Keys
  {
    map r | r in chans :: if r in rs then chans[r].(live := false) else chans[r]
  }

  /** One iteration of a Write's loop, on the first reader not yet tried. */
  function OfferTo<R(==)>(cfg: Config, s: State<R>, ready: bool): State<R>
    requires s.writer.Pass? && s.writer.todo != [] && s.writer.todo[0] in s.chans && s.writes != []
  {
    var Pass(p, todo, kept) := s.writer;
    var r := todo[0];
    var c := s.chans[r];
    if !c.live then
      // tryWrite skips a dead reader; a send on its closed channel would panic.
      if cfg.kind == Blocking then s.(writer := Pass(p, todo[1..], kept)) else s.(panicked := true)
    else if Accepts(cfg, c, ready) then
      s.(chans := s.chans[r := Deliver(cfg, c, |s.writes| - 1, p)],
         writer := Pass(p, todo[1..], if cfg.kind == Blocking then kept else kept + [r]))
    else
      match cfg.kind
      case Blocking => s.(writer := Pass(p, todo[1..], kept + [r]))
      case Skipping => s.(writer := Pass(p, todo[1..], kept + [r]))
      case Dropping => s.(chans := s.chans[r := c.(live := false)], writer := Pass(p, todo[1..], kept))
  }

  function FinishPass<R>(cfg: Config, s: State<R>): State<R>
    requires s.writer.Pass?
  {
    match cfg.kind
    case Blocking => s.(writer := if s.writer.kept == [] then Idle else Waiting(s.writer.p, s.writer.kept))
    case Dropping => s.(readers := s.writer.kept, writer := Idle)
    case Skipping => s.(writer := Idle)
  }

  function Next<R(==)>(cfg: Config, s: State<R>, a: Action<R>): State<R> {
    if s.panicked then s
    else
      match a
      case Add(r) =>
        if !Unlocked(s) || r in s.chans then s
        else s.(chans := s.chans[r := NewChan(!s.closed, |s.writes|)],
                readers := if s.closed then s.readers else s.readers + [r])
      case Remove(r) =>
        if !Unlocked(s) || r !in s.chans then s
        else s.(readers := Without(s.readers, r), chans := Kill(s.chans, [r]))
      case Close =>
        if !Unlocked(s) || s.closed then s
        else s.(readers := [], chans := Kill(s.chans, s.readers), closed := true)
      case Begin(p) =>
        if !s.writer.Idle? then s
        else s.(writes := s.writes + [p], writer := Pass(p, s.readers, []))
      case Offer(ready) =>
        if s.writer.Pass? && s.writer.todo != [] && s.writer.todo[0] in s.chans && s.writes != []
        then OfferTo(cfg, s, ready) else s
      case EndPass =>
        if s.writer.Pass? && s.writer.todo == [] then FinishPass(cfg, s) else s
      case Retry =>
        if s.writer.Waiting? then s.(writer := Pass(s.writer.p, s.writer.laggers, [])) else s
      case Recv(r) =>
        if r in s.chans && s.chans[r].unread == [] && s.chans[r].queue != []
        then s.(chans := s.chans[r := Take(s.chans[r])]) else s
      case Copy(r, n) =>
        if r in s.chans && n <= |s.chans[r].unread|
        then s.(chans := s.chans[r := Consume(s.chans[r], n)]) else s
  }

  function Run<R(==)>(cfg: Config, s: State<R>, acts: seq<Action<R>>): State<R>
    decreases |acts|
  {
    if acts == [] then s else Run(cfg, Next(cfg, s, acts[0]), acts[1..])
  }
}
