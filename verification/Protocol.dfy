/**
 * proto-service-pipe/src/transport.rs as a step system: one run loop, one task per
 * handler, one spawned closer per server-initiated Close, and the writer, interleaved
 * one step at a time in any order.
 */
module Protocol {
  import opened Wire
  import opened Services

  /** `cap` is the capacity of the funnel and of the done channel. */
  datatype Config = Config(router: map<string, Service>, cap: nat)

  /** `clientTx` says whether the sender of the request stream is still held. */
  datatype Session = Session(clientTx: bool)

  /** Where a handler task is: in the handler, before its Close, before its Done, gone. */
  datatype Phase = Running | Closing(end: CallEnd) | Reporting | Finished

  /**
   * One spawned handler task. `inbox` is the unread request stream, `rxHeld` its
   * receiver, `closed` the Close it put into the funnel, `aborted` its abort flag.
   */
  datatype Task = Task(
    begin: Begin,
    service: Service,
    call: Call,
    hist: seq<Obs>,
    inbox: seq<Bytes>,
    rxHeld: bool,
    phase: Phase,
    closed: Option<CallEnd>,
    aborted: bool)
  {
    function Act(): Action {
      service.handle(call, hist)
    }

    function See(o: Obs): Task {
      this.(hist := hist + [o])
    }

    function Receive(): Task {
      if !rxHeld then See(NoStream)
      else if inbox == [] then See(Got(None))
      else See(Got(Some(inbox[0]))).(inbox := inbox[1..])
    }

    /** The receiver goes away, and the unread items with it. */
    function CloseRx(): Task {
      this.(inbox := [], rxHeld := false)
    }

    function Feed(body: Bytes): Task {
      if rxHeld then this.(inbox := inbox + [body]) else this
    }

    /** The handler's next action, while the writer is up or not; local work reads `seen`. */
    function After(up: bool, seen: Bytes): Task {
      match Act()
      case Recv => Receive()
      case DropRx => CloseRx().See(DroppedRx)
      case Local => See(Computed(seen))
      case Return(end) => CloseRx().(phase := Closing(end))
      case Panic => CloseRx().(phase := Closing(PANICKED))
      case Send(frame) => See(Sent(frame, call.sink && up))
    }

    /** The handler's own Close is in the funnel, or failed because the writer is gone. */
    function Closed(up: bool): Task
      requires phase.Closing?
    {
      this.(phase := Reporting, closed := if up then Some(phase.end) else None)
    }

    /** The frame that action puts into the funnel. */
    function Emits(up: bool): Option<ResponseFrame> {
      if Act().Send? && call.sink && up then Some(ResponseFrameOf(Act().frame)) else None
    }
  }

  datatype CloserPhase = Waiting | Done | Lost

  /** A task spawned by `send_close`. */
  datatype Closer = Closer(status: Status, phase: CloserPhase)

  /** `Inserting` is the point between spawning a handler and inserting its session. */
  datatype Loop = Idle | Inserting(id: ReqId) | Stopped | Dropped

  datatype Writer = Up | Failed | Ended

  /**
   * The last seven fields are logs: packets handled, Begin ids accepted, handlers and
   * closers spawned, ids whose session a Cancel removed, and frames put into and taken
   * out of the funnel.
   */
  datatype State = State(
    loop: Loop,
    sessions: map<ReqId, Session>,
    highest: ReqId,
    tasks: map<ReqId, Task>,
    closers: map<ReqId, Closer>,
    funnel: seq<ResponsePacket>,
    doneQueue: seq<ReqId>,
    writer: Writer,
    packets: seq<RequestPacket>,
    accepted: seq<ReqId>,
    spawned: seq<ReqId>,
    closerLog: seq<ReqId>,
    cancelled: set<ReqId>,
    enqueued: seq<ResponsePacket>,
    delivered: seq<ResponsePacket>)

  const INITIAL := State(
    Idle, map[], 0, map[], map[], [], [], Up, [], [], [], [], {}, [], [])

  datatype Step =
    | Packet(packet: RequestPacket)
    | Insert
    | TakeDone
    | InboundClosed
    | WriterGone
    | Drop
    | Handler(id: ReqId, seen: Bytes)
    | SendOwnClose(id: ReqId)
    | Report(id: ReqId)
    | Reap(id: ReqId)
    | SendServerClose(id: ReqId)
    | Deliver
    | WriterFails
    | WriterEnds

  // ---------------------------------------------------------------------------
  // Pieces of state
  // ---------------------------------------------------------------------------

  /** The sender of the request stream of `id` still exists. */
  predicate StreamOpen(s: State, id: ReqId) {
    s.loop == Inserting(id) || (id in s.sessions && s.sessions[id].clientTx)
  }

  /** A send into the funnel can complete: there is room, or the receiver is gone. */
  predicate FunnelReady(cfg: Config, s: State) {
    s.writer.Up? ==> |s.funnel| < cfg.cap
  }

  predicate LoopAlive(s: State) {
    s.loop.Idle? || s.loop.Inserting?
  }

  predicate Ready(s: State, id: ReqId) {
    id in s.tasks && !s.tasks[id].aborted
  }

  function SetTask(s: State, id: ReqId, t: Task): State {
    s.(tasks := s.tasks[id := t])
  }

  function SetCloser(s: State, id: ReqId, c: Closer): State {
    s.(closers := s.closers[id := c])
  }

  function Enqueue(s: State, id: ReqId, frame: ResponseFrame): State {
    var p := ResponsePacket(id, frame);
    if s.writer.Up? then s.(funnel := s.funnel + [p], enqueued := s.enqueued + [p]) else s
  }

  function Abort(tasks: map<ReqId, Task>, id: ReqId): map<ReqId, Task> {
    if id in tasks then tasks[id := tasks[id].(aborted := true)] else tasks
  }

  function Without<T>(m: map<ReqId, T>, id: ReqId): map<ReqId, T> {
    map x | x in m && x != id :: m[x]
  }

  function SpawnCloser(s: State, id: ReqId, status: Status): State {
    s.(closers := s.closers[id := Closer(status, Waiting)], closerLog := s.closerLog + [id])
  }

  /** Leaving `run`: the done channel's receiver goes away. */
  function Halt(s: State): State {
    s.(loop := Stopped, doneQueue := [])
  }

  const UNEXPECTED_MESSAGE := Status(InvalidArgument, "unexpected request message")

  function Kill(s: State, id: ReqId, status: Status): State {
    SpawnCloser(
      if id in s.sessions then s.(sessions := Without(s.sessions, id), tasks := Abort(s.tasks, id)) else s,
      id, status)
  }

  function NewTask(begin: Begin, service: Service, call: Call): Task {
    Task(begin, service, call, [], [], call.payload.Streaming?, Running, None, false)
  }

  // ---------------------------------------------------------------------------
  // handle_packet
  // ---------------------------------------------------------------------------

  predicate Breaks(s: State, p: RequestPacket) {
    p.frame.Some? && p.frame.value.BeginFrame? && p.id <= s.highest
  }

  function OnRouting(s: State, id: ReqId, begin: Begin, routing: Routing): State {
    match routing
    case Reject(status) => SpawnCloser(s, id, status)
    case Start(service, call) =>
      s.(tasks := s.tasks[id := NewTask(begin, service, call)],
         spawned := s.spawned + [id],
         loop := Inserting(id))
  }

  function OnBegin(cfg: Config, s: State, id: ReqId, begin: Begin): State {
    OnRouting(s.(highest := id, accepted := s.accepted + [id]), id, begin, Route(cfg.router, begin))
  }

  function OnMessage(s: State, id: ReqId, body: Bytes): State {
    if id !in s.sessions then s
    else if !s.sessions[id].clientTx then Kill(s, id, UNEXPECTED_MESSAGE)
    else if id in s.tasks then SetTask(s, id, s.tasks[id].Feed(body))
    else s
  }

  function OnDoneSending(s: State, id: ReqId): State {
    if id in s.sessions then s.(sessions := s.sessions[id := Session(false)]) else s
  }

  function OnCancel(s: State, id: ReqId): State {
    if id in s.sessions then
      s.(sessions := Without(s.sessions, id), tasks := Abort(s.tasks, id), cancelled := s.cancelled + {id})
    else s
  }

  function OnFrame(cfg: Config, s: State, p: RequestPacket): State {
    match p.frame
    case None => s
    case Some(BeginFrame(begin)) => OnBegin(cfg, s, p.id, begin)
    case Some(MessageFrame(body)) => OnMessage(s, p.id, body)
    case Some(DoneSendingFrame) => OnDoneSending(s, p.id)
    case Some(CancelFrame) => OnCancel(s, p.id)
  }

  /** Handling one packet, up to the point where a new handler has just been spawned. */
  function OnPacket(cfg: Config, s: State, p: RequestPacket): State {
    if Breaks(s, p) then Halt(s) else OnFrame(cfg, s.(packets := s.packets + [p]), p)
  }

  function OnInsert(s: State): State {
    if s.loop.Inserting? && s.loop.id in s.tasks then
      var id := s.loop.id;
      s.(loop := Idle, sessions := s.sessions[id := Session(s.tasks[id].call.payload.Streaming?)])
    else s
  }

  function OnTakeDone(s: State): State {
    if s.doneQueue == [] then s
    else s.(sessions := Without(s.sessions, s.doneQueue[0]), doneQueue := s.doneQueue[1..])
  }

  function OnDrop(s: State): State {
    s.(loop := Dropped, doneQueue := [], sessions := map[],
       tasks := map id | id in s.tasks :: if id in s.sessions then s.tasks[id].(aborted := true) else s.tasks[id])
  }

  // ---------------------------------------------------------------------------
  // The other tasks
  // ---------------------------------------------------------------------------

  /** One action of the handler future of `id`; `seen` is there for it to read. */
  function OnHandler(s: State, id: ReqId, seen: Bytes): State
    requires id in s.tasks
  {
    var t := s.tasks[id];
    var emitted := t.Emits(s.writer.Up?);
    SetTask(if emitted.Some? then Enqueue(s, id, emitted.value) else s, id, t.After(s.writer.Up?, seen))
  }

  predicate HandlerReady(cfg: Config, s: State, id: ReqId) {
    && Ready(s, id)
    && s.tasks[id].phase.Running?
    && match s.tasks[id].Act()
       case Recv => s.tasks[id].rxHeld && s.tasks[id].inbox == [] ==> !StreamOpen(s, id)
       case Send(_) => s.tasks[id].call.sink ==> FunnelReady(cfg, s)
       case _ => true
  }

  function OnOwnClose(s: State, id: ReqId): State
    requires id in s.tasks && s.tasks[id].phase.Closing?
  {
    SetTask(Enqueue(s, id, CloseOf(s.tasks[id].phase.end)), id, s.tasks[id].Closed(s.writer.Up?))
  }

  function OnReport(s: State, id: ReqId): State
    requires id in s.tasks
  {
    SetTask(if LoopAlive(s) then s.(doneQueue := s.doneQueue + [id]) else s, id, s.tasks[id].(phase := Finished))
  }

  /** The executor drops an aborted task. */
  function OnReap(s: State, id: ReqId): State
    requires id in s.tasks
  {
    SetTask(s, id, s.tasks[id].CloseRx().(phase := Finished))
  }

  function OnServerClose(s: State, id: ReqId): State
    requires id in s.closers
  {
    var c := s.closers[id];
    SetCloser(Enqueue(s, id, CloseOf(EndError(c.status))), id, c.(phase := if s.writer.Up? then Done else Lost))
  }

  function OnDeliver(s: State): State
    requires s.funnel != []
  {
    s.(funnel := s.funnel[1..], delivered := s.delivered + [s.funnel[0]])
  }

  /** Every clone of the funnel's sender is gone. */
  predicate NoSenders(s: State) {
    && s.loop.Dropped?
    && (forall id :: id in s.tasks ==> s.tasks[id].phase.Finished?)
    && (forall id :: id in s.closers ==> !s.closers[id].phase.Waiting?)
  }

  predicate Enabled(cfg: Config, s: State, step: Step) {
    match step
    case Packet(_) => s.loop.Idle?
    case Insert => s.loop.Inserting? && s.loop.id in s.tasks
    case TakeDone => s.loop.Idle? && s.doneQueue != []
    case InboundClosed => s.loop.Idle?
    case WriterGone => s.loop.Idle? && !s.writer.Up?
    case Drop => s.loop.Idle? || s.loop.Stopped?
    case Handler(id, _) => HandlerReady(cfg, s, id)
    case SendOwnClose(id) => Ready(s, id) && s.tasks[id].phase.Closing? && FunnelReady(cfg, s)
    case Report(id) =>
      Ready(s, id) && s.tasks[id].phase.Reporting? && (LoopAlive(s) ==> |s.doneQueue| < cfg.cap)
    case Reap(id) => id in s.tasks && s.tasks[id].aborted && !s.tasks[id].phase.Finished?
    case SendServerClose(id) => id in s.closers && s.closers[id].phase.Waiting? && FunnelReady(cfg, s)
    case Deliver => s.writer.Up? && s.funnel != []
    case WriterFails => s.writer.Up?
    case WriterEnds => s.writer.Up? && s.funnel == [] && NoSenders(s)
  }

  function Apply(cfg: Config, s: State, step: Step): State
    requires Enabled(cfg, s, step)
  {
    match step
    case Packet(p) => OnPacket(cfg, s, p)
    case Insert => OnInsert(s)
    case TakeDone => OnTakeDone(s)
    case InboundClosed => Halt(s)
    case WriterGone => Halt(s)
    case Drop => OnDrop(s)
    case Handler(id, seen) => OnHandler(s, id, seen)
    case SendOwnClose(id) => OnOwnClose(s, id)
    case Report(id) => OnReport(s, id)
    case Reap(id) => OnReap(s, id)
    case SendServerClose(id) => OnServerClose(s, id)
    case Deliver => OnDeliver(s)
    case WriterFails => s.(funnel := [], writer := Failed)
    case WriterEnds => s.(writer := Ended)
  }

  /** A schedule may name any step at any time; one that is not enabled does nothing. */
  function Next(cfg: Config, s: State, step: Step): State {
    if Enabled(cfg, s, step) then Apply(cfg, s, step) else s
  }

  function Exec(cfg: Config, s: State, schedule: seq<Step>): State {
    if schedule == [] then s
    else Next(cfg, Exec(cfg, s, schedule[..|schedule| - 1]), schedule[|schedule| - 1])
  }

  /** The state after a whole run of a fresh connection. */
  function Run(cfg: Config, schedule: seq<Step>): State {
    Exec(cfg, INITIAL, schedule)
  }

  lemma {:induction false} ExecConcat(cfg: Config, s: State, a: seq<Step>, b: seq<Step>)
    ensures Exec(cfg, s, a + b) == Exec(cfg, Exec(cfg, s, a), b)
  {
    if b == [] {
      assert a + b == a;
    } else {
      var n := |b| - 1;
      ExecConcat(cfg, s, a, b[..n]);
      assert (a + b)[..|a + b| - 1] == a + b[..n];
    }
  }

  lemma ExecOne(cfg: Config, s: State, step: Step)
    ensures Exec(cfg, s, [step]) == Next(cfg, s, step)
  {
    assert [step][..0] == [];
  }

  lemma RunAppend(cfg: Config, schedule: seq<Step>, step: Step)
    ensures Run(cfg, schedule + [step]) == Next(cfg, Run(cfg, schedule), step)
  {
    assert (schedule + [step])[..|schedule|] == schedule;
  }

  // ---------------------------------------------------------------------------
  // Reading the logs, one call at a time
  // ---------------------------------------------------------------------------

  /** The frames of one call in a packet log, in order. */
  function FramesFor(log: seq<ResponsePacket>, id: ReqId): seq<ResponseFrame> {
    if log == [] then []
    else
      var last := log[|log| - 1];
      FramesFor(log[..|log| - 1], id) + if last.id == id then [last.frame] else []
  }

  lemma FramesForAppend(log: seq<ResponsePacket>, p: ResponsePacket, id: ReqId)
    ensures FramesFor(log + [p], id) == FramesFor(log, id) + if p.id == id then [p.frame] else []
  {
    assert (log + [p])[..|log|] == log;
  }

  /** What the handler sent that reached the funnel. */
  function SentFrames(hist: seq<Obs>): seq<RawFrame> {
    if hist == [] then []
    else
      var last := hist[|hist| - 1];
      SentFrames(hist[..|hist| - 1]) + if last.Sent? && last.ok then [last.frame] else []
  }

  /** The request items the handler has received. */
  function Consumed(hist: seq<Obs>): seq<Bytes> {
    if hist == [] then []
    else
      var last := hist[|hist| - 1];
      Consumed(hist[..|hist| - 1]) + if last.Got? && last.item.Some? then [last.item.value] else []
  }

  lemma HistAppend(hist: seq<Obs>, o: Obs)
    ensures (hist + [o])[..|hist|] == hist
    ensures SentFrames(hist + [o]) == SentFrames(hist) + if o.Sent? && o.ok then [o.frame] else []
    ensures Consumed(hist + [o]) == Consumed(hist) + if o.Got? && o.item.Some? then [o.item.value] else []
  {
    assert (hist + [o])[..|hist|] == hist;
  }

  function WireFrames(frames: seq<RawFrame>): (r: seq<ResponseFrame>)
    ensures |r| == |frames|
    ensures forall i :: 0 <= i < |r| ==> r[i] == ResponseFrameOf(frames[i])
  {
    seq(|frames|, i requires 0 <= i < |frames| => ResponseFrameOf(frames[i]))
  }

  /** What a client has uploaded on one call: its Begin, and the bodies before its DoneSending. */
  datatype Upload = Upload(begin: Option<Begin>, ended: bool, bodies: seq<Bytes>)

  function UploadNext(u: Upload, p: RequestPacket, id: ReqId): Upload {
    if p.id != id || p.frame.None? then u
    else match p.frame.value
      case BeginFrame(begin) => u.(begin := Some(begin))
      case MessageFrame(body) => if u.begin.Some? && !u.ended then u.(bodies := u.bodies + [body]) else u
      case DoneSendingFrame => if u.begin.Some? then u.(ended := true) else u
      case CancelFrame => u
  }

  function UploadOf(packets: seq<RequestPacket>, id: ReqId): Upload {
    if packets == [] then Upload(None, false, [])
    else UploadNext(UploadOf(packets[..|packets| - 1], id), packets[|packets| - 1], id)
  }

  lemma UploadAppend(packets: seq<RequestPacket>, p: RequestPacket, id: ReqId)
    ensures UploadOf(packets + [p], id) == UploadNext(UploadOf(packets, id), p, id)
  {
    assert (packets + [p])[..|packets|] == packets;
  }
}
