/**
 * The exact history of every call in every run: what its handler was fed, that the
 * handler followed its own program, and which frames of the call entered the funnel.
 */
module Calls {
  import opened Wire
  import opened Services
  import opened Protocol
  import opened Invariants

  // ---------------------------------------------------------------------------
  // A task runs its own handler
  // ---------------------------------------------------------------------------

  /** `o` is a possible outcome of the action `a`. */
  predicate Fits(a: Action, o: Obs) {
    match o
    case Got(_) => a.Recv?
    case NoStream => a.Recv?
    case Sent(frame, _) => a == Send(frame)
    case DroppedRx => a.DropRx?
    case Computed(_) => a.Local?
  }

  /** Every observation answers the action the program chose on what came before it. */
  predicate Follows(service: Service, call: Call, hist: seq<Obs>) {
    hist == [] ||
    var n := |hist| - 1;
    Follows(service, call, hist[..n]) && Fits(service.handle(call, hist[..n]), hist[n])
  }

  /** How the handler future resolves, once it does. */
  function EndOf(a: Action): Option<CallEnd> {
    match a
    case Return(end) => Some(end)
    case Panic => Some(PANICKED)
    case _ => None
  }

  /** A failed send means the call has no sink or the writer is gone. */
  ghost predicate SendsFit(hist: seq<Obs>, sink: bool, up: bool) {
    forall k :: 0 <= k < |hist| && hist[k].Sent? ==> (hist[k].ok ==> sink) && (!hist[k].ok && up ==> !sink)
  }

  ghost predicate TaskOk(cfg: Config, t: Task, up: bool) {
    && Route(cfg.router, t.begin) == Start(t.service, t.call)
    && Follows(t.service, t.call, t.hist)
    && SendsFit(t.hist, t.call.sink, up)
    && (t.rxHeld ==> t.call.payload.Streaming? && t.phase.Running?)
    && (!t.rxHeld ==> t.inbox == [])
    && (t.phase.Running? && t.call.payload.Streaming? && DroppedRx !in t.hist ==> t.rxHeld)
    && (t.phase.Closing? ==> EndOf(t.Act()) == Some(t.phase.end))
    && (t.closed.Some? ==>
          && (t.phase.Reporting? || t.phase.Finished?)
          && EndOf(t.Act()) == t.closed && SendsFit(t.hist, t.call.sink, true))
    && (!t.aborted && (t.phase.Reporting? || t.phase.Finished?) ==>
          EndOf(t.Act()).Some? && (t.closed.None? ==> !up))
  }

  ghost predicate TaskInv(cfg: Config, s: State, id: ReqId) {
    id in s.tasks ==> TaskOk(cfg, s.tasks[id], s.writer.Up?)
  }

  // ---------------------------------------------------------------------------
  // The frames of one call
  // ---------------------------------------------------------------------------

  /** What the handler's task put into the funnel: what it sent, then its Close. */
  function OwnFrames(t: Task): seq<ResponseFrame> {
    WireFrames(SentFrames(t.hist)) + if t.closed.Some? then [CloseOf(t.closed.value)] else []
  }

  /** What a server-spawned closer put into the funnel. */
  function ServerFrames(c: Closer): seq<ResponseFrame> {
    if c.phase.Done? then [CloseOf(EndError(c.status))] else []
  }

  function CallFrames(s: State, id: ReqId): seq<ResponseFrame> {
    (if id in s.tasks then OwnFrames(s.tasks[id]) else [])
    + (if id in s.closers then ServerFrames(s.closers[id]) else [])
  }

  /** ... and a closer fails only once the writer is gone. */
  ghost predicate FrameInv(s: State, id: ReqId) {
    && FramesFor(s.enqueued, id) == CallFrames(s, id)
    && (id in s.closers && s.closers[id].phase.Lost? ==> !s.writer.Up?)
  }

  /** The writer delivers in funnel order and loses nothing while it is up. */
  ghost predicate FunnelInv(s: State) {
    && s.delivered <= s.enqueued
    && (s.writer.Up? ==> s.enqueued == s.delivered + s.funnel)
    && (s.writer.Ended? ==> s.enqueued == s.delivered)
    && (!s.writer.Up? ==> s.funnel == [])
  }

  // ---------------------------------------------------------------------------
  // The request stream of one call
  // ---------------------------------------------------------------------------

  /**
   * What the handler consumed and what still waits for it are, in order, what the client
   * uploaded; nothing is missing while the session lives and the receiver is held, and
   * the end of the stream is seen only after all of it.
   */
  ghost predicate StreamOk(u: Upload, t: Task, live: bool) {
    && Consumed(t.hist) + t.inbox <= u.bodies
    && (live && t.rxHeld ==> Consumed(t.hist) + t.inbox == u.bodies)
    && (Got(None) in t.hist ==> u.ended && Consumed(t.hist) == u.bodies && t.inbox == [])
  }

  ghost predicate UploadInv(s: State, id: ReqId) {
    var u := UploadOf(s.packets, id);
    && (u.begin.Some? <==> id in s.accepted)
    && (u.begin.None? ==> u == Upload(None, false, []))
    && (id in s.tasks ==> u.begin == Some(s.tasks[id].begin))
    && (id in s.tasks ==> StreamOk(u, s.tasks[id], Live(s, id)))
    && (s.loop == Inserting(id) ==> u == Upload(u.begin, false, []))
    && (id in s.sessions && id in s.tasks ==>
          s.sessions[id].clientTx == (s.tasks[id].call.payload.Streaming? && !u.ended))
  }

  /** A closer's status is the one its Begin was rejected with, or that of a kill. */
  ghost predicate RouteInv(cfg: Config, s: State, id: ReqId) {
    id in s.closers ==>
      if id in s.tasks then s.closers[id].status == UNEXPECTED_MESSAGE
      else
        && UploadOf(s.packets, id).begin.Some?
        && Route(cfg.router, UploadOf(s.packets, id).begin.value) == Reject(s.closers[id].status)
  }

  ghost predicate CallHistory(cfg: Config, s: State, id: ReqId) {
    TaskInv(cfg, s, id) && FrameInv(s, id) && UploadInv(s, id)
  }

  ghost predicate HistoryInv(cfg: Config, s: State, id: ReqId) {
    CallHistory(cfg, s, id) && RouteInv(cfg, s, id)
  }

  ghost predicate Inv(cfg: Config, s: State) {
    Core(s) && FunnelInv(s) && forall id :: HistoryInv(cfg, s, id)
  }

  // ---------------------------------------------------------------------------
  // Preservation
  // ---------------------------------------------------------------------------

  /** Untouched, aborted, or fed. */
  ghost predicate Touched(t: Task, u: Task) {
    || u == t
    || u == t.(aborted := true)
    || (u == t.(inbox := u.inbox) && t.rxHeld)
  }

  /** The handler of `id` may be created, fed or aborted, and a closer may start to wait. */
  ghost predicate Affected(cfg: Config, s: State, t: State, id: ReqId) {
    && t.writer == s.writer && t.enqueued == s.enqueued
    && (id in s.tasks ==> id in t.tasks && Touched(s.tasks[id], t.tasks[id]))
    && (id in t.tasks && id !in s.tasks ==>
          && Route(cfg.router, t.tasks[id].begin) == Start(t.tasks[id].service, t.tasks[id].call)
          && t.tasks[id] == NewTask(t.tasks[id].begin, t.tasks[id].service, t.tasks[id].call)
          && id !in t.closers)
    && (id in s.closers ==> id in t.closers && t.closers[id] == s.closers[id])
    && (id in t.closers && id !in s.closers ==> t.closers[id].phase.Waiting?)
  }

  lemma BeginAffects(cfg: Config, s: State, n: ReqId, begin: Begin, id: ReqId)
    requires n > s.highest && CallInv(s, n)
    ensures Affected(cfg, s, OnBegin(cfg, s, n, begin), id)
  {
    assert n !in s.accepted;
  }

  lemma MessageAffects(cfg: Config, s: State, n: ReqId, body: Bytes, id: ReqId)
    requires CallInv(s, n)
    ensures Affected(cfg, s, OnMessage(s, n, body), id)
  {
  }

  /** All a packet can do to a call. */
  lemma PacketEffect(cfg: Config, s: State, p: RequestPacket, id: ReqId)
    requires s.loop.Idle? && CallInv(s, p.id)
    ensures Affected(cfg, s, OnPacket(cfg, s, p), id)
  {
    if !Breaks(s, p) && p.frame.Some? {
      var t := s.(packets := s.packets + [p]);
      match p.frame.value
      case BeginFrame(begin) => BeginAffects(cfg, t, p.id, begin, id);
      case MessageFrame(body) => MessageAffects(cfg, t, p.id, body, id);
      case DoneSendingFrame =>
      case CancelFrame =>
    }
  }

  /** What a handled packet leaves in the loop's own records. */
  lemma HandledPacket(cfg: Config, s: State, p: RequestPacket)
    requires s.loop.Idle? && !Breaks(s, p)
    ensures var t := OnPacket(cfg, s, p);
      && t.packets == s.packets + [p] && LoopAlive(t)
      && t.accepted == s.accepted + (if p.frame.Some? && p.frame.value.BeginFrame? then [p.id] else [])
      && t.cancelled == s.cancelled
         + if p.frame == Some(CancelFrame) && p.id in s.sessions then {p.id} else {}
  {
    if p.frame.Some? {
      match p.frame.value
      case BeginFrame(_) =>
      case MessageFrame(_) =>
      case DoneSendingFrame =>
      case CancelFrame =>
    }
  }

  lemma PacketHistory(cfg: Config, s: State, p: RequestPacket, id: ReqId)
    requires s.loop.Idle? && CallInv(s, id) && CallInv(s, p.id)
    requires TaskInv(cfg, s, id) && FrameInv(s, id)
    ensures TaskInv(cfg, OnPacket(cfg, s, p), id) && FrameInv(OnPacket(cfg, s, p), id)
  {
    PacketEffect(cfg, s, p, id);
    var t := OnPacket(cfg, s, p);
    if id in s.tasks {
      assert t.tasks[id].hist == s.tasks[id].hist && t.tasks[id].Act() == s.tasks[id].Act();
      assert OwnFrames(t.tasks[id]) == OwnFrames(s.tasks[id]);
    }
  }

  lemma BeginOwnUpload(cfg: Config, s: State, id: ReqId, begin: Begin)
    requires s.loop.Idle? && id > s.highest && CallInv(s, id) && UploadInv(s, id)
    ensures var t := s.(packets := s.packets + [RequestPacket(id, Some(BeginFrame(begin)))]);
      UploadInv(OnBegin(cfg, t, id, begin), id)
  {
    UploadAppend(s.packets, RequestPacket(id, Some(BeginFrame(begin))), id);
    assert id !in s.accepted;
    assert UploadNext(UploadOf(s.packets, id), RequestPacket(id, Some(BeginFrame(begin))), id)
        == Upload(Some(begin), false, []);
  }

  lemma BeginOtherUpload(cfg: Config, s: State, n: ReqId, begin: Begin, id: ReqId)
    requires s.loop.Idle? && UploadInv(s, id) && id != n
    ensures var t := s.(packets := s.packets + [RequestPacket(n, Some(BeginFrame(begin)))]);
      UploadInv(OnBegin(cfg, t, n, begin), id)
  {
    UploadAppend(s.packets, RequestPacket(n, Some(BeginFrame(begin))), id);
  }

  lemma BeginUpload(cfg: Config, s: State, n: ReqId, begin: Begin, id: ReqId)
    requires s.loop.Idle? && n > s.highest && CallInv(s, n) && UploadInv(s, id)
    ensures var t := s.(packets := s.packets + [RequestPacket(n, Some(BeginFrame(begin)))]);
      UploadInv(OnBegin(cfg, t, n, begin), id)
  {
    if id == n {
      BeginOwnUpload(cfg, s, n, begin);
    } else {
      BeginOtherUpload(cfg, s, n, begin, id);
    }
  }

  lemma FeedStream(u: Upload, t: Task, live: bool, body: Bytes)
    requires StreamOk(u, t, live) && !u.ended
    ensures live ==> StreamOk(u.(bodies := u.bodies + [body]), t.Feed(body), live)
    ensures StreamOk(u.(bodies := u.bodies + [body]), t.(aborted := true), false)
    ensures !live || !t.rxHeld ==> StreamOk(u.(bodies := u.bodies + [body]), t, live)
  {
    assert Consumed(t.hist) + (t.inbox + [body]) == (Consumed(t.hist) + t.inbox) + [body];
  }

  /** A message on the stream's own session: what the session allows agrees with the upload. */
  lemma MessageStream(cfg: Config, s: State, id: ReqId, body: Bytes)
    requires s.loop.Idle? && CallInv(s, id) && UploadInv(s, id) && TaskInv(cfg, s, id) && id in s.tasks
    ensures var u := UploadNext(UploadOf(s.packets, id), RequestPacket(id, Some(MessageFrame(body))), id);
      && (id !in s.sessions ==> StreamOk(u, s.tasks[id], false))
      && (id in s.sessions && s.sessions[id].clientTx ==> StreamOk(u, s.tasks[id].Feed(body), true) && !u.ended)
      && (id in s.sessions ==> StreamOk(u, s.tasks[id].(aborted := true), false))
  {
    if !UploadOf(s.packets, id).ended {
      FeedStream(UploadOf(s.packets, id), s.tasks[id], Live(s, id), body);
    }
  }

  /** All a message on `n` does to its stream, its session and its handler. */
  lemma MessageEffect(s: State, n: ReqId, body: Bytes, id: ReqId)
    requires s.loop.Idle?
    ensures var t := OnMessage(s, n, body);
      && t.packets == s.packets && t.accepted == s.accepted && t.loop == s.loop && t.tasks.Keys == s.tasks.Keys
      && (id in t.sessions ==> id in s.sessions && t.sessions[id] == s.sessions[id])
      && (id != n ==> (id in s.sessions ==> id in t.sessions) && (id in s.tasks ==> t.tasks[id] == s.tasks[id]))
      && (id == n && id in s.tasks && id !in s.sessions ==> t.tasks[id] == s.tasks[id])
      && (id == n && id in s.tasks && id in s.sessions && s.sessions[id].clientTx ==>
            t.tasks[id] == s.tasks[id].Feed(body))
      && (id == n && id in s.tasks && id in s.sessions && !s.sessions[id].clientTx ==>
            t.tasks[id] == s.tasks[id].(aborted := true))
      && (id == n && id in t.sessions ==> s.sessions[id].clientTx)
  {
  }

  lemma MessageKeeps(s: State, t: State, p: RequestPacket, id: ReqId)
    requires s.loop.Idle? && UploadInv(s, id) && CallInv(s, id)
    requires p.frame.Some? && p.frame.value.MessageFrame?
    requires t.packets == s.packets + [p] && t.accepted == s.accepted
    requires t.loop == s.loop && t.tasks.Keys == s.tasks.Keys
    requires id in t.sessions ==> id in s.sessions && t.sessions[id] == s.sessions[id]
    requires id in s.tasks ==> t.tasks[id].begin == s.tasks[id].begin && t.tasks[id].call == s.tasks[id].call
    requires id in s.tasks && id == p.id ==> StreamOk(UploadOf(t.packets, id), t.tasks[id], id in t.sessions)
    requires id in s.tasks && id != p.id ==> t.tasks[id] == s.tasks[id] && (id in t.sessions <==> id in s.sessions)
    ensures UploadInv(t, id)
  {
    UploadAppend(s.packets, p, id);
  }

  lemma MessageUpload(cfg: Config, s: State, n: ReqId, body: Bytes, id: ReqId)
    requires s.loop.Idle? && UploadInv(s, id) && CallInv(s, id) && TaskInv(cfg, s, id)
    ensures UploadInv(OnMessage(s.(packets := s.packets + [RequestPacket(n, Some(MessageFrame(body)))]), n, body), id)
  {
    var p := RequestPacket(n, Some(MessageFrame(body)));
    var r := s.(packets := s.packets + [p]);
    UploadAppend(s.packets, p, id);
    MessageEffect(r, n, body, id);
    if id == n && id in s.tasks {
      MessageStream(cfg, s, id, body);
    }
    MessageKeeps(s, OnMessage(r, n, body), p, id);
  }

  lemma CloseUpload(s: State, p: RequestPacket, id: ReqId)
    requires s.loop.Idle? && CallInv(s, id) && UploadInv(s, id) && p.frame == Some(DoneSendingFrame)
    ensures UploadInv(OnDoneSending(s.(packets := s.packets + [p]), p.id), id)
  {
    UploadAppend(s.packets, p, id);
  }

  lemma LoggedUpload(s: State, p: RequestPacket, id: ReqId)
    requires UploadInv(s, id) && (p.frame == Some(CancelFrame) || p.frame == None)
    ensures UploadInv(s.(packets := s.packets + [p]), id)
  {
    UploadAppend(s.packets, p, id);
  }

  lemma CancelUpload(s: State, n: ReqId, id: ReqId)
    requires s.loop.Idle? && CallInv(s, id) && UploadInv(s, id)
    ensures UploadInv(OnCancel(s, n), id)
  {
    if id == n && id in s.sessions {
      assert id in s.tasks && OnCancel(s, n).tasks[id] == s.tasks[id].(aborted := true);
    }
  }

  lemma CancelledUpload(s: State, p: RequestPacket, id: ReqId)
    requires s.loop.Idle? && CallInv(s, id) && UploadInv(s, id) && p.frame == Some(CancelFrame)
    ensures UploadInv(OnCancel(s.(packets := s.packets + [p]), p.id), id)
  {
    LoggedUpload(s, p, id);
    CancelUpload(s.(packets := s.packets + [p]), p.id, id);
  }

  lemma HaltUpload(s: State, id: ReqId)
    requires s.loop.Idle? && UploadInv(s, id)
    ensures UploadInv(Halt(s), id)
  {
  }

  lemma FrameUpload(cfg: Config, s: State, p: RequestPacket, id: ReqId)
    requires s.loop.Idle? && CallInv(s, id) && CallInv(s, p.id) && !Breaks(s, p)
    requires UploadInv(s, id) && TaskInv(cfg, s, id)
    ensures UploadInv(OnFrame(cfg, s.(packets := s.packets + [p]), p), id)
  {
    match p.frame
    case None => LoggedUpload(s, p, id);
    case Some(BeginFrame(begin)) => BeginUpload(cfg, s, p.id, begin, id);
    case Some(MessageFrame(body)) => MessageUpload(cfg, s, p.id, body, id);
    case Some(DoneSendingFrame) => CloseUpload(s, p, id);
    case Some(CancelFrame) => CancelledUpload(s, p, id);
  }

  lemma PacketUpload(cfg: Config, s: State, p: RequestPacket, id: ReqId)
    requires s.loop.Idle? && CallInv(s, id) && CallInv(s, p.id)
    requires UploadInv(s, id) && TaskInv(cfg, s, id)
    ensures UploadInv(OnPacket(cfg, s, p), id)
  {
    if Breaks(s, p) {
      HaltUpload(s, id);
    } else {
      FrameUpload(cfg, s, p, id);
    }
  }

  lemma NewId(s: State, n: ReqId)
    requires KnownInv(s, n) && n > s.highest
    ensures n !in s.accepted && n !in s.tasks && n !in s.closers
  {
  }

  lemma BeginOwnRoute(cfg: Config, s: State, id: ReqId, begin: Begin)
    requires KnownInv(s, id) && id > s.highest
    ensures var t := s.(packets := s.packets + [RequestPacket(id, Some(BeginFrame(begin)))]);
      RouteInv(cfg, OnBegin(cfg, t, id, begin), id)
  {
    UploadAppend(s.packets, RequestPacket(id, Some(BeginFrame(begin))), id);
    NewId(s, id);
  }

  lemma BeginOtherRoute(cfg: Config, s: State, n: ReqId, begin: Begin, id: ReqId)
    requires id != n && RouteInv(cfg, s, id)
    ensures var t := s.(packets := s.packets + [RequestPacket(n, Some(BeginFrame(begin)))]);
      RouteInv(cfg, OnBegin(cfg, t, n, begin), id)
  {
    UploadAppend(s.packets, RequestPacket(n, Some(BeginFrame(begin))), id);
  }

  lemma BeginRoute(cfg: Config, s: State, n: ReqId, begin: Begin, id: ReqId)
    requires KnownInv(s, n) && n > s.highest && RouteInv(cfg, s, id)
    ensures var t := s.(packets := s.packets + [RequestPacket(n, Some(BeginFrame(begin)))]);
      RouteInv(cfg, OnBegin(cfg, t, n, begin), id)
  {
    if id == n {
      BeginOwnRoute(cfg, s, n, begin);
    } else {
      BeginOtherRoute(cfg, s, n, begin, id);
    }
  }

  lemma MessageRoute(cfg: Config, s: State, n: ReqId, body: Bytes, id: ReqId)
    requires s.loop.Idle? && CallInv(s, n) && RouteInv(cfg, s, id)
    ensures var t := s.(packets := s.packets + [RequestPacket(n, Some(MessageFrame(body)))]);
      RouteInv(cfg, OnMessage(t, n, body), id)
  {
    UploadAppend(s.packets, RequestPacket(n, Some(MessageFrame(body))), id);
  }

  lemma OtherRoute(cfg: Config, s: State, p: RequestPacket, id: ReqId)
    requires RouteInv(cfg, s, id)
    requires p.frame == Some(DoneSendingFrame) || p.frame == Some(CancelFrame) || p.frame == None
    ensures var t := s.(packets := s.packets + [p]);
      RouteInv(cfg, t, id) && RouteInv(cfg, OnDoneSending(t, p.id), id) && RouteInv(cfg, OnCancel(t, p.id), id)
  {
    UploadAppend(s.packets, p, id);
  }

  lemma PacketRoute(cfg: Config, s: State, p: RequestPacket, id: ReqId)
    requires s.loop.Idle? && CallInv(s, p.id) && RouteInv(cfg, s, id)
    ensures RouteInv(cfg, OnPacket(cfg, s, p), id)
  {
    if !Breaks(s, p) {
      match p.frame
      case None => OtherRoute(cfg, s, p, id);
      case Some(BeginFrame(begin)) => BeginRoute(cfg, s, p.id, begin, id);
      case Some(MessageFrame(body)) => MessageRoute(cfg, s, p.id, body, id);
      case Some(_) => OtherRoute(cfg, s, p, id);
    }
  }

  /** What no step but a packet changes of a call. */
  ghost predicate SameRecords(s: State, t: State, id: ReqId) {
    && t.packets == s.packets && t.accepted == s.accepted && t.cancelled == s.cancelled
    && (Live(t, id) ==> Live(s, id))
    && (id in t.tasks <==> id in s.tasks)
    && (id in s.tasks ==> t.tasks[id].begin == s.tasks[id].begin && t.tasks[id].call == s.tasks[id].call)
    && (id in t.closers <==> id in s.closers)
    && (id in s.closers ==> t.closers[id].status == s.closers[id].status)
  }

  lemma TaskRecords(cfg: Config, s: State, step: Step, id: ReqId)
    requires Enabled(cfg, s, step) && (step.Handler? || step.SendOwnClose?)
    ensures SameRecords(s, Apply(cfg, s, step), id)
  {
  }

  lemma EndRecords(cfg: Config, s: State, step: Step, id: ReqId)
    requires Enabled(cfg, s, step) && (step.Report? || step.Reap? || step.SendServerClose?)
    ensures SameRecords(s, Apply(cfg, s, step), id)
  {
  }

  lemma QuietRecords(cfg: Config, s: State, step: Step, id: ReqId)
    requires !step.Packet?
    ensures SameRecords(s, Next(cfg, s, step), id)
  {
    if Enabled(cfg, s, step) {
      if step.Handler? || step.SendOwnClose? {
        TaskRecords(cfg, s, step, id);
      } else if step.Report? || step.Reap? || step.SendServerClose? {
        EndRecords(cfg, s, step, id);
      }
    }
  }

  // One action of a handler, seen from its task alone

  lemma SeeAll(t: Task, o: Obs)
    ensures t.See(o).hist[..|t.hist|] == t.hist
    ensures SentFrames(t.See(o).hist) == SentFrames(t.hist) + if o.Sent? && o.ok then [o.frame] else []
    ensures Consumed(t.See(o).hist) == Consumed(t.hist) + if o.Got? && o.item.Some? then [o.item.value] else []
    ensures Got(None) in t.See(o).hist <==> Got(None) in t.hist || o == Got(None)
  {
    HistAppend(t.hist, o);
  }

  /** The single observation a non-terminal action adds. */
  function Outcome(t: Task, up: bool, seen: Bytes): Obs {
    match t.Act()
    case Recv => if !t.rxHeld then NoStream else if t.inbox == [] then Got(None) else Got(Some(t.inbox[0]))
    case Send(frame) => Sent(frame, t.call.sink && up)
    case DropRx => DroppedRx
    case _ => Computed(seen)
  }

  lemma AfterSees(t: Task, up: bool, seen: Bytes)
    ensures t.After(up, seen).hist == if EndOf(t.Act()).Some? then t.hist else t.See(Outcome(t, up, seen)).hist
    ensures Fits(t.Act(), Outcome(t, up, seen)) || EndOf(t.Act()).Some?
  {
  }

  lemma SeeTask(cfg: Config, t: Task, o: Obs, up: bool)
    requires TaskOk(cfg, t, up) && t.phase.Running? && Fits(t.Act(), o)
    requires o.Sent? ==> o.ok == (t.call.sink && up)
    ensures TaskOk(cfg, t.See(o), up)
  {
    SeeAll(t, o);
    assert Follows(t.service, t.call, t.See(o).hist);
    assert SendsFit(t.See(o).hist, t.call.sink, up);
  }

  lemma EndTask(cfg: Config, t: Task, up: bool, seen: Bytes)
    requires TaskOk(cfg, t, up) && t.phase.Running? && EndOf(t.Act()).Some?
    ensures TaskOk(cfg, t.After(up, seen), up)
  {
    assert t.After(up, seen).Act() == t.Act();
  }

  /** What a non-terminal action leaves of a task besides its history. */
  lemma AfterKeeps(t: Task, up: bool, seen: Bytes)
    requires EndOf(t.Act()).None?
    ensures var u := t.After(up, seen); var v := t.See(Outcome(t, up, seen));
      && u == v.(inbox := u.inbox, rxHeld := u.rxHeld)
      && (u.rxHeld ==> t.rxHeld) && (!u.rxHeld ==> u.inbox == [] || u.inbox == t.inbox)
      && (t.rxHeld && !u.rxHeld ==> t.Act().DropRx? && u.inbox == [])
  {
  }

  lemma AfterTask(cfg: Config, t: Task, up: bool, seen: Bytes)
    requires TaskOk(cfg, t, up) && t.phase.Running?
    ensures TaskOk(cfg, t.After(up, seen), up)
  {
    if EndOf(t.Act()).Some? {
      EndTask(cfg, t, up, seen);
    } else {
      AfterSees(t, up, seen);
      AfterKeeps(t, up, seen);
      SeeTask(cfg, t, Outcome(t, up, seen), up);
    }
  }

  lemma AfterFrames(t: Task, up: bool, seen: Bytes)
    requires t.closed.None?
    ensures OwnFrames(t.After(up, seen)) == OwnFrames(t) + if t.Emits(up).Some? then [t.Emits(up).value] else []
  {
    AfterSees(t, up, seen);
    SeeAll(t, Outcome(t, up, seen));
    if t.Emits(up).Some? {
      var frame := t.Act().frame;
      assert WireFrames(SentFrames(t.hist) + [frame]) == WireFrames(SentFrames(t.hist)) + [ResponseFrameOf(frame)];
    }
  }

  /** Taking an item, or the end, from the request stream. */
  lemma ReceiveStream(u: Upload, t: Task, live: bool)
    requires StreamOk(u, t, live) && t.rxHeld && (t.inbox == [] ==> live && u.ended)
    ensures StreamOk(u, t.Receive(), live)
  {
    if t.inbox == [] {
      SeeAll(t, Got(None));
    } else {
      SeeAll(t, Got(Some(t.inbox[0])));
      assert t.inbox == [t.inbox[0]] + t.inbox[1..];
      assert Consumed(t.Receive().hist) + t.inbox[1..] == Consumed(t.hist) + t.inbox;
    }
  }

  /** Any other action leaves the stream alone, or drops its receiver. */
  lemma OtherStream(u: Upload, t: Task, live: bool, o: Obs)
    requires StreamOk(u, t, live) && !o.Got?
    ensures StreamOk(u, t.See(o), live)
    ensures StreamOk(u, t.CloseRx(), live) && StreamOk(u, t.CloseRx().See(o), live)
  {
    SeeAll(t, o);
    SeeAll(t.CloseRx(), o);
    assert Consumed(t.hist) + [] <= Consumed(t.hist) + t.inbox;
  }

  lemma AfterStream(u: Upload, t: Task, up: bool, live: bool, seen: Bytes)
    requires StreamOk(u, t, live)
    requires t.Act().Recv? && t.rxHeld && t.inbox == [] ==> live && u.ended
    ensures StreamOk(u, t.After(up, seen), live)
  {
    if t.Act().Recv? && t.rxHeld {
      ReceiveStream(u, t, live);
    } else {
      OtherStream(u, t, live, Outcome(t, up, seen));
    }
  }

  /** `t` is `s` but for one task, the funnel and the pending Dones. */
  ghost predicate TaskStep(s: State, t: State, n: ReqId) {
    && n in s.tasks && n in t.tasks && t.tasks == s.tasks[n := t.tasks[n]]
    && t.tasks[n].begin == s.tasks[n].begin && t.tasks[n].call == s.tasks[n].call
    && t.loop == s.loop && t.sessions == s.sessions && t.closers == s.closers && t.writer == s.writer
    && t.packets == s.packets && t.accepted == s.accepted
  }

  lemma TaskStepHistory(cfg: Config, s: State, t: State, n: ReqId, id: ReqId)
    requires TaskStep(s, t, n) && TaskInv(cfg, s, id) && UploadInv(s, id)
    requires TaskOk(cfg, t.tasks[n], s.writer.Up?)
    requires StreamOk(UploadOf(s.packets, n), t.tasks[n], Live(s, n))
    ensures TaskInv(cfg, t, id) && UploadInv(t, id)
  {
  }

  lemma TaskStepFrames(s: State, t: State, n: ReqId, sent: seq<ResponseFrame>, id: ReqId)
    requires TaskStep(s, t, n) && FrameInv(s, id)
    requires OwnFrames(t.tasks[n]) == OwnFrames(s.tasks[n]) + sent
    requires FramesFor(t.enqueued, id) == FramesFor(s.enqueued, id) + if id == n then sent else []
    requires n in s.closers ==> sent == []
    ensures FrameInv(t, id)
  {
  }

  lemma HandlerIsTaskStep(s: State, n: ReqId, seen: Bytes)
    requires n in s.tasks
    ensures var u := OnHandler(s, n, seen); var t := s.tasks[n]; var up := s.writer.Up?;
      && TaskStep(s, u, n) && u.tasks[n] == t.After(up, seen)
      && u.enqueued == s.enqueued + if t.Emits(up).Some? then [ResponsePacket(n, t.Emits(up).value)] else []
  {
  }

  lemma HandlerFrames(s: State, u: State, n: ReqId, seen: Bytes, id: ReqId)
    requires FrameInv(s, id) && TaskStep(s, u, n) && n !in s.closers
    requires s.tasks[n].closed.None? && u.tasks[n] == s.tasks[n].After(s.writer.Up?, seen)
    requires u.enqueued == s.enqueued
      + if s.tasks[n].Emits(s.writer.Up?).Some? then [ResponsePacket(n, s.tasks[n].Emits(s.writer.Up?).value)] else []
    ensures FrameInv(u, id)
  {
    var emitted := s.tasks[n].Emits(s.writer.Up?);
    AfterFrames(s.tasks[n], s.writer.Up?, seen);
    if emitted.Some? {
      FramesForAppend(s.enqueued, ResponsePacket(n, emitted.value), id);
    }
    assert s.enqueued + [] == s.enqueued && FramesFor(s.enqueued, id) + [] == FramesFor(s.enqueued, id);
    TaskStepFrames(s, u, n, if emitted.Some? then [emitted.value] else [], id);
  }

  lemma HandlerHistory(cfg: Config, s: State, u: State, n: ReqId, seen: Bytes, id: ReqId)
    requires HandlerReady(cfg, s, n) && SessionInv(s, n)
    requires CallHistory(cfg, s, id) && TaskInv(cfg, s, n) && UploadInv(s, n)
    requires TaskStep(s, u, n) && u.tasks[n] == s.tasks[n].After(s.writer.Up?, seen)
    requires u.enqueued == s.enqueued
      + if s.tasks[n].Emits(s.writer.Up?).Some? then [ResponsePacket(n, s.tasks[n].Emits(s.writer.Up?).value)] else []
    ensures CallHistory(cfg, u, id)
  {
    var t := s.tasks[n];
    var up := s.writer.Up?;
    AfterTask(cfg, t, up, seen);
    AfterStream(UploadOf(s.packets, n), t, up, Live(s, n), seen);
    TaskStepHistory(cfg, s, u, n, id);
    HandlerFrames(s, u, n, seen, id);
  }

  lemma ClosedTask(cfg: Config, t: Task, up: bool, u: Upload, live: bool)
    requires t.phase.Closing? && TaskOk(cfg, t, up) && StreamOk(u, t, live)
    ensures TaskOk(cfg, t.Closed(up), up) && StreamOk(u, t.Closed(up), live)
    ensures OwnFrames(t.Closed(up)) == OwnFrames(t) + if up then [CloseOf(t.phase.end)] else []
  {
    assert t.Closed(up).Act() == t.Act();
  }

  lemma OwnCloseHistory(cfg: Config, s: State, n: ReqId, id: ReqId)
    requires Ready(s, n) && s.tasks[n].phase.Closing? && n !in s.closers
    requires CallHistory(cfg, s, id) && TaskInv(cfg, s, n) && UploadInv(s, n)
    ensures CallHistory(cfg, OnOwnClose(s, n), id)
  {
    var up := s.writer.Up?;
    var u := OnOwnClose(s, n);
    ClosedTask(cfg, s.tasks[n], up, UploadOf(s.packets, n), Live(s, n));
    TaskStepHistory(cfg, s, u, n, id);
    FramesForAppend(s.enqueued, ResponsePacket(n, CloseOf(s.tasks[n].phase.end)), id);
    TaskStepFrames(s, u, n, if up then [CloseOf(s.tasks[n].phase.end)] else [], id);
  }

  lemma EndedStream(u: Upload, t: Task, ended: Task, live: bool)
    requires StreamOk(u, t, live) && ended.hist == t.hist
    requires ended.inbox == t.inbox || ended.inbox == []
    requires ended.rxHeld ==> t.rxHeld && ended.inbox == t.inbox
    ensures StreamOk(u, ended, live)
  {
    assert Consumed(t.hist) + [] <= Consumed(t.hist) + t.inbox;
  }

  /** A task that only moves to its end, without a frame. */
  lemma EndTaskHistory(cfg: Config, s: State, u: State, n: ReqId, id: ReqId)
    requires CallHistory(cfg, s, id) && TaskInv(cfg, s, n) && UploadInv(s, n)
    requires TaskStep(s, u, n) && u.enqueued == s.enqueued
    requires var t := s.tasks[n];
      || (u.tasks[n] == t.(phase := Finished) && t.phase.Reporting?)
      || (u.tasks[n] == t.CloseRx().(phase := Finished) && t.aborted)
    ensures CallHistory(cfg, u, id)
  {
    var t := s.tasks[n];
    EndedStream(UploadOf(s.packets, n), t, u.tasks[n], Live(s, n));
    assert u.tasks[n].Act() == t.Act();
    TaskStepHistory(cfg, s, u, n, id);
    TaskStepFrames(s, u, n, [], id);
  }

  lemma SameCalls(cfg: Config, s: State, t: State, id: ReqId)
    requires TaskInv(cfg, s, id) && UploadInv(s, id)
    requires t.tasks == s.tasks && t.packets == s.packets && t.sessions == s.sessions && t.loop == s.loop
    requires t.accepted == s.accepted && (t.writer.Up? ==> s.writer.Up?)
    ensures TaskInv(cfg, t, id) && UploadInv(t, id)
  {
  }

  lemma WriterHistory(cfg: Config, s: State, step: Step, id: ReqId)
    requires Enabled(cfg, s, step) && (step.Deliver? || step.WriterFails? || step.WriterEnds?)
    requires CallHistory(cfg, s, id)
    ensures CallHistory(cfg, Apply(cfg, s, step), id)
  {
    SameCalls(cfg, s, Apply(cfg, s, step), id);
  }

  lemma OtherCloseFrames(s: State, n: ReqId, id: ReqId)
    requires n in s.closers && FrameInv(s, id) && id != n
    ensures FrameInv(OnServerClose(s, n), id)
  {
    FramesForAppend(s.enqueued, ResponsePacket(n, CloseOf(EndError(s.closers[n].status))), id);
  }

  lemma ServerCloseFrames(s: State, n: ReqId, id: ReqId)
    requires n in s.closers && s.closers[n].phase.Waiting? && FrameInv(s, id)
    ensures FrameInv(OnServerClose(s, n), id)
  {
    if id != n {
      OtherCloseFrames(s, n, id);
    } else {
      var close := CloseOf(EndError(s.closers[n].status));
      FramesForAppend(s.enqueued, ResponsePacket(n, close), id);
      var own := if id in s.tasks then OwnFrames(s.tasks[id]) else [];
      assert CallFrames(s, id) == own;
      assert CallFrames(OnServerClose(s, n), id) == own + if s.writer.Up? then [close] else [];
    }
  }

  lemma ServerCloseHistory(cfg: Config, s: State, n: ReqId, id: ReqId)
    requires n in s.closers && s.closers[n].phase.Waiting? && CallHistory(cfg, s, id)
    ensures CallHistory(cfg, OnServerClose(s, n), id)
  {
    SameCalls(cfg, s, OnServerClose(s, n), id);
    ServerCloseFrames(s, n, id);
  }

  lemma LoopHistory(cfg: Config, s: State, step: Step, id: ReqId)
    requires Enabled(cfg, s, step) && CallInv(s, id) && LogInv(s) && CallHistory(cfg, s, id)
    requires step.Insert? || step.TakeDone? || step.InboundClosed? || step.WriterGone? || step.Drop?
    ensures CallHistory(cfg, Apply(cfg, s, step), id)
  {
  }

  lemma EndHistoryNext(cfg: Config, s: State, step: Step, id: ReqId)
    requires Enabled(cfg, s, step) && (step.Report? || step.Reap?)
    requires CallHistory(cfg, s, id) && CallHistory(cfg, s, step.id) && CallInv(s, step.id)
    ensures CallHistory(cfg, Apply(cfg, s, step), id)
  {
    EndTaskHistory(cfg, s, if step.Report? then OnReport(s, step.id) else OnReap(s, step.id), step.id, id);
  }

  lemma TaskHistoryNext(cfg: Config, s: State, step: Step, id: ReqId)
    requires Enabled(cfg, s, step) && (step.Handler? || step.SendOwnClose?)
    requires CallHistory(cfg, s, id) && CallHistory(cfg, s, step.id) && CallInv(s, step.id)
    ensures CallHistory(cfg, Apply(cfg, s, step), id)
  {
    match step
    case Handler(n, seen) =>
      HandlerIsTaskStep(s, n, seen);
      HandlerHistory(cfg, s, OnHandler(s, n, seen), n, seen, id);
    case SendOwnClose(n) => OwnCloseHistory(cfg, s, n, id);
  }

  lemma QuietHistory(cfg: Config, s: State, step: Step, id: ReqId)
    requires Inv(cfg, s) && Enabled(cfg, s, step) && !step.Packet?
    ensures CallHistory(cfg, Apply(cfg, s, step), id)
  {
    assert CallInv(s, id) && HistoryInv(cfg, s, id);
    if step.Handler? || step.SendOwnClose? {
      assert CallInv(s, step.id) && HistoryInv(cfg, s, step.id);
      TaskHistoryNext(cfg, s, step, id);
    } else if step.Report? || step.Reap? {
      assert CallInv(s, step.id) && HistoryInv(cfg, s, step.id);
      EndHistoryNext(cfg, s, step, id);
    } else if step.SendServerClose? {
      ServerCloseHistory(cfg, s, step.id, id);
    } else if step.Deliver? || step.WriterFails? || step.WriterEnds? {
      WriterHistory(cfg, s, step, id);
    } else {
      LoopHistory(cfg, s, step, id);
    }
  }

  lemma HistoryNext(cfg: Config, s: State, step: Step, id: ReqId)
    requires Inv(cfg, s)
    ensures HistoryInv(cfg, Next(cfg, s, step), id)
  {
    assert CallInv(s, id) && HistoryInv(cfg, s, id);
    if !step.Packet? {
      QuietRecords(cfg, s, step, id);
      if Enabled(cfg, s, step) {
        QuietHistory(cfg, s, step, id);
      }
    } else if Enabled(cfg, s, step) {
      assert CallInv(s, step.packet.id);
      PacketHistory(cfg, s, step.packet, id);
      PacketUpload(cfg, s, step.packet, id);
      PacketRoute(cfg, s, step.packet, id);
    }
  }

  ghost predicate Appends(s: State, t: State) {
    && t.writer == s.writer && t.delivered == s.delivered
    && s.funnel <= t.funnel && t.enqueued == s.enqueued + t.funnel[|s.funnel|..]
    && (!s.writer.Up? ==> t.funnel == s.funnel)
  }

  /** Senders only ever append to the funnel, and log what they append. */
  lemma Puts(cfg: Config, s: State, step: Step)
    requires Enabled(cfg, s, step) && (step.Handler? || step.SendOwnClose? || step.SendServerClose?)
    ensures Appends(s, Apply(cfg, s, step))
  {
  }

  lemma AppendsFunnel(s: State, t: State)
    requires FunnelInv(s) && Appends(s, t)
    ensures FunnelInv(t)
  {
    if s.writer.Up? {
      assert t.enqueued == s.delivered + t.funnel;
    }
  }

  ghost predicate SameFunnel(s: State, t: State) {
    t.writer == s.writer && t.funnel == s.funnel && t.enqueued == s.enqueued && t.delivered == s.delivered
  }

  lemma QuietPacket(cfg: Config, s: State, p: RequestPacket)
    ensures SameFunnel(s, OnPacket(cfg, s, p))
  {
  }

  lemma QuietSteps(cfg: Config, s: State, step: Step)
    requires Enabled(cfg, s, step)
    requires step.Packet? || step.Insert? || step.TakeDone? || step.InboundClosed? || step.WriterGone? || step.Drop?
          || step.Report? || step.Reap?
    ensures SameFunnel(s, Apply(cfg, s, step))
  {
    if step.Packet? {
      QuietPacket(cfg, s, step.packet);
    }
  }

  lemma WriterSteps(cfg: Config, s: State, step: Step)
    requires FunnelInv(s) && Enabled(cfg, s, step)
    requires step.Deliver? || step.WriterFails? || step.WriterEnds?
    ensures FunnelInv(Apply(cfg, s, step))
  {
    if step.Deliver? {
      assert s.funnel == [s.funnel[0]] + s.funnel[1..];
    }
  }

  lemma FunnelNext(cfg: Config, s: State, step: Step)
    requires FunnelInv(s)
    ensures FunnelInv(Next(cfg, s, step))
  {
    if Enabled(cfg, s, step) {
      if step.Handler? || step.SendOwnClose? || step.SendServerClose? {
        Puts(cfg, s, step);
        AppendsFunnel(s, Apply(cfg, s, step));
      } else if step.Deliver? || step.WriterFails? || step.WriterEnds? {
        WriterSteps(cfg, s, step);
      } else {
        QuietSteps(cfg, s, step);
      }
    }
  }

  lemma InvNext(cfg: Config, s: State, step: Step)
    requires Inv(cfg, s)
    ensures Inv(cfg, Next(cfg, s, step))
  {
    CoreNext(cfg, s, step);
    FunnelNext(cfg, s, step);
    forall id ensures HistoryInv(cfg, Next(cfg, s, step), id) {
      HistoryNext(cfg, s, step, id);
    }
  }

  /** Every run, however its steps interleave, keeps the whole invariant. */
  lemma {:induction false} InvAlways(cfg: Config, schedule: seq<Step>)
    ensures Inv(cfg, Run(cfg, schedule))
  {
    if schedule != [] {
      var n := |schedule| - 1;
      InvAlways(cfg, schedule[..n]);
      InvNext(cfg, Run(cfg, schedule[..n]), schedule[n]);
    }
  }
}
