/**
 * The guarantees of the pipe transport that follow from the invariants, for every
 * schedule of every connection.
 */
module Guarantees {
  import opened Wire
  import opened Metadata
  import opened Services
  import opened Protocol
  import opened Invariants
  import opened Calls
  import opened Typed
  import opened Accounting
  import opened Progress
  import opened Client

  lemma {:induction false} FramedIds(log: seq<ResponsePacket>, k: nat)
    requires k < |log|
    ensures FramesFor(log, log[k].id) != []
  {
    if k < |log| - 1 {
      FramedIds(log[..|log| - 1], k);
    }
  }

  /**
   * Accepted ids strictly increase from 1; every session, and every frame in the funnel
   * or delivered, is of an accepted id; no id ever got two handlers or two closers.
   */
  lemma IdentityDiscipline(cfg: Config, schedule: seq<Step>)
    ensures var s := Run(cfg, schedule);
      && Increasing(s.accepted) && (forall id :: id in s.accepted ==> 1 <= id <= s.highest)
      && (forall id :: id in s.sessions ==> id in s.accepted)
      && (forall p :: p in s.enqueued || p in s.funnel || p in s.delivered ==> p.id in s.accepted)
      && Distinct(s.spawned) && Distinct(s.closerLog)
      && (forall id :: id in s.accepted <==> id in s.spawned || id in s.closerLog)
  {
    InvAlways(cfg, schedule);
    var s := Run(cfg, schedule);
    forall id: ReqId ensures (id in s.accepted ==> 1 <= id <= s.highest) && (id in s.sessions ==> id in s.accepted)
                   && (id in s.accepted <==> id in s.spawned || id in s.closerLog) {
      assert CallInv(s, id);
    }
    forall p | p in s.enqueued ensures p.id in s.accepted {
      var k :| 0 <= k < |s.enqueued| && s.enqueued[k] == p;
      FramedIds(s.enqueued, k);
      assert CallInv(s, p.id) && HistoryInv(cfg, s, p.id);
    }
    assert forall p :: p in s.funnel || p in s.delivered ==> p in s.enqueued by {
      if s.writer.Up? {
        assert s.enqueued == s.delivered + s.funnel;
      }
      assert s.enqueued == s.delivered + s.enqueued[|s.delivered|..];
    }
  }

  /**
   * Between run-loop steps every live handler has its session, and every session has a
   * live handler or a pending Done, although the handler is spawned before its session;
   * after the drop no handler is live.
   */
  lemma NoOrphansNoLeaks(cfg: Config, schedule: seq<Step>, id: ReqId)
    ensures var s := Run(cfg, schedule);
      var live := id in s.tasks && !s.tasks[id].aborted && !s.tasks[id].phase.Finished?;
      && (!s.loop.Inserting? && live ==> id in s.sessions)
      && (LoopAlive(s) && id in s.sessions ==> live || id in s.doneQueue)
      && (s.loop.Dropped? ==> !live && s.sessions == map[])
  {
    CoreAlways(cfg, schedule);
    assert CallInv(Run(cfg, schedule), id);
  }

  /**
   * What a handler received and what still waits for it is, in order, what its client
   * uploaded after Begin and before DoneSending: all of it while the session lives and
   * the receiver is held, and all of it once the end of the stream was seen. The typed
   * stream is that list decoded element by element.
   */
  lemma RequestsAreFaithful(cfg: Config, schedule: seq<Step>, id: ReqId,
                            codec: Codec, typeName: string, prog: seq<TObs> -> TAction)
    requires id in Run(cfg, schedule).tasks
    ensures var s := Run(cfg, schedule); var t := s.tasks[id]; var u := UploadOf(s.packets, id);
      && Consumed(t.hist) + t.inbox <= u.bodies
      && (id in s.sessions && t.rxHeld ==> Consumed(t.hist) + t.inbox == u.bodies)
      && (Got(None) in t.hist ==> u.ended && Consumed(t.hist) == u.bodies)
      && (var items := Received(TypedHist(codec, typeName, prog, t.hist));
          |items| == |Consumed(t.hist)| <= |u.bodies| && DecodesEach(codec, typeName, u.bodies[..|items|], items))
  {
    InvAlways(cfg, schedule);
    var s := Run(cfg, schedule);
    assert HistoryInv(cfg, s, id);
    var t := s.tasks[id];
    ReceivedDecoded(codec, typeName, prog, t.hist);
    assert Consumed(t.hist) <= Consumed(t.hist) + t.inbox;
  }

  /**
   * The metadata a handler gets is what its own Begin carries: for every name, in any
   * casing, the values of its entries in order, and nothing if there is no metadata.
   */
  lemma HeadersAreFaithful(cfg: Config, schedule: seq<Step>, id: ReqId, k: string)
    requires id in Run(cfg, schedule).tasks
    ensures var s := Run(cfg, schedule); var begin := UploadOf(s.packets, id).begin;
      begin.Some? && GetAll(s.tasks[id].call.headers, k) == ValuesNamed(EntriesOf(begin.value), k)
  {
    InvAlways(cfg, schedule);
    assert HistoryInv(cfg, Run(cfg, schedule), id);
    var begin := UploadOf(Run(cfg, schedule).packets, id).begin.value;
    var service, name := RouteMalformed(cfg.router, begin);
    RouteExactly(cfg.router, begin, service, name);
  }

  /** The end of a handler on the wire: what it returned, or that it panicked. */
  ghost predicate EndsAs(a: Action, f: ResponseFrame) {
    match a
    case Return(end) =>
      && f.CloseFrame? && f.singleResponse == end.singleResponse
      && f.status == WireStatus(CodeNumber(end.status.code), end.status.message)
      && (Valid(end.trailers) ==> ReadsAs(f.trailers, end.trailers))
      && (f.singleHeaders.Some? <==> end.singleHeaders.Some?)
      && (end.singleHeaders.Some? && Valid(end.singleHeaders.value) ==>
            ReadsAs(f.singleHeaders.value, end.singleHeaders.value))
    case Panic => f == CloseFrame(WireStatus(13, "handler panicked"), [], None, None)
    case _ => false
  }

  lemma EndOnTheWire(a: Action)
    requires EndOf(a).Some?
    ensures EndsAs(a, CloseOf(EndOf(a).value))
  {
    if a.Return? {
      if Valid(a.end.trailers) {
        WireRoundTrip(a.end.trailers);
      }
      if a.end.singleHeaders.Some? && Valid(a.end.singleHeaders.value) {
        WireRoundTrip(a.end.singleHeaders.value);
      }
    }
  }

  predicate RejectedMethod(router: map<string, Service>, begin: Begin, service: string, name: string,
                           status: WireStatus) {
    if service !in router then status == WireStatus(12, "unknown service")
    else if router[service].describe(name).None? then status == WireStatus(12, "unknown method")
    else
      && !router[service].describe(name).value.clientStreaming && begin.singleRequest.None?
      && status == WireStatus(3, "missing single_request payload")
  }

  /** Why a call has no handler, and the status its client is told. */
  ghost predicate RejectedAs(router: map<string, Service>, begin: Begin, status: WireStatus) {
    if !exists s, m :: Splits(begin.methodPath, s, m) then status == WireStatus(3, "malformed method name")
    else exists s, m :: Splits(begin.methodPath, s, m) && RejectedMethod(router, begin, s, m, status)
  }

  lemma RejectionStatus(router: map<string, Service>, begin: Begin, status: Status)
    requires Route(router, begin) == Reject(status)
    ensures RejectedAs(router, begin, WireStatus(CodeNumber(status.code), status.message))
  {
    var service, name := RouteMalformed(router, begin);
    if Splits(begin.methodPath, service, name) {
      RouteExactly(router, begin, service, name);
    }
  }

  /** A frame a handler sent, as the client reads it. */
  ghost predicate SentAs(raw: RawFrame, f: ResponseFrame) {
    match raw
    case Headers(md) => f.HeadersFrame? && (Valid(md) ==> ReadsAs(f.metadata, md))
    case Message(body) => f == BodyFrame(body)
  }

  /** The frames start with what the handler sent, and then with its end if it came to that. */
  ghost predicate OwnFramesRead(t: Task, frames: seq<ResponseFrame>) {
    var sent := SentFrames(t.hist);
    && |sent| <= |frames| && (forall k :: 0 <= k < |sent| ==> SentAs(sent[k], frames[k]))
    && (t.closed.Some? ==> |sent| < |frames| && EndsAs(t.Act(), frames[|sent|]))
  }

  predicate IsKillStatus(status: WireStatus) {
    status == WireStatus(3, "unexpected request message")
  }

  /** A Close of the server: a status, and nothing else. */
  ghost predicate ServerCloseReads(s: State, router: map<string, Service>, begin: Option<Begin>, id: ReqId,
                                   f: ResponseFrame) {
    && f.CloseFrame? && f == CloseFrame(f.status, [], None, None)
    && (Killed(s, id) ==> IsKillStatus(f.status))
    && (Rejected(s, id) ==> begin.Some? && RejectedAs(router, begin.value, f.status))
  }

  lemma OwnOnTheWire(s: State, id: ReqId)
    requires FrameInv(s, id) && id in s.tasks
    requires s.tasks[id].closed.Some? ==> EndOf(s.tasks[id].Act()) == s.tasks[id].closed
    ensures OwnFramesRead(s.tasks[id], FramesFor(s.enqueued, id))
  {
    var sent := SentFrames(s.tasks[id].hist);
    var frames := FramesFor(s.enqueued, id);
    assert forall k :: 0 <= k < |sent| ==> frames[k] == ResponseFrameOf(sent[k]);
    forall k | 0 <= k < |sent| ensures SentAs(sent[k], frames[k]) {
      if sent[k].Headers? && Valid(sent[k].metadata) {
        FrameReadsBack(sent[k]);
      }
    }
    if s.tasks[id].closed.Some? {
      EndOnTheWire(s.tasks[id].Act());
    }
  }

  lemma ServerOnTheWire(cfg: Config, s: State, id: ReqId)
    requires FrameInv(s, id) && RouteInv(cfg, s, id) && id in s.closers && s.closers[id].phase.Done?
    ensures var frames := FramesFor(s.enqueued, id);
      && frames != []
      && ServerCloseReads(s, cfg.router, UploadOf(s.packets, id).begin, id, frames[|frames| - 1])
  {
    var frames := FramesFor(s.enqueued, id);
    assert frames[|frames| - 1] == StatusClose(s.closers[id].status);
    if Rejected(s, id) {
      RejectionStatus(cfg.router, UploadOf(s.packets, id).begin.value, s.closers[id].status);
    }
  }

  /**
   * Every frame tells the truth: those of a handler are what it sent and then what it
   * returned, or that it panicked; the Close of a rejected call has the reason of the
   * rejection, that of a killed one says that it got a message it did not take.
   */
  lemma ClosesAreExact(cfg: Config, schedule: seq<Step>, id: ReqId)
    ensures var s := Run(cfg, schedule); var begin := UploadOf(s.packets, id).begin;
      && (id in s.tasks ==> OwnFramesRead(s.tasks[id], FramesFor(s.enqueued, id)))
      && (id in s.closers && s.closers[id].phase.Done? ==>
            && FramesFor(s.enqueued, id) != []
            && ServerCloseReads(s, cfg.router, begin, id, FramesFor(s.enqueued, id)[|FramesFor(s.enqueued, id)| - 1]))
  {
    InvAlways(cfg, schedule);
    var s := Run(cfg, schedule);
    assert HistoryInv(cfg, s, id);
    if id in s.tasks {
      OwnOnTheWire(s, id);
    }
    if id in s.closers && s.closers[id].phase.Done? {
      ServerOnTheWire(cfg, s, id);
    }
  }

  /**
   * The frames of a call are what its own handler sent, then that handler's end, then at
   * most one Close of the server. The handler is the one its own Begin is routed to, and
   * its actions are those of its program on what it saw; the server's Close carries the
   * status its Begin was rejected with, or that of a kill. The outbound sink gets a prefix
   * of the frames, all of them once the writer has ended.
   */
  lemma FramesAreExact(cfg: Config, schedule: seq<Step>, id: ReqId)
    ensures var s := Run(cfg, schedule); var begin := UploadOf(s.packets, id).begin;
      && FramesFor(s.enqueued, id) ==
           (if id in s.tasks then
              WireFrames(SentFrames(s.tasks[id].hist))
              + (if s.tasks[id].closed.Some? then [CloseOf(s.tasks[id].closed.value)] else [])
            else [])
           + (if id in s.closers && s.closers[id].phase.Done? then [CloseOf(EndError(s.closers[id].status))] else [])
      && (id in s.tasks ==>
            && begin.Some? && Route(cfg.router, begin.value) == Start(s.tasks[id].service, s.tasks[id].call)
            && Follows(s.tasks[id].service, s.tasks[id].call, s.tasks[id].hist)
            && (s.tasks[id].closed.Some? ==> EndOf(s.tasks[id].Act()) == s.tasks[id].closed))
      && (Rejected(s, id) ==> begin.Some? && Route(cfg.router, begin.value) == Reject(s.closers[id].status))
      && (Killed(s, id) ==> s.closers[id].status == UNEXPECTED_MESSAGE)
      && s.delivered <= s.enqueued
      && (s.writer.Up? ==> s.delivered + s.funnel == s.enqueued)
      && (s.writer.Ended? ==> s.delivered == s.enqueued)
  {
    InvAlways(cfg, schedule);
    assert HistoryInv(cfg, Run(cfg, schedule), id);
  }

  lemma OwnStepTakesNothing(cfg: Config, before: seq<Step>, step: Step)
    requires OwnStep(step)
    ensures Taken(cfg, before + [step]) == Taken(cfg, before)
  {
    assert (before + [step])[..|before|] == before;
    TakenNext(cfg, before + [step]);
  }

  lemma SplitLast(before: seq<Step>, after: seq<Step>)
    requires after != []
    ensures before + after == before + after[..|after| - 1] + [after[|after| - 1]]
  {
  }

  lemma {:induction false} DrivesTakeNothing(cfg: Config, before: seq<Step>, after: seq<Step>)
    requires forall k :: 0 <= k < |after| ==> OwnStep(after[k])
    ensures Taken(cfg, before + after) == Taken(cfg, before)
  {
    if after == [] {
      assert before + after == before;
    } else {
      var n := |after| - 1;
      DrivesTakeNothing(cfg, before, after[..n]);
      OwnStepTakesNothing(cfg, before + after[..n], after[n]);
      SplitLast(before, after);
    }
  }

  lemma {:induction false} DrivesAreInternal(cfg: Config, s: State, schedule: seq<Step>)
    requires Drives(cfg, s, schedule)
    ensures forall k :: 0 <= k < |schedule| ==> OwnStep(schedule[k])
    decreases |schedule|
  {
    if schedule != [] {
      DrivesAreInternal(cfg, Next(cfg, s, schedule[0]), schedule[1..]);
      assert forall k :: 0 < k < |schedule| ==> schedule[k] == schedule[1..][k - 1];
    }
  }

  /** The server's own steps take no packet, and keep loop and writer. */
  lemma StillTaken(cfg: Config, before: seq<Step>, after: seq<Step>)
    requires Documented(cfg, Taken(cfg, before)) && Drives(cfg, Run(cfg, before), after)
    requires LoopAlive(Run(cfg, before)) && Run(cfg, before).writer.Up?
    ensures ClientSeen(cfg, Run(cfg, before + after), Taken(cfg, before))
    ensures LoopAlive(Run(cfg, before + after)) && Run(cfg, before + after).writer.Up?
  {
    ExecConcat(cfg, INITIAL, before, after);
    DriveKeeps(cfg, Run(cfg, before), after);
    DrivesAreInternal(cfg, Run(cfg, before), after);
    DrivesTakeNothing(cfg, before, after);
    DocumentedSoFar(cfg, before + after);
  }

  /** A call whose request is complete waits for nothing. */
  lemma NothingOwed(s: State, id: ReqId, c: ClientCall)
    requires ClientAt(s, id, c) && UploadInv(s, id) && !s.loop.Inserting?
    requires c.SingleSent? || c.HalfClosed?
    ensures !WaitsForInput(s, id) && id in s.accepted && id !in s.cancelled
  {
  }

  /** What the server owes a client that stands at `c`, once nothing moves. */
  ghost predicate Answered(t: State, id: ReqId, c: ClientCall) {
    var closes := CloseCount(FramesFor(t.delivered, id));
    && (c.Unopened? ==> FramesFor(t.delivered, id) == [])
    && (c.SingleSent? || c.HalfClosed? ==> closes == 1 && id !in t.sessions)
    && (c.Sending? ==> WaitsForInput(t, id) || (closes == 1 && id !in t.sessions))
    && (c.GaveUp? ==> closes <= 1 && id !in t.sessions)
  }

  lemma SettledAnswers(t: State, id: ReqId, c: ClientCall)
    requires Settled(t, id) && ClientAt(t, id, c) && UploadInv(t, id) && FrameInv(t, id) && KnownInv(t, id)
    requires !t.loop.Inserting? && !c.Misused?
    ensures Answered(t, id, c)
  {
    FramesCount(t, id);
    if c.SingleSent? || c.HalfClosed? {
      NothingOwed(t, id, c);
    }
  }

  lemma StuckAnswers(cfg: Config, t: State, packets: seq<RequestPacket>, id: ReqId)
    requires cfg.cap >= 1 && Inv(cfg, t) && Stuck(cfg, t) && t.writer.Up? && LoopAlive(t)
    requires ClientSeen(cfg, t, packets) && Documented(cfg, packets)
    ensures Answered(t, id, ClientCallOf(cfg, packets, id))
  {
    StuckSettles(cfg, t, id);
    StuckChannels(cfg, t);
    assert CallInv(t, id) && HistoryInv(cfg, t, id) && ClientInv(cfg, t, id);
    SettledAnswers(t, id, ClientCallOf(cfg, packets, id));
  }

  /**
   * The normal path of the protocol, whole: a documented client that leaves the pipe idle
   * but open, against finite handlers and a working outbound, sees every schedule run out
   * with exactly one Close delivered for each call whose request it completed.
   */
  lemma DocumentedCallsComplete(cfg: Config, before: seq<Step>, after: seq<Step>, fuel: map<ReqId, nat>, id: ReqId)
    requires cfg.cap >= 1 && Documented(cfg, Taken(cfg, before))
    requires LoopAlive(Run(cfg, before)) && Run(cfg, before).writer.Up? && Fueled(Run(cfg, before), fuel)
    requires Drives(cfg, Run(cfg, before), after)
    ensures |after| <= Measure(Run(cfg, before), fuel)
    ensures Stuck(cfg, Run(cfg, before + after)) ==>
      Answered(Run(cfg, before + after), id, ClientCallOf(cfg, Taken(cfg, before), id))
  {
    InvAlways(cfg, before);
    Completion(cfg, Run(cfg, before), after, fuel, id);
    StillTaken(cfg, before, after);
    InvAlways(cfg, before + after);
    if Stuck(cfg, Run(cfg, before + after)) {
      StuckAnswers(cfg, Run(cfg, before + after), Taken(cfg, before), id);
    }
  }

  lemma DoneAndClosed(cfg: Config, t: State, id: ReqId)
    requires Core(t) && TaskInv(cfg, t, id) && t.writer.Up? && LoopAlive(t) && id in t.tasks
    requires t.tasks[id].phase.Finished? && id !in t.cancelled && !Killed(t, id)
    ensures t.tasks[id].closed.Some? && !t.tasks[id].aborted
  {
    assert CallInv(t, id);
  }

  /** Once nothing moves, the handler of a complete request has run to its own Close. */
  lemma CompleteRequestsRunOut(cfg: Config, t: State, id: ReqId, c: ClientCall, service: Service, call: Call)
    requires cfg.cap >= 1 && Inv(cfg, t) && Stuck(cfg, t) && t.writer.Up? && LoopAlive(t)
    requires ClientAt(t, id, c) && (c.SingleSent? || c.HalfClosed?)
    requires UploadOf(t.packets, id).begin.Some?
    requires Route(cfg.router, UploadOf(t.packets, id).begin.value) == Start(service, call)
    ensures id in t.tasks && t.tasks[id].service == service && t.tasks[id].call == call
    ensures t.tasks[id].closed.Some? && !t.tasks[id].aborted
    ensures t.delivered == t.enqueued
  {
    StuckSettles(cfg, t, id);
    StuckChannels(cfg, t);
    DeadlockFree(cfg, t, id);
    assert CallInv(t, id) && HistoryInv(cfg, t, id);
    NothingOwed(t, id, c);
    DoneAndClosed(cfg, t, id);
  }
}
