/**
 * Close accounting over every run: each accepted id is in exactly one stage, the number
 * of Close frames of a call is known from its stage, and a second Close happens exactly
 * in the race between a handler's own Close and a kill.
 */
module Accounting {
  import opened Wire
  import opened Services
  import opened Protocol
  import opened Invariants
  import opened Calls

  function CloseCount(frames: seq<ResponseFrame>): nat {
    if frames == [] then 0
    else CloseCount(frames[..|frames| - 1]) + if frames[|frames| - 1].CloseFrame? then 1 else 0
  }

  lemma {:induction false} CloseCountConcat(a: seq<ResponseFrame>, b: seq<ResponseFrame>)
    ensures CloseCount(a + b) == CloseCount(a) + CloseCount(b)
  {
    if b == [] {
      assert a + b == a;
    } else {
      var n := |b| - 1;
      CloseCountConcat(a, b[..n]);
      assert (a + b)[..|a + b| - 1] == a + b[..n];
    }
  }

  lemma {:induction false} NoCloseSent(frames: seq<RawFrame>)
    ensures CloseCount(WireFrames(frames)) == 0
  {
    if frames != [] {
      var n := |frames| - 1;
      NoCloseSent(frames[..n]);
      assert WireFrames(frames)[..n] == WireFrames(frames[..n]);
    }
  }

  // ---------------------------------------------------------------------------
  // Stages
  // ---------------------------------------------------------------------------

  predicate Active(s: State, id: ReqId) {
    id in s.tasks && !s.tasks[id].aborted && (s.tasks[id].phase.Running? || s.tasks[id].phase.Closing?)
  }

  predicate ClosedByHandler(s: State, id: ReqId) {
    id in s.tasks && !s.tasks[id].aborted && s.tasks[id].closed.Some?
  }

  predicate LostWithWriter(s: State, id: ReqId) {
    && id in s.tasks && !s.tasks[id].aborted && s.tasks[id].closed.None?
    && (s.tasks[id].phase.Reporting? || s.tasks[id].phase.Finished?)
  }

  predicate Rejected(s: State, id: ReqId) {
    id in s.closers && id !in s.tasks
  }

  predicate Killed(s: State, id: ReqId) {
    id in s.closers && id in s.tasks
  }

  predicate CancelledCall(s: State, id: ReqId) {
    id in s.cancelled
  }

  predicate TornDown(s: State, id: ReqId) {
    s.loop.Dropped? && id in s.tasks && s.tasks[id].aborted && id !in s.cancelled && id !in s.closers
  }

  function Bit(b: bool): nat {
    if b then 1 else 0
  }

  /** Closes the handler's own task put into the funnel. */
  function OwnCloses(s: State, id: ReqId): nat {
    Bit(id in s.tasks && s.tasks[id].closed.Some?)
  }

  /** Closes the server put into the funnel for the call. */
  function ServerCloses(s: State, id: ReqId): nat {
    Bit(id in s.closers && s.closers[id].phase.Done?)
  }

  lemma CloseCountOne(frames: seq<ResponseFrame>)
    ensures |frames| == 0 ==> CloseCount(frames) == 0
    ensures |frames| == 1 && frames[0].CloseFrame? ==> CloseCount(frames) == 1
  {
    assert |frames| == 1 ==> frames[..0] == [];
  }

  lemma OwnCount(t: Task)
    ensures CloseCount(OwnFrames(t)) == Bit(t.closed.Some?)
  {
    var close := if t.closed.Some? then [CloseOf(t.closed.value)] else [];
    CloseCountConcat(WireFrames(SentFrames(t.hist)), close);
    NoCloseSent(SentFrames(t.hist));
    CloseCountOne(close);
  }

  lemma FramesCount(s: State, id: ReqId)
    requires FrameInv(s, id)
    ensures CloseCount(FramesFor(s.enqueued, id)) == OwnCloses(s, id) + ServerCloses(s, id)
  {
    var own := if id in s.tasks then OwnFrames(s.tasks[id]) else [];
    var server := if id in s.closers then ServerFrames(s.closers[id]) else [];
    CloseCountConcat(own, server);
    CloseCountOne(server);
    if id in s.tasks {
      OwnCount(s.tasks[id]);
    }
  }

  /** Every accepted id, in every run: one stage, and its Close count. */
  lemma CloseAccounting(cfg: Config, schedule: seq<Step>, id: ReqId)
    ensures var s := Run(cfg, schedule); var closes := CloseCount(FramesFor(s.enqueued, id));
      && (id in s.accepted ==>
            Bit(Active(s, id)) + Bit(ClosedByHandler(s, id)) + Bit(LostWithWriter(s, id)) + Bit(Rejected(s, id))
            + Bit(Killed(s, id)) + Bit(CancelledCall(s, id)) + Bit(TornDown(s, id)) == 1)
      && (id !in s.accepted ==> FramesFor(s.enqueued, id) == [])
      && (Active(s, id) || LostWithWriter(s, id) ==> closes == 0)
      && (LostWithWriter(s, id) ==> !s.writer.Up?)
      && (ClosedByHandler(s, id) ==> closes == 1)
      && (Rejected(s, id) ==> closes == ServerCloses(s, id))
      && (CancelledCall(s, id) || TornDown(s, id) ==> closes == OwnCloses(s, id))
      && (Killed(s, id) ==> closes == OwnCloses(s, id) + ServerCloses(s, id))
      && (!Killed(s, id) ==> closes <= 1)
  {
    InvAlways(cfg, schedule);
    var s := Run(cfg, schedule);
    assert CallInv(s, id) && HistoryInv(cfg, s, id);
    FramesCount(s, id);
  }

  // ---------------------------------------------------------------------------
  // Aborted tasks are frozen
  // ---------------------------------------------------------------------------

  /** An aborted handler's history and Close stay as they are, and so does what was spawned. */
  ghost predicate Frozen(s: State, t: State, id: ReqId)
    requires id in s.tasks
  {
    && id in t.tasks && t.tasks[id].aborted
    && t.tasks[id].hist == s.tasks[id].hist && t.tasks[id].closed == s.tasks[id].closed
  }

  lemma FrozenTask(cfg: Config, s: State, step: Step, id: ReqId)
    requires id in s.tasks && s.tasks[id].aborted && Enabled(cfg, s, step)
    requires step.Handler? || step.SendOwnClose? || step.Report? || step.Reap?
    ensures Frozen(s, Apply(cfg, s, step), id)
  {
  }

  lemma FrozenOther(cfg: Config, s: State, step: Step, id: ReqId)
    requires id in s.tasks && s.tasks[id].aborted && Enabled(cfg, s, step)
    requires !step.Packet? && !step.Handler? && !step.SendOwnClose? && !step.Report? && !step.Reap?
    ensures Frozen(s, Apply(cfg, s, step), id)
  {
  }

  lemma FrozenNext(cfg: Config, s: State, step: Step, id: ReqId)
    requires Core(s) && id in s.tasks && s.tasks[id].aborted
    ensures Frozen(s, Next(cfg, s, step), id)
  {
    if Enabled(cfg, s, step) {
      if step.Packet? {
        assert CallInv(s, id) && CallInv(s, step.packet.id);
        PacketEffect(cfg, s, step.packet, id);
      } else if step.Handler? || step.SendOwnClose? || step.Report? || step.Reap? {
        FrozenTask(cfg, s, step, id);
      } else {
        FrozenOther(cfg, s, step, id);
      }
    }
  }

  lemma {:induction false} FrozenRun(cfg: Config, before: seq<Step>, after: seq<Step>, id: ReqId)
    requires var s := Run(cfg, before); id in s.tasks && s.tasks[id].aborted
    ensures Frozen(Run(cfg, before), Run(cfg, before + after), id)
  {
    if after == [] {
      assert before + after == before;
    } else {
      var n := |after| - 1;
      FrozenRun(cfg, before, after[..n], id);
      assert (before + after)[..|before + after| - 1] == before + after[..n];
      CoreAlways(cfg, before + after[..n]);
      FrozenNext(cfg, Run(cfg, before + after[..n]), after[n], id);
    }
  }

  // ---------------------------------------------------------------------------
  // What a Cancel silences
  // ---------------------------------------------------------------------------

  /** Nothing is left that could put a frame of the call into the funnel. */
  ghost predicate Mute(s: State, id: ReqId) {
    || !s.writer.Up?
    || (id <= s.highest && !Live(s, id) && (id in s.closers ==> !s.closers[id].phase.Waiting?))
  }

  lemma MutePacket(cfg: Config, s: State, p: RequestPacket, id: ReqId)
    requires s.loop.Idle? && Mute(s, id)
    ensures Mute(OnPacket(cfg, s, p), id) && OnPacket(cfg, s, p).enqueued == s.enqueued
  {
    if !Breaks(s, p) && p.frame.Some? {
      match p.frame.value
      case BeginFrame(_) =>
      case MessageFrame(_) =>
      case DoneSendingFrame =>
      case CancelFrame =>
    }
  }

  lemma EnqueueOther(s: State, n: ReqId, frame: ResponseFrame, id: ReqId)
    requires s.writer.Up? ==> n != id
    ensures FramesFor(Enqueue(s, n, frame).enqueued, id) == FramesFor(s.enqueued, id)
  {
    FramesForAppend(s.enqueued, ResponsePacket(n, frame), id);
  }

  lemma MuteSender(cfg: Config, s: State, step: Step, id: ReqId)
    requires CallInv(s, id) && Mute(s, id) && Enabled(cfg, s, step)
    requires step.Handler? || step.SendOwnClose? || step.SendServerClose?
    ensures Mute(Apply(cfg, s, step), id)
    ensures FramesFor(Apply(cfg, s, step).enqueued, id) == FramesFor(s.enqueued, id)
  {
    match step
    case Handler(n, _) =>
      var emitted := s.tasks[n].Emits(s.writer.Up?);
      if emitted.Some? {
        EnqueueOther(s, n, emitted.value, id);
      }
    case SendOwnClose(n) => EnqueueOther(s, n, CloseOf(s.tasks[n].phase.end), id);
    case SendServerClose(n) => EnqueueOther(s, n, CloseOf(EndError(s.closers[n].status)), id);
  }

  lemma MuteOther(cfg: Config, s: State, step: Step, id: ReqId)
    requires Mute(s, id) && Enabled(cfg, s, step)
    requires !step.Packet? && !step.Handler? && !step.SendOwnClose? && !step.SendServerClose?
    ensures Mute(Apply(cfg, s, step), id) && Apply(cfg, s, step).enqueued == s.enqueued
  {
  }

  lemma MuteNext(cfg: Config, s: State, step: Step, id: ReqId)
    requires CallInv(s, id) && Mute(s, id)
    ensures Mute(Next(cfg, s, step), id)
    ensures FramesFor(Next(cfg, s, step).enqueued, id) == FramesFor(s.enqueued, id)
  {
    if Enabled(cfg, s, step) {
      if step.Packet? {
        MutePacket(cfg, s, step.packet, id);
      } else if step.Handler? || step.SendOwnClose? || step.SendServerClose? {
        MuteSender(cfg, s, step, id);
      } else {
        MuteOther(cfg, s, step, id);
      }
    }
  }

  lemma {:induction false} MuteRun(cfg: Config, before: seq<Step>, after: seq<Step>, id: ReqId)
    requires Mute(Run(cfg, before), id)
    ensures Mute(Run(cfg, before + after), id)
    ensures FramesFor(Run(cfg, before + after).enqueued, id) == FramesFor(Run(cfg, before).enqueued, id)
  {
    if after == [] {
      assert before + after == before;
    } else {
      var n := |after| - 1;
      MuteRun(cfg, before, after[..n], id);
      assert before + after == before + after[..n] + [after[n]];
      RunAppend(cfg, before + after[..n], after[n]);
      CoreAlways(cfg, before + after[..n]);
      MuteNext(cfg, Run(cfg, before + after[..n]), after[n], id);
    }
  }

  function CancelOf(id: ReqId): Step {
    Packet(RequestPacket(id, Some(CancelFrame)))
  }

  /**
   * A Cancel finds nothing to silence, and something is still to come: a Begin of that id,
   * or the Close of a closer that waits for the funnel.
   */
  predicate SpeaksOn(s: State, id: ReqId) {
    && s.writer.Up? && id !in s.sessions
    && (id > s.highest || (id in s.closers && s.closers[id].phase.Waiting?))
  }

  lemma CancelMutes(cfg: Config, s: State, id: ReqId)
    requires s.loop.Idle? && CallInv(s, id)
    ensures Next(cfg, s, CancelOf(id)).enqueued == s.enqueued
    ensures Mute(Next(cfg, s, CancelOf(id)), id) <==> !SpeaksOn(s, id)
    ensures SpeaksOn(s, id) ==> Next(cfg, s, CancelOf(id)) == s.(packets := s.packets + [CancelOf(id).packet])
  {
  }

  /** After a Cancel that removes a session, no frame of that call is ever enqueued again. */
  lemma CancelIsFinal(cfg: Config, before: seq<Step>, id: ReqId, after: seq<Step>)
    requires Run(cfg, before).loop.Idle? && id in Run(cfg, before).sessions
    ensures FramesFor(Run(cfg, before + [CancelOf(id)] + after).enqueued, id)
         == FramesFor(Run(cfg, before).enqueued, id)
  {
    CoreAlways(cfg, before);
    assert CallInv(Run(cfg, before), id);
    RunAppend(cfg, before, CancelOf(id));
    CancelMutes(cfg, Run(cfg, before), id);
    MuteRun(cfg, before + [CancelOf(id)], after, id);
  }

  /** The writer can always empty the funnel. */
  lemma {:induction false} Drain(cfg: Config, s: State) returns (after: seq<Step>)
    requires s.writer.Up?
    ensures Exec(cfg, s, after) == s.(funnel := [], delivered := Exec(cfg, s, after).delivered)
    decreases |s.funnel|
  {
    if s.funnel == [] {
      after := [];
    } else {
      var rest := Drain(cfg, OnDeliver(s));
      after := [Deliver] + rest;
      ExecConcat(cfg, s, [Deliver], rest);
      ExecOne(cfg, s, Deliver);
    }
  }

  const MALFORMED := Begin("", None, None)

  lemma MalformedIsRejected(cfg: Config, s: State, id: ReqId)
    requires s.loop.Idle? && id > s.highest
    ensures var t := Next(cfg, s, Packet(RequestPacket(id, Some(BeginFrame(MALFORMED)))));
      && t.enqueued == s.enqueued && t.funnel == s.funnel && t.writer == s.writer
      && id in t.closers && t.closers[id].phase.Waiting?
  {
  }

  lemma WaitingCloses(cfg: Config, s: State, id: ReqId) returns (close: ResponseFrame)
    requires cfg.cap >= 1 && s.funnel == [] && s.writer.Up? && id in s.closers && s.closers[id].phase.Waiting?
    ensures close.CloseFrame? && Next(cfg, s, SendServerClose(id)).enqueued == s.enqueued + [ResponsePacket(id, close)]
  {
    close := CloseOf(EndError(s.closers[id].status));
  }

  /** With room in the funnel, what is still to come comes, at the latest from a fresh Begin. */
  lemma LateCloseNow(cfg: Config, s: State, id: ReqId) returns (after: seq<Step>, close: ResponseFrame)
    requires cfg.cap >= 1 && s.loop.Idle? && SpeaksOn(s, id) && s.funnel == []
    ensures close.CloseFrame? && Exec(cfg, s, after).enqueued == s.enqueued + [ResponsePacket(id, close)]
  {
    if id > s.highest {
      var begin := Packet(RequestPacket(id, Some(BeginFrame(MALFORMED))));
      MalformedIsRejected(cfg, s, id);
      close := WaitingCloses(cfg, Next(cfg, s, begin), id);
      after := [begin] + [SendServerClose(id)];
      ExecConcat(cfg, s, [begin], [SendServerClose(id)]);
      ExecOne(cfg, s, begin);
      ExecOne(cfg, Next(cfg, s, begin), SendServerClose(id));
    } else {
      close := WaitingCloses(cfg, s, id);
      after := [SendServerClose(id)];
      ExecOne(cfg, s, SendServerClose(id));
    }
  }

  lemma LateClose(cfg: Config, s: State, id: ReqId) returns (after: seq<Step>, close: ResponseFrame)
    requires cfg.cap >= 1 && s.loop.Idle? && SpeaksOn(s, id)
    ensures close.CloseFrame? && Exec(cfg, s, after).enqueued == s.enqueued + [ResponsePacket(id, close)]
  {
    var drain := Drain(cfg, s);
    var rest, last := LateCloseNow(cfg, Exec(cfg, s, drain), id);
    ExecConcat(cfg, s, drain, rest);
    after, close := drain + rest, last;
  }

  /** The continuation `after` puts a Close of the call into the funnel. */
  ghost predicate ClosesIn(cfg: Config, before: seq<Step>, after: seq<Step>, id: ReqId) {
    CloseCount(FramesFor(Run(cfg, before + after).enqueued, id)) > CloseCount(FramesFor(Run(cfg, before).enqueued, id))
  }

  /** The continuation `after` puts some frame of the call into the funnel. */
  ghost predicate SpeaksIn(cfg: Config, before: seq<Step>, after: seq<Step>, id: ReqId) {
    FramesFor(Run(cfg, before + after).enqueued, id) != FramesFor(Run(cfg, before).enqueued, id)
  }

  /**
   * "No Close is sent after Cancel", exactly: some continuation of a handled Cancel sends
   * a frame of the call, or a Close of it, if and only if the Cancel found no session
   * while a Begin of that id or the Close of a waiting closer was still to come.
   */
  lemma CancelSilencesIff(cfg: Config, before: seq<Step>, id: ReqId)
    requires cfg.cap >= 1 && Run(cfg, before).loop.Idle?
    ensures (exists after :: SpeaksIn(cfg, before + [CancelOf(id)], after, id)) <==> SpeaksOn(Run(cfg, before), id)
    ensures (exists after :: ClosesIn(cfg, before + [CancelOf(id)], after, id)) <==> SpeaksOn(Run(cfg, before), id)
  {
    var s := Run(cfg, before);
    var cancelled := before + [CancelOf(id)];
    CoreAlways(cfg, before);
    assert CallInv(s, id);
    RunAppend(cfg, before, CancelOf(id));
    CancelMutes(cfg, s, id);
    if SpeaksOn(s, id) {
      var after, close := LateClose(cfg, Run(cfg, cancelled), id);
      ExecConcat(cfg, INITIAL, cancelled, after);
      FramesForAppend(s.enqueued, ResponsePacket(id, close), id);
      CloseCountConcat(FramesFor(s.enqueued, id), [close]);
      CloseCountOne([close]);
      assert ClosesIn(cfg, cancelled, after, id) && SpeaksIn(cfg, cancelled, after, id);
    } else {
      forall after ensures !SpeaksIn(cfg, cancelled, after, id) && !ClosesIn(cfg, cancelled, after, id) {
        MuteRun(cfg, cancelled, after, id);
      }
    }
  }

  const EMPTY_CONFIG := Config(map[], 1)

  /** A rejected Begin, its Cancel, and only then the Close of the rejection. */
  const LATE_CLOSE: seq<Step> := [
    Packet(RequestPacket(1, Some(BeginFrame(MALFORMED)))), CancelOf(1), SendServerClose(1)]

  /** "No Close is sent after Cancel" fails: a rejected call may get its Close afterwards. */
  lemma CloseAfterCancelHappens()
    ensures FramesFor(Run(EMPTY_CONFIG, LATE_CLOSE[..2]).enqueued, 1) == []
    ensures FramesFor(Run(EMPTY_CONFIG, LATE_CLOSE).enqueued, 1)
         == [CloseOf(EndError(Status(InvalidArgument, "malformed method name")))]
  {
    var s := Run(EMPTY_CONFIG, LATE_CLOSE[..1]);
    RunAppend(EMPTY_CONFIG, [], LATE_CLOSE[0]);
    assert [] + [LATE_CLOSE[0]] == LATE_CLOSE[..1];
    RunAppend(EMPTY_CONFIG, LATE_CLOSE[..1], LATE_CLOSE[1]);
    assert LATE_CLOSE[..1] + [LATE_CLOSE[1]] == LATE_CLOSE[..2];
    CancelMutes(EMPTY_CONFIG, s, 1);
    RunAppend(EMPTY_CONFIG, LATE_CLOSE[..2], LATE_CLOSE[2]);
    assert LATE_CLOSE[..2] + [LATE_CLOSE[2]] == LATE_CLOSE;
    FramesForAppend([], ResponsePacket(1, CloseOf(EndError(Status(InvalidArgument, "malformed method name")))), 1);
  }

  /** Cancel and the pending Done of the same call commute on everything but the bookkeeping. */
  lemma CancelCommutesWithDone(cfg: Config, s: State, id: ReqId)
    requires s.loop.Idle? && s.doneQueue != [] && s.doneQueue[0] == id
    ensures var p := RequestPacket(id, Some(CancelFrame));
            var a := OnTakeDone(OnPacket(cfg, s, p)); var b := OnPacket(cfg, OnTakeDone(s), p);
      && a.sessions == b.sessions && id !in a.sessions
      && a == b.(tasks := a.tasks, cancelled := a.cancelled)
      && (id in s.sessions && id in s.tasks ==> a.tasks == b.tasks[id := s.tasks[id].(aborted := true)])
  {
    var p := RequestPacket(id, Some(CancelFrame));
    var a := OnTakeDone(OnPacket(cfg, s, p));
    var b := OnPacket(cfg, OnTakeDone(s), p);
    assert a.sessions == b.sessions;
  }

  // ---------------------------------------------------------------------------
  // The second Close
  // ---------------------------------------------------------------------------

  predicate KillsNow(s: State, step: Step, id: ReqId) {
    && s.loop.Idle?
    && step.Packet? && step.packet.id == id && step.packet.frame.Some? && step.packet.frame.value.MessageFrame?
    && id in s.sessions && !s.sessions[id].clientTx
  }

  /** Step `k` is a message on a live session that takes none. */
  ghost predicate KillsAt(cfg: Config, schedule: seq<Step>, k: nat, id: ReqId) {
    k < |schedule| && KillsNow(Run(cfg, schedule[..k]), schedule[k], id)
  }

  lemma KillPacket(cfg: Config, s: State, p: RequestPacket, id: ReqId)
    requires s.loop.Idle? && CallInv(s, id) && CallInv(s, p.id)
    ensures Killed(OnPacket(cfg, s, p), id) <==> Killed(s, id) || KillsNow(s, Packet(p), id)
    ensures KillsNow(s, Packet(p), id) ==>
      id in s.tasks && OnPacket(cfg, s, p).tasks[id] == s.tasks[id].(aborted := true)
  {
    if !Breaks(s, p) && p.frame.Some? {
      match p.frame.value
      case BeginFrame(_) => assert p.id !in s.accepted;
      case MessageFrame(_) =>
      case DoneSendingFrame =>
      case CancelFrame =>
    }
  }

  lemma KillNext(cfg: Config, s: State, step: Step, id: ReqId)
    requires Core(s)
    ensures Killed(Next(cfg, s, step), id) <==> Killed(s, id) || KillsNow(s, step, id)
    ensures KillsNow(s, step, id) ==>
      id in s.tasks && Next(cfg, s, step).tasks[id] == s.tasks[id].(aborted := true)
  {
    assert CallInv(s, id);
    if !step.Packet? {
      QuietRecords(cfg, s, step, id);
    } else if s.loop.Idle? {
      assert CallInv(s, step.packet.id);
      KillPacket(cfg, s, step.packet, id);
    }
  }

  lemma KillsAtPrefix(cfg: Config, schedule: seq<Step>, n: nat, k: nat, id: ReqId)
    requires k < n <= |schedule|
    ensures KillsAt(cfg, schedule[..n], k, id) <==> KillsAt(cfg, schedule, k, id)
  {
    assert schedule[..n][..k] == schedule[..k];
  }

  lemma {:induction false} KilledSince(cfg: Config, schedule: seq<Step>, k: nat, id: ReqId)
    requires KillsAt(cfg, schedule, k, id)
    ensures Killed(Run(cfg, schedule), id)
  {
    var n := |schedule| - 1;
    CoreAlways(cfg, schedule[..n]);
    KillNext(cfg, Run(cfg, schedule[..n]), schedule[n], id);
    if k < n {
      KillsAtPrefix(cfg, schedule, n, k, id);
      KilledSince(cfg, schedule[..n], k, id);
    }
  }

  lemma {:induction false} KilledAtSome(cfg: Config, schedule: seq<Step>, id: ReqId) returns (k: nat)
    requires Killed(Run(cfg, schedule), id)
    ensures KillsAt(cfg, schedule, k, id)
  {
    var n := |schedule| - 1;
    CoreAlways(cfg, schedule[..n]);
    KillNext(cfg, Run(cfg, schedule[..n]), schedule[n], id);
    if KillsNow(Run(cfg, schedule[..n]), schedule[n], id) {
      k := n;
    } else {
      k := KilledAtSome(cfg, schedule[..n], id);
      KillsAtPrefix(cfg, schedule, n, k, id);
    }
  }

  /** A call is killed exactly when some message reached it in that state. */
  lemma KilledByMessage(cfg: Config, schedule: seq<Step>, id: ReqId)
    ensures Killed(Run(cfg, schedule), id) <==> exists k: nat :: KillsAt(cfg, schedule, k, id)
  {
    if Killed(Run(cfg, schedule), id) {
      var k := KilledAtSome(cfg, schedule, id);
    }
    if exists k: nat :: KillsAt(cfg, schedule, k, id) {
      var k: nat :| KillsAt(cfg, schedule, k, id);
      KilledSince(cfg, schedule, k, id);
    }
  }

  /** From the kill on, the handler's own Close is there or will never be. */
  lemma OwnClosesAtKill(cfg: Config, schedule: seq<Step>, k: nat, id: ReqId)
    requires KillsAt(cfg, schedule, k, id)
    ensures OwnCloses(Run(cfg, schedule[..k]), id) == OwnCloses(Run(cfg, schedule), id)
  {
    var before := schedule[..k];
    CoreAlways(cfg, before);
    KillNext(cfg, Run(cfg, before), schedule[k], id);
    RunAppend(cfg, before, schedule[k]);
    FrozenRun(cfg, before + [schedule[k]], schedule[k + 1..], id);
    assert before + [schedule[k]] + schedule[k + 1..] == schedule;
  }

  predicate ServerClosesNow(cfg: Config, s: State, step: Step, id: ReqId) {
    step == SendServerClose(id) && Enabled(cfg, s, step) && s.writer.Up?
  }

  /** Step `m` is the server's Close of the call going into the funnel. */
  ghost predicate ServerClosesAt(cfg: Config, schedule: seq<Step>, m: nat, id: ReqId) {
    m < |schedule| && ServerClosesNow(cfg, Run(cfg, schedule[..m]), schedule[m], id)
  }

  lemma QuietClosers(cfg: Config, s: State, step: Step)
    requires !step.SendServerClose? && (step.Packet? ==> !s.loop.Idle?)
    ensures Next(cfg, s, step).closers == s.closers
  {
  }

  lemma ServerCloseNext(cfg: Config, s: State, step: Step, id: ReqId)
    requires Core(s)
    ensures ServerCloses(Next(cfg, s, step), id) == 1 <==> ServerCloses(s, id) == 1 || ServerClosesNow(cfg, s, step, id)
  {
    assert CallInv(s, id);
    if step.Packet? && s.loop.Idle? {
      assert CallInv(s, step.packet.id);
      PacketEffect(cfg, s, step.packet, id);
    } else if !step.SendServerClose? {
      QuietClosers(cfg, s, step);
    }
  }

  lemma ServerClosesAtPrefix(cfg: Config, schedule: seq<Step>, n: nat, m: nat, id: ReqId)
    requires m < n <= |schedule|
    ensures ServerClosesAt(cfg, schedule[..n], m, id) <==> ServerClosesAt(cfg, schedule, m, id)
  {
    assert schedule[..n][..m] == schedule[..m];
  }

  lemma {:induction false} ServerClosedSince(cfg: Config, schedule: seq<Step>, m: nat, id: ReqId)
    requires ServerClosesAt(cfg, schedule, m, id)
    ensures ServerCloses(Run(cfg, schedule), id) == 1
  {
    var n := |schedule| - 1;
    CoreAlways(cfg, schedule[..n]);
    ServerCloseNext(cfg, Run(cfg, schedule[..n]), schedule[n], id);
    if m < n {
      ServerClosesAtPrefix(cfg, schedule, n, m, id);
      ServerClosedSince(cfg, schedule[..n], m, id);
    }
  }

  lemma {:induction false} ServerClosedAtSome(cfg: Config, schedule: seq<Step>, id: ReqId) returns (m: nat)
    requires ServerCloses(Run(cfg, schedule), id) == 1
    ensures ServerClosesAt(cfg, schedule, m, id)
  {
    var n := |schedule| - 1;
    CoreAlways(cfg, schedule[..n]);
    ServerCloseNext(cfg, Run(cfg, schedule[..n]), schedule[n], id);
    if ServerClosesNow(cfg, Run(cfg, schedule[..n]), schedule[n], id) {
      m := n;
    } else {
      m := ServerClosedAtSome(cfg, schedule[..n], id);
      ServerClosesAtPrefix(cfg, schedule, n, m, id);
    }
  }

  /** A killed call had no closer before the kill, so the server's Close comes after it. */
  lemma ClosesAfterKill(cfg: Config, schedule: seq<Step>, k: nat, m: nat, id: ReqId)
    requires KillsAt(cfg, schedule, k, id) && ServerClosesAt(cfg, schedule, m, id)
    ensures k < m
  {
    CoreAlways(cfg, schedule[..k]);
    assert CallInv(Run(cfg, schedule[..k]), id);
    if m < k {
      ServerClosesAtPrefix(cfg, schedule, k, m, id);
      ServerClosedSince(cfg, schedule[..k], m, id);
    }
  }

  /** A kill that finds the handler's own Close in the funnel, and later the kill's own Close. */
  ghost predicate ClosesTwice(cfg: Config, schedule: seq<Step>, k: nat, m: nat, id: ReqId) {
    && k < m && KillsAt(cfg, schedule, k, id) && ServerClosesAt(cfg, schedule, m, id)
    && CloseCount(FramesFor(Run(cfg, schedule[..k]).enqueued, id)) == 1
  }

  lemma OneCloseAtKill(cfg: Config, schedule: seq<Step>, k: nat, id: ReqId)
    requires KillsAt(cfg, schedule, k, id)
    ensures CloseCount(FramesFor(Run(cfg, schedule[..k]).enqueued, id)) == OwnCloses(Run(cfg, schedule), id)
  {
    var s := Run(cfg, schedule[..k]);
    InvAlways(cfg, schedule[..k]);
    assert CallInv(s, id) && HistoryInv(cfg, s, id);
    FramesCount(s, id);
    OwnClosesAtKill(cfg, schedule, k, id);
  }

  lemma TwoClosesMean(cfg: Config, schedule: seq<Step>, id: ReqId)
    ensures CloseCount(FramesFor(Run(cfg, schedule).enqueued, id)) == 2 <==>
      OwnCloses(Run(cfg, schedule), id) == 1 && ServerCloses(Run(cfg, schedule), id) == 1
  {
    InvAlways(cfg, schedule);
    assert HistoryInv(cfg, Run(cfg, schedule), id);
    FramesCount(Run(cfg, schedule), id);
  }

  lemma TwoClosesHappened(cfg: Config, schedule: seq<Step>, id: ReqId) returns (k: nat, m: nat)
    requires OwnCloses(Run(cfg, schedule), id) == 1 && ServerCloses(Run(cfg, schedule), id) == 1
    ensures ClosesTwice(cfg, schedule, k, m, id)
  {
    k := KilledAtSome(cfg, schedule, id);
    m := ServerClosedAtSome(cfg, schedule, id);
    OneCloseAtKill(cfg, schedule, k, id);
    ClosesAfterKill(cfg, schedule, k, m, id);
  }

  lemma TwoClosesFollow(cfg: Config, schedule: seq<Step>, k: nat, m: nat, id: ReqId)
    requires ClosesTwice(cfg, schedule, k, m, id)
    ensures OwnCloses(Run(cfg, schedule), id) == 1 && ServerCloses(Run(cfg, schedule), id) == 1
  {
    OneCloseAtKill(cfg, schedule, k, id);
    ServerClosedSince(cfg, schedule, m, id);
  }

  /**
   * A call gets two Closes exactly when a kill found the handler's own Close already in
   * the funnel, and the kill's closer later got its own in while the writer was up.
   */
  lemma SecondCloseIff(cfg: Config, schedule: seq<Step>, id: ReqId)
    ensures CloseCount(FramesFor(Run(cfg, schedule).enqueued, id)) == 2 <==>
      exists k: nat, m: nat :: ClosesTwice(cfg, schedule, k, m, id)
  {
    TwoClosesMean(cfg, schedule, id);
    if CloseCount(FramesFor(Run(cfg, schedule).enqueued, id)) == 2 {
      var k, m := TwoClosesHappened(cfg, schedule, id);
    }
    if exists k: nat, m: nat :: ClosesTwice(cfg, schedule, k, m, id) {
      var k: nat, m: nat :| ClosesTwice(cfg, schedule, k, m, id);
      TwoClosesFollow(cfg, schedule, k, m, id);
    }
  }

  function RaceService(): Service {
    Service(name => Some(MethodDescriptor(false, false)), (call, hist) => Return(EndSingle([], [], [])))
  }

  const RACE_CONFIG := Config(map["s" := RaceService()], 1)

  /** Begin, the handler's Close, a stray Message before the Done, the kill's Close. */
  const RACE: seq<Step> := [
    Packet(RequestPacket(1, Some(BeginFrame(Begin("/s/m", None, Some([])))))),
    Insert, Handler(1, []), SendOwnClose(1), Deliver,
    Packet(RequestPacket(1, Some(MessageFrame([])))), SendServerClose(1)]

  lemma RaceStep(k: nat)
    requires k < |RACE|
    ensures Run(RACE_CONFIG, RACE[..k + 1]) == Next(RACE_CONFIG, Run(RACE_CONFIG, RACE[..k]), RACE[k])
    ensures k == 0 ==> Run(RACE_CONFIG, RACE[..k]) == INITIAL
  {
    RunAppend(RACE_CONFIG, RACE[..k], RACE[k]);
    assert RACE[..k] + [RACE[k]] == RACE[..k + 1];
  }

  lemma RaceBegins()
    ensures var s := Run(RACE_CONFIG, RACE[..2]);
      s.loop.Idle? && s.sessions == map[1 := Session(false)] && s.closers == map[] && s.funnel == [] && s.writer.Up?
      && 1 in s.tasks
      && s.tasks[1] == NewTask(RACE[0].packet.frame.value.begin, RaceService(), Call("m", [], Single([]), false))
  {
    ParseMethodInverse("/s/m", "s", "m");
    RaceStep(0);
    RaceStep(1);
  }

  lemma HandlerReturns(cfg: Config, s: State, id: ReqId, end: CallEnd)
    requires Ready(s, id) && s.tasks[id].phase.Running? && s.tasks[id].Act() == Return(end)
    ensures Next(cfg, s, Handler(id, [])) == SetTask(s, id, s.tasks[id].CloseRx().(phase := Closing(end)))
  {
  }

  lemma RaceHandles()
    ensures var s := Run(RACE_CONFIG, RACE[..3]);
      s.loop.Idle? && s.sessions == map[1 := Session(false)] && s.closers == map[] && s.funnel == [] && s.writer.Up?
      && 1 in s.tasks && s.tasks[1].phase.Closing? && !s.tasks[1].aborted
  {
    RaceBegins();
    RaceStep(2);
    HandlerReturns(RACE_CONFIG, Run(RACE_CONFIG, RACE[..2]), 1, EndSingle([], [], []));
  }

  lemma RaceSends()
    ensures var s := Run(RACE_CONFIG, RACE[..4]);
      s.loop.Idle? && s.sessions == map[1 := Session(false)] && s.closers == map[] && |s.funnel| == 1 && s.writer.Up?
      && OwnCloses(s, 1) == 1
  {
    RaceHandles();
    RaceStep(3);
  }

  lemma RaceCloses()
    ensures var s := Run(RACE_CONFIG, RACE[..5]);
      s.loop.Idle? && s.sessions == map[1 := Session(false)] && s.closers == map[] && s.funnel == [] && s.writer.Up?
      && OwnCloses(s, 1) == 1
  {
    RaceSends();
    RaceStep(4);
  }

  lemma RaceKills()
    ensures var s := Run(RACE_CONFIG, RACE[..6]);
      s.funnel == [] && s.writer.Up? && 1 in s.closers && s.closers[1].phase.Waiting?
    ensures KillsAt(RACE_CONFIG, RACE, 5, 1)
  {
    RaceCloses();
    RaceStep(5);
  }

  /** "At most one Close per call" fails: the race exists even with a funnel of one slot. */
  lemma SecondCloseHappens()
    ensures CloseCount(FramesFor(Run(RACE_CONFIG, RACE).enqueued, 1)) == 2
  {
    RaceCloses();
    RaceKills();
    OneCloseAtKill(RACE_CONFIG, RACE, 5, 1);
    OwnClosesAtKill(RACE_CONFIG, RACE, 5, 1);
    assert ServerClosesAt(RACE_CONFIG, RACE, 6, 1);
    assert ClosesTwice(RACE_CONFIG, RACE, 5, 6, 1);
    SecondCloseIff(RACE_CONFIG, RACE, 1);
  }
}
