/**
 * What every interleaving of the connection keeps: identity discipline, no orphaned
 * handler and no leaked session. Invariants are stated for one call id at a time.
 */
module Invariants {
  import opened Wire
  import opened Services
  import opened Protocol

  ghost predicate Increasing(ids: seq<ReqId>) {
    forall i, j :: 0 <= i < j < |ids| ==> ids[i] < ids[j]
  }

  ghost predicate Distinct(ids: seq<ReqId>) {
    forall i, j :: 0 <= i < j < |ids| ==> ids[i] != ids[j]
  }

  /** Logs and queues: ids are accepted in increasing order, and nothing is done twice. */
  ghost predicate LogInv(s: State) {
    && Increasing(s.accepted)
    && (s.highest > 0 ==> s.highest in s.accepted)
    && Distinct(s.spawned)
    && Distinct(s.closerLog)
    && Distinct(s.doneQueue)
    && (!LoopAlive(s) ==> s.doneQueue == [])
    && (s.loop.Dropped? ==> s.sessions == map[])
  }

  /** An id is known exactly when its Begin was accepted, and gets a handler or a closer. */
  ghost predicate KnownInv(s: State, id: ReqId) {
    && (id in s.accepted <==> id in s.tasks || id in s.closers)
    && (id in s.accepted ==> 0 < id <= s.highest)
    && (id in s.spawned <==> id in s.tasks)
    && (id in s.closerLog <==> id in s.closers)
  }

  /** The id has a session, or its handler was just spawned and gets one next. */
  ghost predicate Live(s: State, id: ReqId) {
    id in s.sessions || s.loop == Inserting(id)
  }

  /** Session, handler task, abort flag, closer and pending Done of one id agree. */
  ghost predicate SessionInv(s: State, id: ReqId) {
    && !(id in s.sessions && s.loop == Inserting(id))
    && (Live(s, id) ==> id in s.tasks && !s.tasks[id].aborted)
    && (Live(s, id) && LoopAlive(s) && s.tasks[id].phase.Finished? ==> id in s.doneQueue)
    && (id in s.tasks && !s.tasks[id].aborted && !s.tasks[id].phase.Finished? ==> Live(s, id))
    && (id in s.tasks && s.tasks[id].aborted ==>
          id in s.cancelled || id in s.closers || s.loop.Dropped?)
    && (id in s.tasks && id in s.closers ==> s.tasks[id].aborted)
    && (id in s.cancelled ==> id in s.tasks && s.tasks[id].aborted && id !in s.closers)
    && (id in s.doneQueue ==> id in s.tasks && s.tasks[id].phase.Finished?)
  }

  ghost predicate CallInv(s: State, id: ReqId) {
    KnownInv(s, id) && SessionInv(s, id)
  }

  ghost predicate Core(s: State) {
    LogInv(s) && forall id :: CallInv(s, id)
  }

  // ---------------------------------------------------------------------------
  // Preservation, step by step
  // ---------------------------------------------------------------------------

  lemma AppendIncreasing(ids: seq<ReqId>, id: ReqId)
    requires Increasing(ids) && forall x :: x in ids ==> x < id
    ensures Increasing(ids + [id])
  {
    assert forall i :: 0 <= i < |ids| ==> ids[i] in ids;
  }

  lemma AppendDistinct(ids: seq<ReqId>, id: ReqId)
    requires Distinct(ids) && id !in ids
    ensures Distinct(ids + [id])
  {
    assert forall i :: 0 <= i < |ids| ==> ids[i] in ids;
  }

  lemma TailDistinct(ids: seq<ReqId>)
    requires Distinct(ids) && ids != []
    ensures Distinct(ids[1..]) && ids[0] !in ids[1..]
    ensures forall id :: id in ids <==> id == ids[0] || id in ids[1..]
  {
    assert ids == [ids[0]] + ids[1..];
  }

  lemma BeginCall(cfg: Config, s: State, n: ReqId, begin: Begin, id: ReqId)
    requires s.loop.Idle? && n > s.highest && CallInv(s, id) && CallInv(s, n) && LogInv(s)
    ensures CallInv(OnBegin(cfg, s, n, begin), id)
  {
    assert n !in s.accepted;
  }

  lemma MessageCall(s: State, n: ReqId, body: Bytes, id: ReqId)
    requires s.loop.Idle? && CallInv(s, id) && CallInv(s, n) && LogInv(s)
    ensures CallInv(OnMessage(s, n, body), id)
  {
    if n in s.sessions && s.sessions[n].clientTx {
      assert n in s.tasks;
    }
  }

  lemma CancelCall(s: State, n: ReqId, id: ReqId)
    requires s.loop.Idle? && CallInv(s, id) && CallInv(s, n) && LogInv(s)
    ensures CallInv(OnCancel(s, n), id)
  {
  }

  lemma PacketCall(cfg: Config, s: State, p: RequestPacket, id: ReqId)
    requires s.loop.Idle? && CallInv(s, id) && CallInv(s, p.id) && LogInv(s)
    ensures CallInv(OnPacket(cfg, s, p), id)
  {
    if !Breaks(s, p) && p.frame.Some? {
      var t := s.(packets := s.packets + [p]);
      assert CallInv(t, id) && CallInv(t, p.id) && LogInv(t);
      match p.frame.value
      case BeginFrame(begin) => BeginCall(cfg, t, p.id, begin, id);
      case MessageFrame(body) => MessageCall(t, p.id, body, id);
      case DoneSendingFrame =>
      case CancelFrame => CancelCall(t, p.id, id);
    }
  }

  lemma LoopCall(cfg: Config, s: State, step: Step, id: ReqId)
    requires CallInv(s, id) && LogInv(s) && Enabled(cfg, s, step)
    requires step.Insert? || step.TakeDone? || step.InboundClosed? || step.WriterGone? || step.Drop?
    ensures CallInv(Apply(cfg, s, step), id)
  {
    if step.TakeDone? {
      TailDistinct(s.doneQueue);
    }
  }

  /** A step of one handler task that keeps its abort flag, and may finish it. */
  lemma TaskCall(s: State, t: State, n: ReqId, id: ReqId)
    requires CallInv(s, id) && n in s.tasks && n in t.tasks
    requires t == s.(tasks := s.tasks[n := t.tasks[n]], doneQueue := t.doneQueue,
                     funnel := t.funnel, enqueued := t.enqueued)
    requires t.tasks[n].aborted == s.tasks[n].aborted
    requires s.tasks[n].phase.Finished? ==> t.tasks[n].phase.Finished?
    requires t.doneQueue ==
      if t.tasks[n].phase.Finished? && !s.tasks[n].aborted && LoopAlive(s) then s.doneQueue + [n] else s.doneQueue
    ensures CallInv(t, id)
  {
  }

  lemma CloserCall(s: State, n: ReqId, id: ReqId)
    requires CallInv(s, id) && n in s.closers
    ensures CallInv(OnServerClose(s, n), id)
  {
  }

  lemma TaskCallNext(cfg: Config, s: State, step: Step, id: ReqId)
    requires CallInv(s, id) && Enabled(cfg, s, step)
    requires step.Handler? || step.SendOwnClose? || step.Report? || step.Reap?
    ensures CallInv(Apply(cfg, s, step), id)
  {
    match step
    case Handler(n, seen) => TaskCall(s, OnHandler(s, n, seen), n, id);
    case SendOwnClose(n) => TaskCall(s, OnOwnClose(s, n), n, id);
    case Report(n) => TaskCall(s, OnReport(s, n), n, id);
    case Reap(n) => TaskCall(s, OnReap(s, n), n, id);
  }

  lemma CallInvNext(cfg: Config, s: State, step: Step, id: ReqId)
    requires Core(s)
    ensures CallInv(Next(cfg, s, step), id)
  {
    assert CallInv(s, id);
    if Enabled(cfg, s, step) {
      match step
      case Packet(p) =>
        assert CallInv(s, p.id);
        PacketCall(cfg, s, p, id);
      case Insert => LoopCall(cfg, s, step, id);
      case TakeDone => LoopCall(cfg, s, step, id);
      case InboundClosed => LoopCall(cfg, s, step, id);
      case WriterGone => LoopCall(cfg, s, step, id);
      case Drop => LoopCall(cfg, s, step, id);
      case Deliver =>
      case WriterFails =>
      case WriterEnds =>
      case SendServerClose(n) => CloserCall(s, n, id);
      case Handler(_, _) => TaskCallNext(cfg, s, step, id);
      case SendOwnClose(_) => TaskCallNext(cfg, s, step, id);
      case Report(_) => TaskCallNext(cfg, s, step, id);
      case Reap(_) => TaskCallNext(cfg, s, step, id);
    }
  }

  lemma PacketLog(cfg: Config, s: State, p: RequestPacket)
    requires s.loop.Idle? && CallInv(s, p.id) && LogInv(s)
    requires forall id :: id in s.accepted ==> id <= s.highest
    ensures LogInv(OnPacket(cfg, s, p))
  {
    if !Breaks(s, p) && p.frame.Some? {
      match p.frame.value
      case BeginFrame(begin) =>
        AppendIncreasing(s.accepted, p.id);
        if Route(cfg.router, begin).Reject? {
          AppendDistinct(s.closerLog, p.id);
        } else {
          AppendDistinct(s.spawned, p.id);
        }
      case MessageFrame(_) =>
        if p.id in s.sessions && !s.sessions[p.id].clientTx {
          AppendDistinct(s.closerLog, p.id);
        }
      case DoneSendingFrame =>
      case CancelFrame =>
    }
  }

  lemma LoopLog(cfg: Config, s: State, step: Step)
    requires LogInv(s) && Enabled(cfg, s, step)
    requires step.Insert? || step.TakeDone? || step.InboundClosed? || step.WriterGone? || step.Drop?
    ensures LogInv(Apply(cfg, s, step))
  {
    if step.TakeDone? {
      TailDistinct(s.doneQueue);
    }
  }

  ghost predicate SameLogs(s: State, t: State) {
    && t.loop == s.loop && t.sessions == s.sessions && t.highest == s.highest
    && t.accepted == s.accepted && t.spawned == s.spawned && t.closerLog == s.closerLog
    && t.doneQueue == s.doneQueue
  }

  lemma TaskLog(cfg: Config, s: State, step: Step)
    requires Enabled(cfg, s, step)
    requires step.Handler? || step.SendOwnClose? || step.Reap? || step.SendServerClose?
          || step.Deliver? || step.WriterFails? || step.WriterEnds?
    ensures SameLogs(s, Apply(cfg, s, step))
  {
  }

  lemma LogInvNext(cfg: Config, s: State, step: Step)
    requires Core(s)
    ensures LogInv(Next(cfg, s, step))
  {
    if Enabled(cfg, s, step) {
      match step
      case Packet(p) =>
        assert CallInv(s, p.id);
        forall id | id in s.accepted ensures id <= s.highest {
          assert CallInv(s, id);
        }
        PacketLog(cfg, s, p);
      case Insert => LoopLog(cfg, s, step);
      case TakeDone => LoopLog(cfg, s, step);
      case InboundClosed => LoopLog(cfg, s, step);
      case WriterGone => LoopLog(cfg, s, step);
      case Drop => LoopLog(cfg, s, step);
      case Report(id) =>
        assert CallInv(s, id);
        if LoopAlive(s) {
          AppendDistinct(s.doneQueue, id);
        }
      case _ => TaskLog(cfg, s, step);
    }
  }

  /** Every step keeps the core invariant. */
  lemma CoreNext(cfg: Config, s: State, step: Step)
    requires Core(s)
    ensures Core(Next(cfg, s, step))
  {
    LogInvNext(cfg, s, step);
    forall id ensures CallInv(Next(cfg, s, step), id) {
      CallInvNext(cfg, s, step, id);
    }
  }

  /** Identity discipline, no orphan and no leak, in every state of every run. */
  lemma {:induction false} CoreAlways(cfg: Config, schedule: seq<Step>)
    ensures Core(Run(cfg, schedule))
  {
    if schedule != [] {
      var n := |schedule| - 1;
      CoreAlways(cfg, schedule[..n]);
      CoreNext(cfg, Run(cfg, schedule[..n]), schedule[n]);
    }
  }
}
