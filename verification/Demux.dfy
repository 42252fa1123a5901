/**
 * Demultiplexing is non-interfering: seen from one call, any run of a connection is a run
 * of a connection that serves that call alone, under the schedule projected to it.
 */
module Demux {
  import opened Wire
  import opened Services
  import opened Protocol
  import opened Invariants

  function Only<T>(m: map<ReqId, T>, i: ReqId): map<ReqId, T> {
    map x | x in m && x == i :: m[x]
  }

  function KeepIds(ids: seq<ReqId>, i: ReqId): seq<ReqId> {
    if ids == [] then []
    else KeepIds(ids[..|ids| - 1], i) + if ids[|ids| - 1] == i then [i] else []
  }

  function KeepResponses(log: seq<ResponsePacket>, i: ReqId): seq<ResponsePacket> {
    if log == [] then []
    else KeepResponses(log[..|log| - 1], i) + if log[|log| - 1].id == i then [log[|log| - 1]] else []
  }

  function KeepRequests(log: seq<RequestPacket>, i: ReqId): seq<RequestPacket> {
    if log == [] then []
    else KeepRequests(log[..|log| - 1], i) + if log[|log| - 1].id == i then [log[|log| - 1]] else []
  }

  /** What is left of the connection when only call `i` is looked at. */
  function Restrict(s: State, i: ReqId): State {
    State(
      if s.loop.Inserting? && s.loop.id != i then Idle else s.loop,
      Only(s.sessions, i),
      if i in s.accepted then i else 0,
      Only(s.tasks, i),
      Only(s.closers, i),
      KeepResponses(s.funnel, i),
      KeepIds(s.doneQueue, i),
      s.writer,
      KeepRequests(s.packets, i),
      KeepIds(s.accepted, i),
      KeepIds(s.spawned, i),
      KeepIds(s.closerLog, i),
      s.cancelled * {i},
      KeepResponses(s.enqueued, i),
      KeepResponses(s.delivered, i))
  }

  /**
   * What a step of the shared connection is for call `i`: its own steps stay, steps of
   * other calls vanish, and a protocol violation is the inbound stream ending.
   */
  function Project(cfg: Config, s: State, step: Step, i: ReqId): seq<Step> {
    if !Enabled(cfg, s, step) then []
    else match step
      case Packet(p) => if Breaks(s, p) then [InboundClosed] else if p.id == i then [step] else []
      case Insert => if s.loop.id == i then [step] else []
      case TakeDone => if s.doneQueue[0] == i then [step] else []
      case Deliver => if s.funnel[0].id == i then [step] else []
      case Handler(id, _) => if id == i then [step] else []
      case SendOwnClose(id) => if id == i then [step] else []
      case Report(id) => if id == i then [step] else []
      case Reap(id) => if id == i then [step] else []
      case SendServerClose(id) => if id == i then [step] else []
      case _ => [step]
  }

  function ProjectRun(cfg: Config, schedule: seq<Step>, i: ReqId): seq<Step> {
    if schedule == [] then []
    else
      var n := |schedule| - 1;
      ProjectRun(cfg, schedule[..n], i) + Project(cfg, Run(cfg, schedule[..n]), schedule[n], i)
  }

  // ---------------------------------------------------------------------------
  // Restriction and the pieces of state
  // ---------------------------------------------------------------------------

  lemma KeepIdsAppend(ids: seq<ReqId>, id: ReqId, i: ReqId)
    ensures KeepIds(ids + [id], i) == KeepIds(ids, i) + if id == i then [i] else []
  {
    assert (ids + [id])[..|ids|] == ids;
  }

  lemma {:induction false} KeepIdsHead(ids: seq<ReqId>, i: ReqId)
    requires ids != []
    ensures KeepIds(ids, i) == (if ids[0] == i then [i] else []) + KeepIds(ids[1..], i)
  {
    if |ids| > 1 {
      var n := |ids| - 1;
      KeepIdsHead(ids[..n], i);
      assert ids[..n][1..] == ids[1..][..n - 1];
    }
  }

  lemma KeepResponsesAppend(log: seq<ResponsePacket>, p: ResponsePacket, i: ReqId)
    ensures KeepResponses(log + [p], i) == KeepResponses(log, i) + if p.id == i then [p] else []
  {
    assert (log + [p])[..|log|] == log;
  }

  lemma {:induction false} KeepResponsesHead(log: seq<ResponsePacket>, i: ReqId)
    requires log != []
    ensures KeepResponses(log, i) == (if log[0].id == i then [log[0]] else []) + KeepResponses(log[1..], i)
  {
    if |log| > 1 {
      var n := |log| - 1;
      KeepResponsesHead(log[..n], i);
      assert log[..n][1..] == log[1..][..n - 1];
    }
  }

  lemma {:induction false} KeepShorter(log: seq<ResponsePacket>, ids: seq<ReqId>, i: ReqId)
    ensures |KeepResponses(log, i)| <= |log|
    ensures |KeepIds(ids, i)| <= |ids|
    decreases |log| + |ids|
  {
    if log != [] {
      KeepShorter(log[..|log| - 1], ids, i);
    } else if ids != [] {
      KeepShorter(log, ids[..|ids| - 1], i);
    }
  }

  lemma KeepRequestsAppend(log: seq<RequestPacket>, p: RequestPacket, i: ReqId)
    ensures KeepRequests(log + [p], i) == KeepRequests(log, i) + if p.id == i then [p] else []
  {
    assert (log + [p])[..|log|] == log;
  }

  lemma OnlyUpdate<T>(m: map<ReqId, T>, k: ReqId, v: T, i: ReqId)
    ensures Only(m[k := v], i) == if k == i then Only(m, i)[i := v] else Only(m, i)
    ensures Only(Without(m, k), i) == if k == i then map[] else Only(m, i)
    ensures Without(Only(m, i), i) == map[]
  {
  }

  lemma RestrictEnqueue(s: State, n: ReqId, frame: ResponseFrame, i: ReqId)
    ensures Restrict(Enqueue(s, n, frame), i)
         == if n == i then Enqueue(Restrict(s, i), n, frame) else Restrict(s, i)
  {
    KeepResponsesAppend(s.funnel, ResponsePacket(n, frame), i);
    KeepResponsesAppend(s.enqueued, ResponsePacket(n, frame), i);
  }

  lemma RestrictSetTask(s: State, n: ReqId, t: Task, i: ReqId)
    ensures Restrict(SetTask(s, n, t), i)
         == if n == i then SetTask(Restrict(s, i), n, t) else Restrict(s, i)
  {
    OnlyUpdate(s.tasks, n, t, i);
  }

  lemma RestrictSetCloser(s: State, n: ReqId, c: Closer, i: ReqId)
    ensures Restrict(SetCloser(s, n, c), i)
         == if n == i then SetCloser(Restrict(s, i), n, c) else Restrict(s, i)
  {
    OnlyUpdate(s.closers, n, c, i);
  }

  lemma RestrictSpawnCloser(s: State, n: ReqId, status: Status, i: ReqId)
    ensures Restrict(SpawnCloser(s, n, status), i)
         == if n == i then SpawnCloser(Restrict(s, i), n, status) else Restrict(s, i)
  {
    OnlyUpdate(s.closers, n, Closer(status, Waiting), i);
    KeepIdsAppend(s.closerLog, n, i);
  }

  // ---------------------------------------------------------------------------
  // One step
  // ---------------------------------------------------------------------------

  lemma RestrictRemove(s: State, n: ReqId, i: ReqId)
    ensures var t := s.(sessions := Without(s.sessions, n), tasks := Abort(s.tasks, n));
            var r := Restrict(s, i);
      Restrict(t, i) == if n == i then r.(sessions := Without(r.sessions, i), tasks := Abort(r.tasks, i)) else r
  {
    var t := s.(sessions := Without(s.sessions, n), tasks := Abort(s.tasks, n));
    var r := Restrict(s, i);
    OnlyUpdate(s.sessions, n, Session(false), i);
    if n in s.tasks {
      OnlyUpdate(s.tasks, n, s.tasks[n].(aborted := true), i);
    }
    if n == i {
      assert Without(r.sessions, i) == map[];
    }
  }

  lemma RestrictAccept(s: State, n: ReqId, i: ReqId)
    requires n > s.highest && KnownInv(s, i)
    ensures var t := s.(highest := n, accepted := s.accepted + [n]); var r := Restrict(s, i);
      && (n == i ==> n > r.highest)
      && Restrict(t, i) == if n == i then r.(highest := n, accepted := r.accepted + [n]) else r
  {
    KeepIdsAppend(s.accepted, n, i);
  }

  lemma RestrictStart(s: State, n: ReqId, t: Task, i: ReqId)
    requires s.loop.Idle?
    ensures var u := s.(tasks := s.tasks[n := t], spawned := s.spawned + [n], loop := Inserting(n));
            var r := Restrict(s, i);
      Restrict(u, i) ==
        if n == i then r.(tasks := r.tasks[n := t], spawned := r.spawned + [n], loop := Inserting(n)) else r
  {
    OnlyUpdate(s.tasks, n, t, i);
    KeepIdsAppend(s.spawned, n, i);
  }

  lemma RestrictBegin(cfg: Config, s: State, n: ReqId, begin: Begin, i: ReqId)
    requires s.loop.Idle? && n > s.highest && KnownInv(s, i)
    ensures var r := Restrict(s, i);
      && (n == i ==> r.loop.Idle? && n > r.highest)
      && (n == i ==> Restrict(OnBegin(cfg, s, n, begin), i) == OnBegin(cfg, r, n, begin))
      && (n != i ==> Restrict(OnBegin(cfg, s, n, begin), i) == r)
  {
    RestrictAccept(s, n, i);
    var t := s.(highest := n, accepted := s.accepted + [n]);
    match Route(cfg.router, begin)
    case Reject(status) => RestrictSpawnCloser(t, n, status, i);
    case Start(service, call) => RestrictStart(t, n, NewTask(begin, service, call), i);
  }

  lemma RestrictMessage(s: State, n: ReqId, body: Bytes, i: ReqId)
    ensures var r := Restrict(s, i);
      Restrict(OnMessage(s, n, body), i) == if n == i then OnMessage(r, n, body) else r
  {
    if n in s.sessions {
      if !s.sessions[n].clientTx {
        RestrictRemove(s, n, i);
        var t := s.(sessions := Without(s.sessions, n), tasks := Abort(s.tasks, n));
        RestrictSpawnCloser(t, n, UNEXPECTED_MESSAGE, i);
      } else if n in s.tasks {
        RestrictSetTask(s, n, s.tasks[n].Feed(body), i);
      }
    }
  }

  lemma RestrictClose(s: State, n: ReqId, i: ReqId)
    ensures var r := Restrict(s, i);
      && Restrict(OnDoneSending(s, n), i) == (if n == i then OnDoneSending(r, n) else r)
      && Restrict(OnCancel(s, n), i) == (if n == i then OnCancel(r, n) else r)
  {
    OnlyUpdate(s.sessions, n, Session(false), i);
    RestrictRemove(s, n, i);
  }

  lemma RestrictLogged(s: State, p: RequestPacket, i: ReqId)
    ensures var r := Restrict(s, i);
      Restrict(s.(packets := s.packets + [p]), i) == if p.id == i then r.(packets := r.packets + [p]) else r
  {
    KeepRequestsAppend(s.packets, p, i);
  }

  lemma RestrictFrame(cfg: Config, s: State, p: RequestPacket, i: ReqId)
    requires s.loop.Idle? && KnownInv(s, i) && !Breaks(s, p)
    ensures var r := Restrict(s, i);
      Restrict(OnFrame(cfg, s, p), i) == if p.id == i then OnFrame(cfg, r, p) else r
  {
    if p.frame.Some? {
      match p.frame.value
      case BeginFrame(begin) => RestrictBegin(cfg, s, p.id, begin, i);
      case MessageFrame(body) => RestrictMessage(s, p.id, body, i);
      case DoneSendingFrame => RestrictClose(s, p.id, i);
      case CancelFrame => RestrictClose(s, p.id, i);
    }
  }

  lemma RestrictPacket(cfg: Config, s: State, p: RequestPacket, i: ReqId)
    requires s.loop.Idle? && KnownInv(s, i) && !Breaks(s, p)
    ensures var r := Restrict(s, i);
      && (p.id == i ==> !Breaks(r, p) && Restrict(OnPacket(cfg, s, p), i) == OnPacket(cfg, r, p))
      && (p.id != i ==> Restrict(OnPacket(cfg, s, p), i) == r)
  {
    RestrictLogged(s, p, i);
    RestrictFrame(cfg, s.(packets := s.packets + [p]), p, i);
  }

  lemma RestrictInsert(s: State, i: ReqId)
    requires s.loop.Inserting? && s.loop.id in s.tasks
    ensures Restrict(OnInsert(s), i) == if s.loop.id == i then OnInsert(Restrict(s, i)) else Restrict(s, i)
  {
    OnlyUpdate(s.sessions, s.loop.id, Session(s.tasks[s.loop.id].call.payload.Streaming?), i);
  }

  lemma RestrictTakeDone(s: State, i: ReqId)
    requires s.loop.Idle? && s.doneQueue != []
    ensures var r := Restrict(s, i);
      && (s.doneQueue[0] == i ==> r.doneQueue != [] && Restrict(OnTakeDone(s), i) == OnTakeDone(r))
      && (s.doneQueue[0] != i ==> Restrict(OnTakeDone(s), i) == r)
  {
    KeepIdsHead(s.doneQueue, i);
    OnlyUpdate(s.sessions, s.doneQueue[0], Session(false), i);
    if s.doneQueue[0] == i {
      var r := Restrict(s, i);
      assert r.doneQueue[1..] == KeepIds(s.doneQueue[1..], i);
      assert Without(r.sessions, i) == map[];
    }
  }

  lemma RestrictHalt(s: State, i: ReqId)
    ensures Restrict(Halt(s), i) == Halt(Restrict(s, i))
  {
  }

  lemma RestrictDrop(s: State, i: ReqId)
    ensures Restrict(OnDrop(s), i) == OnDrop(Restrict(s, i))
  {
    assert Restrict(OnDrop(s), i).tasks == OnDrop(Restrict(s, i)).tasks;
    assert Only(OnDrop(s).sessions, i) == map[];
  }

  lemma RestrictHandler(cfg: Config, s: State, n: ReqId, seen: Bytes, i: ReqId)
    requires HandlerReady(cfg, s, n)
    ensures n == i ==> HandlerReady(cfg, Restrict(s, i), n)
    ensures var r := Restrict(s, i); Restrict(OnHandler(s, n, seen), i) == if n == i then OnHandler(r, n, seen) else r
  {
    KeepShorter(s.funnel, [], i);
    var t := s.tasks[n];
    var emitted := t.Emits(s.writer.Up?);
    if emitted.Some? {
      RestrictEnqueue(s, n, emitted.value, i);
      RestrictSetTask(Enqueue(s, n, emitted.value), n, t.After(s.writer.Up?, seen), i);
    } else {
      RestrictSetTask(s, n, t.After(s.writer.Up?, seen), i);
    }
  }

  lemma RestrictOwnClose(cfg: Config, s: State, n: ReqId, i: ReqId)
    requires Enabled(cfg, s, SendOwnClose(n))
    ensures var r := Restrict(s, i);
      && (n == i ==> Enabled(cfg, r, SendOwnClose(n)) && Restrict(OnOwnClose(s, n), i) == OnOwnClose(r, n))
      && (n != i ==> Restrict(OnOwnClose(s, n), i) == r)
  {
    KeepShorter(s.funnel, [], i);
    var frame := CloseOf(s.tasks[n].phase.end);
    RestrictEnqueue(s, n, frame, i);
    RestrictSetTask(Enqueue(s, n, frame), n, s.tasks[n].Closed(s.writer.Up?), i);
  }

  lemma RestrictReport(cfg: Config, s: State, n: ReqId, i: ReqId)
    requires Enabled(cfg, s, Report(n))
    ensures var r := Restrict(s, i);
      && (n == i ==> Enabled(cfg, r, Report(n)) && Restrict(OnReport(s, n), i) == OnReport(r, n))
      && (n != i ==> Restrict(OnReport(s, n), i) == r)
  {
    KeepShorter([], s.doneQueue, i);
    var t := s.(doneQueue := s.doneQueue + [n]);
    KeepIdsAppend(s.doneQueue, n, i);
    var task := s.tasks[n].(phase := Finished);
    RestrictSetTask(if LoopAlive(s) then t else s, n, task, i);
  }

  lemma RestrictServerClose(cfg: Config, s: State, n: ReqId, i: ReqId)
    requires Enabled(cfg, s, SendServerClose(n))
    ensures var r := Restrict(s, i);
      && (n == i ==> Enabled(cfg, r, SendServerClose(n)) && Restrict(OnServerClose(s, n), i) == OnServerClose(r, n))
      && (n != i ==> Restrict(OnServerClose(s, n), i) == r)
  {
    KeepShorter(s.funnel, [], i);
    var c := s.closers[n];
    RestrictEnqueue(s, n, CloseOf(EndError(c.status)), i);
    var t := Enqueue(s, n, CloseOf(EndError(c.status)));
    RestrictSetCloser(t, n, c.(phase := if s.writer.Up? then Done else Lost), i);
  }

  lemma KeepResponsesTail(log: seq<ResponsePacket>, i: ReqId)
    requires log != []
    ensures var kept := KeepResponses(log, i);
      && (log[0].id == i ==> kept != [] && kept[0] == log[0] && KeepResponses(log[1..], i) == kept[1..])
      && (log[0].id != i ==> KeepResponses(log[1..], i) == kept)
  {
    KeepResponsesHead(log, i);
    if log[0].id == i {
      assert ([log[0]] + KeepResponses(log[1..], i))[1..] == KeepResponses(log[1..], i);
    }
  }

  lemma RestrictDeliver(s: State, i: ReqId)
    requires s.funnel != []
    ensures var r := Restrict(s, i);
      && (s.funnel[0].id == i ==> r.funnel != [] && Restrict(OnDeliver(s), i) == OnDeliver(r))
      && (s.funnel[0].id != i ==> Restrict(OnDeliver(s), i) == r)
  {
    KeepResponsesTail(s.funnel, i);
    KeepResponsesAppend(s.delivered, s.funnel[0], i);
    assert KeepResponses(s.delivered, i) + [] == KeepResponses(s.delivered, i);
  }

  lemma RestrictTask(cfg: Config, s: State, step: Step, i: ReqId)
    requires Enabled(cfg, s, step)
    requires step.Handler? || step.SendOwnClose? || step.Report? || step.Reap? || step.SendServerClose?
    ensures var r := Restrict(s, i);
      Restrict(Apply(cfg, s, step), i) == if step.id == i then Next(cfg, r, step) else r
  {
    match step
    case Handler(n, seen) => RestrictHandler(cfg, s, n, seen, i);
    case SendOwnClose(n) => RestrictOwnClose(cfg, s, n, i);
    case Report(n) => RestrictReport(cfg, s, n, i);
    case Reap(n) => RestrictSetTask(s, n, s.tasks[n].CloseRx().(phase := Finished), i);
    case SendServerClose(n) => RestrictServerClose(cfg, s, n, i);
  }

  lemma RestrictWriter(cfg: Config, s: State, step: Step, i: ReqId)
    requires Enabled(cfg, s, step) && (step.Deliver? || step.WriterFails? || step.WriterEnds?)
    ensures var r := Restrict(s, i); var own := Project(cfg, s, step, i);
      Restrict(Apply(cfg, s, step), i) == if own == [] then r else Next(cfg, r, own[0])
  {
    if step.Deliver? {
      RestrictDeliver(s, i);
    }
  }

  lemma RestrictLoop(cfg: Config, s: State, step: Step, i: ReqId)
    requires Enabled(cfg, s, step)
    requires step.Insert? || step.TakeDone? || step.InboundClosed? || step.WriterGone? || step.Drop?
    ensures var r := Restrict(s, i); var own := Project(cfg, s, step, i);
      Restrict(Apply(cfg, s, step), i) == if own == [] then r else Next(cfg, r, own[0])
  {
    match step
    case Insert => RestrictInsert(s, i);
    case TakeDone => RestrictTakeDone(s, i);
    case Drop => RestrictDrop(s, i);
    case InboundClosed => RestrictHalt(s, i);
    case WriterGone => RestrictHalt(s, i);
  }

  lemma ExecOwn(cfg: Config, r: State, own: seq<Step>)
    requires |own| <= 1
    ensures Exec(cfg, r, own) == if own == [] then r else Next(cfg, r, own[0])
  {
    assert own != [] ==> own[..0] == [];
  }

  lemma RestrictNext(cfg: Config, s: State, step: Step, i: ReqId)
    requires CallInv(s, i)
    ensures Restrict(Next(cfg, s, step), i) == Exec(cfg, Restrict(s, i), Project(cfg, s, step, i))
  {
    ExecOwn(cfg, Restrict(s, i), Project(cfg, s, step, i));
    if Enabled(cfg, s, step) {
      if step.Handler? || step.SendOwnClose? || step.Report? || step.Reap? || step.SendServerClose? {
        RestrictTask(cfg, s, step, i);
      } else if step.Packet? {
        if Breaks(s, step.packet) {
          RestrictHalt(s, i);
        } else {
          RestrictPacket(cfg, s, step.packet, i);
        }
      } else if step.Deliver? || step.WriterFails? || step.WriterEnds? {
        RestrictWriter(cfg, s, step, i);
      } else {
        RestrictLoop(cfg, s, step, i);
      }
    }
  }

  /**
   * The state, handler history, frames and deliveries of call `i` in any run are those
   * of a connection that never saw another call.
   */
  lemma {:induction false} NonInterference(cfg: Config, schedule: seq<Step>, i: ReqId)
    ensures Restrict(Run(cfg, schedule), i) == Run(cfg, ProjectRun(cfg, schedule, i))
  {
    if schedule != [] {
      var n := |schedule| - 1;
      var before := schedule[..n];
      NonInterference(cfg, before, i);
      CoreAlways(cfg, before);
      assert CallInv(Run(cfg, before), i);
      RestrictNext(cfg, Run(cfg, before), schedule[n], i);
      ExecConcat(cfg, INITIAL, ProjectRun(cfg, before, i), Project(cfg, Run(cfg, before), schedule[n], i));
    }
  }

  /** The projected schedule carries no packet and no task step of another call. */
  lemma {:induction false} ProjectionIsOwn(cfg: Config, schedule: seq<Step>, i: ReqId)
    ensures forall step :: step in ProjectRun(cfg, schedule, i) ==>
      && (step.Packet? ==> step.packet.id == i)
      && (step.Handler? || step.SendOwnClose? || step.Report? || step.Reap? || step.SendServerClose? ==> step.id == i)
  {
    if schedule != [] {
      ProjectionIsOwn(cfg, schedule[..|schedule| - 1], i);
    }
  }

  lemma {:induction false} KeptFrames(log: seq<ResponsePacket>, i: ReqId)
    ensures FramesFor(KeepResponses(log, i), i) == FramesFor(log, i)
  {
    if log != [] {
      var n := |log| - 1;
      KeptFrames(log[..n], i);
      if log[n].id == i {
        FramesForAppend(KeepResponses(log[..n], i), log[n], i);
      } else {
        assert KeepResponses(log, i) == KeepResponses(log[..n], i);
      }
    }
  }

  /** What other calls do can only matter through the projection: equal ones, equal views. */
  lemma OthersDoNotMatter(cfg: Config, a: seq<Step>, b: seq<Step>, i: ReqId)
    requires ProjectRun(cfg, a, i) == ProjectRun(cfg, b, i)
    ensures Restrict(Run(cfg, a), i) == Restrict(Run(cfg, b), i)
    ensures FramesFor(Run(cfg, a).delivered, i) == FramesFor(Run(cfg, b).delivered, i)
    ensures i in Run(cfg, a).tasks <==> i in Run(cfg, b).tasks
    ensures i in Run(cfg, a).tasks ==> Run(cfg, a).tasks[i] == Run(cfg, b).tasks[i]
  {
    NonInterference(cfg, a, i);
    NonInterference(cfg, b, i);
    KeptFrames(Run(cfg, a).delivered, i);
    KeptFrames(Run(cfg, b).delivered, i);
    assert i in Run(cfg, a).tasks <==> i in Restrict(Run(cfg, a), i).tasks;
    assert i in Run(cfg, b).tasks <==> i in Restrict(Run(cfg, b), i).tasks;
  }
}
