/**
 * Deadlock freedom, termination of every schedule while the inbound stream is idle, and
 * draining after the connection is dropped; for any channel capacity of at least 1.
 */
module Progress {
  import opened Wire
  import opened Protocol
  import opened Invariants
  import opened Calls
  import opened Accounting

  /** The steps the server can take by itself while both ends of the pipe stay healthy. */
  predicate OwnStep(step: Step) {
    || step.Insert? || step.TakeDone? || step.Handler? || step.SendOwnClose? || step.Report?
    || step.Reap? || step.SendServerClose? || step.Deliver? || step.WriterEnds?
  }

  ghost predicate Stuck(cfg: Config, s: State) {
    forall step :: OwnStep(step) ==> !Enabled(cfg, s, step)
  }

  /** The handler waits for a request item that the client may still send. */
  ghost predicate WaitsForInput(s: State, id: ReqId) {
    && Ready(s, id) && s.tasks[id].phase.Running? && s.tasks[id].Act().Recv?
    && s.tasks[id].rxHeld && s.tasks[id].inbox == [] && StreamOpen(s, id)
  }

  // ---------------------------------------------------------------------------
  // Deadlock freedom
  // ---------------------------------------------------------------------------

  lemma StuckChannels(cfg: Config, s: State)
    requires cfg.cap >= 1 && Inv(cfg, s) && Stuck(cfg, s) && s.writer.Up?
    ensures s.funnel == [] && FunnelReady(cfg, s)
    ensures !s.loop.Inserting?
    ensures s.doneQueue == []
  {
    if s.loop.Inserting? {
      assert CallInv(s, s.loop.id);
    }
    assert OwnStep(Deliver) && !Enabled(cfg, s, Deliver);
    assert OwnStep(TakeDone) && !Enabled(cfg, s, TakeDone);
    assert OwnStep(Insert) && !Enabled(cfg, s, Insert);
  }

  /** A state in which nothing can move: every task is finished or waits for the client. */
  lemma DeadlockFree(cfg: Config, s: State, id: ReqId)
    requires cfg.cap >= 1 && Inv(cfg, s) && Stuck(cfg, s) && s.writer.Up?
    ensures id in s.tasks && !s.tasks[id].phase.Finished? ==> WaitsForInput(s, id)
    ensures id in s.closers ==> !s.closers[id].phase.Waiting?
    ensures id in s.sessions && s.loop.Idle? ==> WaitsForInput(s, id)
  {
    StuckChannels(cfg, s);
    assert CallInv(s, id);
    assert OwnStep(SendServerClose(id)) && !Enabled(cfg, s, SendServerClose(id));
    assert OwnStep(Reap(id)) && !Enabled(cfg, s, Reap(id));
    assert OwnStep(Report(id)) && !Enabled(cfg, s, Report(id));
    assert OwnStep(SendOwnClose(id)) && !Enabled(cfg, s, SendOwnClose(id));
    assert OwnStep(Handler(id, [])) && !Enabled(cfg, s, Handler(id, []));
  }

  // ---------------------------------------------------------------------------
  // Backpressure
  // ---------------------------------------------------------------------------

  lemma SenderKeepsBound(cfg: Config, s: State, step: Step)
    requires Enabled(cfg, s, step) && (step.Handler? || step.SendOwnClose? || step.SendServerClose?)
    requires |s.funnel| <= cfg.cap
    ensures |Apply(cfg, s, step).funnel| <= cfg.cap && Apply(cfg, s, step).doneQueue == s.doneQueue
  {
  }

  lemma OtherKeepsBound(cfg: Config, s: State, step: Step)
    requires Enabled(cfg, s, step) && !step.Packet?
    requires !step.Handler? && !step.SendOwnClose? && !step.SendServerClose?
    requires |s.funnel| <= cfg.cap && |s.doneQueue| <= cfg.cap
    ensures |Apply(cfg, s, step).funnel| <= cfg.cap && |Apply(cfg, s, step).doneQueue| <= cfg.cap
  {
  }

  lemma PacketKeepsBound(cfg: Config, s: State, p: RequestPacket)
    ensures OnPacket(cfg, s, p).funnel == s.funnel && |OnPacket(cfg, s, p).doneQueue| <= |s.doneQueue|
  {
  }

  /** In every run the funnel and the done channel hold no more than their capacity. */
  lemma {:induction false} ChannelsAreBounded(cfg: Config, schedule: seq<Step>)
    ensures |Run(cfg, schedule).funnel| <= cfg.cap && |Run(cfg, schedule).doneQueue| <= cfg.cap
  {
    if schedule != [] {
      var n := |schedule| - 1;
      var s := Run(cfg, schedule[..n]);
      ChannelsAreBounded(cfg, schedule[..n]);
      if Enabled(cfg, s, schedule[n]) {
        if schedule[n].Packet? {
          PacketKeepsBound(cfg, s, schedule[n].packet);
        } else if schedule[n].Handler? || schedule[n].SendOwnClose? || schedule[n].SendServerClose? {
          SenderKeepsBound(cfg, s, schedule[n]);
        } else {
          OtherKeepsBound(cfg, s, schedule[n]);
        }
      }
    }
  }

  /** A full funnel holds up every sender, and a full done channel every finished handler. */
  lemma FullChannelsBlock(cfg: Config, s: State, id: ReqId, seen: Bytes)
    ensures s.writer.Up? && |s.funnel| == cfg.cap ==>
      && Next(cfg, s, SendOwnClose(id)) == s && Next(cfg, s, SendServerClose(id)) == s
      && (id in s.tasks && s.tasks[id].Act().Send? && s.tasks[id].call.sink ==> Next(cfg, s, Handler(id, seen)) == s)
    ensures LoopAlive(s) && |s.doneQueue| == cfg.cap ==> Next(cfg, s, Report(id)) == s
  {
  }

  /** A running handler is held up by a full funnel or by an empty open stream, and by nothing else. */
  lemma HandlerMovesUnless(cfg: Config, s: State, id: ReqId, seen: Bytes)
    requires id in s.tasks && !s.tasks[id].aborted && s.tasks[id].phase.Running?
    ensures var t := s.tasks[id]; var u := Next(cfg, s, Handler(id, seen));
      && id in u.tasks
      && (u.tasks[id] != t <==>
            match t.Act()
            case Recv => t.inbox != [] || !t.rxHeld || !StreamOpen(s, id)
            case Send(_) => !t.call.sink || !s.writer.Up? || |s.funnel| < cfg.cap
            case _ => true)
  {
    var t := s.tasks[id];
    assert |t.hist| < |t.After(s.writer.Up?, seen).hist| || t.After(s.writer.Up?, seen).phase.Closing?;
  }

  /** Nor is anything else of a call held up but by a full channel. */
  lemma EndMovesUnless(cfg: Config, s: State, id: ReqId)
    ensures id in s.tasks && !s.tasks[id].aborted && s.tasks[id].phase.Closing? ==>
      (Next(cfg, s, SendOwnClose(id)).tasks[id].phase.Reporting? <==> !s.writer.Up? || |s.funnel| < cfg.cap)
    ensures id in s.tasks && !s.tasks[id].aborted && s.tasks[id].phase.Reporting? ==>
      (Next(cfg, s, Report(id)).tasks[id].phase.Finished? <==> !LoopAlive(s) || |s.doneQueue| < cfg.cap)
    ensures id in s.tasks && s.tasks[id].aborted ==> Next(cfg, s, Reap(id)).tasks[id].phase.Finished?
    ensures id in s.closers && s.closers[id].phase.Waiting? ==>
      (!Next(cfg, s, SendServerClose(id)).closers[id].phase.Waiting? <==> !s.writer.Up? || |s.funnel| < cfg.cap)
  {
  }

  // ---------------------------------------------------------------------------
  // The run loop is responsive
  // ---------------------------------------------------------------------------

  lemma InsertionReady(cfg: Config, s: State)
    requires Core(s) && LoopAlive(s)
    ensures Next(cfg, s, Insert).loop.Idle?
    ensures SameFunnel(s, Next(cfg, s, Insert))
    ensures Next(cfg, s, Insert).packets == s.packets && Next(cfg, s, Insert).highest == s.highest
    ensures forall id :: Live(s, id) ==> id in Next(cfg, s, Insert).sessions && id in s.tasks
  {
    forall id | Live(s, id) ensures id in s.tasks {
      assert CallInv(s, id);
    }
  }

  lemma PacketHandled(cfg: Config, s: State, p: RequestPacket)
    requires s.loop.Idle?
    ensures var t := Next(cfg, s, Packet(p));
      && SameFunnel(s, t)
      && (if Breaks(s, p) then t.loop.Stopped? && t.packets == s.packets
          else LoopAlive(t) && t.packets == s.packets + [p])
  {
    QuietSteps(cfg, s, Packet(p));
    if !Breaks(s, p) {
      HandledPacket(cfg, s, p);
    }
  }

  /**
   * From every reachable state with the loop alive, three steps of the loop alone bring it
   * through any packet: it stops on a protocol violation and has handled the packet
   * otherwise. No handler, closer or writer has to move, however full the funnel is.
   */
  lemma LoopResponds(cfg: Config, schedule: seq<Step>, p: RequestPacket)
    requires LoopAlive(Run(cfg, schedule))
    ensures var s := Run(cfg, schedule); var t := Run(cfg, schedule + [Insert, Packet(p), Insert]);
      && SameFunnel(s, t)
      && (if Breaks(s, p) then t.loop.Stopped? && t.packets == s.packets
          else t.loop.Idle? && t.packets == s.packets + [p])
  {
    var s := Run(cfg, schedule);
    var u := Run(cfg, schedule + [Insert]);
    var v := Run(cfg, schedule + [Insert] + [Packet(p)]);
    CoreAlways(cfg, schedule);
    RunAppend(cfg, schedule, Insert);
    InsertionReady(cfg, s);
    RunAppend(cfg, schedule + [Insert], Packet(p));
    PacketHandled(cfg, u, p);
    RunAppend(cfg, schedule + [Insert] + [Packet(p)], Insert);
    if LoopAlive(v) {
      CoreAlways(cfg, schedule + [Insert] + [Packet(p)]);
      InsertionReady(cfg, v);
    }
    assert schedule + [Insert] + [Packet(p)] + [Insert] == schedule + [Insert, Packet(p), Insert];
  }

  /** The loop stops on a protocol violation, the end of inbound and a lost writer, only. */
  lemma StopsExactly(cfg: Config, s: State, step: Step)
    requires LoopAlive(s)
    ensures Next(cfg, s, step).loop.Stopped? <==>
      s.loop.Idle? &&
        match step
        case Packet(p) => p.id <= s.highest && p.frame.Some? && p.frame.value.BeginFrame?
        case InboundClosed => true
        case WriterGone => !s.writer.Up?
        case _ => false
  {
    if step.Packet? && s.loop.Idle? {
      PacketHandled(cfg, s, step.packet);
    }
  }

  /** An idle loop takes the next Done at once, and its session goes. */
  lemma DoneIsTaken(cfg: Config, s: State)
    requires s.loop.Idle? && s.doneQueue != []
    ensures var t := Next(cfg, s, TakeDone);
      && t.loop.Idle? && t.doneQueue == s.doneQueue[1..] && SameFunnel(s, t)
      && s.doneQueue[0] !in t.sessions
      && (forall id :: id != s.doneQueue[0] ==> (id in t.sessions <==> id in s.sessions))
  {
  }

  /** What lies outside the server can happen at any time it makes sense. */
  lemma OutsideIsFree(cfg: Config, s: State)
    ensures s.loop.Idle? || s.loop.Stopped? ==>
      Next(cfg, s, Drop).loop.Dropped? && Next(cfg, s, Drop).sessions == map[]
    ensures s.writer.Up? ==>
      Next(cfg, s, WriterFails).writer.Failed? && Next(cfg, s, WriterFails).enqueued == s.enqueued
    ensures s.writer.Up? && s.funnel != [] ==>
      && Next(cfg, s, Deliver).delivered == s.delivered + [s.funnel[0]]
      && Next(cfg, s, Deliver).funnel == s.funnel[1..]
  {
  }

  /** A Cancel of a live call takes effect within two steps of the loop, whatever the rest does. */
  lemma CancelIsPrompt(cfg: Config, schedule: seq<Step>, id: ReqId)
    requires LoopAlive(Run(cfg, schedule)) && Live(Run(cfg, schedule), id)
    ensures var s := Run(cfg, schedule); var t := Run(cfg, schedule + [Insert, CancelOf(id)]);
      && t.loop.Idle? && SameFunnel(s, t)
      && id !in t.sessions && id in t.cancelled && id in t.tasks && t.tasks[id].aborted
      && (forall other :: other != id ==> (Live(s, other) <==> Live(t, other)))
  {
    var s := Run(cfg, schedule);
    CoreAlways(cfg, schedule);
    RunAppend(cfg, schedule, Insert);
    InsertionReady(cfg, s);
    RunAppend(cfg, schedule + [Insert], CancelOf(id));
    assert schedule + [Insert] + [CancelOf(id)] == schedule + [Insert, CancelOf(id)];
  }

  // ---------------------------------------------------------------------------
  // Termination
  // ---------------------------------------------------------------------------

  /**
   * Left alone with what is already in its request stream, the handler returns, panics
   * or waits for more input within `n` actions.
   */
  ghost predicate Quiesces(t: Task, open: bool, n: nat)
    decreases n
  {
    || EndOf(t.Act()).Some?
    || (t.Act().Recv? && t.rxHeld && t.inbox == [] && open)
    || (n > 0 && forall seen: Bytes :: Quiesces(t.After(true, seen), open, n - 1))
  }

  ghost predicate StillOpen(s: State, id: ReqId)
    requires id in s.tasks
  {
    s.tasks[id].call.payload.Streaming? && StreamOpen(s, id)
  }

  /** `fuel` bounds, for each running handler, how long it goes on without new input. */
  ghost predicate Fueled(s: State, fuel: map<ReqId, nat>) {
    forall id :: id in s.tasks && !s.tasks[id].aborted && s.tasks[id].phase.Running? ==>
      id in fuel && Quiesces(s.tasks[id], StillOpen(s, id), fuel[id])
  }

  function TaskWeight(tasks: map<ReqId, Task>, fuel: map<ReqId, nat>, id: ReqId): nat {
    if id !in tasks || tasks[id].phase.Finished? then 0
    else if tasks[id].aborted then 1
    else match tasks[id].phase
      case Running => (if id in fuel then 2 * fuel[id] else 0) + 6
      case Closing(_) => 5
      case Reporting => 2
      case Finished => 0
  }

  function TaskSum(ids: seq<ReqId>, tasks: map<ReqId, Task>, fuel: map<ReqId, nat>): nat {
    if ids == [] then 0 else TaskWeight(tasks, fuel, ids[0]) + TaskSum(ids[1..], tasks, fuel)
  }

  function CloserSum(ids: seq<ReqId>, closers: map<ReqId, Closer>): nat {
    if ids == [] then 0
    else (if ids[0] in closers && closers[ids[0]].phase.Waiting? then 2 else 0) + CloserSum(ids[1..], closers)
  }

  function Measure(s: State, fuel: map<ReqId, nat>): nat {
    TaskSum(s.spawned, s.tasks, fuel) + CloserSum(s.closerLog, s.closers) + |s.funnel| + |s.doneQueue|
    + (if s.loop.Inserting? then 1 else 0) + (if s.writer.Up? then 1 else 0)
  }

  lemma {:induction false} TaskSumDrops(ids: seq<ReqId>, n: ReqId, k: nat,
                                        a: map<ReqId, Task>, f: map<ReqId, nat>,
                                        b: map<ReqId, Task>, g: map<ReqId, nat>)
    requires forall id :: TaskWeight(b, g, id) <= TaskWeight(a, f, id)
    requires TaskWeight(b, g, n) + k <= TaskWeight(a, f, n)
    ensures TaskSum(ids, b, g) <= TaskSum(ids, a, f)
    ensures n in ids ==> TaskSum(ids, b, g) + k <= TaskSum(ids, a, f)
  {
    if ids != [] {
      TaskSumDrops(ids[1..], n, k, a, f, b, g);
    }
  }

  lemma {:induction false} CloserSumDrops(ids: seq<ReqId>, n: ReqId, closers: map<ReqId, Closer>, c: Closer)
    requires n in closers && closers[n].phase.Waiting? && !c.phase.Waiting?
    ensures CloserSum(ids, closers[n := c]) <= CloserSum(ids, closers)
    ensures n in ids ==> CloserSum(ids, closers[n := c]) + 2 <= CloserSum(ids, closers)
  {
    if ids != [] {
      CloserSumDrops(ids[1..], n, closers, c);
    }
  }

  /** Nothing more can be sent, or the writer is there to take it. */
  predicate Healthy(s: State) {
    s.writer.Up? || NoSenders(s)
  }

  /** What the handler's own task needs after one more action. */
  lemma HandlerFuel(s: State, n: ReqId, seen: Bytes, fuel: map<ReqId, nat>) returns (fuel': map<ReqId, nat>)
    requires Ready(s, n) && s.tasks[n].phase.Running? && Fueled(s, fuel)
    requires s.tasks[n].Act().Recv? && s.tasks[n].rxHeld && s.tasks[n].inbox == [] ==> !StreamOpen(s, n)
    ensures var t := s.tasks[n].After(true, seen);
      && (t.phase.Running? ==> n in fuel' && n in fuel && fuel'[n] < fuel[n] && Quiesces(t, StillOpen(s, n), fuel'[n]))
      && (forall id :: id != n ==> (id in fuel' <==> id in fuel) && (id in fuel ==> fuel'[id] == fuel[id]))
  {
    var t := s.tasks[n];
    fuel' := if EndOf(t.Act()).Some? then fuel else fuel[n := fuel[n] - 1];
  }

  lemma SetTaskFueled(s: State, u: State, n: ReqId, fuel: map<ReqId, nat>, fuel': map<ReqId, nat>)
    requires Fueled(s, fuel) && n in s.tasks && n in u.tasks
    requires u.tasks == s.tasks[n := u.tasks[n]] && u.loop == s.loop && u.sessions == s.sessions
    requires forall id :: id != n ==> (id in fuel' <==> id in fuel) && (id in fuel ==> fuel'[id] == fuel[id])
    requires !u.tasks[n].aborted && u.tasks[n].phase.Running? ==>
      n in fuel' && Quiesces(u.tasks[n], StillOpen(u, n), fuel'[n])
    requires TaskWeight(u.tasks, fuel', n) <= TaskWeight(s.tasks, fuel, n)
    ensures Fueled(u, fuel')
    ensures n in s.spawned ==>
      TaskSum(s.spawned, u.tasks, fuel') + TaskWeight(s.tasks, fuel, n)
      <= TaskSum(s.spawned, s.tasks, fuel) + TaskWeight(u.tasks, fuel', n)
  {
    forall id | id in u.tasks && !u.tasks[id].aborted && u.tasks[id].phase.Running?
      ensures id in fuel' && Quiesces(u.tasks[id], StillOpen(u, id), fuel'[id])
    {
      if id != n {
        assert id in s.tasks;
      }
    }
    var used := TaskWeight(s.tasks, fuel, n) - TaskWeight(u.tasks, fuel', n);
    TaskSumDrops(s.spawned, n, used, s.tasks, fuel, u.tasks, fuel');
  }

  lemma HandlerProgress(cfg: Config, s: State, n: ReqId, seen: Bytes, fuel: map<ReqId, nat>)
      returns (fuel': map<ReqId, nat>)
    requires CallInv(s, n) && s.writer.Up? && HandlerReady(cfg, s, n) && Fueled(s, fuel)
    ensures Fueled(OnHandler(s, n, seen), fuel') && Measure(OnHandler(s, n, seen), fuel') < Measure(s, fuel)
  {
    fuel' := HandlerFuel(s, n, seen, fuel);
    var u := OnHandler(s, n, seen);
    assert u.tasks[n] == s.tasks[n].After(true, seen) && u.tasks[n].call == s.tasks[n].call;
    assert StillOpen(u, n) == StillOpen(s, n);
    assert TaskWeight(u.tasks, fuel', n) + 1 + (|u.funnel| - |s.funnel|) <= TaskWeight(s.tasks, fuel, n);
    SetTaskFueled(s, u, n, fuel, fuel');
  }

  lemma OwnCloseProgress(cfg: Config, s: State, n: ReqId, fuel: map<ReqId, nat>)
    requires Enabled(cfg, s, SendOwnClose(n)) && CallInv(s, n) && Fueled(s, fuel)
    ensures var u := OnOwnClose(s, n); Fueled(u, fuel) && Measure(u, fuel) < Measure(s, fuel)
  {
    var u := OnOwnClose(s, n);
    assert |u.funnel| <= |s.funnel| + 1;
    SetTaskFueled(s, u, n, fuel, fuel);
  }

  lemma ReportProgress(cfg: Config, s: State, n: ReqId, fuel: map<ReqId, nat>)
    requires Enabled(cfg, s, Report(n)) && CallInv(s, n) && Fueled(s, fuel)
    ensures var u := OnReport(s, n); Fueled(u, fuel) && Measure(u, fuel) < Measure(s, fuel)
  {
    var u := OnReport(s, n);
    assert |u.doneQueue| <= |s.doneQueue| + 1;
    SetTaskFueled(s, u, n, fuel, fuel);
  }

  lemma ReapProgress(cfg: Config, s: State, n: ReqId, fuel: map<ReqId, nat>)
    requires Enabled(cfg, s, Reap(n)) && CallInv(s, n) && Fueled(s, fuel)
    ensures var u := OnReap(s, n); Fueled(u, fuel) && Measure(u, fuel) < Measure(s, fuel)
  {
    SetTaskFueled(s, OnReap(s, n), n, fuel, fuel);
  }

  lemma CloserProgress(cfg: Config, s: State, n: ReqId, fuel: map<ReqId, nat>)
    requires Enabled(cfg, s, SendServerClose(n)) && KnownInv(s, n) && Fueled(s, fuel)
    ensures var u := OnServerClose(s, n); Fueled(u, fuel) && Measure(u, fuel) < Measure(s, fuel)
  {
    var u := OnServerClose(s, n);
    CloserSumDrops(s.closerLog, n, s.closers, u.closers[n]);
    assert |u.funnel| <= |s.funnel| + 1;
  }

  lemma LoopProgress(cfg: Config, s: State, step: Step, fuel: map<ReqId, nat>)
    requires Enabled(cfg, s, step) && Core(s) && Fueled(s, fuel)
    requires step.Insert? || step.TakeDone? || step.Deliver? || step.WriterEnds?
    ensures var u := Apply(cfg, s, step); Fueled(u, fuel) && Measure(u, fuel) < Measure(s, fuel)
  {
    var u := Apply(cfg, s, step);
    forall id | id in u.tasks && !u.tasks[id].aborted && u.tasks[id].phase.Running?
      ensures id in fuel && Quiesces(u.tasks[id], StillOpen(u, id), fuel[id])
    {
      assert CallInv(s, id) && id in s.tasks;
      assert StillOpen(u, id) == StillOpen(s, id);
    }
  }

  lemma HealthKept(cfg: Config, s: State, step: Step)
    requires Healthy(s) && OwnStep(step) && Enabled(cfg, s, step)
    ensures Healthy(Apply(cfg, s, step))
  {
  }

  lemma TaskProgress(cfg: Config, s: State, step: Step, fuel: map<ReqId, nat>) returns (fuel': map<ReqId, nat>)
    requires step.Handler? || step.SendOwnClose? || step.Report? || step.Reap?
    requires CallInv(s, step.id) && Healthy(s) && Enabled(cfg, s, step) && Fueled(s, fuel)
    ensures var u := Apply(cfg, s, step); Fueled(u, fuel') && Measure(u, fuel') < Measure(s, fuel)
  {
    fuel' := fuel;
    match step
    case Handler(n, seen) => fuel' := HandlerProgress(cfg, s, n, seen, fuel);
    case SendOwnClose(n) => OwnCloseProgress(cfg, s, n, fuel);
    case Report(n) => ReportProgress(cfg, s, n, fuel);
    case Reap(n) => ReapProgress(cfg, s, n, fuel);
  }

  /** Every internal step uses up some of the measure. */
  lemma StepProgress(cfg: Config, s: State, step: Step, fuel: map<ReqId, nat>) returns (fuel': map<ReqId, nat>)
    requires Inv(cfg, s) && Healthy(s) && OwnStep(step) && Enabled(cfg, s, step) && Fueled(s, fuel)
    ensures var u := Next(cfg, s, step);
      Fueled(u, fuel') && Measure(u, fuel') < Measure(s, fuel) && Healthy(u)
  {
    fuel' := fuel;
    HealthKept(cfg, s, step);
    if step.Handler? || step.SendOwnClose? || step.Report? || step.Reap? {
      assert CallInv(s, step.id);
      fuel' := TaskProgress(cfg, s, step, fuel);
    } else if step.SendServerClose? {
      assert CallInv(s, step.id);
      CloserProgress(cfg, s, step.id, fuel);
    } else {
      LoopProgress(cfg, s, step, fuel);
    }
  }

  /** Every step of the schedule is internal and really taken. */
  ghost predicate Drives(cfg: Config, s: State, schedule: seq<Step>)
    decreases |schedule|
  {
    schedule == [] ||
    (OwnStep(schedule[0]) && Enabled(cfg, s, schedule[0]) && Drives(cfg, Next(cfg, s, schedule[0]), schedule[1..]))
  }

  lemma ExecHead(cfg: Config, s: State, schedule: seq<Step>)
    requires schedule != []
    ensures Exec(cfg, s, schedule) == Exec(cfg, Next(cfg, s, schedule[0]), schedule[1..])
  {
    ExecConcat(cfg, s, [schedule[0]], schedule[1..]);
    assert [schedule[0]] + schedule[1..] == schedule;
    assert [schedule[0]][..0] == [];
  }

  /** With inbound idle, no schedule takes more steps than the measure. */
  lemma {:induction false} Terminates(cfg: Config, s: State, schedule: seq<Step>, fuel: map<ReqId, nat>)
    requires Inv(cfg, s) && Healthy(s) && Fueled(s, fuel) && Drives(cfg, s, schedule)
    ensures |schedule| <= Measure(s, fuel)
    ensures Inv(cfg, Exec(cfg, s, schedule)) && Healthy(Exec(cfg, s, schedule))
    decreases |schedule|
  {
    if schedule != [] {
      InvNext(cfg, s, schedule[0]);
      var fuel' := StepProgress(cfg, s, schedule[0], fuel);
      Terminates(cfg, Next(cfg, s, schedule[0]), schedule[1..], fuel');
      ExecHead(cfg, s, schedule);
    }
  }

  /** Some schedule gets there: the server can always be driven until nothing moves. */
  lemma {:induction false} Settles(cfg: Config, s: State, fuel: map<ReqId, nat>) returns (schedule: seq<Step>)
    requires Inv(cfg, s) && Healthy(s) && Fueled(s, fuel)
    ensures Drives(cfg, s, schedule) && Stuck(cfg, Exec(cfg, s, schedule))
    decreases Measure(s, fuel)
  {
    if Stuck(cfg, s) {
      schedule := [];
    } else {
      var step :| OwnStep(step) && Enabled(cfg, s, step);
      InvNext(cfg, s, step);
      var fuel' := StepProgress(cfg, s, step, fuel);
      var rest := Settles(cfg, Next(cfg, s, step), fuel');
      schedule := [step] + rest;
      assert schedule[1..] == rest;
      ExecHead(cfg, s, schedule);
    }
  }

  // ---------------------------------------------------------------------------
  // Where it ends
  // ---------------------------------------------------------------------------

  lemma InternalKeeps(cfg: Config, s: State, step: Step)
    requires OwnStep(step) && Enabled(cfg, s, step)
    ensures var u := Next(cfg, s, step);
      && (LoopAlive(s) ==> LoopAlive(u))
      && (s.loop.Dropped? ==> u.loop.Dropped?)
      && (LoopAlive(s) && s.writer.Up? ==> u.writer.Up?)
      && (!s.writer.Failed? ==> !u.writer.Failed?)
  {
  }

  lemma EnqueuedGrows(cfg: Config, s: State, step: Step)
    ensures s.enqueued <= Next(cfg, s, step).enqueued
  {
    if Enabled(cfg, s, step) && (step.Handler? || step.SendOwnClose? || step.SendServerClose?) {
      Puts(cfg, s, step);
    }
  }

  lemma {:induction false} DriveKeeps(cfg: Config, s: State, schedule: seq<Step>)
    requires Drives(cfg, s, schedule)
    ensures var u := Exec(cfg, s, schedule);
      && (LoopAlive(s) ==> LoopAlive(u))
      && (s.loop.Dropped? ==> u.loop.Dropped?)
      && (LoopAlive(s) && s.writer.Up? ==> u.writer.Up?)
      && (!s.writer.Failed? ==> !u.writer.Failed?)
      && s.enqueued <= u.enqueued
    decreases |schedule|
  {
    if schedule != [] {
      InternalKeeps(cfg, s, schedule[0]);
      EnqueuedGrows(cfg, s, schedule[0]);
      DriveKeeps(cfg, Next(cfg, s, schedule[0]), schedule[1..]);
      ExecHead(cfg, s, schedule);
    }
  }

  // ---------------------------------------------------------------------------
  // The writer ends last
  // ---------------------------------------------------------------------------

  /** An ended writer leaves nobody behind: no handler runs and every closer sent its Close. */
  ghost predicate EndedLast(s: State) {
    s.writer.Ended? ==>
      && s.loop.Dropped?
      && (forall id :: id in s.tasks ==> s.tasks[id].phase.Finished?)
      && (forall id :: id in s.closers ==> s.closers[id].phase.Done?)
  }

  lemma EndsLast(cfg: Config, s: State)
    requires Inv(cfg, s) && Enabled(cfg, s, WriterEnds)
    ensures EndedLast(Apply(cfg, s, WriterEnds)) && s.delivered == s.enqueued
  {
    forall id | id in s.closers ensures s.closers[id].phase.Done? {
      assert HistoryInv(cfg, s, id);
    }
  }

  /** Nothing happens any more once the writer has ended. */
  lemma NothingAfterEnd(cfg: Config, s: State, step: Step)
    requires EndedLast(s) && s.writer.Ended?
    ensures Next(cfg, s, step).writer.Ended? && EndedLast(Next(cfg, s, step))
    ensures Next(cfg, s, step).closers == s.closers && SameFunnel(s, Next(cfg, s, step))
  {
  }

  lemma OthersDoNotEnd(cfg: Config, s: State, step: Step)
    requires !s.writer.Ended? && !step.WriterEnds?
    ensures !Next(cfg, s, step).writer.Ended?
  {
  }

  lemma EndedLastNext(cfg: Config, s: State, step: Step)
    requires Inv(cfg, s) && EndedLast(s)
    ensures EndedLast(Next(cfg, s, step))
  {
    if s.writer.Ended? {
      NothingAfterEnd(cfg, s, step);
    } else if !step.WriterEnds? {
      OthersDoNotEnd(cfg, s, step);
    } else if Enabled(cfg, s, step) {
      EndsLast(cfg, s);
    }
  }

  /**
   * The writer never ends before a sender: in every run that has let it end, the loop is
   * dropped, every handler is finished, every closer has sent its Close, and all frames are
   * delivered. Nothing that follows changes that.
   */
  lemma {:induction false} WriterEndsLast(cfg: Config, schedule: seq<Step>)
    ensures var s := Run(cfg, schedule);
      s.writer.Ended? ==>
        && s.loop.Dropped? && s.delivered == s.enqueued
        && (forall id :: id in s.tasks ==> s.tasks[id].phase.Finished?)
        && (forall id :: id in s.closers ==> s.closers[id].phase.Done?)
  {
    if schedule != [] {
      var n := |schedule| - 1;
      WriterEndsLast(cfg, schedule[..n]);
      InvAlways(cfg, schedule[..n]);
      EndedLastNext(cfg, Run(cfg, schedule[..n]), schedule[n]);
    }
    InvAlways(cfg, schedule);
  }

  /** An ended writer stays ended, and no closer is ever left to fail. */
  lemma {:induction false} EndIsFinal(cfg: Config, before: seq<Step>, after: seq<Step>)
    requires Run(cfg, before).writer.Ended?
    ensures var s := Run(cfg, before); var t := Run(cfg, before + after);
      t.writer.Ended? && t.closers == s.closers && SameFunnel(s, t)
  {
    if after == [] {
      assert before + after == before;
    } else {
      var n := |after| - 1;
      EndIsFinal(cfg, before, after[..n]);
      WriterEndsLast(cfg, before + after[..n]);
      NothingAfterEnd(cfg, Run(cfg, before + after[..n]), after[n]);
      RunAppend(cfg, before + after[..n], after[n]);
      assert before + after[..n] + [after[n]] == before + after;
    }
  }

  lemma {:induction false} DriveEndsLast(cfg: Config, s: State, schedule: seq<Step>, id: ReqId)
    requires Inv(cfg, s) && EndedLast(s) && Drives(cfg, s, schedule)
    ensures var t := Exec(cfg, s, schedule);
      && Inv(cfg, t) && EndedLast(t)
      && (id in s.closers ==> id in t.closers && t.closers[id].status == s.closers[id].status)
    decreases |schedule|
  {
    if schedule != [] {
      InvNext(cfg, s, schedule[0]);
      EndedLastNext(cfg, s, schedule[0]);
      QuietRecords(cfg, s, schedule[0], id);
      DriveEndsLast(cfg, Next(cfg, s, schedule[0]), schedule[1..], id);
      ExecHead(cfg, s, schedule);
    }
  }

  /** The Close of a rejection or a kill, as the client sees it. */
  function StatusClose(status: Status): ResponseFrame {
    CloseFrame(WireStatus(CodeNumber(status.code), status.message), [], None, None)
  }

  lemma SentClose(cfg: Config, t: State, id: ReqId)
    requires Inv(cfg, t) && id in t.closers && t.closers[id].phase.Done?
    ensures StatusClose(t.closers[id].status) in FramesFor(t.enqueued, id)
  {
    assert HistoryInv(cfg, t, id);
    var frames := CallFrames(t, id);
    assert frames[|frames| - 1] == StatusClose(t.closers[id].status);
  }

  /** A call when nothing can move: waiting for its client, cut off, or closed exactly once. */
  ghost predicate Settled(t: State, id: ReqId) {
    && t.delivered == t.enqueued
    && (id in t.accepted && !WaitsForInput(t, id) && !CancelledCall(t, id) && !Killed(t, id) ==>
          CloseCount(FramesFor(t.delivered, id)) == 1 && id !in t.sessions)
    && (Killed(t, id) ==> ServerCloses(t, id) == 1 && id !in t.sessions)
    && (id in t.sessions ==> WaitsForInput(t, id))
  }

  lemma ClosedOnce(cfg: Config, t: State, id: ReqId)
    requires CallInv(t, id) && TaskInv(cfg, t, id) && FrameInv(t, id) && t.writer.Up? && LoopAlive(t)
    requires id in t.tasks ==> t.tasks[id].phase.Finished?
    requires id in t.closers ==> t.closers[id].phase.Done?
    requires id in t.accepted && id !in t.cancelled && !Killed(t, id)
    ensures CloseCount(FramesFor(t.enqueued, id)) == 1
  {
    FramesCount(t, id);
  }

  lemma StuckSettles(cfg: Config, t: State, id: ReqId)
    requires cfg.cap >= 1 && Inv(cfg, t) && Stuck(cfg, t) && t.writer.Up? && LoopAlive(t)
    ensures Settled(t, id)
  {
    StuckChannels(cfg, t);
    DeadlockFree(cfg, t, id);
    assert CallInv(t, id) && HistoryInv(cfg, t, id);
    if id in t.accepted && !WaitsForInput(t, id) && !CancelledCall(t, id) && !Killed(t, id) {
      ClosedOnce(cfg, t, id);
    }
  }

  /**
   * With inbound idle but open and outbound accepting, however the server's steps are
   * scheduled they run out, and then every call is either waiting for its client, was
   * cancelled or killed, or had exactly one Close delivered and its session removed.
   */
  lemma Completion(cfg: Config, s: State, schedule: seq<Step>, fuel: map<ReqId, nat>, id: ReqId)
    requires cfg.cap >= 1 && Inv(cfg, s) && LoopAlive(s) && s.writer.Up? && Fueled(s, fuel)
    requires Drives(cfg, s, schedule)
    ensures |schedule| <= Measure(s, fuel)
    ensures Stuck(cfg, Exec(cfg, s, schedule)) ==> Settled(Exec(cfg, s, schedule), id)
  {
    Terminates(cfg, s, schedule, fuel);
    DriveKeeps(cfg, s, schedule);
    if Stuck(cfg, Exec(cfg, s, schedule)) {
      StuckSettles(cfg, Exec(cfg, s, schedule), id);
    }
  }

  /** Once dropped, no handler runs: only aborted tasks, closers and the writer remain. */
  lemma DroppedRunsNothing(cfg: Config, s: State, id: ReqId)
    requires Core(s) && s.loop.Dropped?
    ensures id in s.tasks && !s.tasks[id].phase.Finished? ==> s.tasks[id].aborted
    ensures !Enabled(cfg, s, Handler(id, [])) && !Enabled(cfg, s, SendOwnClose(id)) && !Enabled(cfg, s, Report(id))
    ensures s.sessions == map[] && Fueled(s, map[])
  {
    forall n ensures n in s.tasks && !s.tasks[n].phase.Finished? ==> s.tasks[n].aborted {
      assert CallInv(s, n);
    }
  }

  lemma StuckAfterDrop(cfg: Config, t: State)
    requires cfg.cap >= 1 && Inv(cfg, t) && t.loop.Dropped? && !t.writer.Failed? && Stuck(cfg, t)
    ensures t.writer.Ended?
  {
    if t.writer.Up? {
      StuckChannels(cfg, t);
      forall id ensures (id in t.tasks ==> t.tasks[id].phase.Finished?)
                     && (id in t.closers ==> !t.closers[id].phase.Waiting?) {
        DroppedRunsNothing(cfg, t, id);
        DeadlockFree(cfg, t, id);
      }
      assert OwnStep(WriterEnds) && Enabled(cfg, t, WriterEnds);
    }
  }

  /**
   * After the drop, with a healthy outbound, every schedule runs out within the measure;
   * then the writer has ended, no handler and no closer is left, every frame ever enqueued
   * has been delivered in order, those from before the drop first, and every call that was
   * rejected or killed has had its Close.
   */
  lemma ShutdownDrains(cfg: Config, s: State, schedule: seq<Step>, id: ReqId)
    requires cfg.cap >= 1 && Inv(cfg, s) && s.loop.Dropped? && s.writer.Up? && Drives(cfg, s, schedule)
    ensures |schedule| <= Measure(s, map[])
    ensures var t := Exec(cfg, s, schedule);
      Stuck(cfg, t) ==>
        && t.writer.Ended? && t.delivered == t.enqueued && s.enqueued <= t.delivered
        && (id in t.tasks ==> t.tasks[id].phase.Finished?)
        && (id in s.closers ==>
              && id in t.closers && t.closers[id] == s.closers[id].(phase := Done)
              && StatusClose(s.closers[id].status) in FramesFor(t.delivered, id))
  {
    DroppedRunsNothing(cfg, s, 0);
    Terminates(cfg, s, schedule, map[]);
    DriveKeeps(cfg, s, schedule);
    DriveEndsLast(cfg, s, schedule, id);
    var t := Exec(cfg, s, schedule);
    if Stuck(cfg, t) {
      StuckAfterDrop(cfg, t);
      if id in s.closers {
        SentClose(cfg, t, id);
      }
    }
  }
}
