/**
 * proto-service-pipe/src/transport.rs, `Connection`: the run loop's own code, as methods
 * that update the session table, proved to take exactly the steps of the protocol; and
 * every schedule of the protocol is a run of that code beside the other tasks.
 */
module Connection {
  import opened Wire
  import opened Services
  import opened Protocol
  import Metadata

  // ---------------------------------------------------------------------------
  // The other tasks
  // ---------------------------------------------------------------------------

  /** A step of a handler task, a closer or the writer, outside the run loop. */
  predicate Outside(step: Step) {
    || step.Handler? || step.SendOwnClose? || step.Report? || step.Reap? || step.SendServerClose?
    || step.Deliver? || step.WriterFails? || step.WriterEnds?
  }

  predicate AllOutside(steps: seq<Step>) {
    forall step :: step in steps ==> Outside(step)
  }

  /** What a step of the other tasks changes: neither the sessions nor the loop's records. */
  lemma StaysOutside(cfg: Config, s: State, step: Step)
    requires Outside(step)
    ensures var t := Next(cfg, s, step);
      t == s.(tasks := t.tasks, closers := t.closers, funnel := t.funnel, doneQueue := t.doneQueue,
              writer := t.writer, enqueued := t.enqueued, delivered := t.delivered)
  {
  }

  lemma KeepsCalls(cfg: Config, s: State, step: Step, id: ReqId)
    requires Outside(step) && id in s.tasks
    ensures id in Next(cfg, s, step).tasks && Next(cfg, s, step).tasks[id].call == s.tasks[id].call
  {
  }

  lemma {:induction false} AllStayOutside(cfg: Config, s: State, steps: seq<Step>, id: ReqId)
    requires AllOutside(steps)
    ensures var t := Exec(cfg, s, steps);
      t == s.(tasks := t.tasks, closers := t.closers, funnel := t.funnel, doneQueue := t.doneQueue,
              writer := t.writer, enqueued := t.enqueued, delivered := t.delivered)
    ensures id in s.tasks ==>
      id in Exec(cfg, s, steps).tasks && Exec(cfg, s, steps).tasks[id].call == s.tasks[id].call
  {
    if steps != [] {
      var n := |steps| - 1;
      AllStayOutside(cfg, s, steps[..n], id);
      StaysOutside(cfg, Exec(cfg, s, steps[..n]), steps[n]);
      if id in s.tasks {
        KeepsCalls(cfg, Exec(cfg, s, steps[..n]), steps[n], id);
      }
    }
  }

  // ---------------------------------------------------------------------------
  // What the run loop is given
  // ---------------------------------------------------------------------------

  /**
   * One event, and what the other tasks do while the loop handles it: for a Begin that
   * starts a handler, between the spawn and the insertion of the session.
   */
  datatype Turn = Turn(event: Step, meanwhile: seq<Step>)

  predicate Fair(turn: Turn) {
    !turn.event.Drop? && !turn.event.Insert? && AllOutside(turn.meanwhile)
  }

  predicate AllFair(script: seq<Turn>) {
    forall turn :: turn in script ==> Fair(turn)
  }

  function StepsOf(turn: Turn): seq<Step> {
    if turn.event.Packet? then [turn.event] + turn.meanwhile + [Insert] else [turn.event]
  }

  function Expand(script: seq<Turn>): seq<Step> {
    if script == [] then [] else Expand(script[..|script| - 1]) + StepsOf(script[|script| - 1])
  }

  lemma ExpandNext(script: seq<Turn>, k: nat)
    requires k < |script|
    ensures Expand(script[..k + 1]) == Expand(script[..k]) + StepsOf(script[k])
  {
    assert script[..k + 1][..k] == script[..k];
  }

  /** No event of the script but the last one ends the connection. */
  ghost predicate Takes(cfg: Config, script: seq<Turn>) {
    forall k :: 0 <= k < |script| ==> Run(cfg, Expand(script[..k])).loop.Idle?
  }

  lemma PacketSteps(cfg: Config, s: State, p: RequestPacket, meanwhile: seq<Step>)
    ensures Exec(cfg, s, StepsOf(Turn(Packet(p), meanwhile)))
         == Next(cfg, Exec(cfg, Next(cfg, s, Packet(p)), meanwhile), Insert)
  {
    ExecConcat(cfg, s, [Packet(p)], meanwhile);
    ExecConcat(cfg, s, [Packet(p)] + meanwhile, [Insert]);
    ExecOne(cfg, s, Packet(p));
    ExecOne(cfg, Exec(cfg, s, [Packet(p)] + meanwhile), Insert);
  }

  // ---------------------------------------------------------------------------
  // Aborting several tasks
  // ---------------------------------------------------------------------------

  function Aborting(tasks: map<ReqId, Task>, ids: set<ReqId>): map<ReqId, Task> {
    map id | id in tasks :: if id in ids then tasks[id].(aborted := true) else tasks[id]
  }

  lemma AbortingNone(tasks: map<ReqId, Task>)
    ensures Aborting(tasks, {}) == tasks
  {
  }

  lemma AbortingOne(tasks: map<ReqId, Task>, ids: set<ReqId>, id: ReqId)
    ensures Abort(Aborting(tasks, ids), id) == Aborting(tasks, ids + {id})
  {
  }

  lemma AbortingAll(s: State)
    ensures OnDrop(s).tasks == Aborting(s.tasks, s.sessions.Keys)
  {
  }

  // ---------------------------------------------------------------------------
  // The connection
  // ---------------------------------------------------------------------------

  /** Everything behind the spawner and the channels, shared with the other tasks. */
  class World {
    var tasks: map<ReqId, Task>
    var closers: map<ReqId, Closer>
    var funnel: seq<ResponsePacket>
    var doneQueue: seq<ReqId>
    var writer: Writer
    var spawned: seq<ReqId>
    var closerLog: seq<ReqId>
    var enqueued: seq<ResponsePacket>
    var delivered: seq<ResponsePacket>

    constructor ()
      ensures tasks == map[] && closers == map[] && funnel == [] && doneQueue == [] && writer == Up
      ensures spawned == [] && closerLog == [] && enqueued == [] && delivered == []
    {
      tasks, closers, funnel, doneQueue, writer := map[], map[], [], [], Up;
      spawned, closerLog, enqueued, delivered := [], [], [], [];
    }
  }

  datatype ControlFlow = Continue | Break

  class PipeConnection {
    const cfg: Config
    const router: ServiceRouter
    const world: World
    var sessions: map<ReqId, Session>
    var highestId: ReqId
    var loop: Loop
    var packets: seq<RequestPacket>
    var accepted: seq<ReqId>
    var cancelled: set<ReqId>

    /** The protocol routes by the table of the shared router. */
    ghost predicate Wired()
      reads this, router
    {
      router.Valid() && cfg.router == router.services
    }

    function Abs(): State
      reads this, world
    {
      State(loop, sessions, highestId, world.tasks, world.closers, world.funnel, world.doneQueue, world.writer,
            packets, accepted, world.spawned, world.closerLog, cancelled, world.enqueued, world.delivered)
    }

    constructor (router: ServiceRouter, cap: nat)
      requires router.Valid()
      ensures fresh(world) && this.router == router && Wired()
      ensures cfg == Config(router.services, cap) && Abs() == INITIAL
    {
      this.router := router;
      cfg := Config(router.services, cap);
      world := new World();
      sessions, highestId, loop := map[], 0, Idle;
      packets, accepted, cancelled := [], [], {};
    }

    /** One step of another task. */
    method Elsewhere(step: Step)
      requires Outside(step)
      modifies world
      ensures Abs() == Next(cfg, old(Abs()), step)
    {
      StaysOutside(cfg, Abs(), step);
      var s := Next(cfg, Abs(), step);
      world.tasks, world.closers, world.funnel, world.doneQueue := s.tasks, s.closers, s.funnel, s.doneQueue;
      world.writer, world.enqueued, world.delivered := s.writer, s.enqueued, s.delivered;
    }

    method OtherTasks(steps: seq<Step>)
      requires AllOutside(steps)
      modifies world
      ensures Abs() == Exec(cfg, old(Abs()), steps)
    {
      for i := 0 to |steps|
        invariant Abs() == Exec(cfg, old(Abs()), steps[..i])
      {
        assert steps[..i + 1][..i] == steps[..i];
        Elsewhere(steps[i]);
      }
      assert steps[..|steps|] == steps;
    }

    /** Spawns a task that will send a trailers-only Close; never waits for the funnel. */
    method SendClose(id: ReqId, status: Status)
      modifies world
      ensures Abs() == SpawnCloser(old(Abs()), id, status)
    {
      world.closers := world.closers[id := Closer(status, Waiting)];
      world.closerLog := world.closerLog + [id];
    }

    /** The abort handle of the session's task. */
    method AbortTask(id: ReqId)
      modifies world
      ensures Abs() == old(Abs()).(tasks := Abort(old(world.tasks), id))
    {
      if id in world.tasks {
        world.tasks := world.tasks[id := world.tasks[id].(aborted := true)];
      }
    }

    method KillCall(id: ReqId, status: Status)
      modifies this, world
      ensures Abs() == Kill(old(Abs()), id, status)
    {
      if id in sessions {
        sessions := Without(sessions, id);
        AbortTask(id);
      }
      SendClose(id, status);
    }

    /** Spawns the handler task, and then inserts its session; the task may run in between. */
    method SpawnHandler(id: ReqId, begin: Begin, service: Service, call: Call, meanwhile: seq<Step>)
      requires loop.Idle? && AllOutside(meanwhile)
      modifies this, world
      ensures Abs() == OnInsert(Exec(cfg, old(Abs()).(
        tasks := old(world.tasks)[id := NewTask(begin, service, call)],
        spawned := old(world.spawned) + [id],
        loop := Inserting(id)), meanwhile))
      ensures loop.Idle?
    {
      world.tasks := world.tasks[id := NewTask(begin, service, call)];
      world.spawned := world.spawned + [id];
      loop := Inserting(id);
      AllStayOutside(cfg, Abs(), meanwhile, id);
      OtherTasks(meanwhile);
      sessions := sessions[id := Session(call.payload.Streaming?)];
      loop := Idle;
    }

    /** The call metadata of a Begin, empty if it carries none. */
    method HeadersOf(begin: Begin) returns (headers: Metadata.Rows)
      ensures headers == Metadata.FromEntries(if begin.headers.Some? then begin.headers.value else [])
    {
      var read := Metadata.FromPacketMetadata(if begin.headers.Some? then begin.headers.value else []);
      headers := read.data;
    }

    /** The service is found: checks the method and its payload, and starts the handler. */
    method BeginMethod(id: ReqId, begin: Begin, service: Service, methodName: string, meanwhile: seq<Step>)
        returns (started: bool)
      requires loop.Idle? && AllOutside(meanwhile)
      modifies this, world
      ensures started <==> RouteMethod(service, methodName, begin).Start?
      ensures var t := OnRouting(old(Abs()), id, begin, RouteMethod(service, methodName, begin));
        Abs() == if started then OnInsert(Exec(cfg, t, meanwhile)) else t
      ensures loop.Idle?
    {
      var desc := service.describe(methodName);
      if desc.None? {
        SendClose(id, Status(Unimplemented, "unknown method"));
        return false;
      }
      var payload: RequestPayload := Streaming;
      if !desc.value.clientStreaming {
        if begin.singleRequest.None? {
          SendClose(id, Status(InvalidArgument, "missing single_request payload"));
          return false;
        }
        payload := Single(begin.singleRequest.value);
      }
      var headers := HeadersOf(begin);
      SpawnHandler(id, begin, service, Call(methodName, headers, payload, desc.value.serverStreaming), meanwhile);
      return true;
    }

    /** Decides on a Begin: a rejection, or a spawned handler and then its session. */
    method BeginCall(id: ReqId, begin: Begin, meanwhile: seq<Step>) returns (started: bool)
      requires Wired() && loop.Idle? && id > highestId && AllOutside(meanwhile)
      modifies this, world
      ensures started <==> Route(cfg.router, begin).Start?
      ensures var t := OnBegin(cfg, old(Abs()), id, begin);
        Abs() == if started then OnInsert(Exec(cfg, t, meanwhile)) else t
      ensures loop.Idle?
    {
      highestId := id;
      accepted := accepted + [id];
      var parsed := ParseMethod(begin.methodPath);
      if parsed.None? {
        SendClose(id, Status(InvalidArgument, "malformed method name"));
        return false;
      }
      var (serviceName, methodName) := parsed.value;
      var service := router.Resolve(serviceName);
      if service.None? {
        SendClose(id, Status(Unimplemented, "unknown service"));
        return false;
      }
      started := BeginMethod(id, begin, service.value, methodName, meanwhile);
    }

    method ReceiveMessage(id: ReqId, body: Bytes)
      modifies this, world
      ensures Abs() == OnMessage(old(Abs()), id, body)
    {
      var violation := false;
      if id in sessions {
        if !sessions[id].clientTx {
          violation := true;
        } else if id in world.tasks {
          world.tasks := world.tasks[id := world.tasks[id].Feed(body)];
        }
      }
      if violation {
        KillCall(id, UNEXPECTED_MESSAGE);
      }
    }

    method ReceiveDoneSending(id: ReqId)
      modifies this
      ensures Abs() == OnDoneSending(old(Abs()), id)
    {
      if id in sessions {
        sessions := sessions[id := Session(false)];
      }
    }

    method ReceiveCancel(id: ReqId)
      modifies this, world
      ensures Abs() == OnCancel(old(Abs()), id)
    {
      if id in sessions {
        sessions := Without(sessions, id);
        AbortTask(id);
        cancelled := cancelled + {id};
      }
    }

    /** Handles one packet; `Break` asks the run loop to stop. */
    method HandlePacket(p: RequestPacket, meanwhile: seq<Step>) returns (flow: ControlFlow)
      requires Wired() && loop.Idle? && AllOutside(meanwhile)
      modifies this, world
      ensures flow.Break? <==> Breaks(old(Abs()), p)
      ensures flow.Break? ==> Abs() == old(Abs())
      ensures flow.Continue? ==>
        Abs() == OnInsert(Exec(cfg, OnPacket(cfg, old(Abs()), p), meanwhile)) && loop.Idle?
    {
      if p.frame.Some? && p.frame.value.BeginFrame? && p.id <= highestId {
        return Break;
      }
      packets := packets + [p];
      var started := false;
      if p.frame.Some? {
        match p.frame.value {
          case BeginFrame(begin) => started := BeginCall(p.id, begin, meanwhile);
          case MessageFrame(body) => ReceiveMessage(p.id, body);
          case DoneSendingFrame => ReceiveDoneSending(p.id);
          case CancelFrame => ReceiveCancel(p.id);
        }
      }
      if !started {
        AllStayOutside(cfg, Abs(), meanwhile, p.id);
        OtherTasks(meanwhile);
      }
      return Continue;
    }

    /** Leaving the loop drops the receiver of the done channel. */
    method Stop()
      modifies this, world
      ensures Abs() == Halt(old(Abs()))
    {
      loop := Stopped;
      world.doneQueue := [];
    }

    method OnPacketEvent(p: RequestPacket, meanwhile: seq<Step>) returns (stop: bool)
      requires Wired() && loop.Idle? && AllOutside(meanwhile)
      modifies this, world
      ensures Abs() == Exec(cfg, old(Abs()), StepsOf(Turn(Packet(p), meanwhile)))
      ensures stop <==> Breaks(old(Abs()), p)
      ensures if stop then loop.Stopped? else loop.Idle?
    {
      PacketSteps(cfg, Abs(), p, meanwhile);
      var flow := HandlePacket(p, meanwhile);
      stop := flow.Break?;
      if stop {
        Stop();
        AllStayOutside(cfg, Abs(), meanwhile, p.id);
        OtherTasks(meanwhile);
      }
    }

    /** The run loop wakes on one event; other steps are those of the other tasks. */
    method OnEvent(turn: Turn) returns (stop: bool)
      requires Wired() && loop.Idle? && Fair(turn)
      modifies this, world
      ensures Abs() == Exec(cfg, old(Abs()), StepsOf(turn))
      ensures stop <==>
        || (turn.event.Packet? && Breaks(old(Abs()), turn.event.packet))
        || turn.event.InboundClosed?
        || (turn.event.WriterGone? && !old(Abs()).writer.Up?)
      ensures if stop then loop.Stopped? else loop.Idle?
    {
      if turn.event.Packet? {
        stop := OnPacketEvent(turn.event.packet, turn.meanwhile);
        return;
      }
      ExecOne(cfg, Abs(), turn.event);
      stop := turn.event.InboundClosed? || (turn.event.WriterGone? && !world.writer.Up?);
      if stop {
        Stop();
      } else if turn.event.TakeDone? {
        if world.doneQueue != [] {
          sessions := Without(sessions, world.doneQueue[0]);
          world.doneQueue := world.doneQueue[1..];
        }
      } else if !turn.event.WriterGone? {
        StaysOutside(cfg, Abs(), turn.event);
        Elsewhere(turn.event);
      }
    }

    /** Takes events until one of them ends the connection. */
    method RunLoop(script: seq<Turn>) returns (taken: nat)
      requires Wired() && loop.Idle? && AllFair(script)
      modifies this, world
      ensures taken <= |script| && Abs() == Exec(cfg, old(Abs()), Expand(script[..taken]))
      ensures loop.Stopped? || (loop.Idle? && taken == |script|)
    {
      taken := 0;
      var stop := false;
      while taken < |script| && !stop
        invariant 0 <= taken <= |script|
        invariant Abs() == Exec(cfg, old(Abs()), Expand(script[..taken]))
        invariant if stop then loop.Stopped? else loop.Idle?
      {
        ExecConcat(cfg, old(Abs()), Expand(script[..taken]), StepsOf(script[taken]));
        ExpandNext(script, taken);
        stop := OnEvent(script[taken]);
        taken := taken + 1;
      }
    }

    /** The drop: aborts every handler that still has a session. */
    method DropConnection()
      requires loop.Idle? || loop.Stopped?
      modifies this, world
      ensures Abs() == OnDrop(old(Abs()))
    {
      var rest := sessions;
      sessions := map[];
      loop := Dropped;
      world.doneQueue := [];
      ghost var begun := Abs();
      AbortingNone(world.tasks);
      while rest.Keys != {}
        invariant rest.Keys <= old(sessions).Keys
        invariant Abs() == begun.(tasks := world.tasks)
        invariant world.tasks == Aborting(old(world.tasks), old(sessions.Keys) - rest.Keys)
        decreases rest.Keys
      {
        var id :| id in rest.Keys;
        ghost var done := old(sessions).Keys - rest.Keys;
        AbortTask(id);
        AbortingOne(old(world.tasks), done, id);
        rest := Without(rest, id);
        assert old(sessions).Keys - rest.Keys == done + {id};
      }
      assert old(sessions).Keys - rest.Keys == old(sessions).Keys;
      AbortingAll(old(Abs()));
    }

    /** One connection from its start to its drop; other tasks may run before the drop. */
    method Serve(script: seq<Turn>, closing: seq<Step>) returns (taken: nat)
      requires Wired() && Abs() == INITIAL && AllFair(script) && AllOutside(closing)
      modifies this, world
      ensures taken <= |script| && Abs() == Run(cfg, Expand(script[..taken]) + closing + [Drop])
      ensures Takes(cfg, script) ==> taken == |script|
      ensures loop.Dropped? && sessions == map[]
    {
      taken := RunLoop(script);
      AllStayOutside(cfg, Abs(), closing, 0);
      ExecConcat(cfg, INITIAL, Expand(script[..taken]), closing);
      OtherTasks(closing);
      RunAppend(cfg, Expand(script[..taken]) + closing, Drop);
      DropConnection();
    }
  }

  // ---------------------------------------------------------------------------
  // Every schedule is such a run
  // ---------------------------------------------------------------------------

  /**
   * How far the loop is: the events it has handled, the Begin whose session it is about to
   * insert, and what the other tasks did since.
   */
  datatype Course = Course(script: seq<Turn>, opening: Option<RequestPacket>, tail: seq<Step>)

  function CourseSteps(c: Course): seq<Step> {
    Expand(c.script) + (if c.opening.Some? then [Packet(c.opening.value)] else []) + c.tail
  }

  ghost predicate Explains(cfg: Config, c: Course, s: State) {
    && Run(cfg, CourseSteps(c)) == s
    && Takes(cfg, c.script) && AllFair(c.script) && AllOutside(c.tail)
    && (s.loop.Idle? ==> c.opening.None? && c.tail == [])
    && (s.loop.Inserting? <==> c.opening.Some?)
    && (c.opening.Some? ==> Run(cfg, Expand(c.script)).loop.Idle?)
  }

  lemma TakesOne(cfg: Config, script: seq<Turn>, turn: Turn)
    requires Takes(cfg, script) && AllFair(script) && Fair(turn) && Run(cfg, Expand(script)).loop.Idle?
    ensures Takes(cfg, script + [turn]) && AllFair(script + [turn])
    ensures Run(cfg, Expand(script + [turn])) == Exec(cfg, Run(cfg, Expand(script)), StepsOf(turn))
  {
    var all := script + [turn];
    assert all[..|script|] == script && all[..|script| + 1] == all;
    ExpandNext(all, |script|);
    ExecConcat(cfg, INITIAL, Expand(script), StepsOf(turn));
    forall k | 0 <= k < |all| ensures Run(cfg, Expand(all[..k])).loop.Idle? {
      if k < |script| {
        assert all[..k] == script[..k];
      }
    }
  }

  lemma TailGrows(cfg: Config, c: Course, s: State, step: Step) returns (d: Course)
    requires Explains(cfg, c, s) && !s.loop.Idle? && Outside(step)
    ensures Explains(cfg, d, Next(cfg, s, step))
  {
    d := c.(tail := c.tail + [step]);
    assert CourseSteps(d) == CourseSteps(c) + [step];
    RunAppend(cfg, CourseSteps(c), step);
    StaysOutside(cfg, s, step);
  }

  lemma AfterTurn(cfg: Config, script: seq<Turn>, turn: Turn, t: State) returns (d: Course)
    requires Takes(cfg, script) && AllFair(script) && Fair(turn) && Run(cfg, Expand(script)).loop.Idle?
    requires t == Exec(cfg, Run(cfg, Expand(script)), StepsOf(turn)) && !t.loop.Inserting?
    ensures Explains(cfg, d, t)
  {
    TakesOne(cfg, script, turn);
    d := Course(script + [turn], None, []);
    assert CourseSteps(d) == Expand(d.script);
  }

  lemma IdleStep(cfg: Config, s: State, step: Step)
    requires s.loop.Idle? && !step.Packet?
    ensures !Next(cfg, s, step).loop.Inserting?
  {
  }

  lemma IdleTurns(cfg: Config, c: Course, s: State, step: Step) returns (d: Course)
    requires Explains(cfg, c, s) && s.loop.Idle? && !step.Packet? && !step.Drop? && !step.Insert?
    ensures Explains(cfg, d, Next(cfg, s, step))
  {
    assert CourseSteps(c) == Expand(c.script);
    ExecOne(cfg, s, step);
    IdleStep(cfg, s, step);
    d := AfterTurn(cfg, c.script, Turn(step, []), Next(cfg, s, step));
  }

  lemma PacketTurns(cfg: Config, c: Course, s: State, p: RequestPacket) returns (d: Course)
    requires Explains(cfg, c, s) && s.loop.Idle?
    ensures Explains(cfg, d, Next(cfg, s, Packet(p)))
  {
    assert CourseSteps(c) == Expand(c.script);
    var t := Next(cfg, s, Packet(p));
    if t.loop.Inserting? {
      d := Course(c.script, Some(p), []);
      assert CourseSteps(d) == Expand(c.script) + [Packet(p)];
      RunAppend(cfg, Expand(c.script), Packet(p));
    } else {
      PacketSteps(cfg, s, p, []);
      d := AfterTurn(cfg, c.script, Turn(Packet(p), []), t);
    }
  }

  lemma InsertedSteps(c: Course)
    requires c.opening.Some?
    ensures CourseSteps(c) + [Insert] == Expand(c.script) + StepsOf(Turn(Packet(c.opening.value), c.tail))
  {
  }

  lemma InsertTurns(cfg: Config, c: Course, s: State) returns (d: Course)
    requires Explains(cfg, c, s) && s.loop.Inserting? && Enabled(cfg, s, Insert)
    ensures Explains(cfg, d, Next(cfg, s, Insert))
  {
    var turn := Turn(Packet(c.opening.value), c.tail);
    InsertedSteps(c);
    RunAppend(cfg, CourseSteps(c), Insert);
    ExecConcat(cfg, INITIAL, Expand(c.script), StepsOf(turn));
    d := AfterTurn(cfg, c.script, turn, Next(cfg, s, Insert));
  }

  lemma CourseNext(cfg: Config, c: Course, s: State, step: Step) returns (d: Course)
    requires Explains(cfg, c, s) && !step.Drop?
    ensures Explains(cfg, d, Next(cfg, s, step))
  {
    if !Enabled(cfg, s, step) {
      d := c;
    } else if step.Packet? {
      d := PacketTurns(cfg, c, s, step.packet);
    } else if step.Insert? {
      d := InsertTurns(cfg, c, s);
    } else if s.loop.Idle? {
      d := IdleTurns(cfg, c, s, step);
    } else {
      d := TailGrows(cfg, c, s, step);
    }
  }

  lemma PacketNeverDrops(cfg: Config, s: State, p: RequestPacket)
    requires s.loop.Idle?
    ensures !OnPacket(cfg, s, p).loop.Dropped?
  {
  }

  lemma DropIsLast(cfg: Config, s: State, step: Step)
    ensures Next(cfg, s, step).loop.Dropped? ==>
      (s.loop.Dropped? && (Outside(step) || Next(cfg, s, step) == s)) || (Enabled(cfg, s, step) && step.Drop?)
    ensures !Next(cfg, s, step).loop.Dropped? ==> !s.loop.Dropped? && !(Enabled(cfg, s, step) && step.Drop?)
  {
    if step.Packet? && s.loop.Idle? {
      PacketNeverDrops(cfg, s, step.packet);
    }
  }

  lemma {:induction false} CourseOf(cfg: Config, schedule: seq<Step>) returns (c: Course)
    requires !Run(cfg, schedule).loop.Dropped?
    ensures Explains(cfg, c, Run(cfg, schedule))
  {
    if schedule == [] {
      c := Course([], None, []);
    } else {
      var n := |schedule| - 1;
      var s := Run(cfg, schedule[..n]);
      DropIsLast(cfg, s, schedule[n]);
      var before := CourseOf(cfg, schedule[..n]);
      if schedule[n].Drop? {
        c := before;
      } else {
        c := CourseNext(cfg, before, s, schedule[n]);
      }
    }
  }

  lemma AppendOne(cfg: Config, before: seq<Step>, after: seq<Step>, step: Step)
    ensures Run(cfg, before + (after + [step])) == Next(cfg, Run(cfg, before + after), step)
  {
    RunAppend(cfg, before + after, step);
    assert before + after + [step] == before + (after + [step]);
  }

  /**
   * Nothing is lost by running the loop's code as one thread: every schedule that drops the
   * connection ends like the loop's code on some script of events, with the other tasks
   * running in between, before the drop and after it.
   */
  lemma {:induction false} EveryRunIsServed(cfg: Config, schedule: seq<Step>)
      returns (script: seq<Turn>, closing: seq<Step>, after: seq<Step>)
    requires Run(cfg, schedule).loop.Dropped?
    ensures AllFair(script) && Takes(cfg, script) && AllOutside(closing) && AllOutside(after)
    ensures Run(cfg, schedule) == Run(cfg, Expand(script) + closing + [Drop] + after)
  {
    var n := |schedule| - 1;
    var s := Run(cfg, schedule[..n]);
    DropIsLast(cfg, s, schedule[n]);
    if s.loop.Dropped? {
      script, closing, after := EveryRunIsServed(cfg, schedule[..n]);
      if Outside(schedule[n]) {
        AppendOne(cfg, Expand(script) + closing + [Drop], after, schedule[n]);
        after := after + [schedule[n]];
      }
    } else {
      var c := CourseOf(cfg, schedule[..n]);
      script, closing, after := c.script, c.tail, [];
      AppendOne(cfg, Expand(script) + closing, [], Drop);
      assert Expand(script) + closing + [Drop] + after == Expand(script) + closing + ([] + [Drop]);
      assert CourseSteps(c) == Expand(script) + closing + [];
    }
  }
}
