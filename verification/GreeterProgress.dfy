/**
 * The example handlers are finite: left alone with the input they have, they return or
 * wait for more. So a pipe that serves only the greeter completes every call.
 */
module GreeterProgress {
  import opened Wire
  import opened Services
  import opened Protocol
  import opened Calls
  import opened Typed
  import opened Generator
  import opened Greeter
  import opened Progress
  import opened Client
  import opened Guarantees

  ghost predicate Serves(t: Task, codec: Codec, name: string, streaming: bool, sink: bool) {
    t.service == GreeterService(codec) && t.call.methodName == name
    && t.call.payload.Streaming? == streaming && t.call.sink == sink
  }

  /** Two actions for each waiting item, and the end of the stream. */
  function BidiBound(t: Task): nat {
    2 * |t.inbox| + if t.Act().Send? then 2 else 1
  }

  lemma BidiStepsOn(t: Task, codec: Codec, seen: Bytes)
    requires Serves(t, codec, "Bidi", true, true) && t.rxHeld && EndOf(t.Act()).None?
    ensures var u := t.After(true, seen);
      EndOf(u.Act()).Some? || (Serves(u, codec, "Bidi", true, true) && u.rxHeld && BidiBound(u) < BidiBound(t))
  {
    BidiHandles(codec, t.call, t.hist);
    var u := t.After(true, seen);
    BidiHandles(codec, u.call, u.hist);
  }

  lemma {:induction false} MoreFuel(t: Task, open: bool, n: nat, m: nat)
    requires Quiesces(t, open, n) && n <= m
    ensures Quiesces(t, open, m)
    decreases n
  {
    if n > 0 && forall seen: Bytes :: Quiesces(t.After(true, seen), open, n - 1) {
      forall seen: Bytes ensures Quiesces(t.After(true, seen), open, m - 1) {
        MoreFuel(t.After(true, seen), open, n - 1, m - 1);
      }
    }
  }

  lemma {:induction false} BidiQuiesces(t: Task, codec: Codec, open: bool)
    requires Serves(t, codec, "Bidi", true, true) && t.rxHeld
    ensures Quiesces(t, open, BidiBound(t))
    decreases BidiBound(t)
  {
    if EndOf(t.Act()).None? {
      forall seen: Bytes ensures Quiesces(t.After(true, seen), open, BidiBound(t) - 1) {
        var u := t.After(true, seen);
        BidiStepsOn(t, codec, seen);
        if EndOf(u.Act()).None? {
          BidiQuiesces(u, codec, open);
          MoreFuel(u, open, BidiBound(u), BidiBound(t) - 1);
        }
      }
    }
  }

  lemma ClientStreamStepsOn(t: Task, codec: Codec, seen: Bytes)
    requires Serves(t, codec, "ClientStream", true, false) && t.rxHeld && EndOf(t.Act()).None?
    ensures var u := t.After(true, seen);
      EndOf(u.Act()).Some?
      || (t.inbox != [] && Serves(u, codec, "ClientStream", true, false) && u.rxHeld && |u.inbox| == |t.inbox| - 1)
  {
    ClientStreamHandles(codec, t.call, t.hist);
    var u := t.After(true, seen);
    ClientStreamHandles(codec, u.call, u.hist);
  }

  lemma {:induction false} ClientStreamQuiesces(t: Task, codec: Codec, open: bool)
    requires Serves(t, codec, "ClientStream", true, false) && t.rxHeld
    ensures Quiesces(t, open, |t.inbox| + 1)
    decreases |t.inbox|
  {
    if EndOf(t.Act()).None? {
      forall seen: Bytes ensures Quiesces(t.After(true, seen), open, |t.inbox|) {
        var u := t.After(true, seen);
        ClientStreamStepsOn(t, codec, seen);
        if EndOf(u.Act()).None? {
          ClientStreamQuiesces(u, codec, open);
        }
      }
    }
  }

  lemma ServerStreamStepsOn(t: Task, codec: Codec, seen: Bytes)
    requires Serves(t, codec, "ServerStream", false, true) && EndOf(t.Act()).None?
    ensures |t.hist| < 3
    ensures var u := t.After(true, seen);
      Serves(u, codec, "ServerStream", false, true) && |u.hist| == |t.hist| + 1
  {
    ServerStreamHandles(codec, t.call, t.hist);
  }

  lemma {:induction false} ServerStreamQuiesces(t: Task, codec: Codec, open: bool)
    requires Serves(t, codec, "ServerStream", false, true) && |t.hist| <= 3
    ensures Quiesces(t, open, 3 - |t.hist|)
    decreases 3 - |t.hist|
  {
    if EndOf(t.Act()).None? {
      ServerStreamStepsOn(t, codec, []);
      forall seen: Bytes ensures Quiesces(t.After(true, seen), open, 2 - |t.hist|) {
        ServerStreamStepsOn(t, codec, seen);
        ServerStreamQuiesces(t.After(true, seen), codec, open);
      }
    }
  }

  lemma {:induction false} NeverDrops(service: Service, call: Call, hist: seq<Obs>)
    requires Follows(service, call, hist)
    requires forall h :: !service.handle(call, h).DropRx?
    ensures DroppedRx !in hist
  {
    if hist != [] {
      NeverDrops(service, call, hist[..|hist| - 1]);
      assert hist == hist[..|hist| - 1] + [hist[|hist| - 1]];
    }
  }

  /** Enough for any of the four handlers on any waiting input. */
  function GreeterFuel(s: State): map<ReqId, nat> {
    map id | id in s.tasks :: 2 * |s.tasks[id].inbox| + 3
  }

  lemma BidiIsFinite(cfg: Config, t: Task, codec: Codec, open: bool)
    requires TaskOk(cfg, t, true) && t.phase.Running? && Serves(t, codec, "Bidi", true, true)
    ensures Quiesces(t, open, 2 * |t.inbox| + 3)
  {
    forall h ensures !t.service.handle(t.call, h).DropRx? {
      BidiHandles(codec, t.call, h);
    }
    NeverDrops(t.service, t.call, t.hist);
    BidiQuiesces(t, codec, open);
    MoreFuel(t, open, BidiBound(t), 2 * |t.inbox| + 3);
  }

  lemma ClientStreamIsFinite(cfg: Config, t: Task, codec: Codec, open: bool)
    requires TaskOk(cfg, t, true) && t.phase.Running? && Serves(t, codec, "ClientStream", true, false)
    ensures Quiesces(t, open, 2 * |t.inbox| + 3)
  {
    forall h ensures !t.service.handle(t.call, h).DropRx? {
      ClientStreamHandles(codec, t.call, h);
    }
    NeverDrops(t.service, t.call, t.hist);
    ClientStreamQuiesces(t, codec, open);
    MoreFuel(t, open, |t.inbox| + 1, 2 * |t.inbox| + 3);
  }

  lemma ServerStreamIsFinite(cfg: Config, t: Task, codec: Codec, open: bool)
    requires TaskOk(cfg, t, true) && t.phase.Running? && Serves(t, codec, "ServerStream", false, true)
    ensures Quiesces(t, open, 2 * |t.inbox| + 3)
  {
    ServerStreamRun(codec, t.call, t.hist);
    ServerStreamQuiesces(t, codec, open);
    MoreFuel(t, open, 3 - |t.hist|, 2 * |t.inbox| + 3);
  }

  lemma HandlerIsFinite(cfg: Config, t: Task, codec: Codec, open: bool)
    requires TaskOk(cfg, t, true) && t.phase.Running? && t.service == GreeterService(codec)
    ensures Quiesces(t, open, 2 * |t.inbox| + 3)
  {
    RoutedCallsFit(cfg.router, t.begin, GREETER, codec, MyGreeter, t.call);
    MethodNames(t.call.methodName);
    if t.call.methodName == "Bidi" {
      BidiIsFinite(cfg, t, codec, open);
    } else if t.call.methodName == "ClientStream" {
      ClientStreamIsFinite(cfg, t, codec, open);
    } else if t.call.methodName == "ServerStream" {
      ServerStreamIsFinite(cfg, t, codec, open);
    } else {
      UnaryHandles(codec, t.call, t.hist);
    }
  }

  /** Only the greeter is registered, under whatever names. */
  ghost predicate ServesGreeter(cfg: Config, codec: Codec) {
    forall name :: name in cfg.router ==> cfg.router[name] == GreeterService(codec)
  }

  lemma RoutedToGreeter(cfg: Config, t: Task, codec: Codec)
    requires ServesGreeter(cfg, codec) && Route(cfg.router, t.begin) == Start(t.service, t.call)
    ensures t.service == GreeterService(codec)
  {
  }

  lemma GreeterTask(cfg: Config, t: Task, codec: Codec, open: bool)
    requires TaskOk(cfg, t, true) && t.phase.Running? && ServesGreeter(cfg, codec)
    ensures Quiesces(t, open, 2 * |t.inbox| + 3)
  {
    RoutedToGreeter(cfg, t, codec);
    HandlerIsFinite(cfg, t, codec, open);
  }

  ghost predicate AllQuiesce(s: State) {
    forall n :: n in s.tasks && s.tasks[n].phase.Running? ==>
      Quiesces(s.tasks[n], StillOpen(s, n), 2 * |s.tasks[n].inbox| + 3)
  }

  lemma GreeterFueled(s: State)
    requires AllQuiesce(s)
    ensures Fueled(s, GreeterFuel(s))
  {
  }

  lemma TaskIsOk(cfg: Config, s: State, n: ReqId)
    requires Inv(cfg, s) && n in s.tasks
    ensures TaskOk(cfg, s.tasks[n], s.writer.Up?)
  {
    assert HistoryInv(cfg, s, n);
  }

  lemma GreeterQuiesces(cfg: Config, s: State, codec: Codec, n: ReqId)
    requires Inv(cfg, s) && s.writer.Up? && ServesGreeter(cfg, codec)
    requires n in s.tasks && s.tasks[n].phase.Running?
    ensures Quiesces(s.tasks[n], StillOpen(s, n), 2 * |s.tasks[n].inbox| + 3)
  {
    TaskIsOk(cfg, s, n);
    GreeterTask(cfg, s.tasks[n], codec, StillOpen(s, n));
  }

  lemma AllGreetersQuiesce(cfg: Config, s: State, codec: Codec)
    requires Inv(cfg, s) && s.writer.Up? && ServesGreeter(cfg, codec)
    ensures AllQuiesce(s)
  {
    forall n | n in s.tasks && s.tasks[n].phase.Running?
      ensures Quiesces(s.tasks[n], StillOpen(s, n), 2 * |s.tasks[n].inbox| + 3)
    {
      GreeterQuiesces(cfg, s, codec, n);
    }
  }

  /**
   * A pipe that serves only the greeter: from every reachable state with the loop alive
   * and outbound accepting, every schedule of the server's own steps runs out, and then
   * each call waits for its client, was cancelled or killed, or was closed exactly once.
   */
  lemma GreeterCompletes(cfg: Config, before: seq<Step>, after: seq<Step>, codec: Codec, id: ReqId)
    requires cfg.cap >= 1 && ServesGreeter(cfg, codec)
    requires LoopAlive(Run(cfg, before)) && Run(cfg, before).writer.Up?
    requires Drives(cfg, Run(cfg, before), after)
    ensures |after| <= Measure(Run(cfg, before), GreeterFuel(Run(cfg, before)))
    ensures Stuck(cfg, Run(cfg, before + after)) ==> Settled(Run(cfg, before + after), id)
  {
    InvAlways(cfg, before);
    AllGreetersQuiesce(cfg, Run(cfg, before), codec);
    GreeterFueled(Run(cfg, before));
    ExecConcat(cfg, INITIAL, before, after);
    Completion(cfg, Run(cfg, before), after, GreeterFuel(Run(cfg, before)), id);
  }

  /** The call of a Begin for a method of the greeter, sent with the payload of its shape. */
  lemma GreeterIsReached(cfg: Config, codec: Codec, name: string, begin: Begin) returns (call: Call)
    requires ServesGreeter(cfg, codec) && GREETER_NAME in cfg.router
    requires begin.methodPath == "/" + GREETER_NAME + "/" + name && MethodFor(GREETER, name).Some?
    requires MethodFor(GREETER, name).value.clientStreaming == begin.singleRequest.None?
    ensures Route(cfg.router, begin) == Start(GreeterService(codec), call) && call.methodName == name
  {
    GreeterIsNamed();
    RegisteredIsReached(cfg.router, GREETER_DESC, codec, MyGreeter, name, begin);
    call := Route(cfg.router, begin).call;
  }

  /**
   * The example service, whole. A pipe serves the greeter; a documented client has sent a
   * complete request for one of its methods and has not cancelled it. However the server's
   * steps are scheduled they run out, and then exactly the answer of that method to the
   * uploaded bodies has been delivered, whatever other calls were doing.
   */
  lemma GreeterAnswers(cfg: Config, before: seq<Step>, after: seq<Step>, codec: Codec,
                       id: ReqId, name: string, begin: Begin)
    requires cfg.cap >= 1 && ServesGreeter(cfg, codec) && GREETER_NAME in cfg.router
    requires Documented(cfg, Taken(cfg, before))
    requires LoopAlive(Run(cfg, before)) && Run(cfg, before).writer.Up?
    requires Drives(cfg, Run(cfg, before), after)
    requires UploadOf(Taken(cfg, before), id).begin == Some(begin)
    requires begin.methodPath == "/" + GREETER_NAME + "/" + name && MethodFor(GREETER, name).Some?
    requires MethodFor(GREETER, name).value.clientStreaming == begin.singleRequest.None?
    requires var c := ClientCallOf(cfg, Taken(cfg, before), id); c.SingleSent? || c.HalfClosed?
    ensures |after| <= Measure(Run(cfg, before), GreeterFuel(Run(cfg, before)))
    ensures Stuck(cfg, Run(cfg, before + after)) ==>
      FramesFor(Run(cfg, before + after).delivered, id)
      == GreeterWire(codec, name, UploadOf(Taken(cfg, before), id))
  {
    var t := Run(cfg, before + after);
    GreeterCompletes(cfg, before, after, codec, id);
    StillTaken(cfg, before, after);
    if Stuck(cfg, t) {
      var call := GreeterIsReached(cfg, codec, name, begin);
      var c := ClientCallOf(cfg, Taken(cfg, before), id);
      InvAlways(cfg, before + after);
      assert ClientInv(cfg, t, id);
      CompleteRequestsRunOut(cfg, t, id, c, GreeterService(codec), call);
      GreeterEndToEnd(cfg, before + after, id, codec, name);
    }
  }
}
