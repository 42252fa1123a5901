/**
 * proto-service-build: `gen_service_impl` and `gen_server_trait` as a compiler from a
 * method list to dispatch arms, descriptor arms and trait signatures, with the meaning
 * of the generated `handle` and `describe_method`.
 */
module Generator {
  import opened Wire
  import opened Metadata
  import opened Services
  import opened Protocol
  import opened Calls
  import opened Typed
  import Accounting

  datatype Method = Method(
    name: string,
    protoName: string,
    inputType: string,
    outputType: string,
    clientStreaming: bool,
    serverStreaming: bool)

  datatype ServiceDesc = ServiceDesc(package: string, protoName: string, methods: seq<Method>)

  datatype DecodeForm = DecodeOne(typeName: string) | DecodeStream(typeName: string)

  datatype RespondForm = SendUnary(ident: string) | StreamResponse(ident: string)

  /** One arm of the generated `handle`. */
  datatype Arm = Arm(key: string, decode: DecodeForm, respond: RespondForm)

  /** One arm of the generated `describe_method`. */
  datatype DescribeArm = DescribeArm(key: string, descriptor: MethodDescriptor)

  /** The method of the generated trait. */
  datatype Signature = Signature(ident: string, streamRequest: bool, responseParam: bool, returnsResponse: bool)

  // ---------------------------------------------------------------------------
  // Generation
  // ---------------------------------------------------------------------------

  function HandleArmOf(m: Method): Arm {
    match (m.clientStreaming, m.serverStreaming)
    case (false, false) => Arm(m.protoName, DecodeOne(m.inputType), SendUnary(m.name))
    case (false, true) => Arm(m.protoName, DecodeOne(m.inputType), StreamResponse(m.name))
    case (true, false) => Arm(m.protoName, DecodeStream(m.inputType), SendUnary(m.name))
    case (true, true) => Arm(m.protoName, DecodeStream(m.inputType), StreamResponse(m.name))
  }

  function DescribeArmOf(m: Method): DescribeArm {
    DescribeArm(m.protoName, MethodDescriptor(m.clientStreaming, m.serverStreaming))
  }

  function SignatureOf(m: Method): Signature {
    match (m.clientStreaming, m.serverStreaming)
    case (false, false) => Signature(m.name, false, false, true)
    case (false, true) => Signature(m.name, false, true, false)
    case (true, false) => Signature(m.name, true, false, true)
    case (true, true) => Signature(m.name, true, true, false)
  }

  function ServiceName(service: ServiceDesc): string {
    if service.package == "" then service.protoName else service.package + "." + service.protoName
  }

  // ---------------------------------------------------------------------------
  // The generated match expressions: the first arm with the key is taken
  // ---------------------------------------------------------------------------

  function ArmFor(arms: seq<Arm>, name: string): Option<Arm> {
    if arms == [] then None
    else if arms[0].key == name then Some(arms[0])
    else ArmFor(arms[1..], name)
  }

  function DescriptorFor(descriptors: seq<DescribeArm>, name: string): Option<MethodDescriptor> {
    if descriptors == [] then None
    else if descriptors[0].key == name then Some(descriptors[0].descriptor)
    else DescriptorFor(descriptors[1..], name)
  }

  /** The first method of that name in the proto service. */
  function MethodFor(methods: seq<Method>, name: string): Option<Method> {
    if methods == [] then None
    else if methods[0].protoName == name then Some(methods[0])
    else MethodFor(methods[1..], name)
  }

  ghost predicate Generated(methods: seq<Method>, arms: seq<Arm>, descriptors: seq<DescribeArm>) {
    && |arms| == |descriptors| == |methods|
    && forall i :: 0 <= i < |methods| ==>
         arms[i] == HandleArmOf(methods[i]) && descriptors[i] == DescribeArmOf(methods[i])
  }

  predicate OneShape(d: MethodDescriptor, a: Arm, sig: Signature) {
    && d.clientStreaming == a.decode.DecodeStream? == sig.streamRequest
    && d.serverStreaming == a.respond.StreamResponse? == sig.responseParam
    && sig.returnsResponse == !d.serverStreaming
    && a.respond.ident == sig.ident
  }

  /**
   * `handle` and `describe_method` choose the same method or both choose none; the
   * descriptor, the decoding, the response and the trait signature have one shape.
   */
  lemma {:induction false} SameChoice(methods: seq<Method>, arms: seq<Arm>, descriptors: seq<DescribeArm>, name: string)
    requires Generated(methods, arms, descriptors)
    ensures var m := MethodFor(methods, name); var a := ArmFor(arms, name); var d := DescriptorFor(descriptors, name);
      && (m.None? <==> a.None?) && (m.None? <==> d.None?)
      && (m.Some? ==> a == Some(HandleArmOf(m.value)) && d == Some(DescribeArmOf(m.value).descriptor))
      && (m.Some? ==> OneShape(d.value, a.value, SignatureOf(m.value)))
      && (m.Some? ==> m.value in methods && m.value.protoName == name)
  {
    if methods != [] && methods[0].protoName != name {
      SameChoice(methods[1..], arms[1..], descriptors[1..], name);
    }
  }

  /** Walks the method list once, pushing one arm and one descriptor for each method. */
  method GenServiceImpl(service: ServiceDesc) returns (arms: seq<Arm>, descriptors: seq<DescribeArm>)
    ensures |arms| == |descriptors| == |service.methods|
    ensures forall i :: 0 <= i < |arms| ==>
      arms[i] == HandleArmOf(service.methods[i]) && descriptors[i] == DescribeArmOf(service.methods[i])
    ensures forall name :: MethodFor(service.methods, name).None? <==> ArmFor(arms, name).None?
    ensures forall name :: DescriptorFor(descriptors, name).Some? <==> ArmFor(arms, name).Some?
  {
    arms, descriptors := [], [];
    for i := 0 to |service.methods|
      invariant |arms| == |descriptors| == i
      invariant forall j :: 0 <= j < i ==>
        arms[j] == HandleArmOf(service.methods[j]) && descriptors[j] == DescribeArmOf(service.methods[j])
    {
      arms := arms + [HandleArmOf(service.methods[i])];
      descriptors := descriptors + [DescribeArmOf(service.methods[i])];
    }
    forall name ensures (MethodFor(service.methods, name).None? <==> ArmFor(arms, name).None?)
                     && (DescriptorFor(descriptors, name).Some? <==> ArmFor(arms, name).Some?) {
      SameChoice(service.methods, arms, descriptors, name);
    }
  }

  // ---------------------------------------------------------------------------
  // What the generated `handle` does
  // ---------------------------------------------------------------------------

  /** The decoded first argument of a trait method. */
  datatype Incoming = OneRequest(headers: Rows, msg: Msg) | StreamRequest(headers: Rows)

  /** The user's implementation of the trait: a typed program for each method and request. */
  type User = (string, Incoming, seq<TObs>) -> TAction

  const METHOD_NOT_FOUND := EndError(Status(Unimplemented, "method not found"))
  const MISSING_CHANNEL := EndError(Status(Internal, "missing response channel"))

  /** How far the generated code of a call gets before the user's method. */
  datatype Dispatch = Fault(end: CallEnd) | BadRequest | Invoke(arm: Arm, incoming: Incoming)

  function DispatchOf(arms: seq<Arm>, codec: Codec, call: Call): Dispatch {
    var arm := ArmFor(arms, call.methodName);
    if arm.None? then Fault(METHOD_NOT_FOUND)
    else match arm.value.decode
      case DecodeOne(typeName) =>
        (match IntoSingle(call.payload)
         case Err(end) => Fault(end)
         case Ok(bytes) =>
           var msg := codec.decode(typeName, bytes);
           if msg.None? then BadRequest
           else if arm.value.respond.StreamResponse? && !call.sink then Fault(MISSING_CHANNEL)
           else Invoke(arm.value, OneRequest(call.headers, msg.value)))
      case DecodeStream(_) =>
        (match IntoStreaming(call.payload)
         case Err(end) => Fault(end)
         case Ok(_) =>
           if arm.value.respond.StreamResponse? && !call.sink then Fault(MISSING_CHANNEL)
           else Invoke(arm.value, StreamRequest(call.headers)))
  }

  /** The reply a trait method returns, as the arm turns it into the end of the call. */
  function EndOfReply(codec: Codec, respond: RespondForm, result: Result<Reply, Status>): Action {
    match result
    case Err(status) => Return(EndError(status))
    case Ok(SingleReply(headers, msg, trailers)) =>
      if respond.SendUnary? then Return(EndSingle(headers, codec.encode(msg), trailers)) else Panic
    case Ok(StreamReply(trailers)) =>
      if respond.StreamResponse? then Return(EndStreaming(trailers)) else Panic
  }

  function Program(user: User, arm: Arm, incoming: Incoming): seq<TObs> -> TAction {
    h => user(arm.respond.ident, incoming, h)
  }

  /**
   * One action of the user's method. Rust's types rule out receiving without a request
   * stream, sending without a response, and a reply of the wrong kind; these panic here.
   */
  function Perform(codec: Codec, arm: Arm, a: TAction, hist: seq<Obs>): Action {
    if a.Finish? then EndOfReply(codec, arm.respond, a.result)
    else if (a.SendHeaders? || a.SendMessage?) && arm.respond.SendUnary? then Panic
    else if (a.NextItem? || a.DropStream?) && arm.decode.DecodeOne? then Panic
    else LowerAction(codec, a, Opened(hist))
  }

  /** What the user's method does next, on what it has seen so far. */
  function UserAction(codec: Codec, user: User, arm: Arm, incoming: Incoming, hist: seq<Obs>): TAction {
    var prog := Program(user, arm, incoming);
    prog(TypedHist(codec, arm.decode.typeName, prog, hist))
  }

  function RunUser(codec: Codec, user: User, arm: Arm, incoming: Incoming, hist: seq<Obs>): Action {
    Perform(codec, arm, UserAction(codec, user, arm, incoming, hist), hist)
  }

  function Handle(arms: seq<Arm>, codec: Codec, user: User, call: Call, hist: seq<Obs>): Action {
    match DispatchOf(arms, codec, call)
    case Fault(end) => Return(end)
    case BadRequest => Return(EndError(DECODE_FAILED))
    case Invoke(arm, incoming) => RunUser(codec, user, arm, incoming, hist)
  }

  function Arms(methods: seq<Method>): seq<Arm> {
    seq(|methods|, i requires 0 <= i < |methods| => HandleArmOf(methods[i]))
  }

  function Descriptors(methods: seq<Method>): seq<DescribeArm> {
    seq(|methods|, i requires 0 <= i < |methods| => DescribeArmOf(methods[i]))
  }

  /** The generated server for `methods` around the user's implementation. */
  function GeneratedService(methods: seq<Method>, codec: Codec, user: User): Service {
    Service(
      name => DescriptorFor(Descriptors(methods), name),
      (call, hist) => Handle(Arms(methods), codec, user, call, hist))
  }

  // ---------------------------------------------------------------------------
  // Composition with the connection
  // ---------------------------------------------------------------------------

  lemma ArmsGenerated(methods: seq<Method>)
    ensures Generated(methods, Arms(methods), Descriptors(methods))
  {
  }

  /** The generated server sends only through `StreamingResponse`. */
  lemma GeneratedUsesStreamingResponse(methods: seq<Method>, codec: Codec, user: User)
    ensures UsesStreamingResponse(GeneratedService(methods, codec, user))
  {
  }

  /** Whatever the router started on a generated service reaches the user's method. */
  lemma RoutedCallsFit(router: map<string, Service>, begin: Begin,
                       methods: seq<Method>, codec: Codec, user: User, call: Call)
    requires Route(router, begin) == Start(GeneratedService(methods, codec, user), call)
    ensures !DispatchOf(Arms(methods), codec, call).Fault?
    ensures MethodFor(methods, call.methodName).Some?
    ensures var m := MethodFor(methods, call.methodName).value;
      call.payload.Streaming? == m.clientStreaming && call.sink == m.serverStreaming
  {
    var svc := GeneratedService(methods, codec, user);
    ArmsGenerated(methods);
    SameChoice(methods, Arms(methods), Descriptors(methods), call.methodName);
    assert svc.describe(call.methodName) == DescriptorFor(Descriptors(methods), call.methodName);
  }

  /**
   * A generated service registered under its own name is what "/package.Service/Method"
   * reaches, for exactly the methods it has, each with the payload and sink of its shape.
   */
  lemma RegisteredIsReached(router: map<string, Service>, service: ServiceDesc, codec: Codec, user: User,
                            name: string, begin: Begin)
    requires '/' !in ServiceName(service) && ServiceName(service) in router
    requires router[ServiceName(service)] == GeneratedService(service.methods, codec, user)
    requires begin.methodPath == "/" + ServiceName(service) + "/" + name
    ensures var m := MethodFor(service.methods, name); var routing := Route(router, begin);
      && (routing.Start? <==> m.Some? && (m.value.clientStreaming || begin.singleRequest.Some?))
      && (m.None? ==> routing == Reject(Status(Unimplemented, "unknown method")))
      && (routing.Start? ==>
            && routing.service == GeneratedService(service.methods, codec, user)
            && routing.call.methodName == name
            && routing.call.sink == m.value.serverStreaming
            && routing.call.payload ==
                 if m.value.clientStreaming then Streaming else Single(begin.singleRequest.value))
  {
    ParseMethodInverse(begin.methodPath, ServiceName(service), name);
    ArmsGenerated(service.methods);
    SameChoice(service.methods, Arms(service.methods), Descriptors(service.methods), name);
    var svc := GeneratedService(service.methods, codec, user);
    assert svc.describe(name) == DescriptorFor(Descriptors(service.methods), name);
  }

  /**
   * The request the user's method gets: the metadata of the call for both payload forms,
   * and for a single request the message its bytes decode to.
   */
  predicate IncomingFits(codec: Codec, m: Method, call: Call, incoming: Incoming) {
    && incoming.headers == call.headers
    && incoming.StreamRequest? == m.clientStreaming == call.payload.Streaming?
    && (incoming.OneRequest? && call.payload.Single? ==>
          codec.decode(m.inputType, call.payload.bytes) == Some(incoming.msg))
  }

  /** A routed call reaches its own method with its own request, unless that does not decode. */
  lemma DispatchFits(router: map<string, Service>, begin: Begin,
                     methods: seq<Method>, codec: Codec, user: User, call: Call)
    requires Route(router, begin) == Start(GeneratedService(methods, codec, user), call)
    ensures var d := DispatchOf(Arms(methods), codec, call); var m := MethodFor(methods, call.methodName);
      && m.Some? && m.value.protoName == call.methodName
      && (d.BadRequest? <==>
            call.payload.Single? && codec.decode(m.value.inputType, call.payload.bytes).None?)
      && (!d.BadRequest? ==>
            && d.Invoke? && IncomingFits(codec, m.value, call, d.incoming)
            && d.arm.respond.ident == m.value.name && d.arm.decode.typeName == m.value.inputType
            && d.arm.respond.StreamResponse? == m.value.serverStreaming)
  {
    RoutedCallsFit(router, begin, methods, codec, user, call);
    ArmsGenerated(methods);
    SameChoice(methods, Arms(methods), Descriptors(methods), call.methodName);
  }

  /** The errors that the generated code guards against and routed calls never see. */
  lemma DefensiveFaults(arms: seq<Arm>, codec: Codec, call: Call)
    ensures var d := DispatchOf(arms, codec, call); var arm := ArmFor(arms, call.methodName);
      && (arm.None? ==>
            d == Fault(CallEnd([], Status(Unimplemented, "method not found"), None, None)))
      && (arm.Some? && arm.value.decode.DecodeOne? && call.payload.Streaming? ==>
            d == Fault(CallEnd([], Status(InvalidArgument, "expected single request"), None, None)))
      && (arm.Some? && arm.value.decode.DecodeStream? && call.payload.Single? ==>
            d == Fault(CallEnd([], Status(InvalidArgument, "expected streaming request"), None, None)))
      && (arm.Some? && arm.value.decode.DecodeStream? == call.payload.Streaming? && !d.BadRequest?
          && arm.value.respond.StreamResponse? && !call.sink ==>
            d == Fault(CallEnd([], Status(Internal, "missing response channel"), None, None)))
  {
  }

  /** A single response only ever travels with status OK, from a single-response method. */
  lemma SingleResponseIsOk(methods: seq<Method>, codec: Codec, user: User, call: Call, hist: seq<Obs>)
    ensures var end := EndOf(GeneratedService(methods, codec, user).handle(call, hist));
      end.Some? && end.value.singleResponse.Some? ==>
        && end.value.status.code == CodeOk
        && MethodFor(methods, call.methodName).Some?
        && !MethodFor(methods, call.methodName).value.serverStreaming
  {
    ArmsGenerated(methods);
    SameChoice(methods, Arms(methods), Descriptors(methods), call.methodName);
  }

  lemma {:induction false} NoSinkNoFrames(hist: seq<Obs>, up: bool)
    requires SendsFit(hist, false, up)
    ensures SentFrames(hist) == []
  {
    if hist != [] {
      NoSinkNoFrames(hist[..|hist| - 1], up);
    }
  }

  predicate CloseFits(f: ResponseFrame) {
    f.CloseFrame? && f.singleResponse.Some? ==> f.status.code == 0
  }

  lemma OwnClosesFit(methods: seq<Method>, codec: Codec, user: User, t: Task)
    requires t.service == GeneratedService(methods, codec, user)
    requires t.closed.Some? ==> EndOf(t.Act()) == t.closed
    ensures forall f :: f in OwnFrames(t) ==> CloseFits(f)
  {
    SingleResponseIsOk(methods, codec, user, t.call, t.hist);
    assert forall f :: f in WireFrames(SentFrames(t.hist)) ==> !f.CloseFrame?;
  }

  lemma CallClosesFit(s: State, id: ReqId)
    requires FrameInv(s, id) && id in s.tasks && forall f :: f in OwnFrames(s.tasks[id]) ==> CloseFits(f)
    ensures forall f :: f in FramesFor(s.enqueued, id) ==> CloseFits(f)
  {
  }

  /**
   * In every run, every call handled by a generated service reaches its trait method (or
   * fails to decode); any Close with a single response has status OK; and a
   * single-response method puts nothing before its Close.
   */
  lemma GeneratedOnTheWire(cfg: Config, schedule: seq<Step>, id: ReqId,
                           methods: seq<Method>, codec: Codec, user: User)
    requires id in Run(cfg, schedule).tasks
    requires Run(cfg, schedule).tasks[id].service == GeneratedService(methods, codec, user)
    ensures var s := Run(cfg, schedule); var t := s.tasks[id];
      && !DispatchOf(Arms(methods), codec, t.call).Fault?
      && MethodFor(methods, t.call.methodName).Some?
      && (forall f :: f in FramesFor(s.enqueued, id) ==> CloseFits(f))
      && (!MethodFor(methods, t.call.methodName).value.serverStreaming ==> SentFrames(t.hist) == [])
  {
    InvAlways(cfg, schedule);
    var s := Run(cfg, schedule);
    assert HistoryInv(cfg, s, id);
    var t := s.tasks[id];
    RoutedCallsFit(cfg.router, t.begin, methods, codec, user, t.call);
    OwnClosesFit(methods, codec, user, t);
    CallClosesFit(s, id);
    if !t.call.sink {
      NoSinkNoFrames(t.hist, s.writer.Up?);
    }
  }

  /** What the user's method has seen after one more action, while the writer is up. */
  function SeenBy(codec: Codec, user: User, arm: Arm, incoming: Incoming, t: Task): seq<TObs> {
    TypedHist(codec, arm.decode.typeName, Program(user, arm, incoming), t.hist)
  }

  /**
   * One action of the user's method as a step of its task: receiving takes the next item or
   * the end, sends are observed as they went, work observes what it read, a crash ends the
   * call as a panic, and only finishing and crashing end it.
   */
  predicate StepsAs(codec: Codec, typeName: string, a: TAction, seen: Bytes, t: Task, u: Task,
                    before: seq<TObs>, after: seq<TObs>) {
    match a
    case NextItem =>
      u.phase.Running? &&
      if !t.rxHeld then after == before + [Other]
      else if t.inbox == [] then after == before + [Item(None)]
      else
        && u.inbox == t.inbox[1..] && |after| == |before| + 1 && after[..|before|] == before
        && after[|before|].Item? && after[|before|].item.Some?
        && DecodesTo(codec, typeName, t.inbox[0], after[|before|].item.value)
    case SendHeaders(_) =>
      u.phase.Running? && after == before + [HeadersSent(if Opened(t.hist) then AlreadyOpened else SendOk)]
    case SendMessage(_) => u.phase.Running? && after == before + [MessageSent(true)]
    case DropStream => u.phase.Running? && !u.rxHeld && u.inbox == [] && after == before + [Other]
    case Work => u.phase.Running? && after == before + [Worked(seen)]
    case Finish(_) => u.phase.Closing? && !u.rxHeld
    case Crash => !u.rxHeld && u.phase == Closing(CallEnd([], Status(Internal, "handler panicked"), None, None))
  }

  lemma TypedAppend(codec: Codec, typeName: string, prog: seq<TObs> -> TAction, hist: seq<Obs>, o: Obs)
    ensures var before := TypedHist(codec, typeName, prog, hist);
      TypedHist(codec, typeName, prog, hist + [o]) == before + [TypedObs(codec, typeName, prog(before), o)]
  {
    assert (hist + [o])[..|hist|] == hist;
  }

  /** What Rust's types allow the method to do: stream only what its signature has. */
  predicate AllowedBy(arm: Arm, a: TAction) {
    && (a.SendHeaders? || a.SendMessage? ==> arm.respond.StreamResponse?)
    && (a.NextItem? || a.DropStream? ==> arm.decode.DecodeStream?)
    && (a.Finish? && a.result.Ok? ==> a.result.value.StreamReply? == arm.respond.StreamResponse?)
  }

  lemma TypedReceives(t: Task, seen: Bytes, methods: seq<Method>, codec: Codec, user: User,
                      arm: Arm, incoming: Incoming)
    requires t.service == GeneratedService(methods, codec, user) && t.phase.Running?
    requires DispatchOf(Arms(methods), codec, t.call) == Invoke(arm, incoming)
    requires arm.respond.StreamResponse? ==> t.call.sink
    requires AllowedBy(arm, UserAction(codec, user, arm, incoming, t.hist))
    requires var a := UserAction(codec, user, arm, incoming, t.hist); a.NextItem? || a.DropStream?
    ensures StepsAs(codec, arm.decode.typeName, UserAction(codec, user, arm, incoming, t.hist), seen,
                    t, t.After(true, seen),
                    SeenBy(codec, user, arm, incoming, t), SeenBy(codec, user, arm, incoming, t.After(true, seen)))
  {
    AfterSees(t, true, seen);
    TypedAppend(codec, arm.decode.typeName, Program(user, arm, incoming), t.hist, Outcome(t, true, seen));
  }

  lemma TypedSends(t: Task, seen: Bytes, methods: seq<Method>, codec: Codec, user: User, arm: Arm, incoming: Incoming)
    requires t.service == GeneratedService(methods, codec, user) && t.phase.Running?
    requires DispatchOf(Arms(methods), codec, t.call) == Invoke(arm, incoming)
    requires arm.respond.StreamResponse? ==> t.call.sink
    requires AllowedBy(arm, UserAction(codec, user, arm, incoming, t.hist))
    requires var a := UserAction(codec, user, arm, incoming, t.hist); a.SendHeaders? || a.SendMessage?
    ensures StepsAs(codec, arm.decode.typeName, UserAction(codec, user, arm, incoming, t.hist), seen,
                    t, t.After(true, seen),
                    SeenBy(codec, user, arm, incoming, t), SeenBy(codec, user, arm, incoming, t.After(true, seen)))
  {
    AfterSees(t, true, seen);
    TypedAppend(codec, arm.decode.typeName, Program(user, arm, incoming), t.hist, Outcome(t, true, seen));
  }

  lemma TypedWorks(t: Task, seen: Bytes, methods: seq<Method>, codec: Codec, user: User, arm: Arm, incoming: Incoming)
    requires t.service == GeneratedService(methods, codec, user) && t.phase.Running?
    requires DispatchOf(Arms(methods), codec, t.call) == Invoke(arm, incoming)
    requires arm.respond.StreamResponse? ==> t.call.sink
    requires AllowedBy(arm, UserAction(codec, user, arm, incoming, t.hist))
    requires UserAction(codec, user, arm, incoming, t.hist).Work?
    ensures StepsAs(codec, arm.decode.typeName, UserAction(codec, user, arm, incoming, t.hist), seen,
                    t, t.After(true, seen),
                    SeenBy(codec, user, arm, incoming, t), SeenBy(codec, user, arm, incoming, t.After(true, seen)))
  {
    AfterSees(t, true, seen);
    TypedAppend(codec, arm.decode.typeName, Program(user, arm, incoming), t.hist, Outcome(t, true, seen));
  }

  /** A generated service runs the user's method one typed action at a time. */
  lemma TypedStep(t: Task, seen: Bytes, methods: seq<Method>, codec: Codec, user: User, arm: Arm, incoming: Incoming)
    requires t.service == GeneratedService(methods, codec, user) && t.phase.Running?
    requires DispatchOf(Arms(methods), codec, t.call) == Invoke(arm, incoming)
    requires arm.respond.StreamResponse? ==> t.call.sink
    requires AllowedBy(arm, UserAction(codec, user, arm, incoming, t.hist))
    ensures StepsAs(codec, arm.decode.typeName, UserAction(codec, user, arm, incoming, t.hist), seen,
                    t, t.After(true, seen),
                    SeenBy(codec, user, arm, incoming, t), SeenBy(codec, user, arm, incoming, t.After(true, seen)))
  {
    var a := UserAction(codec, user, arm, incoming, t.hist);
    if a.NextItem? || a.DropStream? {
      TypedReceives(t, seen, methods, codec, user, arm, incoming);
    } else if a.SendHeaders? || a.SendMessage? {
      TypedSends(t, seen, methods, codec, user, arm, incoming);
    } else if a.Work? {
      TypedWorks(t, seen, methods, codec, user, arm, incoming);
    }
  }

  /** The Close a client gets for what the user's method does last, field by field. */
  predicate ClosesAs(codec: Codec, respond: RespondForm, a: TAction, f: ResponseFrame) {
    match a
    case Finish(Ok(SingleReply(headers, msg, trailers))) =>
      respond.SendUnary? ==>
        f == CloseFrame(WireStatus(0, ""), Flatten(trailers), Some(codec.encode(msg)), Some(Flatten(headers)))
    case Finish(Ok(StreamReply(trailers))) =>
      respond.StreamResponse? ==> f == CloseFrame(WireStatus(0, ""), Flatten(trailers), None, None)
    case Finish(Err(status)) =>
      f == CloseFrame(WireStatus(CodeNumber(status.code), status.message), [], None, None)
    case Crash => f == CloseFrame(WireStatus(13, "handler panicked"), [], None, None)
    case _ => true
  }

  lemma TaskCloses(t: Task, methods: seq<Method>, codec: Codec, user: User)
    requires t.service == GeneratedService(methods, codec, user)
    requires t.closed.Some? && EndOf(t.Act()) == t.closed
    ensures match DispatchOf(Arms(methods), codec, t.call)
      case Fault(_) => true
      case BadRequest =>
        CloseOf(t.closed.value) == CloseFrame(WireStatus(13, "failed to decode request"), [], None, None)
      case Invoke(arm, incoming) =>
        ClosesAs(codec, arm.respond, UserAction(codec, user, arm, incoming, t.hist), CloseOf(t.closed.value))
  {
  }

  lemma CloseComesLast(s: State, id: ReqId)
    requires FrameInv(s, id) && id in s.tasks && s.tasks[id].closed.Some? && !Accounting.Killed(s, id)
    ensures var frames := FramesFor(s.enqueued, id);
      frames != [] && frames[|frames| - 1] == CloseOf(s.tasks[id].closed.value)
  {
  }

  /**
   * In every run, the last frame of a generated call that ran to its end is the Close of
   * what the user's method returned: status, trailers, response and headers, or the
   * decoding failure of its request.
   */
  lemma RepliesOnTheWire(cfg: Config, schedule: seq<Step>, id: ReqId,
                         methods: seq<Method>, codec: Codec, user: User)
    requires id in Run(cfg, schedule).tasks && Run(cfg, schedule).tasks[id].closed.Some?
    requires Run(cfg, schedule).tasks[id].service == GeneratedService(methods, codec, user)
    requires !Accounting.Killed(Run(cfg, schedule), id)
    ensures var s := Run(cfg, schedule); var t := s.tasks[id];
      var frames := FramesFor(s.enqueued, id); var d := DispatchOf(Arms(methods), codec, t.call);
      && frames != [] && !d.Fault?
      && (d.BadRequest? ==>
            frames[|frames| - 1] == CloseFrame(WireStatus(13, "failed to decode request"), [], None, None))
      && (d.Invoke? ==>
            ClosesAs(codec, d.arm.respond, UserAction(codec, user, d.arm, d.incoming, t.hist), frames[|frames| - 1]))
  {
    InvAlways(cfg, schedule);
    var s := Run(cfg, schedule);
    assert HistoryInv(cfg, s, id);
    var t := s.tasks[id];
    RoutedCallsFit(cfg.router, t.begin, methods, codec, user, t.call);
    TaskCloses(t, methods, codec, user);
    CloseComesLast(s, id);
  }

  lemma TaskEmits(t: Task, methods: seq<Method>, codec: Codec, user: User, arm: Arm, incoming: Incoming)
    requires t.service == GeneratedService(methods, codec, user) && t.call.sink
    requires DispatchOf(Arms(methods), codec, t.call) == Invoke(arm, incoming) && arm.respond.StreamResponse?
    ensures var a := UserAction(codec, user, arm, incoming, t.hist);
      && (a.SendHeaders? && SentFrames(t.hist) == [] ==> t.Emits(true) == Some(HeadersFrame(Flatten(a.metadata))))
      && (a.SendHeaders? && SentFrames(t.hist) != [] ==> t.Emits(true) == None && EndOf(t.Act()).None?)
      && (a.SendMessage? ==> t.Emits(true) == Some(BodyFrame(codec.encode(a.msg))))
  {
    OpenedSent(t.hist);
  }

  lemma EmittedFrames(cfg: Config, s: State, id: ReqId, seen: Bytes)
    requires Enabled(cfg, s, Handler(id, seen)) && s.writer.Up?
    ensures FramesFor(Next(cfg, s, Handler(id, seen)).enqueued, id) == FramesFor(s.enqueued, id)
      + if s.tasks[id].Emits(true).Some? then [s.tasks[id].Emits(true).value] else []
  {
    HandlerIsTaskStep(s, id, seen);
    if s.tasks[id].Emits(true).Some? {
      FramesForAppend(s.enqueued, ResponsePacket(id, s.tasks[id].Emits(true).value), id);
    }
  }

  /**
   * In every run, a send of a streaming method reaches the funnel as it is: its first
   * headers with their metadata, later ones not at all, every message encoded.
   */
  lemma SendsOnTheWire(cfg: Config, schedule: seq<Step>, id: ReqId, seen: Bytes,
                       methods: seq<Method>, codec: Codec, user: User, arm: Arm, incoming: Incoming)
    requires Enabled(cfg, Run(cfg, schedule), Handler(id, seen)) && Run(cfg, schedule).writer.Up?
    requires Run(cfg, schedule).tasks[id].service == GeneratedService(methods, codec, user)
    requires DispatchOf(Arms(methods), codec, Run(cfg, schedule).tasks[id].call) == Invoke(arm, incoming)
    requires arm.respond.StreamResponse?
    ensures var s := Run(cfg, schedule); var t := Run(cfg, schedule + [Handler(id, seen)]);
      var before := FramesFor(s.enqueued, id); var after := FramesFor(t.enqueued, id);
      var hist := s.tasks[id].hist; var a := UserAction(codec, user, arm, incoming, hist);
      && (a.SendHeaders? ==>
            after == before + if SentFrames(hist) == [] then [HeadersFrame(Flatten(a.metadata))] else [])
      && (a.SendMessage? ==> after == before + [BodyFrame(codec.encode(a.msg))])
  {
    InvAlways(cfg, schedule);
    var s := Run(cfg, schedule);
    assert HistoryInv(cfg, s, id);
    var t := s.tasks[id];
    DispatchFits(cfg.router, t.begin, methods, codec, user, t.call);
    RoutedCallsFit(cfg.router, t.begin, methods, codec, user, t.call);
    TaskEmits(t, methods, codec, user, arm, incoming);
    RunAppend(cfg, schedule, Handler(id, seen));
    EmittedFrames(cfg, s, id, seen);
  }

  /** So every generated service keeps the wire grammar, in every run. */
  lemma GeneratedWireGrammar(cfg: Config, schedule: seq<Step>, id: ReqId,
                             methods: seq<Method>, codec: Codec, user: User)
    requires id in Run(cfg, schedule).tasks
    requires Run(cfg, schedule).tasks[id].service == GeneratedService(methods, codec, user)
    requires !Accounting.Killed(Run(cfg, schedule), id)
    ensures CallGrammar(FramesFor(Run(cfg, schedule).enqueued, id))
    ensures CallGrammar(FramesFor(Run(cfg, schedule).delivered, id))
  {
    GeneratedUsesStreamingResponse(methods, codec, user);
    WireGrammar(cfg, schedule, id);
  }
}
