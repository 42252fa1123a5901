/**
 * proto-service/src/service.rs and router.rs: the type-erased call surface, and the
 * routing of a Begin packet in proto-service-pipe/src/transport.rs.
 */
module Services {
  import opened Wire
  import opened Metadata

  datatype MethodDescriptor = MethodDescriptor(clientStreaming: bool, serverStreaming: bool)

  /** A request stream is a channel owned by the call's task, so only its presence is here. */
  datatype RequestPayload = Single(bytes: Bytes) | Streaming

  /** `sink` says whether `streaming_response` is present. */
  datatype Call = Call(methodName: string, headers: Rows, payload: RequestPayload, sink: bool)

  datatype RawFrame = Headers(metadata: Rows) | Message(body: Bytes)

  datatype CallEnd = CallEnd(
    trailers: Rows,
    status: Status,
    singleResponse: Option<Bytes>,
    singleHeaders: Option<Rows>)

  function EndError(status: Status): CallEnd {
    CallEnd([], status, None, None)
  }

  function EndSingle(headers: Rows, response: Bytes, trailers: Rows): CallEnd {
    CallEnd(trailers, Status(CodeOk, ""), Some(response), Some(headers))
  }

  function EndStreaming(trailers: Rows): CallEnd {
    CallEnd(trailers, Status(CodeOk, ""), None, None)
  }

  const EXPECTED_SINGLE := EndError(Status(InvalidArgument, "expected single request"))
  const EXPECTED_STREAMING := EndError(Status(InvalidArgument, "expected streaming request"))
  const PANICKED := EndError(Status(Internal, "handler panicked"))

  function IntoSingle(payload: RequestPayload): Result<Bytes, CallEnd> {
    match payload
    case Single(bytes) => Ok(bytes)
    case Streaming => Err(EXPECTED_SINGLE)
  }

  function IntoStreaming(payload: RequestPayload): Result<(), CallEnd> {
    match payload
    case Streaming => Ok(())
    case Single(_) => Err(EXPECTED_STREAMING)
  }

  /**
   * What a handler does next. `Local` is work that touches no channel, and may read what
   * lies outside the call: a clock, randomness, state shared with other calls.
   */
  datatype Action =
    | Recv
    | Send(frame: RawFrame)
    | DropRx
    | Local
    | Return(end: CallEnd)
    | Panic

  /**
   * What a handler has seen its own actions do. `Got(None)` is the end of the request
   * stream; `NoStream` answers a Recv made without a receiver, which Rust's ownership
   * rules out. `Sent` with `ok == false` is a SendError. `Computed` carries what local work
   * read from outside the call, which can be anything.
   */
  datatype Obs =
    | Got(item: Option<Bytes>)
    | NoStream
    | Sent(frame: RawFrame, ok: bool)
    | DroppedRx
    | Computed(seen: Bytes)

  /**
   * A service: any adaptive program, as a function of the call and all it has observed,
   * what it read from outside included.
   */
  datatype Service = Service(
    describe: string -> Option<MethodDescriptor>,
    handle: (Call, seq<Obs>) -> Action)

  // ---------------------------------------------------------------------------
  // Response packets
  // ---------------------------------------------------------------------------

  function ResponseFrameOf(frame: RawFrame): ResponseFrame {
    match frame
    case Headers(md) => HeadersFrame(Flatten(md))
    case Message(body) => BodyFrame(body)
  }

  function CloseOf(end: CallEnd): ResponseFrame {
    CloseFrame(
      WireStatus(CodeNumber(end.status.code), end.status.message),
      Flatten(end.trailers),
      end.singleResponse,
      if end.singleHeaders.Some? then Some(Flatten(end.singleHeaders.value)) else None)
  }

  /** Metadata as a client reads it back. */
  predicate ReadsAs(entries: seq<Entry>, rows: Rows) {
    FromEntries(entries) == rows
  }

  /** Nothing of the end of a call is lost on the wire. */
  lemma CloseReadsBack(end: CallEnd)
    requires Valid(end.trailers) && (end.singleHeaders.Some? ==> Valid(end.singleHeaders.value))
    ensures var f := CloseOf(end);
      && f.CloseFrame? && ReadsAs(f.trailers, end.trailers)
      && CodeFrom(f.status.code) == end.status.code
      && f.status.message == end.status.message
      && f.singleResponse == end.singleResponse
      && (f.singleHeaders.Some? <==> end.singleHeaders.Some?)
      && (f.singleHeaders.Some? ==> ReadsAs(f.singleHeaders.value, end.singleHeaders.value))
  {
    CodeIsItsPlace(end.status.code, end.status.code);
    WireRoundTrip(end.trailers);
    if end.singleHeaders.Some? {
      WireRoundTrip(end.singleHeaders.value);
    }
  }

  /** Nor of a frame before it. */
  lemma FrameReadsBack(frame: RawFrame)
    requires frame.Headers? ==> Valid(frame.metadata)
    ensures frame.Headers? ==>
      ResponseFrameOf(frame).HeadersFrame? && ReadsAs(ResponseFrameOf(frame).metadata, frame.metadata)
    ensures frame.Message? ==> ResponseFrameOf(frame) == BodyFrame(frame.body)
  {
    if frame.Headers? {
      WireRoundTrip(frame.metadata);
    }
  }

  // ---------------------------------------------------------------------------
  // Routing a Begin
  // ---------------------------------------------------------------------------

  /** Index of the first '/' of `s`, or |s|. */
  function FirstSlash(s: string): (i: nat)
    ensures i <= |s| && '/' !in s[..i]
    ensures i < |s| ==> s[i] == '/'
  {
    if s == [] || s[0] == '/' then 0 else 1 + FirstSlash(s[1..])
  }

  /** "/foo.Bar/Baz" splits into "foo.Bar" and "Baz". */
  function ParseMethod(path: string): Option<(string, string)> {
    if path == [] || path[0] != '/' then None
    else
      var rest := path[1..];
      var i := FirstSlash(rest);
      if i == |rest| then None else Some((rest[..i], rest[i + 1..]))
  }

  lemma {:induction false} FirstSlashUnique(service: string, name: string)
    requires '/' !in service
    ensures FirstSlash(service + "/" + name) == |service|
  {
    if service != "" {
      FirstSlashUnique(service[1..], name);
      assert (service + "/" + name)[1..] == service[1..] + "/" + name;
    }
  }

  /** Splitting is the inverse of joining, exactly for the service names without a slash. */
  lemma ParseMethodInverse(path: string, service: string, name: string)
    ensures ParseMethod(path) == Some((service, name))
       <==> path == "/" + service + "/" + name && '/' !in service
  {
    if path == "/" + service + "/" + name && '/' !in service {
      assert path[1..] == service + "/" + name;
      FirstSlashUnique(service, name);
      assert path[1..][..|service|] == service && path[1..][|service| + 1..] == name;
    }
    if ParseMethod(path) == Some((service, name)) {
      var rest := path[1..];
      var i := FirstSlash(rest);
      assert rest == rest[..i] + [rest[i]] + rest[i + 1..];
      assert path == [path[0]] + rest;
    }
  }

  datatype Routing = Reject(status: Status) | Start(service: Service, call: Call)

  /** The part of the decision that is up to the service: its methods and their shapes. */
  function RouteMethod(service: Service, methodName: string, begin: Begin): Routing {
    var desc := service.describe(methodName);
    if desc.None? then Reject(Status(Unimplemented, "unknown method"))
    else if !desc.value.clientStreaming && begin.singleRequest.None? then
      Reject(Status(InvalidArgument, "missing single_request payload"))
    else
      var headers := FromEntries(if begin.headers.Some? then begin.headers.value else []);
      var payload := if desc.value.clientStreaming then Streaming else Single(begin.singleRequest.value);
      Start(service, Call(methodName, headers, payload, desc.value.serverStreaming))
  }

  /** The part of a Begin that decides between a rejection and a handler. */
  function Route(router: map<string, Service>, begin: Begin): Routing {
    var parsed := ParseMethod(begin.methodPath);
    if parsed.None? then Reject(Status(InvalidArgument, "malformed method name"))
    else
      var (serviceName, methodName) := parsed.value;
      if serviceName !in router then Reject(Status(Unimplemented, "unknown service"))
      else RouteMethod(router[serviceName], methodName, begin)
  }

  /** "/service/method", the service without a slash. */
  predicate Splits(path: string, serviceName: string, methodName: string) {
    path == "/" + serviceName + "/" + methodName && '/' !in serviceName
  }

  /** The metadata entries a Begin carries. */
  function EntriesOf(begin: Begin): seq<Entry> {
    match begin.headers
    case None => []
    case Some(entries) => entries
  }

  /** The payload of a method that takes one request, or a stream. */
  predicate PayloadFits(payload: RequestPayload, begin: Begin, streaming: bool) {
    if streaming then payload == Streaming
    else begin.singleRequest.Some? && payload == Single(begin.singleRequest.value)
  }

  /**
   * A path that splits is routed by the table and the service: every rejection has its own
   * status, and otherwise the call has the method, the payload and the sink of its
   * descriptor, and for every name the values the Begin carries for it, in order.
   */
  lemma RouteExactly(router: map<string, Service>, begin: Begin, serviceName: string, methodName: string)
    requires Splits(begin.methodPath, serviceName, methodName)
    ensures var routing := Route(router, begin);
      if serviceName !in router then
        routing == Reject(Status(Unimplemented, "unknown service"))
      else if router[serviceName].describe(methodName).None? then
        routing == Reject(Status(Unimplemented, "unknown method"))
      else
        var desc := router[serviceName].describe(methodName).value;
        if !desc.clientStreaming && begin.singleRequest.None? then
          routing == Reject(Status(InvalidArgument, "missing single_request payload"))
        else
          && routing.Start? && routing.service == router[serviceName]
          && routing.call.methodName == methodName
          && PayloadFits(routing.call.payload, begin, desc.clientStreaming)
          && routing.call.sink == desc.serverStreaming
          && Valid(routing.call.headers)
          && forall k :: GetAll(routing.call.headers, k) == ValuesNamed(EntriesOf(begin), k)
  {
    ParseMethodInverse(begin.methodPath, serviceName, methodName);
    ReadsEveryValue(EntriesOf(begin));
  }

  /** A path splits, or the call is rejected as malformed. */
  lemma RouteMalformed(router: map<string, Service>, begin: Begin)
      returns (serviceName: string, methodName: string)
    ensures Splits(begin.methodPath, serviceName, methodName)
         || ((forall s, m :: !Splits(begin.methodPath, s, m))
             && Route(router, begin) == Reject(Status(InvalidArgument, "malformed method name")))
  {
    var parsed := ParseMethod(begin.methodPath);
    serviceName, methodName := "", "";
    if parsed.Some? {
      serviceName, methodName := parsed.value.0, parsed.value.1;
      ParseMethodInverse(begin.methodPath, serviceName, methodName);
    } else {
      forall s, m ensures !Splits(begin.methodPath, s, m) {
        ParseMethodInverse(begin.methodPath, s, m);
      }
    }
  }

  // ---------------------------------------------------------------------------
  // The router
  // ---------------------------------------------------------------------------

  /** What the last registration under `name` was. */
  function LastRegistered(log: seq<(string, Service)>, name: string): Option<Service> {
    if log == [] then None
    else if log[|log| - 1].0 == name then Some(log[|log| - 1].1)
    else LastRegistered(log[..|log| - 1], name)
  }

  /** A later registration of a name wins, and leaves the other names alone. */
  lemma LastRegistrationWins(log: seq<(string, Service)>, name: string, service: Service, other: string)
    ensures LastRegistered([], name) == None
    ensures LastRegistered(log + [(name, service)], other)
         == if other == name then Some(service) else LastRegistered(log, other)
  {
    assert (log + [(name, service)])[..|log|] == log;
  }

  class ServiceRouter {
    var services: map<string, Service>
    ghost var registered: seq<(string, Service)>

    /** The table holds, under every name, the last service registered for it. */
    ghost predicate Valid()
      reads this
    {
      forall name :: LastRegistered(registered, name)
                  == if name in services then Some(services[name]) else None
    }

    constructor ()
      ensures Valid() && registered == []
    {
      services := map[];
      registered := [];
    }

    method Register(serviceName: string, service: Service)
      requires Valid()
      modifies this
      ensures Valid() && registered == old(registered) + [(serviceName, service)]
      ensures services == old(services)[serviceName := service]
    {
      services := services[serviceName := service];
      registered := registered + [(serviceName, service)];
      assert registered[..|registered| - 1] == old(registered);
    }

    method Resolve(serviceName: string) returns (r: Option<Service>)
      requires Valid()
      ensures r == LastRegistered(registered, serviceName)
    {
      r := if serviceName in services then Some(services[serviceName]) else None;
    }
  }
}
