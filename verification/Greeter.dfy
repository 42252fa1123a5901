/**
 * examples/src/lib.rs: the example handlers as loops, the same handlers as programs of a
 * generated service, and what a client sees of them over the pipe.
 */
module Greeter {
  import opened Wire
  import opened Metadata
  import opened Services
  import opened Protocol
  import opened Invariants
  import opened Calls
  import opened Typed
  import opened Generator

  // ---------------------------------------------------------------------------
  // Reference definitions
  // ---------------------------------------------------------------------------

  const CANCELLED := Status(Cancelled, "")

  /** The messages before the first item that failed to decode. */
  function OkPrefix(items: Items): seq<Msg> {
    if items == [] || items[0].Err? then [] else [items[0].value] + OkPrefix(items[1..])
  }

  predicate AllOk(items: Items) {
    forall i :: 0 <= i < |items| ==> items[i].Ok?
  }

  /** The failure that ends the handler, if any: the first item that did not decode. */
  function FirstError(items: Items): Option<Status> {
    if items == [] then None
    else if items[0].Err? then Some(items[0].error)
    else FirstError(items[1..])
  }

  function Concat(msgs: seq<Msg>): Msg {
    if msgs == [] then "" else msgs[0] + Concat(msgs[1..])
  }

  function Echoes(codec: Codec, msgs: seq<Msg>): seq<RawFrame> {
    seq(|msgs|, i requires 0 <= i < |msgs| => Message(codec.encode(msgs[i])))
  }

  function Digit(i: nat): string
    requires i < 3
  {
    ["0", "1", "2"][i]
  }

  function Counted(codec: Codec, msg: Msg, n: nat): seq<RawFrame>
    requires n <= 3
  {
    seq(n, i requires 0 <= i < n => Message(codec.encode(msg + "-" + Digit(i))))
  }

  const COUNT_TRAILERS: Rows := Metadata.Insert([], "x-count", "3")

  /** client_stream: the concatenation of all items, or the first failure. */
  function ClientStreamAnswer(items: Items): Result<Reply, Status> {
    if FirstError(items).Some? then Err(FirstError(items).value)
    else Ok(SingleReply([], Concat(OkPrefix(items)), []))
  }

  /** bidi over a sink that accepts so many messages: what it echoes ... */
  function BidiSent(items: Items, accepts: nat): seq<Msg> {
    if accepts < |OkPrefix(items)| then OkPrefix(items)[..accepts] else OkPrefix(items)
  }

  /** ... and what it returns. */
  function BidiAnswer(items: Items, accepts: nat): Result<Reply, Status> {
    if accepts < |OkPrefix(items)| then Err(CANCELLED)
    else if FirstError(items).Some? then Err(FirstError(items).value)
    else Ok(StreamReply([]))
  }

  function ServerStreamAnswer(accepts: nat): Result<Reply, Status> {
    if accepts < 3 then Err(CANCELLED) else Ok(StreamReply(COUNT_TRAILERS))
  }

  lemma {:induction false} PrefixAppend(items: Items, item: Result<Msg, Status>)
    requires AllOk(items)
    ensures OkPrefix(items + [item]) == OkPrefix(items) + if item.Ok? then [item.value] else []
    ensures FirstError(items) == None && |OkPrefix(items)| == |items|
    ensures FirstError(items + [item]) == if item.Ok? then None else Some(item.error)
  {
    if items == [] {
      assert items + [item] == [item];
    } else {
      PrefixAppend(items[1..], item);
      assert (items + [item])[1..] == items[1..] + [item];
    }
  }

  lemma AllOkNoError(items: Items)
    requires AllOk(items)
    ensures FirstError(items) == None
  {
    PrefixAppend(items, Ok(""));
  }

  /** After `i` good items the next one is good, or is the first failure, or is the end. */
  lemma {:induction false} OkPrefixAt(items: Items, i: nat)
    requires i <= |items| && AllOk(items[..i])
    ensures i <= |OkPrefix(items)|
    ensures i < |items| && items[i].Ok? ==> i < |OkPrefix(items)| && OkPrefix(items)[i] == items[i].value
    ensures i < |items| && items[i].Err? ==> |OkPrefix(items)| == i && FirstError(items) == Some(items[i].error)
    ensures i == |items| ==> |OkPrefix(items)| == i && FirstError(items) == None
  {
    if i > 0 {
      assert items[..i][0].Ok? && items[1..][..i - 1] == items[..i][1..];
      OkPrefixAt(items[1..], i - 1);
    }
  }

  lemma EchoesNext(codec: Codec, msgs: seq<Msg>, i: nat)
    requires i < |msgs|
    ensures Echoes(codec, msgs[..i + 1]) == Echoes(codec, msgs[..i]) + [Message(codec.encode(msgs[i]))]
  {
  }

  lemma XCountIsLower()
    ensures Lower("x-count") == "x-count"
    ensures COUNT_TRAILERS == [Row("x-count", ["3"])]
  {
    assert !HasUpper("x-count");
    NormalFormsAgree("x-count", "x-count");
  }

  // ---------------------------------------------------------------------------
  // The handlers as written: loops over the request stream
  // ---------------------------------------------------------------------------

  /** Reads the whole stream and answers with the concatenation. */
  method ClientStream(items: Items) returns (r: Result<Reply, Status>)
    ensures r == ClientStreamAnswer(items)
    ensures r.Ok? <==> AllOk(items)
  {
    var all := "";
    var i := 0;
    while i < |items|
      invariant 0 <= i <= |items|
      invariant AllOk(items[..i]) && FirstError(items) == FirstError(items[i..])
      invariant Concat(OkPrefix(items)) == all + Concat(OkPrefix(items[i..]))
    {
      assert items[i..][1..] == items[i + 1..];
      if items[i].Err? {
        return Err(items[i].error);
      }
      assert all + (items[i].value + Concat(OkPrefix(items[i + 1..])))
          == (all + items[i].value) + Concat(OkPrefix(items[i + 1..]));
      all := all + items[i].value;
      i := i + 1;
    }
    assert items[..i] == items && items[i..] == [] && all + "" == all;
    return Ok(SingleReply([], all, []));
  }

  /** Echoes every message until the stream ends, an item fails, or the sink fails. */
  method Bidi(items: Items, response: StreamingResponse, codec: Codec, accepts: nat)
    returns (r: Result<Reply, Status>)
    modifies response
    ensures response.sink == old(response.sink) + Echoes(codec, BidiSent(items, accepts))
    ensures r == BidiAnswer(items, accepts)
    ensures accepts < |OkPrefix(items)| ==> r == Err(Status(Cancelled, ""))
  {
    var i := 0;
    OkPrefixAt(items, 0);
    while i < |items|
      invariant 0 <= i <= |items| && i <= accepts && i <= |OkPrefix(items)|
      invariant AllOk(items[..i])
      invariant response.sink == old(response.sink) + Echoes(codec, OkPrefix(items)[..i])
    {
      OkPrefixAt(items, i);
      if items[i].Err? {
        return Err(items[i].error);
      }
      var sent := response.SendMessage(codec.encode(items[i].value), if i < accepts then Completed else SinkClosed);
      if sent != SendOk {
        return Err(CANCELLED);
      }
      EchoesNext(codec, OkPrefix(items), i);
      i := i + 1;
    }
    OkPrefixAt(items, i);
    return Ok(StreamReply([]));
  }

  /** Sends three numbered messages, whatever the request says. */
  method ServerStream(msg: Msg, response: StreamingResponse, codec: Codec, accepts: nat)
    returns (r: Result<Reply, Status>)
    modifies response
    ensures response.sink == old(response.sink) + Counted(codec, msg, if accepts < 3 then accepts else 3)
    ensures r == ServerStreamAnswer(accepts)
    ensures accepts < 3 ==> r == Err(Status(Cancelled, ""))
    ensures accepts >= 3 ==> r == Ok(StreamReply([Row("x-count", ["3"])]))
  {
    for i := 0 to 3
      invariant i <= accepts && response.sink == old(response.sink) + Counted(codec, msg, i)
    {
      var body := codec.encode(msg + "-" + Digit(i));
      var sent := response.SendMessage(body, if i < accepts then Completed else SinkClosed);
      if sent != SendOk {
        return Err(CANCELLED);
      }
      assert Counted(codec, msg, i + 1) == Counted(codec, msg, i) + [Message(body)];
    }
    var trailers := new MetadataMap();
    var previous := trailers.Insert("x-count", "3");
    XCountIsLower();
    return Ok(StreamReply(trailers.data));
  }

  // ---------------------------------------------------------------------------
  // The handlers as programs of the generated service
  // ---------------------------------------------------------------------------

  const GREETER: seq<Method> := [
    Method("unary", "Unary", "Ping", "Pong", false, false),
    Method("client_stream", "ClientStream", "Ping", "Pong", true, false),
    Method("server_stream", "ServerStream", "Ping", "Pong", false, true),
    Method("bidi", "Bidi", "Ping", "Pong", true, true)]

  const GREETER_DESC := ServiceDesc("example.v1", "Greeter", GREETER)

  const GREETER_NAME := "example.v1.Greeter"

  lemma GreeterIsNamed()
    ensures ServiceName(GREETER_DESC) == GREETER_NAME
    ensures ServiceName(ServiceDesc("", "Greeter", GREETER)) == "Greeter"
  {
  }

  function ClientStreamProgram(h: seq<TObs>): TAction {
    if h == [] then NextItem
    else match h[|h| - 1]
      case Item(None) => Finish(Ok(SingleReply([], Concat(OkPrefix(Received(h))), [])))
      case Item(Some(Err(status))) => Finish(Err(status))
      case _ => NextItem
  }

  function BidiProgram(h: seq<TObs>): TAction {
    if h == [] then NextItem
    else match h[|h| - 1]
      case Item(None) => Finish(Ok(StreamReply([])))
      case Item(Some(Ok(msg))) => SendMessage(msg)
      case Item(Some(Err(status))) => Finish(Err(status))
      case MessageSent(ok) => if ok then NextItem else Finish(Err(CANCELLED))
      case _ => NextItem
  }

  function ServerStreamProgram(msg: Msg, h: seq<TObs>): TAction {
    if h != [] && h[|h| - 1] == MessageSent(false) then Finish(Err(CANCELLED))
    else if |h| < 3 then SendMessage(msg + "-" + Digit(|h|))
    else Finish(Ok(StreamReply(COUNT_TRAILERS)))
  }

  function MyGreeter(ident: string, incoming: Incoming, h: seq<TObs>): TAction {
    match incoming
    case OneRequest(_, msg) =>
      if ident == "unary" then Finish(Ok(SingleReply([], msg, [])))
      else ServerStreamProgram(msg, h)
    case StreamRequest(_) =>
      if ident == "client_stream" then ClientStreamProgram(h)
      else BidiProgram(h)
  }

  function GreeterService(codec: Codec): Service {
    GeneratedService(GREETER, codec, MyGreeter)
  }

  // ---------------------------------------------------------------------------
  // What the generated code makes of them
  // ---------------------------------------------------------------------------

  function Decoded(codec: Codec, bodies: seq<Bytes>): Items {
    DecodeAll(codec, "Ping", bodies)
  }

  function BidiAction(codec: Codec, hist: seq<Obs>): Action {
    if hist == [] then Recv
    else match hist[|hist| - 1]
      case Got(None) => Return(EndStreaming([]))
      case Got(Some(body)) =>
        var item := DecodeItem(codec, "Ping", body);
        if item.Ok? then Send(Message(codec.encode(item.value))) else Return(EndError(item.error))
      case Sent(Message(_), ok) => if ok then Recv else Return(EndError(CANCELLED))
      case _ => Recv
  }

  function ClientStreamAction(codec: Codec, hist: seq<Obs>): Action {
    if hist == [] then Recv
    else match hist[|hist| - 1]
      case Got(None) =>
        Return(EndSingle([], codec.encode(Concat(OkPrefix(Decoded(codec, Consumed(hist))))), []))
      case Got(Some(body)) =>
        var item := DecodeItem(codec, "Ping", body);
        if item.Ok? then Recv else Return(EndError(item.error))
      case _ => Recv
  }

  function ServerStreamAction(codec: Codec, msg: Msg, hist: seq<Obs>): Action {
    if hist != [] && hist[|hist| - 1].Sent? && hist[|hist| - 1].frame.Message? && !hist[|hist| - 1].ok then
      Return(EndError(CANCELLED))
    else if |hist| < 3 then Send(Message(codec.encode(msg + "-" + Digit(|hist|))))
    else Return(EndStreaming(COUNT_TRAILERS))
  }

  lemma GreeterArm(name: string)
    requires name == "ClientStream" || name == "Bidi"
    ensures ArmFor(Arms(GREETER), name) == Some(HandleArmOf(if name == "Bidi" then GREETER[3] else GREETER[1]))
  {
    var arms := Arms(GREETER);
    assert ArmFor(arms, name) == ArmFor(arms[1..], name);
    if name == "Bidi" {
      assert ArmFor(arms[1..], name) == ArmFor(arms[1..][1..], name);
      assert ArmFor(arms[1..][1..], name) == ArmFor(arms[1..][1..][1..], name);
    }
  }

  lemma GreeterArms(codec: Codec, call: Call)
    requires call.payload.Streaming?
    ensures call.methodName == "Bidi" && call.sink ==>
      DispatchOf(Arms(GREETER), codec, call) == Invoke(HandleArmOf(GREETER[3]), StreamRequest(call.headers))
    ensures call.methodName == "ClientStream" ==>
      DispatchOf(Arms(GREETER), codec, call) == Invoke(HandleArmOf(GREETER[1]), StreamRequest(call.headers))
  {
    if call.methodName == "Bidi" || call.methodName == "ClientStream" {
      GreeterArm(call.methodName);
    }
  }

  /** What the handlers of the streaming methods have seen. */
  function Seen(codec: Codec, m: Method, incoming: Incoming, hist: seq<Obs>): seq<TObs> {
    TypedHist(codec, m.inputType, Program(MyGreeter, HandleArmOf(m), incoming), hist)
  }

  lemma BidiPerforms(codec: Codec, call: Call, hist: seq<Obs>)
    requires call.methodName == "Bidi" && call.payload.Streaming? && call.sink
    ensures var h := Seen(codec, GREETER[3], StreamRequest(call.headers), hist);
      GreeterService(codec).handle(call, hist) == Perform(codec, HandleArmOf(GREETER[3]), BidiProgram(h), hist)
  {
    GreeterArms(codec, call);
    var h := Seen(codec, GREETER[3], StreamRequest(call.headers), hist);
    assert MyGreeter("bidi", StreamRequest(call.headers), h) == BidiProgram(h);
  }

  lemma BidiHandles(codec: Codec, call: Call, hist: seq<Obs>)
    requires call.methodName == "Bidi" && call.payload.Streaming? && call.sink
    ensures GreeterService(codec).handle(call, hist) == BidiAction(codec, hist)
  {
    BidiPerforms(codec, call, hist);
    if hist != [] {
      LastSeen(codec, "Ping", Program(MyGreeter, HandleArmOf(GREETER[3]), StreamRequest(call.headers)), hist);
    }
  }

  lemma ClientStreamPerforms(codec: Codec, call: Call, hist: seq<Obs>)
    requires call.methodName == "ClientStream" && call.payload.Streaming?
    ensures var h := Seen(codec, GREETER[1], StreamRequest(call.headers), hist);
      && GreeterService(codec).handle(call, hist)
         == Perform(codec, HandleArmOf(GREETER[1]), ClientStreamProgram(h), hist)
      && Received(h) == Decoded(codec, Consumed(hist))
  {
    GreeterArms(codec, call);
    var prog := Program(MyGreeter, HandleArmOf(GREETER[1]), StreamRequest(call.headers));
    var h := Seen(codec, GREETER[1], StreamRequest(call.headers), hist);
    assert MyGreeter("client_stream", StreamRequest(call.headers), h) == ClientStreamProgram(h);
    ReceivedDecoded(codec, "Ping", prog, hist);
  }

  lemma ClientStreamHandles(codec: Codec, call: Call, hist: seq<Obs>)
    requires call.methodName == "ClientStream" && call.payload.Streaming?
    ensures GreeterService(codec).handle(call, hist) == ClientStreamAction(codec, hist)
  {
    ClientStreamPerforms(codec, call, hist);
    if hist != [] {
      LastSeen(codec, "Ping", Program(MyGreeter, HandleArmOf(GREETER[1]), StreamRequest(call.headers)), hist);
    }
  }

  lemma ServerStreamArm()
    ensures ArmFor(Arms(GREETER), "ServerStream") == Some(HandleArmOf(GREETER[2]))
  {
    var arms := Arms(GREETER);
    assert ArmFor(arms, "ServerStream") == ArmFor(arms[1..], "ServerStream");
    assert ArmFor(arms[1..], "ServerStream") == ArmFor(arms[1..][1..], "ServerStream");
  }

  lemma ServerStreamPerforms(codec: Codec, call: Call, hist: seq<Obs>, msg: Msg)
    requires call.methodName == "ServerStream" && call.payload.Single? && call.sink
    requires codec.decode("Ping", call.payload.bytes) == Some(msg)
    ensures GreeterService(codec).handle(call, hist)
         == Perform(codec, HandleArmOf(GREETER[2]),
                    ServerStreamProgram(msg, Seen(codec, GREETER[2], OneRequest(call.headers, msg), hist)), hist)
  {
    ServerStreamArm();
    var h := Seen(codec, GREETER[2], OneRequest(call.headers, msg), hist);
    assert MyGreeter("server_stream", OneRequest(call.headers, msg), h) == ServerStreamProgram(msg, h);
  }

  lemma ServerStreamHandles(codec: Codec, call: Call, hist: seq<Obs>)
    requires call.methodName == "ServerStream" && call.payload.Single? && call.sink
    ensures var msg := codec.decode("Ping", call.payload.bytes);
      GreeterService(codec).handle(call, hist)
      == if msg.None? then Return(EndError(DECODE_FAILED)) else ServerStreamAction(codec, msg.value, hist)
  {
    ServerStreamArm();
    var msg := codec.decode("Ping", call.payload.bytes);
    if msg.Some? {
      ServerStreamPerforms(codec, call, hist, msg.value);
      if hist != [] {
        var incoming := OneRequest(call.headers, msg.value);
        LastSeen(codec, "Ping", Program(MyGreeter, HandleArmOf(GREETER[2]), incoming), hist);
      }
    }
  }

  // ---------------------------------------------------------------------------
  // Lists of decoded bodies
  // ---------------------------------------------------------------------------

  /** What comes after the first failure changes nothing. */
  lemma {:induction false} FirstErrorStays(short: Items, long: Items)
    requires short <= long && FirstError(short).Some?
    ensures FirstError(long) == FirstError(short) && OkPrefix(long) == OkPrefix(short)
  {
    if short[0].Ok? {
      FirstErrorStays(short[1..], long[1..]);
    }
  }

  /** A list whose last seen item is its first failure. */
  lemma BadItem(seen: Items, all: Items)
    requires seen != [] && seen <= all
    requires AllOk(seen[..|seen| - 1]) && seen[|seen| - 1].Err?
    ensures OkPrefix(all) == OkPrefix(seen[..|seen| - 1])
    ensures FirstError(all) == Some(seen[|seen| - 1].error)
  {
    var n := |seen| - 1;
    assert seen == seen[..n] + [seen[n]];
    PrefixAppend(seen[..n], seen[n]);
    FirstErrorStays(seen, all);
  }

  lemma {:induction false} OkPrefixExtends(short: Items, long: Items)
    requires AllOk(short) && short <= long
    ensures OkPrefix(short) <= OkPrefix(long) && |OkPrefix(short)| == |short|
  {
    if short != [] {
      OkPrefixExtends(short[1..], long[1..]);
    }
  }

  lemma DecodedPrefix(codec: Codec, short: seq<Bytes>, long: seq<Bytes>)
    requires short <= long
    ensures Decoded(codec, short) <= Decoded(codec, long)
  {
  }

  lemma DecodedAppend(codec: Codec, bodies: seq<Bytes>, body: Bytes)
    ensures Decoded(codec, bodies + [body]) == Decoded(codec, bodies) + [DecodeItem(codec, "Ping", body)]
  {
  }

  lemma {:induction false} ErrorsAreDecoding(codec: Codec, bodies: seq<Bytes>)
    ensures var e := FirstError(Decoded(codec, bodies));
      (e.Some? ==> e.value == DECODE_FAILED) && (e.None? <==> AllOk(Decoded(codec, bodies)))
  {
    if bodies != [] {
      var items := Decoded(codec, bodies);
      ErrorsAreDecoding(codec, bodies[1..]);
      assert items[1..] == Decoded(codec, bodies[1..]);
      assert items == [items[0]] + items[1..];
    }
  }

  // ---------------------------------------------------------------------------
  // bidi: the program is the loop, whatever the sink does
  // ---------------------------------------------------------------------------

  /** The last send failed, so the handler returns next. */
  predicate SendFailed(hist: seq<Obs>) {
    hist != [] && hist[|hist| - 1].Sent? && hist[|hist| - 1].frame.Message? && !hist[|hist| - 1].ok
  }

  /** The last observation is an item not echoed yet. */
  predicate Owes(hist: seq<Obs>) {
    hist != [] && hist[|hist| - 1].Got? && hist[|hist| - 1].item.Some?
  }

  /**
   * Every item decoded and was echoed, but for the last one if it was just received, or if
   * its echo failed.
   */
  ghost predicate BidiSoFar(codec: Codec, hist: seq<Obs>) {
    var items := Decoded(codec, Consumed(hist));
    if Owes(hist) || SendFailed(hist) then
      var n := |items| - 1;
      && n >= 0 && AllOk(items[..n]) && SentFrames(hist) == Echoes(codec, OkPrefix(items[..n]))
      && (if SendFailed(hist) then items[n].Ok?
          else items[n] == DecodeItem(codec, "Ping", hist[|hist| - 1].item.value))
    else AllOk(items) && SentFrames(hist) == Echoes(codec, OkPrefix(items))
  }

  lemma BidiReceives(codec: Codec, hist: seq<Obs>, body: Bytes)
    requires AllOk(Decoded(codec, Consumed(hist)))
    requires SentFrames(hist) == Echoes(codec, OkPrefix(Decoded(codec, Consumed(hist))))
    ensures BidiSoFar(codec, hist + [Got(Some(body))])
  {
    HistAppend(hist, Got(Some(body)));
    var items := Decoded(codec, Consumed(hist));
    DecodedAppend(codec, Consumed(hist), body);
    assert (items + [DecodeItem(codec, "Ping", body)])[..|items|] == items;
  }

  lemma BidiEchoes(codec: Codec, hist: seq<Obs>, frame: RawFrame)
    requires BidiSoFar(codec, hist) && BidiAction(codec, hist) == Send(frame)
    ensures BidiSoFar(codec, hist + [Sent(frame, true)])
  {
    HistAppend(hist, Sent(frame, true));
    var items := Decoded(codec, Consumed(hist));
    var n := |items| - 1;
    PrefixAppend(items[..n], items[n]);
    assert items == items[..n] + [items[n]];
    assert Echoes(codec, OkPrefix(items)) == Echoes(codec, OkPrefix(items[..n])) + [frame];
    assert Consumed(hist + [Sent(frame, true)]) == Consumed(hist);
  }

  lemma BidiFails(codec: Codec, hist: seq<Obs>, frame: RawFrame)
    requires BidiSoFar(codec, hist) && BidiAction(codec, hist) == Send(frame)
    ensures BidiSoFar(codec, hist + [Sent(frame, false)])
  {
    HistAppend(hist, Sent(frame, false));
    assert Consumed(hist + [Sent(frame, false)]) == Consumed(hist);
    assert SentFrames(hist + [Sent(frame, false)]) == SentFrames(hist);
  }

  lemma BidiStep(codec: Codec, hist: seq<Obs>, o: Obs)
    requires BidiSoFar(codec, hist) && Fits(BidiAction(codec, hist), o)
    ensures BidiSoFar(codec, hist + [o])
  {
    HistAppend(hist, o);
    if o.Sent? && o.ok {
      BidiEchoes(codec, hist, o.frame);
    } else if o.Sent? {
      BidiFails(codec, hist, o.frame);
    } else if o.Got? && o.item.Some? {
      BidiReceives(codec, hist, o.item.value);
    } else {
      assert Consumed(hist + [o]) == Consumed(hist) && SentFrames(hist + [o]) == SentFrames(hist);
    }
  }

  lemma {:induction false} BidiRun(codec: Codec, call: Call, hist: seq<Obs>)
    requires call.methodName == "Bidi" && call.payload.Streaming? && call.sink
    requires Follows(GreeterService(codec), call, hist)
    ensures BidiSoFar(codec, hist)
  {
    if hist != [] {
      var n := |hist| - 1;
      BidiRun(codec, call, hist[..n]);
      BidiHandles(codec, call, hist[..n]);
      BidiStep(codec, hist[..n], hist[n]);
      assert hist[..n] + [hist[n]] == hist;
    }
  }

  /** How many messages the sink took, as far as the handler could tell. */
  function Accepted(hist: seq<Obs>, items: Items): nat {
    if SendFailed(hist) then |SentFrames(hist)| else |OkPrefix(items)|
  }

  lemma BidiCutShort(codec: Codec, hist: seq<Obs>, bodies: seq<Bytes>)
    requires BidiSoFar(codec, hist) && SendFailed(hist) && Consumed(hist) <= bodies
    ensures var items := Decoded(codec, bodies); var accepts := |SentFrames(hist)|;
      && accepts < |OkPrefix(items)|
      && SentFrames(hist) == Echoes(codec, BidiSent(items, accepts))
  {
    DecodedPrefix(codec, Consumed(hist), bodies);
    var seen := Decoded(codec, Consumed(hist));
    var n := |seen| - 1;
    assert seen == seen[..n] + [seen[n]];
    OkPrefixExtends(seen, Decoded(codec, bodies));
    OkPrefixExtends(seen[..n], Decoded(codec, bodies));
  }

  lemma BidiRunsOut(codec: Codec, hist: seq<Obs>, bodies: seq<Bytes>)
    requires BidiSoFar(codec, hist) && !SendFailed(hist) && EndOf(BidiAction(codec, hist)).Some?
    requires Consumed(hist) <= bodies && (Got(None) in hist ==> Consumed(hist) == bodies)
    ensures var items := Decoded(codec, bodies);
      && SentFrames(hist) == Echoes(codec, OkPrefix(items))
      && BidiAction(codec, hist) ==
         Return(if FirstError(items).Some? then EndError(FirstError(items).value) else EndStreaming([]))
  {
    var last := hist[|hist| - 1];
    var seen := Decoded(codec, Consumed(hist));
    assert last.Got?;
    if last == Got(None) {
      assert last in hist;
      AllOkNoError(seen);
    } else {
      DecodedPrefix(codec, Consumed(hist), bodies);
      BadItem(seen, Decoded(codec, bodies));
    }
  }

  /**
   * A finished bidi program has sent and returns what the loop sends and returns on the
   * same bodies and a sink that accepts as many messages.
   */
  lemma BidiIsItsLoop(codec: Codec, call: Call, hist: seq<Obs>, bodies: seq<Bytes>)
    requires call.methodName == "Bidi" && call.payload.Streaming? && call.sink
    requires Follows(GreeterService(codec), call, hist) && EndOf(GreeterService(codec).handle(call, hist)).Some?
    requires Consumed(hist) <= bodies && (Got(None) in hist ==> Consumed(hist) == bodies)
    ensures var items := Decoded(codec, bodies); var accepts := Accepted(hist, items);
      && SentFrames(hist) == Echoes(codec, BidiSent(items, accepts))
      && GreeterService(codec).handle(call, hist)
         == EndOfReply(codec, HandleArmOf(GREETER[3]).respond, BidiAnswer(items, accepts))
  {
    BidiRun(codec, call, hist);
    BidiHandles(codec, call, hist);
    if SendFailed(hist) {
      BidiCutShort(codec, hist, bodies);
    } else {
      BidiRunsOut(codec, hist, bodies);
    }
  }

  // ---------------------------------------------------------------------------
  // client_stream and server_stream: the same
  // ---------------------------------------------------------------------------

  /** Until the stream ends, every item but perhaps the last one decoded. */
  ghost predicate ClientStreamSoFar(codec: Codec, hist: seq<Obs>) {
    var items := Decoded(codec, Consumed(hist));
    if Owes(hist) then
      var n := |items| - 1;
      n >= 0 && AllOk(items[..n]) && items[n] == DecodeItem(codec, "Ping", hist[|hist| - 1].item.value)
    else AllOk(items)
  }

  lemma ClientStreamItem(codec: Codec, hist: seq<Obs>, body: Bytes)
    requires AllOk(Decoded(codec, Consumed(hist)))
    ensures ClientStreamSoFar(codec, hist + [Got(Some(body))])
  {
    HistAppend(hist, Got(Some(body)));
    DecodedAppend(codec, Consumed(hist), body);
    var items := Decoded(codec, Consumed(hist));
    assert (items + [DecodeItem(codec, "Ping", body)])[..|items|] == items;
  }

  lemma ClientStreamOther(codec: Codec, hist: seq<Obs>, o: Obs)
    requires AllOk(Decoded(codec, Consumed(hist))) && !(o.Got? && o.item.Some?)
    ensures ClientStreamSoFar(codec, hist + [o])
  {
    HistAppend(hist, o);
    assert Consumed(hist + [o]) == Consumed(hist);
  }

  lemma ClientStreamStep(codec: Codec, hist: seq<Obs>, o: Obs)
    requires ClientStreamSoFar(codec, hist) && Fits(ClientStreamAction(codec, hist), o)
    ensures ClientStreamSoFar(codec, hist + [o])
  {
    var items := Decoded(codec, Consumed(hist));
    assert AllOk(items) by {
      if items != [] {
        assert items == items[..|items| - 1] + [items[|items| - 1]];
      }
    }
    if o.Got? && o.item.Some? {
      ClientStreamItem(codec, hist, o.item.value);
    } else {
      ClientStreamOther(codec, hist, o);
    }
  }

  lemma {:induction false} ClientStreamRun(codec: Codec, call: Call, hist: seq<Obs>)
    requires call.methodName == "ClientStream" && call.payload.Streaming?
    requires Follows(GreeterService(codec), call, hist)
    ensures ClientStreamSoFar(codec, hist)
  {
    if hist != [] {
      var n := |hist| - 1;
      ClientStreamRun(codec, call, hist[..n]);
      ClientStreamHandles(codec, call, hist[..n]);
      ClientStreamStep(codec, hist[..n], hist[n]);
      assert hist[..n] + [hist[n]] == hist;
    }
  }

  /** A finished client_stream program returns what the loop returns on the same bodies. */
  lemma ClientStreamIsItsLoop(codec: Codec, call: Call, hist: seq<Obs>, bodies: seq<Bytes>)
    requires call.methodName == "ClientStream" && call.payload.Streaming?
    requires Follows(GreeterService(codec), call, hist) && EndOf(GreeterService(codec).handle(call, hist)).Some?
    requires Consumed(hist) <= bodies && (Got(None) in hist ==> Consumed(hist) == bodies)
    ensures GreeterService(codec).handle(call, hist)
         == EndOfReply(codec, HandleArmOf(GREETER[1]).respond, ClientStreamAnswer(Decoded(codec, bodies)))
  {
    ClientStreamRun(codec, call, hist);
    ClientStreamHandles(codec, call, hist);
    var last := hist[|hist| - 1];
    if last == Got(None) {
      assert last in hist;
      AllOkNoError(Decoded(codec, bodies));
    } else {
      DecodedPrefix(codec, Consumed(hist), bodies);
      BadItem(Decoded(codec, Consumed(hist)), Decoded(codec, bodies));
    }
  }

  /** The messages of server_stream that reached the sink: all sends but a failed last one. */
  function CountSent(hist: seq<Obs>): nat {
    if SendFailed(hist) then |hist| - 1 else |hist|
  }

  lemma {:induction false} ServerStreamRun(codec: Codec, call: Call, hist: seq<Obs>)
    requires call.methodName == "ServerStream" && call.payload.Single? && call.sink
    requires Follows(GreeterService(codec), call, hist)
    ensures var msg := codec.decode("Ping", call.payload.bytes);
      if msg.None? then hist == []
      else |hist| <= 3 && SentFrames(hist) == Counted(codec, msg.value, CountSent(hist))
  {
    if hist != [] {
      var n := |hist| - 1;
      ServerStreamRun(codec, call, hist[..n]);
      ServerStreamHandles(codec, call, hist[..n]);
    }
  }

  /** A finished server_stream program sent and returns what the loop does on such a sink. */
  lemma ServerStreamIsItsLoop(codec: Codec, call: Call, hist: seq<Obs>, msg: Msg)
    requires call.methodName == "ServerStream" && call.payload.Single? && call.sink
    requires codec.decode("Ping", call.payload.bytes) == Some(msg)
    requires Follows(GreeterService(codec), call, hist) && EndOf(GreeterService(codec).handle(call, hist)).Some?
    ensures var accepts := CountSent(hist);
      && accepts <= 3 && SentFrames(hist) == Counted(codec, msg, accepts)
      && GreeterService(codec).handle(call, hist)
         == EndOfReply(codec, HandleArmOf(GREETER[2]).respond, ServerStreamAnswer(accepts))
  {
    ServerStreamRun(codec, call, hist);
    ServerStreamHandles(codec, call, hist);
  }

  // ---------------------------------------------------------------------------
  // unary
  // ---------------------------------------------------------------------------

  lemma UnaryHandles(codec: Codec, call: Call, hist: seq<Obs>)
    requires call.methodName == "Unary" && call.payload.Single?
    ensures var msg := codec.decode("Ping", call.payload.bytes);
      GreeterService(codec).handle(call, hist)
      == Return(if msg.None? then EndError(DECODE_FAILED) else EndSingle([], codec.encode(msg.value), []))
  {
    var arm := HandleArmOf(GREETER[0]);
    assert ArmFor(Arms(GREETER), "Unary") == Some(arm);
    var msg := codec.decode("Ping", call.payload.bytes);
    if msg.Some? {
      var prog := Program(MyGreeter, arm, OneRequest(call.headers, msg.value));
      var h := TypedHist(codec, "Ping", prog, hist);
      assert prog(h) == MyGreeter("unary", OneRequest(call.headers, msg.value), h);
    }
  }

  // ---------------------------------------------------------------------------
  // Whole calls on the wire
  // ---------------------------------------------------------------------------

  const OK_CLOSE := CloseFrame(WireStatus(0, ""), [], None, None)
  const UNDECODABLE := CloseFrame(WireStatus(13, "failed to decode request"), [], None, None)

  function SingleClose(body: Bytes): ResponseFrame {
    CloseFrame(WireStatus(0, ""), [], Some(body), Some([]))
  }

  /** bidi: each body decoded and encoded again, up to the first that does not decode. */
  function BidiWire(codec: Codec, bodies: seq<Bytes>): seq<ResponseFrame> {
    if bodies == [] then [OK_CLOSE]
    else match codec.decode("Ping", bodies[0])
      case None => [UNDECODABLE]
      case Some(msg) => [BodyFrame(codec.encode(msg))] + BidiWire(codec, bodies[1..])
  }

  /** The messages of all bodies joined, if they all decode. */
  function Joined(codec: Codec, bodies: seq<Bytes>): Option<Msg> {
    if bodies == [] then Some("")
    else match (codec.decode("Ping", bodies[0]), Joined(codec, bodies[1..]))
      case (Some(msg), Some(rest)) => Some(msg + rest)
      case _ => None
  }

  /** client_stream: one Close, with the encoded concatenation if all bodies decode. */
  function ClientStreamWire(codec: Codec, bodies: seq<Bytes>): seq<ResponseFrame> {
    match Joined(codec, bodies)
    case None => [UNDECODABLE]
    case Some(all) => [SingleClose(codec.encode(all))]
  }

  /** server_stream: three numbered messages and the count trailer. */
  function ServerStreamWire(codec: Codec, body: Bytes): seq<ResponseFrame> {
    match codec.decode("Ping", body)
    case None => [UNDECODABLE]
    case Some(msg) => [
      BodyFrame(codec.encode(msg + "-0")),
      BodyFrame(codec.encode(msg + "-1")),
      BodyFrame(codec.encode(msg + "-2")),
      CloseFrame(WireStatus(0, ""), [Entry("x-count", "3")], None, None)]
  }

  /** unary: the message comes back. */
  function UnaryWire(codec: Codec, body: Bytes): seq<ResponseFrame> {
    match codec.decode("Ping", body)
    case None => [UNDECODABLE]
    case Some(msg) => [SingleClose(codec.encode(msg))]
  }

  /** Read frame by frame: echo `k` is of body `k`, and the Close is OK iff all decode. */
  lemma {:induction false} BidiWireAt(codec: Codec, bodies: seq<Bytes>)
    ensures var frames := BidiWire(codec, bodies); var n := |frames| - 1;
      && 0 <= n <= |bodies|
      && (forall k :: 0 <= k < n ==>
            && codec.decode("Ping", bodies[k]).Some?
            && frames[k] == BodyFrame(codec.encode(codec.decode("Ping", bodies[k]).value)))
      && (n < |bodies| ==> codec.decode("Ping", bodies[n]).None?)
      && frames[n] == if n == |bodies| then OK_CLOSE else UNDECODABLE
  {
    if bodies != [] && codec.decode("Ping", bodies[0]).Some? {
      var frames := BidiWire(codec, bodies);
      var rest := BidiWire(codec, bodies[1..]);
      BidiWireAt(codec, bodies[1..]);
      forall k | 0 <= k < |frames| - 1
        ensures codec.decode("Ping", bodies[k]).Some?
             && frames[k] == BodyFrame(codec.encode(codec.decode("Ping", bodies[k]).value))
      {
        if k > 0 {
          assert frames[k] == rest[k - 1] && bodies[k] == bodies[1..][k - 1];
        }
      }
    }
  }

  lemma {:induction false} BidiWireOfItems(codec: Codec, bodies: seq<Bytes>)
    ensures var items := Decoded(codec, bodies);
      BidiWire(codec, bodies) == WireFrames(Echoes(codec, OkPrefix(items)))
        + [if FirstError(items).Some? then UNDECODABLE else OK_CLOSE]
  {
    if bodies != [] {
      var items := Decoded(codec, bodies);
      assert items[1..] == Decoded(codec, bodies[1..]);
      if items[0].Ok? {
        BidiWireOfItems(codec, bodies[1..]);
        var rest := OkPrefix(items[1..]);
        assert WireFrames(Echoes(codec, [items[0].value] + rest))
            == [BodyFrame(codec.encode(items[0].value))] + WireFrames(Echoes(codec, rest));
      }
    }
  }

  lemma {:induction false} JoinedOfItems(codec: Codec, bodies: seq<Bytes>)
    ensures var items := Decoded(codec, bodies);
      Joined(codec, bodies) == if FirstError(items).Some? then None else Some(Concat(OkPrefix(items)))
  {
    if bodies != [] {
      var items := Decoded(codec, bodies);
      assert items[1..] == Decoded(codec, bodies[1..]);
      JoinedOfItems(codec, bodies[1..]);
    }
  }

  /** The whole answer to a call of the greeter, from what its client uploaded. */
  function GreeterWire(codec: Codec, name: string, upload: Upload): seq<ResponseFrame> {
    if name == "Bidi" then BidiWire(codec, upload.bodies)
    else if name == "ClientStream" then ClientStreamWire(codec, upload.bodies)
    else if upload.begin.None? || upload.begin.value.singleRequest.None? then []
    else if name == "ServerStream" then ServerStreamWire(codec, upload.begin.value.singleRequest.value)
    else UnaryWire(codec, upload.begin.value.singleRequest.value)
  }

  /** A call of the greeter that ran to its own Close and was not cut off before. */
  ghost predicate RanToClose(s: State, id: ReqId, codec: Codec, name: string) {
    && id in s.tasks && s.tasks[id].service == GreeterService(codec) && s.tasks[id].call.methodName == name
    && s.tasks[id].closed.Some? && !s.tasks[id].aborted
  }

  /** Its handler followed the program to the end on the bodies, and all its sends worked. */
  ghost predicate RanOut(t: Task, codec: Codec, m: Method, bodies: seq<Bytes>) {
    && t.call.methodName == m.protoName
    && t.call.payload.Streaming? == m.clientStreaming && t.call.sink == m.serverStreaming
    && Follows(GreeterService(codec), t.call, t.hist) && SendsFit(t.hist, t.call.sink, true)
    && EndOf(GreeterService(codec).handle(t.call, t.hist)) == t.closed && t.closed.Some?
    && Consumed(t.hist) <= bodies && (Got(None) in t.hist ==> Consumed(t.hist) == bodies)
  }

  lemma MethodNames(name: string)
    requires MethodFor(GREETER, name).Some?
    ensures name == "Unary" || name == "ClientStream" || name == "ServerStream" || name == "Bidi"
    ensures name == "Unary" ==> MethodFor(GREETER, name).value == GREETER[0]
    ensures name == "ClientStream" ==> MethodFor(GREETER, name).value == GREETER[1]
    ensures name == "ServerStream" ==> MethodFor(GREETER, name).value == GREETER[2]
    ensures name == "Bidi" ==> MethodFor(GREETER, name).value == GREETER[3]
  {
    assert GREETER[1..][1..][1..][1..] == [];
    assert MethodFor(GREETER[1..][1..][1..][1..], name).None?;
    assert MethodFor(GREETER[1..][1..][1..], name).Some? ==> name == "Bidi";
    assert MethodFor(GREETER[1..][1..], name).Some? ==> name == "ServerStream" || name == "Bidi";
  }

  lemma CompletedCall(cfg: Config, s: State, id: ReqId, codec: Codec, name: string)
    requires Inv(cfg, s) && RanToClose(s, id, codec, name)
    ensures MethodFor(GREETER, name).Some?
    ensures RanOut(s.tasks[id], codec, MethodFor(GREETER, name).value, UploadOf(s.packets, id).bodies)
    ensures FramesFor(s.enqueued, id) == OwnFrames(s.tasks[id])
  {
    assert CallInv(s, id) && HistoryInv(cfg, s, id);
    var t := s.tasks[id];
    RoutedCallsFit(cfg.router, t.begin, GREETER, codec, MyGreeter, t.call);
    MethodNames(name);
    assert Consumed(t.hist) <= Consumed(t.hist) + t.inbox;
  }

  lemma WorkingSinkNeverFails(hist: seq<Obs>)
    requires SendsFit(hist, true, true)
    ensures !SendFailed(hist)
  {
  }

  lemma BidiEnds(t: Task, codec: Codec, bodies: seq<Bytes>)
    requires RanOut(t, codec, GREETER[3], bodies)
    ensures var items := Decoded(codec, bodies);
      && SentFrames(t.hist) == Echoes(codec, OkPrefix(items))
      && t.closed == Some(if FirstError(items).Some? then EndError(DECODE_FAILED) else EndStreaming([]))
  {
    WorkingSinkNeverFails(t.hist);
    BidiRun(codec, t.call, t.hist);
    BidiHandles(codec, t.call, t.hist);
    BidiRunsOut(codec, t.hist, bodies);
    ErrorsAreDecoding(codec, bodies);
  }

  lemma ClosesOnTheWire()
    ensures CloseOf(EndError(DECODE_FAILED)) == UNDECODABLE && CloseOf(EndStreaming([])) == OK_CLOSE
  {
  }

  lemma BidiFrames(t: Task, codec: Codec, bodies: seq<Bytes>)
    requires RanOut(t, codec, GREETER[3], bodies)
    ensures OwnFrames(t) == BidiWire(codec, bodies)
  {
    BidiEnds(t, codec, bodies);
    ClosesOnTheWire();
    BidiWireOfItems(codec, bodies);
  }

  lemma ClientStreamFrames(t: Task, codec: Codec, bodies: seq<Bytes>)
    requires RanOut(t, codec, GREETER[1], bodies)
    ensures OwnFrames(t) == ClientStreamWire(codec, bodies)
  {
    ClientStreamIsItsLoop(codec, t.call, t.hist, bodies);
    ErrorsAreDecoding(codec, bodies);
    NoSinkNoFrames(t.hist, true);
    JoinedOfItems(codec, bodies);
  }

  lemma ThreeMessages(codec: Codec, msg: Msg)
    ensures WireFrames(Counted(codec, msg, 3)) == [
      BodyFrame(codec.encode(msg + "-0")), BodyFrame(codec.encode(msg + "-1")), BodyFrame(codec.encode(msg + "-2"))]
  {
    assert msg + "-" + "0" == msg + "-0" && msg + "-" + "1" == msg + "-1" && msg + "-" + "2" == msg + "-2";
    assert Digit(0) == "0" && Digit(1) == "1" && Digit(2) == "2";
  }

  lemma CountTrailerOnTheWire()
    ensures CloseOf(EndStreaming(COUNT_TRAILERS)) == CloseFrame(WireStatus(0, ""), [Entry("x-count", "3")], None, None)
  {
    XCountIsLower();
    assert RowEntries("x-count", ["3"]) == [Entry("x-count", "3")];
    assert COUNT_TRAILERS[1..] == [];
  }

  lemma ServerStreamFrames(t: Task, codec: Codec, bodies: seq<Bytes>)
    requires RanOut(t, codec, GREETER[2], bodies)
    ensures OwnFrames(t) == ServerStreamWire(codec, t.call.payload.bytes)
  {
    var msg := codec.decode("Ping", t.call.payload.bytes);
    ServerStreamRun(codec, t.call, t.hist);
    ServerStreamHandles(codec, t.call, t.hist);
    CountTrailerOnTheWire();
    if msg.Some? {
      ThreeMessages(codec, msg.value);
    }
  }

  lemma UnaryFrames(t: Task, codec: Codec, bodies: seq<Bytes>)
    requires RanOut(t, codec, GREETER[0], bodies)
    ensures OwnFrames(t) == UnaryWire(codec, t.call.payload.bytes)
  {
    UnaryHandles(codec, t.call, t.hist);
    NoSinkNoFrames(t.hist, true);
  }

  /**
   * bidi, end to end, in every run: the echoes of the bodies before the first one that
   * does not decode, then a Close that is OK exactly when all of them decode.
   */
  lemma BidiEndToEnd(cfg: Config, schedule: seq<Step>, id: ReqId, codec: Codec)
    requires RanToClose(Run(cfg, schedule), id, codec, "Bidi")
    ensures var s := Run(cfg, schedule);
      FramesFor(s.enqueued, id) == BidiWire(codec, UploadOf(s.packets, id).bodies)
    ensures var s := Run(cfg, schedule); var bodies := UploadOf(s.packets, id).bodies;
      var frames := FramesFor(s.enqueued, id); var n := |frames| - 1;
      && 0 <= n <= |bodies|
      && (forall k :: 0 <= k < n ==>
            && codec.decode("Ping", bodies[k]).Some?
            && frames[k] == BodyFrame(codec.encode(codec.decode("Ping", bodies[k]).value)))
      && (n < |bodies| ==> codec.decode("Ping", bodies[n]).None?)
      && frames[n] == CloseFrame(
           if n == |bodies| then WireStatus(0, "") else WireStatus(13, "failed to decode request"), [], None, None)
  {
    InvAlways(cfg, schedule);
    BidiWireAt(codec, UploadOf(Run(cfg, schedule).packets, id).bodies);
    CompletedCall(cfg, Run(cfg, schedule), id, codec, "Bidi");
    MethodNames("Bidi");
    BidiFrames(Run(cfg, schedule).tasks[id], codec, UploadOf(Run(cfg, schedule).packets, id).bodies);
  }

  /** client_stream, end to end, in every run: one Close, with the concatenation or the failure. */
  lemma ClientStreamEndToEnd(cfg: Config, schedule: seq<Step>, id: ReqId, codec: Codec)
    requires RanToClose(Run(cfg, schedule), id, codec, "ClientStream")
    ensures var s := Run(cfg, schedule);
      FramesFor(s.enqueued, id) == ClientStreamWire(codec, UploadOf(s.packets, id).bodies)
  {
    InvAlways(cfg, schedule);
    CompletedCall(cfg, Run(cfg, schedule), id, codec, "ClientStream");
    MethodNames("ClientStream");
    ClientStreamFrames(Run(cfg, schedule).tasks[id], codec, UploadOf(Run(cfg, schedule).packets, id).bodies);
  }

  lemma SingleUpload(cfg: Config, s: State, id: ReqId)
    requires UploadInv(s, id) && TaskInv(cfg, s, id) && id in s.tasks && s.tasks[id].call.payload.Single?
    ensures var upload := UploadOf(s.packets, id);
      upload.begin.Some? && upload.begin.value.singleRequest == Some(s.tasks[id].call.payload.bytes)
  {
  }

  /** server_stream, end to end: three numbered messages and OK, or one decoding failure. */
  lemma ServerStreamEndToEnd(cfg: Config, schedule: seq<Step>, id: ReqId, codec: Codec)
    requires RanToClose(Run(cfg, schedule), id, codec, "ServerStream")
    ensures var s := Run(cfg, schedule); var begin := UploadOf(s.packets, id).begin;
      && begin.Some? && begin.value.singleRequest.Some?
      && FramesFor(s.enqueued, id) == ServerStreamWire(codec, begin.value.singleRequest.value)
  {
    InvAlways(cfg, schedule);
    var s := Run(cfg, schedule);
    CompletedCall(cfg, s, id, codec, "ServerStream");
    MethodNames("ServerStream");
    ServerStreamFrames(s.tasks[id], codec, UploadOf(s.packets, id).bodies);
    assert HistoryInv(cfg, s, id);
    SingleUpload(cfg, s, id);
  }

  /** unary, end to end: the message comes back in the Close. */
  lemma UnaryEndToEnd(cfg: Config, schedule: seq<Step>, id: ReqId, codec: Codec)
    requires RanToClose(Run(cfg, schedule), id, codec, "Unary")
    ensures var s := Run(cfg, schedule); var begin := UploadOf(s.packets, id).begin;
      && begin.Some? && begin.value.singleRequest.Some?
      && FramesFor(s.enqueued, id) == UnaryWire(codec, begin.value.singleRequest.value)
  {
    InvAlways(cfg, schedule);
    var s := Run(cfg, schedule);
    CompletedCall(cfg, s, id, codec, "Unary");
    MethodNames("Unary");
    UnaryFrames(s.tasks[id], codec, UploadOf(s.packets, id).bodies);
    assert HistoryInv(cfg, s, id);
    SingleUpload(cfg, s, id);
  }

  /** Any call of the greeter, end to end. */
  lemma GreeterEndToEnd(cfg: Config, schedule: seq<Step>, id: ReqId, codec: Codec, name: string)
    requires RanToClose(Run(cfg, schedule), id, codec, name)
    ensures FramesFor(Run(cfg, schedule).enqueued, id)
         == GreeterWire(codec, name, UploadOf(Run(cfg, schedule).packets, id))
  {
    InvAlways(cfg, schedule);
    CompletedCall(cfg, Run(cfg, schedule), id, codec, name);
    MethodNames(name);
    if name == "Bidi" {
      BidiEndToEnd(cfg, schedule, id, codec);
    } else if name == "ClientStream" {
      ClientStreamEndToEnd(cfg, schedule, id, codec);
    } else if name == "ServerStream" {
      ServerStreamEndToEnd(cfg, schedule, id, codec);
    } else {
      UnaryEndToEnd(cfg, schedule, id, codec);
    }
  }
}
