/**
 * The typed streaming layer: proto-service/src/response.rs and request.rs. Handlers
 * written against it are lowered to raw programs, and keep the wire grammar.
 */
module Typed {
  import opened Wire
  import opened Metadata
  import opened Services
  import opened Protocol
  import opened Calls
  import opened Accounting

  // ---------------------------------------------------------------------------
  // The send side: `opened` and the frames that reached the sink
  // ---------------------------------------------------------------------------

  /** What becomes of a send: it completes, fails, or its future is dropped on the way. */
  datatype Fate = Completed | SinkClosed | Abandoned(queued: bool)

  datatype Attempt = TryHeaders(metadata: Rows, fate: Fate) | TryMessage(body: Bytes, fate: Fate)

  datatype Channel = Channel(hasOpened: bool, sent: seq<RawFrame>)

  datatype SendResult = SendOk | SendClosed | AlreadyOpened | SendDropped

  function Queues(fate: Fate): bool {
    fate.Completed? || (fate.Abandoned? && fate.queued)
  }

  /** One frame offered to the sink; `opened` is set only after the send completed. */
  function Offer(c: Channel, frame: RawFrame, fate: Fate): Channel {
    Channel(c.hasOpened || fate.Completed?, if Queues(fate) then c.sent + [frame] else c.sent)
  }

  function Try(c: Channel, a: Attempt): Channel {
    match a
    case TryHeaders(md, fate) => if c.hasOpened then c else Offer(c, Headers(md), fate)
    case TryMessage(body, fate) => Offer(c, Message(body), fate)
  }

  function TryAll(attempts: seq<Attempt>): Channel {
    if attempts == [] then Channel(false, [])
    else Try(TryAll(attempts[..|attempts| - 1]), attempts[|attempts| - 1])
  }

  function ResultOf(c: Channel, a: Attempt): SendResult {
    if a.TryHeaders? && c.hasOpened then AlreadyOpened
    else match a.fate
      case Completed => SendOk
      case SinkClosed => SendClosed
      case Abandoned(_) => SendDropped
  }

  /** Headers at most once, and only as the first frame. */
  predicate HeadersFirst(frames: seq<RawFrame>) {
    forall i :: 0 < i < |frames| ==> frames[i].Message?
  }

  predicate SomeCompleted(attempts: seq<Attempt>) {
    exists m :: 0 <= m < |attempts| && attempts[m].fate.Completed?
  }

  predicate Late(first: Attempt, second: Attempt) {
    first.fate == Abandoned(true) && second.TryHeaders? && Queues(second.fate)
  }

  /**
   * No headers are put after a send whose queued future was dropped, unless some send
   * completed before them.
   */
  ghost predicate Careful(attempts: seq<Attempt>) {
    forall j, k :: 0 <= j < k < |attempts| && Late(attempts[j], attempts[k]) ==> SomeCompleted(attempts[..k])
  }

  lemma SomeCompletedAppend(attempts: seq<Attempt>, a: Attempt)
    ensures SomeCompleted(attempts + [a]) <==> SomeCompleted(attempts) || a.fate.Completed?
  {
    if SomeCompleted(attempts) {
      var m :| 0 <= m < |attempts| && attempts[m].fate.Completed?;
      assert (attempts + [a])[m].fate.Completed?;
    }
    if a.fate.Completed? {
      assert (attempts + [a])[|attempts|].fate.Completed?;
    }
  }

  lemma {:induction false} OpenedMeans(attempts: seq<Attempt>)
    ensures TryAll(attempts).hasOpened <==> SomeCompleted(attempts)
    ensures TryAll(attempts).hasOpened ==> TryAll(attempts).sent != []
    ensures !TryAll(attempts).hasOpened ==>
      (TryAll(attempts).sent != [] <==> exists j :: 0 <= j < |attempts| && attempts[j].fate == Abandoned(true))
  {
    if attempts != [] {
      var n := |attempts| - 1;
      OpenedMeans(attempts[..n]);
      SomeCompletedAppend(attempts[..n], attempts[n]);
      assert attempts == attempts[..n] + [attempts[n]];
      if !TryAll(attempts).hasOpened && TryAll(attempts).sent != [] {
        if attempts[n].fate != Abandoned(true) {
          var j :| 0 <= j < n && attempts[..n][j].fate == Abandoned(true);
          assert attempts[j].fate == Abandoned(true);
        }
      }
    }
  }

  lemma CarefulPrefix(before: seq<Attempt>, last: Attempt)
    ensures Careful(before + [last]) <==>
      Careful(before) && forall j :: 0 <= j < |before| && Late(before[j], last) ==> SomeCompleted(before)
  {
    var all := before + [last];
    assert forall k :: 0 <= k <= |before| ==> all[..k] == before[..k];
    assert all[..|before|] == before;
    if Careful(all) {
      forall j, k | 0 <= j < k < |before| && Late(before[j], before[k]) ensures SomeCompleted(before[..k]) {
        assert Late(all[j], all[k]);
      }
      forall j | 0 <= j < |before| && Late(before[j], last) ensures SomeCompleted(before) {
        assert Late(all[j], all[|before|]);
      }
    }
  }

  /** One more attempt keeps the grammar unless it puts headers after a dropped send. */
  lemma GrammarStep(before: seq<Attempt>, last: Attempt)
    ensures HeadersFirst(Try(TryAll(before), last).sent) <==>
      HeadersFirst(TryAll(before).sent)
      && !(last.TryHeaders? && Queues(last.fate) && !TryAll(before).hasOpened && TryAll(before).sent != [])
  {
    OpenedMeans(before);
    var c := TryAll(before);
    var sent := Try(c, last).sent;
    assert forall i :: 0 <= i < |c.sent| ==> sent[i] == c.sent[i];
    if last.TryHeaders? && Queues(last.fate) && !c.hasOpened && c.sent != [] {
      assert sent[|c.sent|] == Headers(last.metadata);
    }
  }

  /** The grammar holds of exactly the careful callers; every completed send is careful. */
  lemma {:induction false} GrammarIffCareful(attempts: seq<Attempt>)
    ensures HeadersFirst(TryAll(attempts).sent) <==> Careful(attempts)
    ensures (forall a :: a in attempts ==> !a.fate.Abandoned?) ==> Careful(attempts)
  {
    if attempts != [] {
      var n := |attempts| - 1;
      var before := attempts[..n];
      assert attempts == before + [attempts[n]];
      GrammarIffCareful(before);
      OpenedMeans(before);
      CarefulPrefix(before, attempts[n]);
      GrammarStep(before, attempts[n]);
    }
  }

  /** Headers can follow a message: its send was queued, but dropped before it completed. */
  lemma HeadersAfterDroppedSend(body: Bytes, headers: Rows)
    ensures var attempts := [TryMessage(body, Abandoned(true)), TryHeaders(headers, Completed)];
      TryAll(attempts) == Channel(true, [Message(body), Headers(headers)])
      && !HeadersFirst(TryAll(attempts).sent) && !Careful(attempts)
  {
    var first := TryMessage(body, Abandoned(true));
    var attempts := [first, TryHeaders(headers, Completed)];
    assert attempts[..1] == [first] && [first][..0] == [];
    assert TryAll([first]) == Channel(false, [Message(body)]);
    GrammarIffCareful(attempts);
  }

  class StreamingResponse {
    var hasOpened: bool
    var sink: seq<RawFrame>

    function View(): Channel
      reads this
    {
      Channel(hasOpened, sink)
    }

    constructor ()
      ensures View() == TryAll([])
    {
      hasOpened, sink := false, [];
    }

    /** `fate` is what the sink, or the caller dropping the future, makes of the send. */
    method SendHeaders(headers: Rows, fate: Fate) returns (r: SendResult)
      modifies this
      ensures View() == Try(old(View()), TryHeaders(headers, fate))
      ensures r == ResultOf(old(View()), TryHeaders(headers, fate))
      ensures r == AlreadyOpened <==> old(hasOpened)
      ensures r == SendClosed <==> !old(hasOpened) && fate.SinkClosed?
      ensures r == AlreadyOpened || r == SendClosed ==> unchanged(this)
      ensures r == SendDropped ==> !hasOpened && sink == old(sink) + if fate.queued then [Headers(headers)] else []
      ensures r == SendOk ==> hasOpened && sink == old(sink) + [Headers(headers)]
    {
      if hasOpened {
        return AlreadyOpened;
      }
      if Queues(fate) {
        sink := sink + [Headers(headers)];
      }
      match fate {
        case SinkClosed => return SendClosed;
        case Abandoned(_) => return SendDropped;
        case Completed =>
      }
      hasOpened := true;
      return SendOk;
    }

    method SendMessage(body: Bytes, fate: Fate) returns (r: SendResult)
      modifies this
      ensures View() == Try(old(View()), TryMessage(body, fate))
      ensures r == ResultOf(old(View()), TryMessage(body, fate))
      ensures r == SendOk <==> fate.Completed?
      ensures r == SendClosed <==> fate.SinkClosed?
      ensures r == SendClosed ==> unchanged(this)
      ensures r == SendDropped ==>
        hasOpened == old(hasOpened) && sink == old(sink) + if fate.queued then [Message(body)] else []
      ensures r == SendOk ==> hasOpened && sink == old(sink) + [Message(body)]
    {
      if Queues(fate) {
        sink := sink + [Message(body)];
      }
      match fate {
        case SinkClosed => return SendClosed;
        case Abandoned(_) => return SendDropped;
        case Completed =>
      }
      hasOpened := true;
      return SendOk;
    }
  }

  // ---------------------------------------------------------------------------
  // Typed handlers as raw programs
  // ---------------------------------------------------------------------------

  /** A decoded message, known by its content. */
  type Msg = string

  /** Message types are named; encoding and decoding are whatever they are. */
  datatype Codec = Codec(decode: (string, Bytes) -> Option<Msg>, encode: Msg -> Bytes)

  const DECODE_FAILED := Status(Internal, "failed to decode request")

  function DecodeItem(codec: Codec, typeName: string, body: Bytes): Result<Msg, Status> {
    var m := codec.decode(typeName, body);
    if m.Some? then Ok(m.value) else Err(DECODE_FAILED)
  }

  datatype Reply = SingleReply(headers: Rows, msg: Msg, trailers: Rows) | StreamReply(trailers: Rows)

  datatype TAction =
    | NextItem
    | SendHeaders(metadata: Rows)
    | SendMessage(msg: Msg)
    | DropStream
    | Work
    | Finish(result: Result<Reply, Status>)
    | Crash

  datatype TObs =
    | Item(item: Option<Result<Msg, Status>>)
    | HeadersSent(result: SendResult)
    | MessageSent(ok: bool)
    | Worked(seen: Bytes)
    | Other

  /** What a typed action sees of its raw outcome. */
  function TypedObs(codec: Codec, typeName: string, a: TAction, o: Obs): TObs {
    match o
    case Got(None) => Item(None)
    case Got(Some(body)) => Item(Some(DecodeItem(codec, typeName, body)))
    case Sent(Headers(_), ok) => HeadersSent(if ok then SendOk else SendClosed)
    case Sent(Message(_), ok) => MessageSent(ok)
    case Computed(seen) => if a.SendHeaders? then HeadersSent(AlreadyOpened) else Worked(seen)
    case _ => Other
  }

  function TypedHist(codec: Codec, typeName: string, prog: seq<TObs> -> TAction, hist: seq<Obs>): (r: seq<TObs>)
    ensures |r| == |hist|
  {
    if hist == [] then []
    else
      var n := |hist| - 1;
      var before := TypedHist(codec, typeName, prog, hist[..n]);
      before + [TypedObs(codec, typeName, prog(before), hist[n])]
  }

  lemma LastSeen(codec: Codec, typeName: string, prog: seq<TObs> -> TAction, hist: seq<Obs>)
    requires hist != []
    ensures var n := |hist| - 1; var h := TypedHist(codec, typeName, prog, hist);
      && h[..n] == TypedHist(codec, typeName, prog, hist[..n])
      && h[n] == TypedObs(codec, typeName, prog(h[..n]), hist[n])
  {
    var n := |hist| - 1;
    assert TypedHist(codec, typeName, prog, hist)[..n] == TypedHist(codec, typeName, prog, hist[..n]);
  }

  type Items = seq<Result<Msg, Status>>

  /** `StreamingRequest`: the raw stream, decoded element by element. */
  function DecodeAll(codec: Codec, typeName: string, bodies: seq<Bytes>): (r: Items)
    ensures |r| == |bodies|
    ensures forall i :: 0 <= i < |r| ==> r[i] == DecodeItem(codec, typeName, bodies[i])
  {
    seq(|bodies|, i requires 0 <= i < |bodies| => DecodeItem(codec, typeName, bodies[i]))
  }

  /** The items a typed handler has seen. */
  function Received(h: seq<TObs>): Items {
    if h == [] then []
    else
      var last := h[|h| - 1];
      Received(h[..|h| - 1]) + if last.Item? && last.item.Some? then [last.item.value] else []
  }

  /** The typed item of a body: its message, or the status that says it is none. */
  predicate DecodesTo(codec: Codec, typeName: string, body: Bytes, item: Result<Msg, Status>) {
    match codec.decode(typeName, body)
    case Some(msg) => item == Ok(msg)
    case None => item == Err(Status(Internal, "failed to decode request"))
  }

  /** One typed item for each body, of that body alone. */
  predicate DecodesEach(codec: Codec, typeName: string, bodies: seq<Bytes>, items: Items) {
    && |items| == |bodies|
    && forall k :: 0 <= k < |items| ==> DecodesTo(codec, typeName, bodies[k], items[k])
  }

  lemma {:induction false} ReceivedAll(codec: Codec, typeName: string, prog: seq<TObs> -> TAction, hist: seq<Obs>)
    ensures Received(TypedHist(codec, typeName, prog, hist)) == DecodeAll(codec, typeName, Consumed(hist))
  {
    if hist != [] {
      var n := |hist| - 1;
      ReceivedAll(codec, typeName, prog, hist[..n]);
      var h := TypedHist(codec, typeName, prog, hist);
      assert h[..n] == TypedHist(codec, typeName, prog, hist[..n]);
    }
  }

  lemma DecodeAllEach(codec: Codec, typeName: string, bodies: seq<Bytes>)
    ensures DecodesEach(codec, typeName, bodies, DecodeAll(codec, typeName, bodies))
  {
  }

  /** A decoding failure is an item like any other: it does not end the stream. */
  lemma {:induction false} ReceivedDecoded(codec: Codec, typeName: string, prog: seq<TObs> -> TAction, hist: seq<Obs>)
    ensures Received(TypedHist(codec, typeName, prog, hist)) == DecodeAll(codec, typeName, Consumed(hist))
    ensures DecodesEach(codec, typeName, Consumed(hist), Received(TypedHist(codec, typeName, prog, hist)))
  {
    ReceivedAll(codec, typeName, prog, hist);
    DecodeAllEach(codec, typeName, Consumed(hist));
  }

  /** `StreamingResponse.opened`, read off the raw history. */
  predicate Opened(hist: seq<Obs>) {
    exists k :: 0 <= k < |hist| && hist[k].Sent? && hist[k].ok
  }

  /** The raw action behind a typed one that does not end the call. */
  function LowerAction(codec: Codec, a: TAction, hasOpened: bool): Action
    requires !a.Finish?
  {
    match a
    case NextItem => Recv
    case SendHeaders(md) => if hasOpened then Local else Send(Headers(md))
    case SendMessage(msg) => Send(Message(codec.encode(msg)))
    case DropStream => DropRx
    case Work => Local
    case Crash => Panic
  }

  /**
   * What a typed handler sees of its last action, and what that action put into the sink:
   * as `StreamingResponse` does it, with headers refused once a frame got through.
   */
  lemma LastAction(codec: Codec, typeName: string, prog: seq<TObs> -> TAction, hist: seq<Obs>)
    requires hist != []
    requires var n := |hist| - 1; var a := prog(TypedHist(codec, typeName, prog, hist[..n]));
      !a.Finish? && Fits(LowerAction(codec, a, Opened(hist[..n])), hist[n])
    ensures var n := |hist| - 1; var o := hist[n]; var late := Opened(hist[..n]);
      var seen := TypedHist(codec, typeName, prog, hist)[n];
      match prog(TypedHist(codec, typeName, prog, hist[..n]))
      case SendHeaders(md) =>
        if late then seen == HeadersSent(AlreadyOpened) && !o.Sent?
        else o.Sent? && o.frame == Headers(md) && seen == HeadersSent(if o.ok then SendOk else SendClosed)
      case SendMessage(msg) => o.Sent? && o.frame == Message(codec.encode(msg)) && seen == MessageSent(o.ok)
      case NextItem => o.NoStream? || (o.Got? && seen.Item? && (seen.item.None? <==> o.item.None?)
                                       && (o.item.Some? ==> DecodesTo(codec, typeName, o.item.value, seen.item.value)))
      case Work => o.Computed? && seen == Worked(o.seen)
      case DropStream => o == DroppedRx
      case _ => true
  {
    LastSeen(codec, typeName, prog, hist);
  }

  // ---------------------------------------------------------------------------
  // Wire grammar
  // ---------------------------------------------------------------------------

  predicate PutsHeaders(a: Action) {
    a.Send? && a.frame.Headers?
  }

  /** A service whose response frames all go through `StreamingResponse`. */
  ghost predicate UsesStreamingResponse(service: Service) {
    forall call, hist :: PutsHeaders(service.handle(call, hist)) ==> !Opened(hist)
  }

  lemma {:induction false} OpenedSent(hist: seq<Obs>)
    ensures Opened(hist) <==> SentFrames(hist) != []
  {
    if hist != [] {
      var n := |hist| - 1;
      OpenedSent(hist[..n]);
      if Opened(hist[..n]) {
        var k :| 0 <= k < n && hist[..n][k].Sent? && hist[..n][k].ok;
        assert hist[k].Sent? && hist[k].ok;
      }
    }
  }

  /** The call on `StreamingResponse` that an observation stands for. */
  function AttemptOf(frame: RawFrame, ok: bool): Attempt {
    var fate := if ok then Completed else SinkClosed;
    match frame
    case Headers(md) => TryHeaders(md, fate)
    case Message(body) => TryMessage(body, fate)
  }

  function AttemptsOf(hist: seq<Obs>): seq<Attempt> {
    if hist == [] then []
    else
      var last := hist[|hist| - 1];
      var before := AttemptsOf(hist[..|hist| - 1]);
      if last.Sent? then before + [AttemptOf(last.frame, last.ok)] else before
  }

  lemma AttemptAppend(before: seq<Attempt>, frame: RawFrame, ok: bool)
    requires frame.Headers? ==> !TryAll(before).hasOpened
    ensures var c := TryAll(before);
      TryAll(before + [AttemptOf(frame, ok)]) == Channel(c.hasOpened || ok, if ok then c.sent + [frame] else c.sent)
  {
    assert (before + [AttemptOf(frame, ok)])[..|before|] == before;
  }

  /**
   * A handler's history is a run of its `StreamingResponse`: the same frames reached the
   * sink, and the flag is set exactly when one did.
   */
  lemma {:induction false} HistoryIsAttempts(service: Service, call: Call, hist: seq<Obs>)
    requires UsesStreamingResponse(service) && Follows(service, call, hist)
    ensures TryAll(AttemptsOf(hist)) == Channel(SentFrames(hist) != [], SentFrames(hist))
    ensures TryAll(AttemptsOf(hist)).hasOpened <==> Opened(hist)
  {
    OpenedSent(hist);
    if hist != [] {
      var n := |hist| - 1;
      HistoryIsAttempts(service, call, hist[..n]);
      if hist[n].Sent? {
        AttemptAppend(AttemptsOf(hist[..n]), hist[n].frame, hist[n].ok);
      }
    }
  }

  lemma {:induction false} FollowsGrammar(service: Service, call: Call, hist: seq<Obs>)
    requires UsesStreamingResponse(service) && Follows(service, call, hist)
    ensures HeadersFirst(SentFrames(hist))
  {
    if hist != [] {
      var n := |hist| - 1;
      FollowsGrammar(service, call, hist[..n]);
      OpenedSent(hist[..n]);
    }
  }

  /** Headers? Message* Close?, possibly cut short. */
  predicate CallGrammar(frames: seq<ResponseFrame>) {
    forall i :: 0 <= i < |frames| ==>
      (frames[i].HeadersFrame? ==> i == 0) && (frames[i].CloseFrame? ==> i == |frames| - 1)
  }

  lemma {:induction false} PrefixFrames(short: seq<ResponsePacket>, long: seq<ResponsePacket>, id: ReqId)
    requires short <= long
    ensures FramesFor(short, id) <= FramesFor(long, id)
  {
    if |short| < |long| {
      PrefixFrames(short, long[..|long| - 1], id);
    } else {
      assert short == long;
    }
  }

  /**
   * In every run, the frames of a call whose handler uses `StreamingResponse` follow the
   * wire grammar, in the funnel and at the outbound sink; a killed call adds at most one
   * Close of its own after that.
   */
  lemma WireGrammar(cfg: Config, schedule: seq<Step>, id: ReqId)
    requires id in Run(cfg, schedule).tasks ==> UsesStreamingResponse(Run(cfg, schedule).tasks[id].service)
    ensures var s := Run(cfg, schedule); var frames := FramesFor(s.enqueued, id);
      && (!Killed(s, id) ==> CallGrammar(frames) && CallGrammar(FramesFor(s.delivered, id)))
      && (Killed(s, id) ==> CallGrammar(OwnFrames(s.tasks[id])))
      && (Killed(s, id) ==> frames == OwnFrames(s.tasks[id]) + ServerFrames(s.closers[id]))
      && FramesFor(s.delivered, id) <= frames
  {
    InvAlways(cfg, schedule);
    var s := Run(cfg, schedule);
    assert HistoryInv(cfg, s, id);
    PrefixFrames(s.delivered, s.enqueued, id);
    if id in s.tasks {
      var t := s.tasks[id];
      FollowsGrammar(t.service, t.call, t.hist);
      assert CallGrammar(OwnFrames(t));
    }
  }
}
