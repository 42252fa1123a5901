/**
 * A client that follows the documented lifetime of proto_pipe.v1 never breaks the
 * connection and never gets a call killed, however the server's tasks interleave.
 */
module Client {
  import opened Wire
  import opened Services
  import opened Protocol
  import opened Invariants
  import opened Calls
  import opened Accounting

  /** Where the client stands on one call. */
  datatype ClientCall = Unopened | SingleSent | Sending | HalfClosed | GaveUp | Misused

  /** The client and the server agree on whether the method takes a request stream. */
  predicate Agrees(cfg: Config, begin: Begin) {
    var routing := Route(cfg.router, begin);
    routing.Start? ==> routing.call.payload.Streaming? == begin.singleRequest.None?
  }

  /**
   * The documented order of a call's request packets. A Cancel is fine at any time: it is
   * a no-op on a call that was never begun or is over. A frame of a newer protocol version
   * says nothing about the call.
   */
  function ClientNext(cfg: Config, c: ClientCall, frame: Option<RequestFrame>): ClientCall {
    match (c, frame)
    case (_, None) => c
    case (Misused, _) => Misused
    case (Unopened, Some(CancelFrame)) => Unopened
    case (_, Some(CancelFrame)) => GaveUp
    case (Unopened, Some(BeginFrame(begin))) =>
      if !Agrees(cfg, begin) then Misused else if begin.singleRequest.Some? then SingleSent else Sending
    case (Sending, Some(MessageFrame(_))) => Sending
    case (Sending, Some(DoneSendingFrame)) => HalfClosed
    case _ => Misused
  }

  function ClientCallOf(cfg: Config, packets: seq<RequestPacket>, id: ReqId): ClientCall {
    if packets == [] then Unopened
    else
      var n := |packets| - 1;
      var before := ClientCallOf(cfg, packets[..n], id);
      if packets[n].id == id then ClientNext(cfg, before, packets[n].frame) else before
  }

  function BeginIds(packets: seq<RequestPacket>): seq<ReqId> {
    if packets == [] then []
    else
      var last := packets[|packets| - 1];
      BeginIds(packets[..|packets| - 1])
      + if last.frame.Some? && last.frame.value.BeginFrame? then [last.id] else []
  }

  /** Ids are allocated upwards from 1, and every call keeps to its documented lifetime. */
  ghost predicate Documented(cfg: Config, packets: seq<RequestPacket>) {
    && Increasing(BeginIds(packets))
    && (forall id :: id in BeginIds(packets) ==> id >= 1)
    && (forall id :: !ClientCallOf(cfg, packets, id).Misused?)
  }

  /** The packets the run loop has taken off the inbound stream. */
  function Taken(cfg: Config, schedule: seq<Step>): seq<RequestPacket> {
    if schedule == [] then []
    else
      var n := |schedule| - 1;
      var step := schedule[n];
      Taken(cfg, schedule[..n])
      + if step.Packet? && Enabled(cfg, Run(cfg, schedule[..n]), step) then [step.packet] else []
  }

  lemma DocumentedPrefix(cfg: Config, packets: seq<RequestPacket>, p: RequestPacket)
    requires Documented(cfg, packets + [p])
    ensures Documented(cfg, packets)
    ensures forall id :: id != p.id ==> ClientCallOf(cfg, packets + [p], id) == ClientCallOf(cfg, packets, id)
    ensures ClientCallOf(cfg, packets + [p], p.id) == ClientNext(cfg, ClientCallOf(cfg, packets, p.id), p.frame)
    ensures BeginIds(packets + [p])
      == BeginIds(packets) + if p.frame.Some? && p.frame.value.BeginFrame? then [p.id] else []
  {
    assert (packets + [p])[..|packets|] == packets;
    var ids := BeginIds(packets);
    assert forall i :: 0 <= i < |ids| ==> BeginIds(packets + [p])[i] == ids[i];
    assert forall id :: id in ids ==> id in BeginIds(packets + [p]);
    forall id ensures !ClientCallOf(cfg, packets, id).Misused? {
      assert !ClientCallOf(cfg, packets + [p], id).Misused?;
    }
  }

  // ---------------------------------------------------------------------------
  // The lifetimes of proto_pipe.v1 are documented ones
  // ---------------------------------------------------------------------------

  /** The packets of one call, in order. */
  function PacketsOf(id: ReqId, frames: seq<Option<RequestFrame>>): (r: seq<RequestPacket>)
    ensures |r| == |frames|
  {
    seq(|frames|, i requires 0 <= i < |frames| => RequestPacket(id, frames[i]))
  }

  lemma OneMoreFrame(cfg: Config, id: ReqId, frames: seq<Option<RequestFrame>>, frame: Option<RequestFrame>)
    ensures ClientCallOf(cfg, PacketsOf(id, frames + [frame]), id)
         == ClientNext(cfg, ClientCallOf(cfg, PacketsOf(id, frames), id), frame)
  {
    assert PacketsOf(id, frames + [frame])[..|frames|] == PacketsOf(id, frames);
  }

  /** Cancels, and frames of a newer version, may come at any time and any number of them. */
  lemma {:induction false} CancelAnyTime(cfg: Config, id: ReqId, frames: seq<Option<RequestFrame>>,
                                         more: seq<Option<RequestFrame>>)
    requires forall k :: 0 <= k < |more| ==> more[k] == Some(CancelFrame) || more[k] == None
    ensures var c := ClientCallOf(cfg, PacketsOf(id, frames), id);
      var cancelled := exists k :: 0 <= k < |more| && more[k] == Some(CancelFrame);
      ClientCallOf(cfg, PacketsOf(id, frames + more), id) ==
        if c.Unopened? || c.Misused? || !cancelled then c else GaveUp
  {
    if more == [] {
      assert frames + more == frames;
    } else {
      var n := |more| - 1;
      CancelAnyTime(cfg, id, frames, more[..n]);
      OneMoreFrame(cfg, id, frames + more[..n], more[n]);
      assert frames + more[..n] + [more[n]] == frames + more;
      assert forall k :: 0 <= k < n ==> more[..n][k] == more[k];
    }
  }

  /** A call with one request: its Begin, and nothing further. */
  lemma SingleLifetime(cfg: Config, id: ReqId, begin: Begin)
    requires begin.singleRequest.Some?
    requires Route(cfg.router, begin).Start? ==> !Route(cfg.router, begin).call.payload.Streaming?
    ensures ClientCallOf(cfg, PacketsOf(id, [Some(BeginFrame(begin))]), id) == SingleSent
  {
    OneMoreFrame(cfg, id, [], Some(BeginFrame(begin)));
    assert [] + [Some(BeginFrame(begin))] == [Some(BeginFrame(begin))];
  }

  /** A call with a request stream: its Begin, any messages, and one DoneSending. */
  lemma {:induction false} StreamLifetime(cfg: Config, id: ReqId, begin: Begin, bodies: seq<Bytes>)
      returns (frames: seq<Option<RequestFrame>>)
    requires begin.singleRequest.None?
    requires Route(cfg.router, begin).Start? ==> Route(cfg.router, begin).call.payload.Streaming?
    ensures |frames| == |bodies| + 1 && frames[0] == Some(BeginFrame(begin))
    ensures forall k :: 0 <= k < |bodies| ==> frames[k + 1] == Some(MessageFrame(bodies[k]))
    ensures ClientCallOf(cfg, PacketsOf(id, frames), id) == Sending
    ensures ClientCallOf(cfg, PacketsOf(id, frames + [Some(DoneSendingFrame)]), id) == HalfClosed
  {
    if bodies == [] {
      frames := [Some(BeginFrame(begin))];
      OneMoreFrame(cfg, id, [], Some(BeginFrame(begin)));
      assert [] + frames == frames;
    } else {
      var n := |bodies| - 1;
      var before := StreamLifetime(cfg, id, begin, bodies[..n]);
      OneMoreFrame(cfg, id, before, Some(MessageFrame(bodies[n])));
      frames := before + [Some(MessageFrame(bodies[n]))];
    }
    OneMoreFrame(cfg, id, frames, Some(DoneSendingFrame));
  }

  lemma {:induction false} OneCallOnly(cfg: Config, id: ReqId, frames: seq<Option<RequestFrame>>, other: ReqId)
    requires forall k :: 0 < k < |frames| && frames[k].Some? ==> !frames[k].value.BeginFrame?
    requires |frames| > 0 && frames[0].Some? && frames[0].value.BeginFrame?
    ensures BeginIds(PacketsOf(id, frames)) == [id]
    ensures other != id ==> ClientCallOf(cfg, PacketsOf(id, frames), other).Unopened?
  {
    var n := |frames| - 1;
    assert PacketsOf(id, frames)[..n] == PacketsOf(id, frames[..n]);
    if n == 0 {
      assert BeginIds(PacketsOf(id, frames[..0])) == [];
      assert [] + [id] == [id];
    } else {
      OneCallOnly(cfg, id, frames[..n], other);
    }
  }

  /** A client with one call of any documented lifetime is a documented client. */
  lemma LifetimeIsDocumented(cfg: Config, id: ReqId, frames: seq<Option<RequestFrame>>)
    requires id >= 1 && !ClientCallOf(cfg, PacketsOf(id, frames), id).Misused?
    requires |frames| > 0 && frames[0].Some? && frames[0].value.BeginFrame?
    requires forall k :: 0 < k < |frames| && frames[k].Some? ==> !frames[k].value.BeginFrame?
    ensures Documented(cfg, PacketsOf(id, frames))
  {
    OneCallOnly(cfg, id, frames, id);
    forall other ensures !ClientCallOf(cfg, PacketsOf(id, frames), other).Misused? {
      OneCallOnly(cfg, id, frames, other);
    }
  }

  // ---------------------------------------------------------------------------
  // What the server's state is worth to such a client
  // ---------------------------------------------------------------------------

  /** What the server has of a call when its client stands at `c`. */
  ghost predicate ClientAt(s: State, id: ReqId, c: ClientCall) {
    var ended := UploadOf(s.packets, id).ended;
    && (c.Unopened? <==> id !in s.accepted)
    && (c.Sending? ==> !ended)
    && (c.HalfClosed? ==> ended)
    && (c.Sending? && id in s.tasks ==> s.tasks[id].call.payload.Streaming?)
    && (c.SingleSent? && id in s.tasks ==> !s.tasks[id].call.payload.Streaming?)
    && (id in s.cancelled ==> c.GaveUp?)
    && (c.GaveUp? ==> !Live(s, id))
    && !Killed(s, id)
  }

  ghost predicate ClientInv(cfg: Config, s: State, id: ReqId) {
    ClientAt(s, id, ClientCallOf(cfg, s.packets, id))
  }

  lemma BeginIncreases(s: State, ids: seq<ReqId>, id: ReqId)
    requires LogInv(s) && ids == s.accepted + [id] && Increasing(ids) && id >= 1
    ensures id > s.highest
  {
    assert ids[|s.accepted|] == id;
    if s.highest > 0 {
      var k :| 0 <= k < |s.accepted| && s.accepted[k] == s.highest;
      assert ids[k] < ids[|s.accepted|];
    }
  }

  /** A message the client is allowed to send finds its session open, or no session. */
  lemma MessageAllowed(s: State, p: RequestPacket)
    requires CallInv(s, p.id) && UploadInv(s, p.id) && ClientAt(s, p.id, Sending)
    ensures !KillsNow(s, Packet(p), p.id)
  {
  }

  /** A packet that keeps to the documented lifetime neither breaks nor kills. */
  lemma SafePacket(cfg: Config, s: State, p: RequestPacket)
    requires s.loop.Idle? && LogInv(s) && s.accepted == BeginIds(s.packets)
    requires CallInv(s, p.id) && UploadInv(s, p.id)
    requires ClientInv(cfg, s, p.id) && Documented(cfg, s.packets + [p])
    ensures !Breaks(s, p) && !KillsNow(s, Packet(p), p.id)
  {
    DocumentedPrefix(cfg, s.packets, p);
    assert !ClientCallOf(cfg, s.packets + [p], p.id).Misused?;
    if p.frame.Some? && p.frame.value.BeginFrame? {
      var ids := BeginIds(s.packets + [p]);
      assert ids[|s.accepted|] in ids;
      BeginIncreases(s, ids, p.id);
    } else if p.frame.Some? && p.frame.value.MessageFrame? {
      MessageAllowed(s, p);
    }
  }

  lemma BegunAsAgreed(cfg: Config, s: State, id: ReqId, begin: Begin)
    requires id !in s.tasks && Agrees(cfg, begin)
    ensures var t := OnBegin(cfg, s, id, begin);
      id in t.tasks ==> t.tasks[id].call.payload.Streaming? == begin.singleRequest.None?
  {
  }

  lemma OwnBegin(cfg: Config, s: State, id: ReqId, begin: Begin)
    requires s.loop.Idle? && CallInv(s, id) && UploadInv(s, id) && id > s.highest && Agrees(cfg, begin)
    requires ClientAt(s, id, Unopened)
    ensures var t := s.(packets := s.packets + [RequestPacket(id, Some(BeginFrame(begin)))]);
      ClientAt(OnBegin(cfg, t, id, begin), id, if begin.singleRequest.Some? then SingleSent else Sending)
  {
    var p := RequestPacket(id, Some(BeginFrame(begin)));
    UploadAppend(s.packets, p, id);
    BegunAsAgreed(cfg, s.(packets := s.packets + [p]), id, begin);
  }

  lemma OwnMessage(s: State, id: ReqId, body: Bytes)
    requires CallInv(s, id) && UploadInv(s, id) && ClientAt(s, id, Sending)
    ensures ClientAt(OnMessage(s.(packets := s.packets + [RequestPacket(id, Some(MessageFrame(body)))]), id, body),
                     id, Sending)
  {
    UploadAppend(s.packets, RequestPacket(id, Some(MessageFrame(body))), id);
  }

  lemma OwnOther(cfg: Config, s: State, p: RequestPacket, c: ClientCall)
    requires s.loop.Idle? && CallInv(s, p.id) && UploadInv(s, p.id) && ClientAt(s, p.id, c)
    requires p.frame == None || p.frame == Some(DoneSendingFrame) || p.frame == Some(CancelFrame)
    requires !ClientNext(cfg, c, p.frame).Misused?
    ensures ClientAt(OnPacket(cfg, s, p), p.id, ClientNext(cfg, c, p.frame))
  {
    UploadAppend(s.packets, p, p.id);
  }

  /** One more allowed packet of the call itself. */
  lemma OwnPacket(cfg: Config, s: State, p: RequestPacket, c: ClientCall)
    requires s.loop.Idle? && CallInv(s, p.id) && UploadInv(s, p.id) && ClientAt(s, p.id, c) && !Breaks(s, p)
    requires !ClientNext(cfg, c, p.frame).Misused?
    ensures ClientAt(OnPacket(cfg, s, p), p.id, ClientNext(cfg, c, p.frame))
  {
    match p.frame
    case None => OwnOther(cfg, s, p, c);
    case Some(BeginFrame(begin)) => OwnBegin(cfg, s, p.id, begin);
    case Some(MessageFrame(body)) => OwnMessage(s, p.id, body);
    case Some(_) => OwnOther(cfg, s, p, c);
  }

  lemma OtherUpload(s: State, p: RequestPacket, id: ReqId)
    requires id != p.id
    ensures UploadOf(s.packets + [p], id) == UploadOf(s.packets, id)
  {
    UploadAppend(s.packets, p, id);
  }

  lemma OtherLive(cfg: Config, s: State, p: RequestPacket, id: ReqId)
    requires s.loop.Idle? && id != p.id && Live(OnPacket(cfg, s, p), id)
    ensures Live(s, id)
  {
  }

  lemma OtherPacket(cfg: Config, s: State, p: RequestPacket, id: ReqId, c: ClientCall)
    requires s.loop.Idle? && CallInv(s, id) && CallInv(s, p.id) && ClientAt(s, id, c)
    requires id != p.id && !Breaks(s, p)
    ensures ClientAt(OnPacket(cfg, s, p), id, c)
  {
    HandledPacket(cfg, s, p);
    PacketEffect(cfg, s, p, id);
    KillPacket(cfg, s, p, id);
    OtherUpload(s, p, id);
    if Live(OnPacket(cfg, s, p), id) {
      OtherLive(cfg, s, p, id);
    }
  }

  lemma ClientPacket(cfg: Config, s: State, p: RequestPacket, id: ReqId)
    requires s.loop.Idle? && CallInv(s, id) && CallInv(s, p.id) && UploadInv(s, p.id) && ClientInv(cfg, s, id)
    requires Documented(cfg, s.packets + [p]) && !Breaks(s, p)
    ensures ClientInv(cfg, OnPacket(cfg, s, p), id)
  {
    DocumentedPrefix(cfg, s.packets, p);
    HandledPacket(cfg, s, p);
    if id == p.id {
      assert !ClientCallOf(cfg, s.packets + [p], id).Misused?;
      OwnPacket(cfg, s, p, ClientCallOf(cfg, s.packets, id));
    } else {
      OtherPacket(cfg, s, p, id, ClientCallOf(cfg, s.packets, id));
    }
  }

  /** Steps that take no packet leave the client's view alone. */
  lemma ClientQuiet(cfg: Config, s: State, step: Step, id: ReqId)
    requires Core(s) && ClientInv(cfg, s, id) && !(step.Packet? && Enabled(cfg, s, step))
    ensures ClientInv(cfg, Next(cfg, s, step), id)
    ensures Next(cfg, s, step).packets == s.packets && Next(cfg, s, step).accepted == s.accepted
  {
    if !step.Packet? {
      QuietRecords(cfg, s, step, id);
      KillNext(cfg, s, step, id);
    }
  }

  // ---------------------------------------------------------------------------
  // Whole runs
  // ---------------------------------------------------------------------------

  /** The server's view of a client that kept to the documented lifetime so far. */
  ghost predicate ClientSeen(cfg: Config, s: State, packets: seq<RequestPacket>) {
    && s.packets == packets && s.accepted == BeginIds(packets)
    && forall id :: ClientInv(cfg, s, id)
  }

  lemma SeenPacket(cfg: Config, s: State, p: RequestPacket)
    requires Inv(cfg, s) && s.loop.Idle? && ClientSeen(cfg, s, s.packets) && Documented(cfg, s.packets + [p])
    ensures !Breaks(s, p) && ClientSeen(cfg, OnPacket(cfg, s, p), s.packets + [p])
  {
    assert CallInv(s, p.id) && HistoryInv(cfg, s, p.id) && ClientInv(cfg, s, p.id);
    SafePacket(cfg, s, p);
    HandledPacket(cfg, s, p);
    DocumentedPrefix(cfg, s.packets, p);
    forall id ensures ClientInv(cfg, OnPacket(cfg, s, p), id) {
      assert CallInv(s, id) && ClientInv(cfg, s, id);
      ClientPacket(cfg, s, p, id);
    }
  }

  lemma SeenQuiet(cfg: Config, s: State, step: Step, packets: seq<RequestPacket>)
    requires Core(s) && ClientSeen(cfg, s, packets) && !(step.Packet? && Enabled(cfg, s, step))
    ensures ClientSeen(cfg, Next(cfg, s, step), packets)
  {
    ClientQuiet(cfg, s, step, 0);
    forall id ensures ClientInv(cfg, Next(cfg, s, step), id) {
      ClientQuiet(cfg, s, step, id);
    }
  }

  lemma TakenNext(cfg: Config, schedule: seq<Step>)
    requires schedule != []
    ensures var n := |schedule| - 1; var step := schedule[n]; var before := Taken(cfg, schedule[..n]);
      Taken(cfg, schedule) ==
        if step.Packet? && Enabled(cfg, Run(cfg, schedule[..n]), step) then before + [step.packet] else before
  {
  }

  lemma {:induction false} DocumentedBefore(cfg: Config, schedule: seq<Step>, k: nat)
    requires k <= |schedule| && Documented(cfg, Taken(cfg, schedule))
    ensures Documented(cfg, Taken(cfg, schedule[..k]))
    decreases |schedule|
  {
    if k < |schedule| {
      var n := |schedule| - 1;
      TakenNext(cfg, schedule);
      if Taken(cfg, schedule) != Taken(cfg, schedule[..n]) {
        DocumentedPrefix(cfg, Taken(cfg, schedule[..n]), schedule[n].packet);
      }
      DocumentedBefore(cfg, schedule[..n], k);
      assert schedule[..n][..k] == schedule[..k];
    } else {
      assert schedule[..k] == schedule;
    }
  }

  /** The server's view of a documented client, in every run. */
  lemma {:induction false} DocumentedSoFar(cfg: Config, schedule: seq<Step>)
    requires Documented(cfg, Taken(cfg, schedule))
    ensures ClientSeen(cfg, Run(cfg, schedule), Taken(cfg, schedule))
  {
    if schedule != [] {
      var n := |schedule| - 1;
      var step := schedule[n];
      TakenNext(cfg, schedule);
      DocumentedBefore(cfg, schedule, n);
      DocumentedSoFar(cfg, schedule[..n]);
      InvAlways(cfg, schedule[..n]);
      if step.Packet? && Enabled(cfg, Run(cfg, schedule[..n]), step) {
        SeenPacket(cfg, Run(cfg, schedule[..n]), step.packet);
      } else {
        SeenQuiet(cfg, Run(cfg, schedule[..n]), step, Taken(cfg, schedule[..n]));
      }
    }
  }

  lemma TakenSafely(cfg: Config, before: seq<Step>, p: RequestPacket, upto: seq<Step>)
    requires upto == before + [Packet(p)] && Documented(cfg, Taken(cfg, upto))
    requires Enabled(cfg, Run(cfg, before), Packet(p))
    ensures !Breaks(Run(cfg, before), p)
  {
    assert upto[..|before|] == before;
    TakenNext(cfg, upto);
    DocumentedPrefix(cfg, Taken(cfg, before), p);
    DocumentedSoFar(cfg, before);
    InvAlways(cfg, before);
    SeenPacket(cfg, Run(cfg, before), p);
  }

  lemma UpTo(schedule: seq<Step>, k: nat)
    requires k < |schedule| && schedule[k].Packet?
    ensures schedule[..k + 1] == schedule[..k] + [Packet(schedule[k].packet)]
  {
  }

  /** Step `k` is a packet the loop takes and that ends the connection. */
  ghost predicate BreaksAt(cfg: Config, schedule: seq<Step>, k: nat) {
    && k < |schedule| && schedule[k].Packet? && Enabled(cfg, Run(cfg, schedule[..k]), schedule[k])
    && Breaks(Run(cfg, schedule[..k]), schedule[k].packet)
  }

  lemma NeverBreaks(cfg: Config, schedule: seq<Step>, k: nat)
    requires Documented(cfg, Taken(cfg, schedule))
    ensures !BreaksAt(cfg, schedule, k)
  {
    if BreaksAt(cfg, schedule, k) {
      DocumentedBefore(cfg, schedule, k + 1);
      UpTo(schedule, k);
      TakenSafely(cfg, schedule[..k], schedule[k].packet, schedule[..k + 1]);
    }
  }

  lemma NeverKilled(cfg: Config, s: State, packets: seq<RequestPacket>, id: ReqId)
    requires ClientSeen(cfg, s, packets)
    ensures !Killed(s, id)
  {
    assert ClientInv(cfg, s, id);
  }

  /**
   * A documented client is safe: in every run, no packet of it breaks the connection, no
   * call of it is killed, and every packet the loop takes is handled.
   */
  lemma DocumentedClientIsSafe(cfg: Config, schedule: seq<Step>)
    requires Documented(cfg, Taken(cfg, schedule))
    ensures Run(cfg, schedule).packets == Taken(cfg, schedule)
    ensures forall id :: !Killed(Run(cfg, schedule), id)
    ensures forall k: nat :: !BreaksAt(cfg, schedule, k)
  {
    DocumentedSoFar(cfg, schedule);
    forall id ensures !Killed(Run(cfg, schedule), id) {
      NeverKilled(cfg, Run(cfg, schedule), Taken(cfg, schedule), id);
    }
    forall k: nat ensures !BreaksAt(cfg, schedule, k) {
      NeverBreaks(cfg, schedule, k);
    }
  }
}
