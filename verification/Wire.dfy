/** The wire types of proto_pipe.v1 and the status type, as values. */
module Wire {

  datatype Option<+T> = None | Some(value: T)

  datatype Result<+T, +E> = Ok(value: T) | Err(error: E)

  /** Call ids are uint64 on the wire; 0 is reserved as invalid. */
  type ReqId = x: int | 0 <= x < 0x1_0000_0000_0000_0000

  type Byte = x: int | 0 <= x < 256

  type Bytes = seq<Byte>

  datatype Code =
    | CodeOk | Cancelled | Unknown | InvalidArgument | DeadlineExceeded | NotFound
    | AlreadyExists | PermissionDenied | ResourceExhausted | FailedPrecondition
    | Aborted | OutOfRange | Unimplemented | Internal | Unavailable | DataLoss
    | Unauthenticated

  datatype Status = Status(code: Code, message: string)

  function CodeNumber(code: Code): int {
    match code
    case CodeOk => 0
    case Cancelled => 1
    case Unknown => 2
    case InvalidArgument => 3
    case DeadlineExceeded => 4
    case NotFound => 5
    case AlreadyExists => 6
    case PermissionDenied => 7
    case ResourceExhausted => 8
    case FailedPrecondition => 9
    case Aborted => 10
    case OutOfRange => 11
    case Unimplemented => 12
    case Internal => 13
    case Unavailable => 14
    case DataLoss => 15
    case Unauthenticated => 16
  }

  /** The codes in the order of their numbers. */
  const CODES: seq<Code> := [
    CodeOk, Cancelled, Unknown, InvalidArgument, DeadlineExceeded, NotFound,
    AlreadyExists, PermissionDenied, ResourceExhausted, FailedPrecondition,
    Aborted, OutOfRange, Unimplemented, Internal, Unavailable, DataLoss, Unauthenticated]

  /** What a reader makes of a number: the code of that place, or Unknown. */
  function CodeFrom(n: int): Code {
    if 0 <= n < |CODES| then CODES[n] else Unknown
  }

  lemma PlaceOfCode(n: nat)
    requires n < |CODES|
    ensures CodeNumber(CODES[n]) == n
  {
    assert |CODES| == 17;
  }

  /** A code is its place in the list, so the number on the wire tells the code. */
  lemma CodeIsItsPlace(code: Code, other: Code)
    ensures 0 <= CodeNumber(code) < |CODES| && CodeFrom(CodeNumber(code)) == code
    ensures forall n :: 0 <= n < |CODES| ==> CodeNumber(CodeFrom(n)) == n
    ensures CodeNumber(code) == CodeNumber(other) <==> code == other
  {
    assert |CODES| == 17;
    forall n | 0 <= n < |CODES| ensures CodeNumber(CodeFrom(n)) == n {
      PlaceOfCode(n);
    }
  }

  /** One wire metadata entry; `Metadata.entries` is a list of these. */
  datatype Entry = Entry(key: string, value: string)

  datatype Begin = Begin(
    methodPath: string,
    headers: Option<seq<Entry>>,
    singleRequest: Option<Bytes>)

  datatype RequestFrame =
    | BeginFrame(begin: Begin)
    | MessageFrame(body: Bytes)
    | DoneSendingFrame
    | CancelFrame

  /** `frame` is None for a variant this server does not know. */
  datatype RequestPacket = RequestPacket(id: ReqId, frame: Option<RequestFrame>)

  /** The `details` list is always empty on this server, so it is not a field. */
  datatype WireStatus = WireStatus(code: int, message: string)

  datatype ResponseFrame =
    | HeadersFrame(metadata: seq<Entry>)
    | BodyFrame(body: Bytes)
    | CloseFrame(
        status: WireStatus,
        trailers: seq<Entry>,
        singleResponse: Option<Bytes>,
        singleHeaders: Option<seq<Entry>>)

  datatype ResponsePacket = ResponsePacket(id: ReqId, frame: ResponseFrame)
}
