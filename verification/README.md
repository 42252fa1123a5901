# proto-service: a verified model of the pipe transport

proto-service runs protobuf RPC services over one inbound stream of request packets and
one outbound sink of response packets. Four kinds of actors interleave on a connection: a
run loop that owns the session table, one task per handler, one spawned closer per
server-initiated Close, and a writer that drains a bounded funnel. This project models
that connection as a step system, proves what every interleaving keeps, and composes it
with the typed streaming layer, the code generator and the example service.

## Layout

- `Wire.dfy`: packets, statuses, ids.
- `Metadata.dfy`: the metadata multimap, its wire form, the mutable `MetadataMap`.
- `Services.dfy`: calls, call ends, routing of a Begin, the mutable `ServiceRouter`. A
  handler is any adaptive program: a function from its call and all it has observed to its
  next action (receive, send a frame, drop the receiver, work, return, panic). Work may read
  anything outside the call, such as a clock or state shared with other calls: the step that
  runs it carries what it reads, and the handler observes it.
- `Protocol.dfy`: the connection's state and its fourteen kinds of step. `Next` is one step,
  `Run` a whole schedule from a fresh connection; a step that is not enabled does nothing,
  so every theorem over `Run` covers every interleaving. Spawning a handler (`Packet`) and
  inserting its session (`Insert`) are two steps, as are a handler's Close and its Done.
- `Connection.dfy`: the run loop's own code as a class, proved to take exactly those steps,
  with the other tasks running beside it; every schedule is a run of that code
  (`Connection.EveryRunIsServed`).
- `Invariants.dfy`, `Calls.dfy`: what every step keeps, one call id at a time.
- `Accounting.dfy`, `Demux.dfy`, `Progress.dfy`, `Client.dfy`, `Guarantees.dfy`: theorems
  over all runs.
- `Typed.dfy`, `Generator.dfy`, `Greeter.dfy`, `GreeterProgress.dfy`: `StreamingResponse`,
  the generated dispatcher, the example handlers and their end-to-end behaviour.

## Assumptions

- One action of a handler is atomic, and an abort takes effect before the next action. On
  an executor with several threads this means that no abort lands inside a running poll.
- A handler awaits each send to completion and does not let its response sink outlive its
  own future. What happens to `StreamingResponse` when a send future is dropped on the way
  is modelled apart from the connection (`Typed.GrammarIffCareful`).
- A handler waits only for its request stream and for its sends; other waiting is work that
  is done when it is scheduled.
- The router's table and each service's `describe_method` do not change while a connection
  is served.
- The funnel and the done channel are FIFO queues of capacity `cap`. The safety theorems
  hold for every `cap`, the liveness theorems for every `cap >= 1`. The channels used by
  the source let each sender have one item more than the capacity; a finite run of it is a
  run of this model for a larger `cap`.
- The executor, clocks, randomness, shared service state and the bytes of protobuf messages
  are parameters: schedules, the readings their steps carry, and a `Codec` of arbitrary
  encode and decode functions.

## Where the code and its documentation differ

- `proto/proto_pipe/v1/packet.proto:80-82` promises at most one Close per call and nothing
  after it. The code can send two: a handler's Close may be in the funnel while its Done is
  unprocessed, and a forbidden Message then kills the still live session
  (`Accounting.SecondCloseHappens`). `Accounting.SecondCloseIff` says exactly when, and
  `Client.DocumentedClientIsSafe` that a client keeping to the documented lifetime never
  meets it.
- `proto-service/src/response.rs:77` calls `opened` "whether any frame has been sent". It is
  set only after a send completed, so headers can follow a frame whose send future was
  dropped after queueing it (`Typed.HeadersAfterDroppedSend`). `Typed.GrammarIffCareful`
  gives the exact condition on callers.
- `proto-service-pipe/src/transport.rs:283` says no Close is sent after Cancel. A rejected
  call can get its Close after its Cancel (`Accounting.CloseAfterCancelHappens`), which
  `packet.proto:42-43` allows. `Accounting.CancelSilencesIff` says exactly when some frame
  can follow, and `Accounting.CancelIsFinal` that none does if the Cancel removed a session.

## Model

| member | source | states |
|---|---|---|
| Metadata.NormalFormsAgree | proto-service/src/metadata.rs:16-29 | the borrowing and the owning normal form agree, are idempotent, and identify exactly the names that are equal up to ASCII case |
| Metadata.RefinesLog | proto-service/src/metadata.rs:38-74 | after any sequence of insert, append, remove and clear in any casing, the map is sorted, lowercased and without empty keys, and a lookup gives the case-equal values surviving in the log, in order |
| Metadata.WireNormalForm | proto-service-pipe/src/transport.rs:363-381 | reading a wire list and writing it back is the stable sort by lowercased key; it keeps every entry and is idempotent |
| Metadata.ReadsEveryValue | proto-service-pipe/src/transport.rs:375-381 | what is read from the wire has, for every name in any casing, exactly the values of the entries of that name, in entry order |
| Metadata.WireRoundTrip | proto-service-pipe/src/transport.rs:363-381 | writing any reachable map to the wire and reading it back gives the same map |
| Metadata.IterationIsCanonical | proto-service/src/metadata.rs:86-96 | the flat iteration of a map is key-sorted with each key's values in insertion order, and no other key-sorted list has the same values |
| Metadata.LessIsLexicographic | proto-service/src/metadata.rs:86-96 | the key order is the lexicographic order of strings: the smaller character at the first difference, or a proper prefix, comes first |
| Metadata.FromPacketMetadata | proto-service-pipe/src/transport.rs:375-381 | the append loop builds a fresh valid map equal to the reference fold over the entries |
| Metadata.MetadataMap.Insert | proto-service/src/metadata.rs:38-45 | replaces the values of all case-equal names, returns the old ones, leaves every other name alone, and extends the operation log |
| Metadata.MetadataMap.Append | proto-service/src/metadata.rs:48-53 | adds one value after those of the case-equal name, leaves every other name alone, and extends the operation log |
| Metadata.MetadataMap.GetFirst | proto-service/src/metadata.rs:56-61 | the first of all values of the name, if any |
| Metadata.MetadataMap.Remove | proto-service/src/metadata.rs:72-74 | removes exactly the values of the case-equal name and returns them |
| Metadata.MetadataMap.Clear | proto-service/src/metadata.rs:102-104 | leaves the empty map whatever the log before it |
| Wire.CodeIsItsPlace | proto-service/src/status.rs:13-30 | the numbers 0 to 16 name the seventeen codes in their order, so the number on the wire tells the code |
| Services.ParseMethodInverse | proto-service-pipe/src/transport.rs:325-327 | splitting a method path is the inverse of joining one, exactly for service names without a slash |
| Services.RouteExactly | proto-service-pipe/src/transport.rs:164-219 | a path that splits is rejected for an unknown service, an unknown method or a missing payload, each with its status, and otherwise starts the method with the payload, sink and metadata that its descriptor and the Begin say |
| Services.RouteMalformed | proto-service-pipe/src/transport.rs:164-167 | a path that does not split in any way is rejected as malformed |
| Services.CloseReadsBack | proto-service-pipe/src/transport.rs:348-361 | the end of a call is read back from its Close unchanged: code, message, response, headers and trailers |
| Services.LastRegistrationWins | proto-service/src/router.rs:15-20 | a later registration of a name replaces the earlier one and leaves other names alone |
| Services.ServiceRouter.Register | proto-service/src/router.rs:16-20 | afterwards every name resolves to the last service registered under it |
| Services.ServiceRouter.Resolve | proto-service/src/router.rs:23-25 | returns the last registration of the name, or nothing |
| Connection.PipeConnection.HandlePacket | proto-service-pipe/src/transport.rs:150-291 | breaks exactly on a non-increasing Begin id, leaving the state as it was, and otherwise takes the packet step and the session insertion, whatever the other tasks do between the two |
| Connection.PipeConnection.BeginCall | proto-service-pipe/src/transport.rs:158-247 | resolves the service through the shared router; every rejection and the start of a handler are those of the routing specification |
| Connection.PipeConnection.ReceiveMessage | proto-service-pipe/src/transport.rs:248-272 | feeds, discards or kills as the protocol step says |
| Connection.PipeConnection.KillCall | proto-service-pipe/src/transport.rs:306-311 | removes and aborts a live session and spawns one closer |
| Connection.PipeConnection.SendClose | proto-service-pipe/src/transport.rs:295-302 | spawns a closer without touching the funnel |
| Connection.PipeConnection.OnEvent | proto-service-pipe/src/transport.rs:129-145 | each event of the run loop is the corresponding protocol step, and the loop stops exactly on a protocol violation, the end of inbound and the loss of the writer |
| Connection.PipeConnection.RunLoop | proto-service-pipe/src/transport.rs:113-146 | the loop executes the events it is given up to the one that ends it, the other tasks running in between |
| Connection.PipeConnection.DropConnection | proto-service-pipe/src/transport.rs:314-322 | aborts the task of every remaining session and of no other call, and empties the table |
| Connection.PipeConnection.Serve | proto-service-pipe/src/transport.rs:43-78 | a served connection is a run of the protocol that ends with the drop |
| Connection.EveryRunIsServed | proto-service-pipe/src/transport.rs:113-146 | conversely every schedule of the protocol that ends the connection, with the other tasks running at any point, is a run of the loop's code on some script of events |
| Invariants.CoreAlways | proto-service-pipe/src/transport.rs:81-97 | in every run sessions, abort flags, closers, pending Dones and id logs agree for every call |
| Calls.InvAlways | proto-service-pipe/src/transport.rs:108-322 | in every run each handler has followed its own program, the frame log of each call and the state of its request stream are exact, and the writer has lost nothing |
| Guarantees.IdentityDiscipline | proto-service-pipe/src/transport.rs:86-88 | accepted ids strictly increase from 1, everything in sessions, funnel and sink belongs to an accepted id, and no id gets two handlers or two closers |
| Guarantees.NoOrphansNoLeaks | proto-service-pipe/src/transport.rs:136-140 | between loop steps every live handler has a session and every session a live handler or a pending Done, and after the drop nothing is live, although the handler is spawned before its session is inserted |
| Guarantees.RequestsAreFaithful | proto-service-pipe/src/transport.rs:248-279 | a handler receives, in order and without gaps, what its client uploaded between Begin and DoneSending, sees the end only after all of it, and typed item k is what the codec makes of body k |
| Guarantees.HeadersAreFaithful | proto-service-pipe/src/transport.rs:213-219 | in every run a handler's metadata has, for every name in any casing, the values of its own Begin's entries in order |
| Guarantees.FramesAreExact | proto-service-pipe/src/transport.rs:158-247 | the frames of a call are what the handler its own Begin is routed to sent, then that handler's end, then at most one Close of the server with the status of the rejection or the kill; the sink receives a prefix of them in order |
| Guarantees.ClosesAreExact | proto-service-pipe/src/transport.rs:330-361 | in every run frame k of a handler is what it sent k-th, read back unchanged, then what it returned or that it panicked; the Close of a rejected call has the reason, that of a killed one code 3 and nothing else |
| Guarantees.DocumentedCallsComplete | proto/proto_pipe/v1/packet.proto:63-69 | a documented client with finite handlers and a working outbound sees, under every schedule, exactly one Close delivered for each call whose request it completed and did not cancel |
| Accounting.CloseAccounting | proto-service-pipe/src/transport.rs:158-247 | every accepted id is in exactly one of seven stages and its number of Closes follows from the stage; calls never killed get at most one |
| Accounting.KilledByMessage | proto-service-pipe/src/transport.rs:248-272 | a call is killed exactly when some message reached its live session while it took none |
| Accounting.SecondCloseIff | proto-service-pipe/src/transport.rs:304-311 | a call gets two Closes exactly when a kill found one Close of it in the funnel and a later step of the kill's closer met a live writer |
| Accounting.SecondCloseHappens | proto-service-pipe/src/transport.rs:266-271 | a concrete seven-step run in which a call gets two Closes |
| Accounting.CancelIsFinal | proto-service-pipe/src/transport.rs:281-287 | after a Cancel that removes a session no frame of the call is enqueued in any continuation |
| Accounting.CancelSilencesIff | proto-service-pipe/src/transport.rs:281-287 | after a Cancel, some continuation sends a frame of the call, or a Close, if and only if the writer is up, the Cancel found no session, and the id is new or a closer of it still waits |
| Accounting.CloseAfterCancelHappens | proto-service-pipe/src/transport.rs:283 | a concrete three-step run in which a rejected call gets its Close after its Cancel |
| Accounting.CancelCommutesWithDone | proto-service-pipe/src/transport.rs:136-140 | Cancel and the pending Done of a call give the same sessions in either order and differ in the abort flag only |
| Demux.NonInterference | proto-service-pipe/src/transport.rs:150-291 | for every schedule, what the connection is for one call equals a run of a connection that serves that call alone under the projected schedule, which carries what its own handler read from outside |
| Demux.ProjectionIsOwn | proto-service-pipe/src/transport.rs:150-291 | the projected schedule contains no packet and no task step of another call |
| Demux.OthersDoNotMatter | proto/proto_pipe/v1/packet.proto:9-13 | two runs with equal projections, the handler's outside readings included, give a call the same handler history and the same delivered frames |
| Progress.DeadlockFree | proto-service-pipe/src/transport.rs:48-67 | when nothing can move and outbound accepts, every unfinished handler waits on an empty and still open request stream and no Close is pending, for any capacity of at least 1 |
| Progress.ChannelsAreBounded | proto-service-pipe/src/transport.rs:48-52 | in every run funnel and done channel hold at most their capacity |
| Progress.FullChannelsBlock | proto-service-pipe/src/transport.rs:48-52 | a full funnel holds up every send of a handler, every handler's Close and every server Close, and a full done channel every finished handler |
| Progress.HandlerMovesUnless | proto-service-pipe/src/transport.rs:48-52 | a running handler is held up exactly by a full funnel in front of a send, while the writer lives, or by an empty and open request stream in front of a receive |
| Progress.EndMovesUnless | proto-service-pipe/src/transport.rs:230-246 | the Close of a handler, its Done and a server Close are held up exactly by a full channel, and an aborted task by nothing |
| Progress.LoopResponds | proto-service-pipe/src/transport.rs:148-150 | from every reachable state with the loop alive, three steps of the loop alone handle any packet or stop on a violation, for any capacity and any fill of the funnel, and touch neither funnel nor writer |
| Progress.CancelIsPrompt | proto-service-pipe/src/transport.rs:281-287 | a Cancel of a live call takes effect within two steps of the loop: session gone, handler aborted, every other call as live as before |
| Progress.StopsExactly | proto-service-pipe/src/transport.rs:129-145 | the loop stops on a non-increasing Begin, the end of inbound and a lost writer, and on nothing else |
| Progress.DoneIsTaken | proto-service-pipe/src/transport.rs:136-140 | an idle loop takes the next Done whatever the funnel holds; the session of that call goes and no other |
| Progress.OutsideIsFree | proto-service-pipe/src/transport.rs:43-78 | the drop, a failing writer and a delivery are possible whenever there is something to drop, to fail or to deliver |
| Progress.StepProgress | proto-service-pipe/src/transport.rs:224-246 | every step the server can take by itself strictly decreases a natural-number measure |
| Progress.Terminates | proto-service-pipe/src/transport.rs:129-145 | with inbound idle no schedule of the server's own steps is longer than the measure |
| Progress.Settles | proto-service-pipe/src/transport.rs:129-145 | some schedule reaches a state in which nothing can move |
| Progress.Completion | proto-service-pipe/src/transport.rs:230-246 | however steps are scheduled they run out, and then each call waits for its client, was cancelled or killed, or had exactly one Close delivered and its session removed |
| Progress.ShutdownDrains | proto-service-pipe/src/transport.rs:57-67 | after the drop every schedule runs out with the writer ended, every handler finished, every enqueued frame delivered in order, and the Close of every rejected or killed call among them |
| Progress.WriterEndsLast | proto-service-pipe/src/transport.rs:57-67 | in every run the writer has ended only after the drop, with every handler finished, every server Close sent and every frame delivered |
| Progress.EndIsFinal | proto-service-pipe/src/transport.rs:57-67 | whatever follows the end of the writer, no closer fails and no frame is lost |
| Client.DocumentedClientIsSafe | proto/proto_pipe/v1/packet.proto:15-46 | a client keeping to the documented lifetime, with any Cancels, and agreeing on method shapes never breaks the connection and never gets a call killed, in any interleaving |
| Client.StreamLifetime | proto/proto_pipe/v1/packet.proto:17-20 | a streaming Begin, any number of messages and one DoneSending are a documented lifetime |
| Client.SingleLifetime | proto/proto_pipe/v1/packet.proto:17-18 | so is a Begin with its single request alone |
| Client.CancelAnyTime | proto/proto_pipe/v1/packet.proto:19-20 | and either may be followed, or cut short, by any number of Cancels |
| Client.LifetimeIsDocumented | proto/proto_pipe/v1/packet.proto:15-46 | a client with one call of any such lifetime, under any id from 1, is a documented client |
| Typed.StreamingResponse.SendHeaders | proto-service/src/response.rs:104-115 | headers are refused once a send completed, and otherwise reach the sink as the send's fate says |
| Typed.StreamingResponse.SendMessage | proto-service/src/response.rs:118-122 | a completed send is in the sink and opens the response; a failed one changes nothing |
| Typed.GrammarIffCareful | proto-service/src/response.rs:73-79 | headers come at most once and first exactly when no headers are put after a queued but dropped send that no completed send precedes |
| Typed.HeadersAfterDroppedSend | proto-service/src/response.rs:104-122 | the input on which it fails: headers sent after a message whose queued send future was dropped |
| Typed.HistoryIsAttempts | proto-service/src/response.rs:92-122 | what a handler did on the connection is a run of its `StreamingResponse`, flag included |
| Typed.ReceivedDecoded | proto-service/src/request.rs:34-49 | typed item k is the message the codec decodes body k to, or code 13 if it decodes to none; a failure does not end the stream |
| Typed.LastAction | proto-service/src/response.rs:84-122 | each typed action reaches the raw call as itself and is observed as it went: first headers with their metadata, later ones refused, messages encoded, items decoded |
| Typed.WireGrammar | proto/proto_pipe/v1/packet.proto:63-82 | in every run the frames of a call that was not killed are Headers? Message* Close?, in the funnel and at the sink; a killed call adds at most its kill's Close |
| Generator.GenServiceImpl | proto-service-build/src/server_impl.rs:28-62 | one pass over the method list yields, for every name, a dispatch arm exactly when there is a descriptor |
| Generator.SameChoice | proto-service-build/src/server_impl.rs:64-113 | `handle` and `describe_method` choose the same method for every name, and flags, decoding, response and trait signature have one shape |
| Generator.RoutedCallsFit | proto-service-pipe/src/transport.rs:175-222 | whatever the router starts on a generated service has the payload and the sink its method expects, so no defensive error is reachable |
| Generator.DispatchFits | proto-service-build/src/server_impl.rs:115-155 | a routed call reaches its own trait method with its own metadata and, for a single request, the decoded message, unless its bytes do not decode |
| Generator.DefensiveFaults | proto-service-build/src/server_impl.rs:115-191 | the four errors the generated code guards against, with their codes and messages |
| Generator.TypedStep | proto-service-build/src/server_impl.rs:115-191 | a generated service runs the user's method one typed action at a time: items decoded as they come, sends and refusals observed as they went, a crash turned into a panic's end |
| Generator.RegisteredIsReached | proto-service-build/src/server_impl.rs:205-211 | a generated service registered under its own name is reached by exactly the paths of its methods, with the payload and sink of the method's shape |
| Generator.SingleResponseIsOk | proto-service-build/src/server_impl.rs:157-191 | a generated handler ends with a single response only with status OK and only in a single-response method |
| Generator.GeneratedOnTheWire | proto/proto_pipe/v1/packet.proto:92-100 | in every run, every Close with a single response has status OK, single-response methods send nothing before it, and the call reaches its trait method |
| Generator.RepliesOnTheWire | proto-service-build/src/server_impl.rs:157-191 | in every run the Close of a generated call carries, field by field, the reply or status its user method returned, or the decoding failure of its request |
| Generator.SendsOnTheWire | proto-service-build/src/server_impl.rs:171-191 | in every run a streaming method's first headers reach the funnel with their metadata, later headers do not, and messages reach it encoded |
| Generator.GeneratedWireGrammar | proto-service-build/src/server_impl.rs:171-191 | every generated service keeps the wire grammar in every run, for any user implementation, stateful ones included |
| Greeter.ClientStream | examples/src/lib.rs:16-22 | the loop answers with the concatenation of all items, or with the first failure |
| Greeter.Bidi | examples/src/lib.rs:41-50 | the loop echoes every item before the first failure, as far as the sink accepts, and ends as the stream, the item or the sink says |
| Greeter.ServerStream | examples/src/lib.rs:24-39 | the loop sends three numbered messages as far as the sink accepts and returns the count trailer |
| Greeter.BidiIsItsLoop | examples/src/lib.rs:41-50 | the handler run step by step by the connection sends and returns what the loop does on the same bodies, for a sink that fails at any point |
| Greeter.ClientStreamIsItsLoop | examples/src/lib.rs:16-22 | the handler run step by step by the connection returns what the loop does on the same bodies |
| Greeter.ServerStreamIsItsLoop | examples/src/lib.rs:24-39 | the handler run step by step by the connection sends and returns what the loop does, for a sink that fails at any point |
| Greeter.BidiEndToEnd | examples/src/lib.rs:41-50 | over the pipe, in every run, frame k of a finished bidi call is body k decoded and encoded again, up to the first body that does not decode, and the Close has code 0 exactly when all decode, else 13 |
| Greeter.ClientStreamEndToEnd | examples/src/lib.rs:16-22 | over the pipe a finished client_stream call is one Close with code 0 and the encoded concatenation of the decoded bodies, or with code 13 if one does not decode |
| Greeter.ServerStreamEndToEnd | examples/src/lib.rs:24-39 | over the pipe a finished server_stream call is the messages numbered 0 to 2 and a Close with code 0 and the entry x-count: 3, or a Close with code 13 |
| Greeter.UnaryEndToEnd | examples/src/lib.rs:10-14 | over the pipe a finished unary call is one Close with code 0 and the message encoded again, or with code 13 |
| GreeterProgress.HandlerIsFinite | examples/src/lib.rs:9-51 | each example handler returns or waits within twice its waiting items plus three actions |
| GreeterProgress.GreeterCompletes | examples/src/lib.rs:9-51 | a pipe serving the greeter settles from every reachable state, under every schedule, within a computed number of steps |
| GreeterProgress.GreeterAnswers | examples/src/lib.rs:9-51 | whole: for each call of the greeter whose request a documented client completed and did not cancel, every schedule runs out with exactly that method's answer to the uploaded bodies delivered, whatever other calls do |

## Left out

- Accounting.CancelIsFinal: takes a handler action and an abort as atomic, so a poll already running on another thread when Cancel is handled is not covered.
- Typed.WireGrammar: is about handlers that await their sends; a dropped send is covered by Typed.GrammarIffCareful only, outside the connection.
- Connection.PipeConnection.OnEvent: steps of the other tasks are taken from the protocol's own step function, since the class holds only the run loop's code.
- Progress.DeadlockFree: does not model handlers that wait for something other than their request stream or a send, such as a timer or each other.
- Progress.Completion: needs a bound on each handler's actions on the input it already has; it is proved to exist for the example handlers, and other handlers must supply one.
- Protobuf encoding and decoding, and the representation of `Bytes`: arbitrary functions and byte lists.
- The futures channels, select, wakers and `Abortable` beyond FIFO order, capacity, closing and the abort flag; in particular waiting for a flush after a frame is queued is a delay, not a step.
- The tree map of `MetadataMap` is a strictly sorted list of rows, so its balancing is not modelled; `is_empty`, `len`, `iter` and `keys` are plain reads of it.
- `Extensions`, which the pipe always passes empty, and the constructors of `Status`.
- Token rendering, type parsing and doc comments of the generator: arms are data, and a type name that does not parse is not modelled.
- Memory growth from buffered requests, which the source delegates to its caller.
