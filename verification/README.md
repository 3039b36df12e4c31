# Realtime server: framing, sessions, routing and hosting

A Dafny model of the parts of the fasttravel realtime server whose correctness depends on
whole runs, with proofs. `dafny verify dfyconfig.toml` checks the project.

| file | what it models |
|---|---|
| `Wire.dfy`, `Messages.dfy` | the Protocol Buffers wire format and the realtime schemas: bytes to fields to messages and back |
| `Merging.dfy` | when appending encoded bytes merges messages, for arbitrary bytes |
| `Framing.dfy` | wrapping a service payload in a RealtimeMessage and classifying received bytes |
| `Peers.dfy`, `Session.dfy`, `SessionTheorems.dfy`, `Completion.dfy` | requests and responses in both directions over one socket: connection actor, client broker, a queue each way, answer tasks in any order |
| `Handshake.dfy` | the ticket handshake through both framings, the connection service and the promise map |
| `Actors.dfy` | the connection actor and the broker as objects updated in place, proved against `Peers` |
| `Routing.dfy`, `Projection.dfy`, `Delivery.dfy`, `Progress.dfy` | cospaces, their client tables, shared and dedicated service pools, connection actors and everything in flight between them |
| `CospaceActors.dfy` | the cospace actor as an object, proved against `Routing` |
| `Hosting.dfy` | the three hosting maps, the tasks that move ids through them, and the three-read status request |
| `Deployment.dfy` | hosting and routing together, with the gate that lets clients in |

## How the model reads the code

Every state machine has a datatype of steps, a total `Next`, and a `Run` over any sequence of
steps; theorems are about `Run(INIT, ls)` for all `ls`. A handler is one step. A step that is
not enabled changes nothing, so no theorem depends on which steps a sequence contains.

Assumptions about what is not in the repository:

- Mailboxes, the socket and the actors' outgoing queues are reliable and in order. The queue of
  a service pool may be served by several actors, so a step there may take any message of it.
- UUIDs, actor addresses and upgrade handles are fresh.
- A ticket's validity is whatever the ticket check says when it is asked; each check is logged.
- Bytes are encoded and decoded as the Protocol Buffers Encoding guide prescribes, in the
  sections "Base 128 Varints", "Length-Delimited Records" and "Last One Wins". The tenth byte of
  a varint may only be 0 or 1. Groups are decode errors, strings are byte sequences of at most
  2^63 - 1 bytes, and UTF-8 is not checked.
- Kernels on the client and services on the server, other than the connection service, answer
  requests as they like or not at all. On a cospace's node the services are the one service the
  repository has.

Where the code departs from what its comments intend, the model follows the code:

- A tell is built without a header, and a message without a header is discarded: tells built
  this way never arrive (`Framing.TellIsDiscarded`).
- The server's first ask goes out under id 0, which in a header means "no id": its promise is
  never completed (`SessionTheorems.IdZeroStaysPending`).
- A service's binary tell goes out unframed, whatever its bytes are. `Framing.ClassifiedExactly`
  says exactly which bytes the receiver then takes for a message of the protocol; canonical
  service bytes never are (`Framing.NoCrossTalk`), others may be
  (`Framing.CrossTalkOfNonCanonicalBytes`). In a session any bytes may be told that are not
  taken for a request or response.
- The client's counter is borrowed while a call waits for its response, so a second call
  meanwhile panics. This is also what makes the handshake safe when ids are reused.
- The schema's comment promises that encoded fields can simply be appended. That holds for
  canonical bytes, and for other bytes exactly when they erase nothing
  (`Merging.AppendMergesExactly`; `Merging.ExplicitZeroErases` and `Merging.SwitchedBodyIsLost`
  are failing inputs).
- When the request to create a cospace actor fails, or the spawn task cannot be scheduled, the id
  stays scheduled for ever (`Hosting.StuckForEver`), and this is the only way in which an id can
  end up neither hosted nor failed (`Hosting.SettlesExactly`).
- The socket reader starts before the cospace learns of the client, so early replies may be
  dropped (`Delivery.DropHappens`); `Delivery.DropExactly` says exactly when. Nothing is lost
  otherwise: every client can be linked (`Progress.LinksUp`) and everything owed delivered
  (`Progress.DeliversAll`).
- A status request reads three maps one after the other and may answer NOT_FOUND for an id that
  is being hosted (`Hosting.NotFoundHappens`).
- Counters are 32-bit and wrap around, as they do in a release build.

Ids wrap around, so an id does not identify an ask. The session model therefore keeps a record,
next to each message, task and result, of the number of the ask it belongs to; no handler looks
at it. The theorems hold for runs of any length. That a result is the answer to its own ask
depends on one condition, recorded in `replaced`: registering a promise under a nonzero id has
never replaced one that was pending. On the client this always holds, on the server it can fail
only after more than 2^32 asks. When it first fails, the new ask can be completed with the
answer to the old one if and only if the old request was not declined
(`Completion.MixupExactly`), and there is such a run (`Completion.MixupHappens`).

In `Delivery.dfy`, "below overflow" means that no cospace has generated 2^32 client ids.

## Model

| member | source | states |
|---|---|---|
| `Wire.VarintRoundTrip64` | fasttravel-rt-proto/realtime.proto:15-18 | every 64-bit number is read back from its varint, whatever bytes follow, and takes at most ten bytes |
| `Wire.VarintExactly` | fasttravel-rt-proto/realtime.proto:15-18 | for any bytes, a varint is read if and only if one of the first ten bytes has its high bit clear and the number fits in 64 bits; it is then the sum of the low seven bits of each byte times 128 to the power of its position |
| `Wire.VarintBytes` | fasttravel-rt-proto/realtime.proto:15-18 | byte i of an encoded number holds its i-th group of seven bits, and the high bit is set exactly before the last byte |
| `Wire.VarintLength` | fasttravel-rt-proto/realtime.proto:15-18 | a number is encoded in no more bytes than it needs |
| `Wire.KeyAnnounces` | fasttravel-rt-proto/realtime.proto:14-28 | what every key means, for all field numbers and all eight wire types: how many bytes the value takes, and which keys are errors |
| `Wire.ParseEmitted` | fasttravel-rt-proto/realtime.proto:14-28 | any sequence of valid fields is read back from its bytes, in order |
| `Wire.ParseAppend` | fasttravel-rt-proto/realtime.proto:12-13 | whatever follows a parseable byte string is parsed on its own, so fields can be appended to encoded bytes |
| `Messages.RealtimeRoundTrip` | fasttravel-rt-proto/realtime.proto:14-28 | decoding the encoding of any RealtimeMessage gives it back: all ids, all five bodies, present-but-default sub-messages, any string length and timestamp |
| `Messages.ConnectionRoundTrip` | fasttravel-rt-proto/packages/connection.proto:5-18 | the same for connection messages on their own |
| `Messages.CoreRoundTrip` | fasttravel-rt-proto/packages/core.proto:7-19 | the same for core messages, with negative seconds and nanoseconds and an absent or all-default timestamp |
| `Messages.TextRoundTrip` | fasttravel-rt-proto/packages/presence.proto:5-13 | the same for the presence message, which the activity and model packages repeat |
| `Messages.TagBytes` | fasttravel-rt-proto/realtime.proto:20-26 | the tag byte each part of a message starts with, which pins the field numbers of the header, the five bodies and the connection and core payloads |
| `Messages.ScalarBytes` | fasttravel-rt-proto/packages/connection.proto:12-18 | the exact bytes of headers, tickets, verdicts, timestamps and placeholder texts, with their field numbers, defaults omitted and negative times in 64-bit two's complement |
| `Messages.ConnectionBytes` | fasttravel-rt-proto/packages/connection.proto:5-10 | the exact bytes of a connection message around its payload |
| `Messages.CoreBytes` | fasttravel-rt-proto/packages/core.proto:7-16 | the exact bytes of a core message around its payload |
| `Messages.NestedBytes` | fasttravel-rt-proto/packages/core.proto:17-19 | the exact bytes of a time response around its timestamp and of a text message around its text, with present-but-default sub-messages kept |
| `Messages.RealtimeBytes` | fasttravel-rt-proto/realtime.proto:14-28 | the exact bytes of a RealtimeMessage around its header and body |
| `Messages.RecordsMean` | fasttravel-rt-proto/realtime.proto:15-18 | what a scalar record does to any message it is read into, canonical or not: cut to 32 bits, two's complement, any nonzero bool true, later record wins |
| `Messages.UnknownIsSkipped` | fasttravel-rt-proto/realtime.proto:14-28 | a field of another number, anywhere among any decodable bytes, changes nothing; a known field that is not a record makes the bytes undecodable |
| `Messages.UnknownInside` | fasttravel-rt-proto/packages/connection.proto:5-18 | the same inside each message of the schemas, and a scalar of the wrong wire type is an error |
| `Messages.AppendRealtime` | fasttravel-rt-proto/realtime.proto:12-28 | decoding an encoded message on top of any message already held merges the two |
| `Messages.DecodeConcat` | fasttravel-rt-proto/realtime.proto:12-13 | decoding a concatenation continues from the first part's message with the second part's bytes, whatever they are |
| `Messages.AppendMerges` | fasttravel-rt-proto/realtime.proto:12-28 | an encoded message appended to any decodable bytes is merged into the message they hold |
| `Merging.DecodingPatches` | fasttravel-rt-proto/realtime.proto:14-28 | decoding arbitrary bytes on top of any message is applying one patch, read from the bytes alone, that says which scalars they spell out and which oneofs they switch |
| `Merging.AppendMergesExactly` | fasttravel-rt-proto/realtime.proto:12-13 | for any two decodable byte strings, decoding the concatenation succeeds, and is the merge of the two decoded messages if and only if the second erases nothing the first has set |
| `Merging.CanonicalNeverErases` | fasttravel-rt-proto/realtime.proto:12-13 | canonical bytes erase nothing, whatever they are appended to |
| `Merging.ExplicitZeroErases` | fasttravel-rt-proto/realtime.proto:15-20 | a concrete failing input: a header spelling out request id 0 erases request id 5 |
| `Merging.SwitchedBodyIsLost` | fasttravel-rt-proto/realtime.proto:21-27 | a failing family: a second part that switches the body away and back loses the first part's ticket |
| `Framing.ProcessFramed` | fasttravel-rt-proto/src/helpers.rs:202-249 | what the receiver makes of any framed payload, for every header: request, response, tell, or nothing when the header is missing or has both ids |
| `Framing.RequestRoundTrip` | fasttravel-rt-proto/src/helpers.rs:99-143 | a request can be built if and only if the service is connection or core and the payload decodes; it arrives with its id, service and canonical payload, and as a tell if the id is 0 |
| `Framing.ResponseRoundTrip` | fasttravel-rt-proto/src/helpers.rs:82-143 | the same for responses |
| `Framing.AnyBodyArrives` | fasttravel-rt-proto/src/helpers.rs:152-192 | a request with a body of any of the five schemas is classified under its own service, with bytes that service decodes to the same message |
| `Framing.TellIsDiscarded` | fasttravel-rt-proto/src/helpers.rs:71-79 | a tell can be built if and only if the service is connection or core and the payload decodes, and a built tell is classified as undefined by its receiver |
| `Framing.IdsAreNonzero` | fasttravel-rt-proto/src/helpers.rs:212-241 | no bytes at all are classified as a request or response with id 0 |
| `Framing.CanonIsStable` | fasttravel-rt-proto/src/helpers.rs:152-192 | re-encoding a payload twice is re-encoding it once, and the re-encoded payload frames to the same bytes |
| `Framing.HopIsIdempotent` | fasttravel-rt-proto/src/helpers.rs:61-143 | forwarding any received request or response normalises it, keeps what it announces, and forwarding it again changes nothing |
| `Framing.HopsKeepBytes` | fasttravel-rt-proto/src/helpers.rs:82-143 | a built request or response with a nonzero id passes any number of hops byte for byte |
| `Framing.AppendedHeaderFrames` | fasttravel-rt-proto/realtime.proto:12-28 | appending an encoded request header to a built tell yields the request the header announces |
| `Framing.NoCrossTalk` | fasttravel-rt/fasttravel_rt_server/src/client/client_connection_actor.rs:316-328 | the canonical bytes of any message of the five schemas, sent unframed, are classified as undefined |
| `Framing.ClassifiedExactly` | fasttravel-rt/fasttravel_rt_server/src/client/client_connection_actor.rs:316-328 | for any bytes at all, sent framed or unframed: they are taken for a message if and only if they decode, a top-level field is numbered 1 and one 2 to 6, and not both header ids are nonzero; and which of request, response and tell, by the ids |
| `Framing.PartsPresent` | fasttravel-rt-proto/realtime.proto:14-28 | decoding any fields onto any message leaves the header, or a body, present if and only if it was or some field mentions it |
| `Framing.CrossTalkOfNonCanonicalBytes` | fasttravel-rt/fasttravel_rt_server/src/client/client_connection_actor.rs:316-328 | a concrete input: six bytes that decode as a core message start request 5 at the connection service when sent unframed |
| `Peers.OverwriteOnlyAfterWrap` | fasttravel-rt/fasttravel_rt_server/src/client/client_connection_actor.rs:277-303 | registering a promise replaces a given pending one if and only if their ask numbers differ by a multiple of 2^32, which is then at least 2^32 |
| `Peers.SendKeeps` | fasttravel-rt/fasttravel_rt_server/src/client/client_connection_actor.rs:277-291 | sending an ask keeps the invariant of one direction, for any number of asks: every request and answer in exactly one place, every message and result what its ask made it, promises under the unanswered ids unless one was replaced |
| `Peers.InsertKeeps` | fasttravel-rt/fasttravel_rt_server/src/client/client_connection_actor.rs:292-305 | registering the promise after the request is on the wire keeps it |
| `Peers.TakeRequestKeeps` | fasttravel-rt/fasttravel_rt_server/src/client/client_connection_actor.rs:159-208 | taking a request off the wire keeps it |
| `Peers.FinishKeeps` | fasttravel-rt/fasttravel_rt_server/src/client/client_connection_actor.rs:179-207 | ending any running task, with or without an answer, keeps it |
| `Peers.TakeResponseKeeps` | fasttravel-rt/fasttravel_rt_server/src/client/client_connection_actor.rs:211-220 | taking a response off the wire keeps it |
| `Peers.ResponseFindsPromise` | fasttravel-rt/fasttravel_rt_server/src/client/client_connection_actor.rs:211-220 | a response anywhere on the wire is for a sent ask whose response has not arrived, with that ask's id and service; unless a promise was replaced, the promise under its id is that ask's, or about to be |
| `Peers.InsertNumbers` | fasttravel-rt/fasttravel_rt_server/src/client/client_connection_actor.rs:292-305 | registering keeps every promise under the id of its ask, and replaces a pending one only after more than 2^32 asks |
| `Session.NextKeepsInv` | fasttravel-rt/fasttravel_rt_server/src/client/client_connection_actor.rs:159-328 | every step of either peer keeps the session invariant: both directions, numbering, and the client's borrow |
| `Session.RunKeepsInv` | fasttravel-rt/fasttravel_rt_server/src/client/client_connection_actor.rs:159-328 | so does every run |
| `SessionTheorems.Correlation` | fasttravel-rt/fasttravel_rt_server/src/client/client_connection_actor.rs:159-220 | in every run, of any length, with both peers asking, a result is the other side's answer to an ask with the same id, given for that ask's service and canonical payload; it is the ask's own answer unless a promise was replaced, so always on the client and always up to 2^32 asks, whatever ids are in use in the other direction |
| `SessionTheorems.ClientNeverReplaces` | fasttravel-rt-client/private/src/message_broker.rs:129-166 | in every run, of any length, the client never replaces a pending promise |
| `SessionTheorems.Conservation` | fasttravel-rt/fasttravel_rt_server/src/client/client_connection_actor.rs:211-313 | in every run, of any length, every ask is in exactly one place (request on the wire, task, declined, response on the wire, arrived) if it was sent under a nonzero id and in none otherwise; unless a promise was replaced, it is completed exactly when its response has arrived and its promise exists exactly while it is sent and not completed |
| `SessionTheorems.NoResponseIsLost` | fasttravel-rt/fasttravel_rt_server/src/client/client_connection_actor.rs:274-313 | in every run, of any length, although the request is sent before its promise is registered, every response that is handled arrives once, and completes exactly the ask it answers unless a promise was replaced |
| `SessionTheorems.StrayResponses` | fasttravel-rt/fasttravel_rt_server/src/client/client_connection_actor.rs:211-220 | a response without promise, and any repeated response, completes nothing and changes no promise |
| `SessionTheorems.IdZeroStaysPending` | fasttravel-rt/fasttravel_rt_server/src/client/client_connection_actor.rs:274-313 | once a promise is registered under id 0, one is pending there in every continuation of any length, and no ask under id 0 is ever completed |
| `SessionTheorems.TellsGoOut` | fasttravel-rt/fasttravel_rt_server/src/client/client_connection_actor.rs:316-328 | whenever a side is ready, a text or an unframed tell goes out exactly as given, a framed tell exactly as built, behind whatever was sent before, and nothing else changes |
| `SessionTheorems.AskGoesOut` | fasttravel-rt/fasttravel_rt_server/src/client/client_connection_actor.rs:274-291 | an ask is recorded with its service and payload; its request goes out under the next id if and only if it can be framed and the socket takes it |
| `SessionTheorems.PromiseIsRegistered` | fasttravel-rt/fasttravel_rt_server/src/client/client_connection_actor.rs:292-305 | the promise is registered under the id that was sent, and nothing else changes |
| `SessionTheorems.AnswerGoesOut` | fasttravel-rt/fasttravel_rt_server/src/client/client_connection_actor.rs:179-207 | an answer is recorded as given and goes out under its request's id; without one the request is declined |
| `Completion.Completes` | fasttravel-rt/fasttravel_rt_server/src/client/client_connection_actor.rs:211-313 | the answer to any sent, undeclined, unanswered ask of either side under a nonzero id can be brought, by a continuation given as a run, to the promise under its id; a handshake not yet judged can be judged either way |
| `Completion.NeverCompletes` | fasttravel-rt-proto/src/helpers.rs:202-249 | in no continuation is anything completed with the answer to an ask that went out under id 0 or was declined |
| `Completion.CompletableExactly` | fasttravel-rt/fasttravel_rt_server/src/client/client_connection_actor.rs:211-313 | in a session whose client has not panicked and in which no promise was replaced, a pending promise can still be completed with its own answer if and only if its id is nonzero, its request was not declined and it is not about to be replaced |
| `Completion.DoomedForEver` | fasttravel-rt/fasttravel_rt_server/src/client/client_connection_actor.rs:274-313 | an ask whose promise is gone, or about to be replaced, is completed in no continuation |
| `Completion.MixupExactly` | fasttravel-rt/fasttravel_rt_server/src/client/client_connection_actor.rs:274-313 | when the server first asks under a nonzero id that is still pending, some continuation completes the new ask with the answer to the old one if and only if the old request was not declined |
| `Completion.MixupHappens` | fasttravel-rt/fasttravel_rt_server/src/client/client_connection_actor.rs:274-313 | a run of more than 2^32 asks that ends with a result that is the answer to a different, earlier request |
| `SessionTheorems.WraparoundBound` | fasttravel-rt/fasttravel_rt_server/src/client/client_connection_actor.rs:274-313 | in every run, of any length, a new promise overwrites nothing if every pending promise is fewer than 2^32 asks old |
| `SessionTheorems.SingleOutstanding` | fasttravel-rt-client/private/src/message_broker.rs:129-166 | in every run, of any length, the client has at most one promise, under the counter's value, and holds the borrow while it does |
| `SessionTheorems.PanicExactly` | fasttravel-rt-client/private/src/message_broker.rs:135-161 | the client panics if and only if it calls while another call waits, and a panicking call changes nothing else |
| `SessionTheorems.PanickedIsSilent` | fasttravel-rt-client/private/src/message_broker.rs:135-161 | after a panic the client handles, sends and returns nothing in any continuation |
| `Handshake.IsAwaited` | fasttravel-rt-client/private/src/message_broker.rs:129-166 | whatever request of the client has not come back is the one of the call that waits, which has no result yet |
| `Handshake.OneRequestUnderWay` | fasttravel-rt-client/private/src/message_broker.rs:129-166 | in every run, of any length, at most one client request is on the wire, being answered or coming back, and only while its call waits without result |
| `Handshake.HandshakeIsCanonical` | fasttravel-rt-proto/src/helpers/connection.rs:14-50 | handshake requests and responses pass both framings unchanged and are read back with their ticket and verdict |
| `Handshake.HandshakesAreRead` | fasttravel-rt-proto/src/helpers/connection.rs:41-50 | bytes are a handshake request, or a successful response, if and only if they decode to exactly that message |
| `Handshake.JudgeAnswers` | fasttravel-rt/fasttravel_rt_server/src/client/client_connection_service_actor.rs:48-106 | in every run, the request the connection service takes up is the one of the call that waits; a handshake request is judged and answered with the verdict under its own id, and anything else goes unanswered and unjudged |
| `Handshake.NextKeepsJudged` | fasttravel-rt/fasttravel_rt_server/src/client/client_connection_service_actor.rs:87-106 | every step keeps that an answer of the connection service to a call is the verdict recorded for that call, on the ticket in its request |
| `Handshake.ReturnsExactly` | fasttravel-rt-client/private/src/message_broker.rs:129-166 | in every run, of any length, every call but the one that waits has returned: with bytes if and only if its request was sent, and then with the server's answer to it |
| `Handshake.HandshakeEndToEnd` | fasttravel-rt-client/private/src/delegate_connection.rs:46-72 | in every run, of any length, a returned handshake call is true if and only if the server judged valid, for that very call, the exact ticket it sent; if it was sent it is the verdict given for it |
| `Handshake.ReturnableExactly` | fasttravel-rt-client/private/src/message_broker.rs:149-161 | a waiting call can still return if and only if its response has arrived, or it went out under a nonzero id, was not declined and is not a request without ticket to the connection service |
| `Handshake.HandshakeCanReturn` | fasttravel-rt-client/private/src/delegate_connection.rs:46-72 | from every reachable state in which the client is free and its next id is not 0, a handshake with any ticket has a continuation in which it returns, for either verdict |
| `Actors.AskAtOnceParts` | fasttravel-rt/fasttravel_rt_server/src/client/client_connection_actor.rs:274-313 | the two halves of an ask taken together: the whole new state, sent or not, with ids wrapping around |
| `Actors.ClientConnectionActor.constructor` | fasttravel-rt/fasttravel_rt_server/src/client/client_connection_actor.rs:90-103 | a new connection actor is a new peer whose first id is 0 |
| `Actors.ClientConnectionActor.RecvReqFromService` | fasttravel-rt/fasttravel_rt_server/src/client/client_connection_actor.rs:274-313 | an ask of a service: texts are refused, an id is used up even if nothing is sent, and a promise is returned exactly when a message went out |
| `Actors.ClientConnectionActor.RecvTellFromService` | fasttravel-rt/fasttravel_rt_server/src/client/client_connection_actor.rs:316-328 | a tell goes out as it is and changes nothing else |
| `Actors.ClientConnectionActor.RecvProtoMsgFromClient` | fasttravel-rt/fasttravel_rt_server/src/client/client_connection_actor.rs:211-250 | received bytes have exactly the effect `Peers.Receive` gives them |
| `Actors.ClientConnectionActor.FinishTask` | fasttravel-rt/fasttravel_rt_server/src/client/client_connection_actor.rs:179-207 | a finished task answers its own request, or leaves it unanswered |
| `Actors.RealtimeMessageBroker.constructor` | fasttravel-rt-client/private/src/message_broker.rs:47-55 | a new broker is a new peer whose first id is 1, with the counter free |
| `Actors.RealtimeMessageBroker.SendProtoRequestToServer` | fasttravel-rt-client/private/src/message_broker.rs:129-166 | a call panics exactly when another holds the borrow; otherwise it asks under the next id, replaces no promise, and waits, holding the borrow, exactly when its request was sent |
| `Actors.RealtimeMessageBroker.Resume` | fasttravel-rt-client/private/src/message_broker.rs:149-161 | the call that holds the borrow returns its own response and gives the counter back, leaving no promise |
| `Actors.RealtimeMessageBroker.AnswerServer` | fasttravel-rt-client/private/src/message_broker.rs:204-248 | a kernel's answer goes out under the id of the request it answers |
| `Actors.RealtimeMessageBroker.RecvProtoMsgFromServer` | fasttravel-rt-client/private/src/message_broker.rs:190-292 | received bytes have exactly the effect `Peers.Receive` gives them, and the borrow is untouched |
| `Routing.ForwardIsRoutable` | fasttravel-rt/fasttravel_rt_server/src/client/client_connection_actor.rs:106-271 | every text, and whatever else a socket makes the actor forward, names its own client and either all services or one that has a pool |
| `Routing.ForwardExactly` | fasttravel-rt/fasttravel_rt_server/src/client/client_connection_actor.rs:140-271 | texts go to all services; a classified request or tell for a service other than connection goes to that very service as an ask or tell with the classified bytes; nothing else is forwarded |
| `Routing.CoreRequestIsForwarded` | fasttravel-rt/fasttravel_rt_server/src/client/client_connection_actor.rs:159-176 | a framed core request reaches the core service as an ask with the canonical payload, and as a tell under id 0 |
| `Routing.HandlePools` | fasttravel-rt/fasttravel_rt_server/src/cospace/service_pool.rs:40-64 | a cospace's handler puts nothing in any pool queue but the message it was given |
| `Routing.ClientMessageLands` | fasttravel-rt/fasttravel_rt_server/src/cospace/cospace_actor.rs:139-185 | a client's message lands once in the queue of each service it is for, and that service replies under the name the message was addressed to; one for a service without pool panics |
| `Routing.HandleShape` | fasttravel-rt/fasttravel_rt_server/src/cospace/cospace_actor.rs:43-174 | what each handler of a cospace may change: table, counter, upgrades, drops and panic, and nothing else |
| `Routing.ReplyFindsCospace` | fasttravel-rt/fasttravel_rt_server/src/cospace/service_actor.rs:144-167 | a service that answers a client finds that client's cospace in the table of registered cospaces, which fills later than cospaces start, or is dedicated to it |
| `Routing.NextKeepsLocal` | fasttravel-rt/fasttravel_rt_server/src/cospace/cospace_actor.rs:43-174 | every step of a node keeps every message, table entry, actor and upgrade inside the cospace it belongs to |
| `Routing.RunKeepsLocal` | fasttravel-rt/fasttravel_rt_server/src/cospace/cospace_actor.rs:43-174 | so does every run |
| `Projection.OwnRemove` | fasttravel-rt/fasttravel_rt_server/src/cospace/service_actor.rs:90-121 | taking a message from a shared queue takes it from its cospace's share, at its place there, and leaves the others' shares alone |
| `Projection.ReplyIsLocal` | fasttravel-rt/fasttravel_rt_services/src/services/mocker.rs:28-37 | a reply is for the cospace its text came from, which is where a dedicated service sends it without looking |
| `Projection.StepCommutes` | fasttravel-rt/fasttravel_rt_server/src/cospace/service_actor.rs:144-185 | any step followed by restriction to a cospace is the restriction followed by the step's share, or by nothing |
| `Projection.SharedIsDedicated` | fasttravel-rt/fasttravel_rt_server/src/cospace/service_actor.rs:144-222 | any run of a shared node, restricted to one cospace, is a run of a node dedicated to it, ending in the same cospace, actors and socket outputs, though client ids repeat across cospaces |
| `Projection.ProjectionFromCreation` | fasttravel-rt/fasttravel_rt_server/src/cospace/cospace_manager.rs:298-345 | from the step that creates a cospace on a shared node, in any run, it is as on a fresh dedicated node: same cospace state, same connection actors, same bytes on every socket |
| `Projection.LookupNeverFails` | fasttravel-rt/fasttravel_rt_server/src/cospace/service_actor.rs:151-166 | in any run of a shared or dedicated node in which clients are let in only at registered cospaces, no service that answers a client misses that client's cospace |
| `Projection.CospacesNeverPanic` | fasttravel-rt/fasttravel_rt_server/src/cospace/cospace_actor.rs:139-185 | in any run, whatever bytes clients send, no cospace tells a service without a pool, which would panic |
| `Delivery.NextKeepsSound` | fasttravel-rt/fasttravel_rt_server/src/cospace/cospace_actor.rs:43-174 | every step below overflow keeps ids, tables, Connects in flight and the text balance consistent |
| `Delivery.RunKeepsSound` | fasttravel-rt/fasttravel_rt_server/src/cospace/cospace_actor.rs:43-174 | so does every run that ends below overflow |
| `Delivery.GenerateNumbered` | fasttravel-rt/fasttravel_rt_server/src/cospace/cospace_actor.rs:47-55 | a generated client id is different from all ids in use or given out |
| `Delivery.ConnectIsNew` | fasttravel-rt/fasttravel_rt_server/src/cospace/cospace_actor.rs:120-125 | a Connect in flight is from the actor it names, for an id that is not in the table and that no other Connect is for |
| `Delivery.TableIntegrity` | fasttravel-rt/fasttravel_rt_server/src/cospace/cospace_actor.rs:43-133 | in any run below overflow, issued ids are distinct, every table entry is the connection actor with that id in that cospace, and no Connect will overwrite another client |
| `Delivery.TextConservation` | fasttravel-rt/fasttravel_rt_server/src/cospace/service_pool.rs:45-63 | in any run below overflow, four times the texts a client sent are the replies on its socket, plus everything on the way, plus drops |
| `Delivery.NoDropOnceLinked` | fasttravel-rt/fasttravel_rt_server/src/cospace/cospace_actor.rs:66-75 | from a consistent state in which a client's Connect was handled, it stays in the table and loses nothing |
| `Delivery.DropsOnlyBeforeConnect` | fasttravel-rt/fasttravel_rt_server/src/websocket/websocket_actor.rs:45-69 | in any run, drops for a client happen only before its Connect is handled; one linked before its first text loses nothing at all |
| `Delivery.DropExactly` | fasttravel-rt/fasttravel_rt_server/src/cospace/cospace_actor.rs:66-75 | in any run below overflow, a step drops something in a cospace if and only if it has the cospace handle a reply to a client whose actor is not linked, and then it drops that reply and nothing else |
| `Delivery.DropHappens` | fasttravel-rt/fasttravel_rt_server/src/client/client_connection_actor_creator.rs:105-119 | a concrete run in which a reply is dropped because the text arrived before the client was announced |
| `Delivery.SocketsCarryReplies` | fasttravel-rt/fasttravel_rt_services/src/services/mocker.rs:28-37 | in any run, everything a client's socket carries is the service's reply text |
| `Progress.LinksUp` | fasttravel-rt/fasttravel_rt_server/src/websocket/websocket_actor.rs:45-69 | from every state reachable below overflow, every connection actor has a continuation in which its Connect is handled and the table holds it under its own id |
| `Progress.DeliversAll` | fasttravel-rt/fasttravel_rt_server/src/cospace/service_pool.rs:45-63 | from every state reachable below overflow there is a continuation in which nothing is on its way to or from a client, and then the replies on its socket and the drops are exactly four per text; no further drops once it is linked |
| `Progress.RepliesArrive` | fasttravel-rt/fasttravel_rt_services/src/services/mocker.rs:28-37 | a run in which a client sends one text and its socket ends with exactly four copies of the reply |
| `CospaceActors.PostEachIsPostAll` | fasttravel-rt/fasttravel_rt_server/src/cospace/cospace_actor.rs:76-82 | sending to distinct clients one after the other, in any order, puts exactly one copy in each inbox |
| `CospaceActors.CospaceActor.constructor` | fasttravel-rt/fasttravel_rt_server/src/cospace/cospace_actor.rs:27-35 | a new cospace has counter 1 and no clients |
| `CospaceActors.CospaceActor.GenerateClientId` | fasttravel-rt/fasttravel_rt_server/src/cospace/cospace_actor.rs:47-55 | the id returned and the new counter are those of the handler in `Routing` |
| `CospaceActors.CospaceActor.Connect` | fasttravel-rt/fasttravel_rt_server/src/cospace/cospace_actor.rs:120-125 | the table and pool become those of the handler in `Routing` |
| `CospaceActors.CospaceActor.Disconnect` | fasttravel-rt/fasttravel_rt_server/src/cospace/cospace_actor.rs:126-128 | one client leaves the table and every other entry stays |
| `CospaceActors.CospaceActor.HandleClientMessage` | fasttravel-rt/fasttravel_rt_server/src/cospace/cospace_actor.rs:139-173 | a client's message has the effect on the pools given in `Routing`, and panics exactly when that does |
| `CospaceActors.CospaceActor.HandleServiceMessage` | fasttravel-rt/fasttravel_rt_server/src/cospace/cospace_actor.rs:62-112 | a service's message is sent to its client if that is in the table, or to every table entry exactly once; delivering what was sent is the handler's effect in `Routing` |
| `CospaceActors.CospaceActor.SentReaches` | fasttravel-rt/fasttravel_rt_server/src/cospace/cospace_actor.rs:66-83 | the sends of one message, delivered in the order they were made, are the effect on the actors' inboxes that `Routing` gives |
| `Hosting.HostedCospaces.constructor` | fasttravel-rt/fasttravel_rt_server/src/cospace/cospace_manager.rs:412-420 | all three maps start empty |
| `Hosting.HostedCospaces.GetCospaceAddr` | fasttravel-rt/fasttravel_rt_server/src/cospace/cospace_manager.rs:422-427 | an address is found exactly for hosted ids, and is theirs |
| `Hosting.HostedCospaces.Scheduled` | fasttravel-rt/fasttravel_rt_server/src/cospace/cospace_manager.rs:441-446 | one map operation, seen by others as one |
| `Hosting.HostedCospaces.Failed` | fasttravel-rt/fasttravel_rt_server/src/cospace/cospace_manager.rs:448-452 | what others see in between: first the removal alone, then the insertion with the time of the removed entry; nothing changes if the id is not scheduled |
| `Hosting.HostedCospaces.InsertCospace` | fasttravel-rt/fasttravel_rt_server/src/cospace/cospace_manager.rs:454-457 | what others see in between: first the insertion alone, then the removal |
| `Hosting.TwoSteps` | fasttravel-rt/fasttravel_rt_server/src/cospace/cospace_manager.rs:448-457 | the two map states others see during a failure and an insertion are those of the two steps of the task |
| `Hosting.HostedCospaces.RemoveCospace` | fasttravel-rt/fasttravel_rt_server/src/cospace/cospace_manager.rs:459-461 | one map operation, seen by others as one |
| `Hosting.NextKeepsInv` | fasttravel-rt/fasttravel_rt_server/src/cospace/cospace_manager.rs:34-174 | every single map operation and task step keeps every id's place in the maps tied to its task's phase and its registration |
| `Hosting.Lifecycle` | fasttravel-rt/fasttravel_rt_server/src/cospace/cospace_manager.rs:441-457 | in every interleaving no id is failed and hosted or failed and scheduled; hosted and scheduled overlap exactly inside the insertion; an issued, unterminated id is in no map exactly inside the failure; a failed id keeps its time |
| `Hosting.RegisteredBeforeReachable` | fasttravel-rt/fasttravel_rt_server/src/cospace/cospace_manager.rs:151-174 | every hosted id is registered with its node's manager under the same address, and the actor there carries that id, though running the actor, registering it, replying and inserting are separate steps |
| `Hosting.PhasesMoveOn` | fasttravel-rt/fasttravel_rt_server/src/cospace/cospace_manager.rs:441-457 | over any run, hosting, failing and being stuck are one-way streets, and so is termination |
| `Hosting.StuckForEver` | fasttravel-rt/fasttravel_rt_server/src/cospace/cospace_manager.rs:167-172 | an id whose creation request failed stays scheduled in every continuation, and every later status request answers SCHEDULED |
| `Hosting.SettlesExactly` | fasttravel-rt/fasttravel_rt_server/src/cospace/cospace_manager.rs:34-174 | in every reachable state an issued id has a continuation in which it is hosted or has failed if and only if it is not stuck |
| `Hosting.OutcomesExactly` | fasttravel-rt/fasttravel_rt_server/src/cospace/cospace_manager.rs:34-174 | in every reachable state, by the phase of an id's task, if and only if each: it can still be hosted, can still fail (only when its node has to be spawned), can still get stuck |
| `Hosting.IssuedIsWaiting` | fasttravel-rt/fasttravel_rt_server/src/cospace/cospace_manager.rs:441-446 | a new id can be issued at any time for any node, and its status is then SCHEDULED with the time it was given |
| `Hosting.FailureStrikes` | fasttravel-rt/fasttravel_rt_server/src/cospace/cospace_manager.rs:52-92 | what each kind of failure does to the task it strikes |
| `Hosting.TerminatedIsGone` | fasttravel-rt/fasttravel_rt_server/src/cospace/cospace_manager.rs:459-461 | once a hosted id is terminated, every later status request answers NOT_FOUND |
| `Hosting.StatusExactly` | fasttravel-rt/fasttravel_rt_server/src/websocket/websocket_server.rs:126-144 | what a three-read status request answers, by the phase of the id at each read; NOT_FOUND for an issued id if and only if the whole insertion fell between the first two reads or the last two fell inside the failure |
| `Hosting.StatusIsStable` | fasttravel-rt/fasttravel_rt_server/src/websocket/websocket_server.rs:126-144 | without termination, once HOSTED or FAILED is answered every later request answers the same |
| `Hosting.NotFoundHappens` | fasttravel-rt/fasttravel_rt_server/src/websocket/websocket_server.rs:126-144 | every issued id that is not hosted yet but still can be has an interleaving in which a status request answers NOT_FOUND although the id ends up hosted |
| `Deployment.NextKeepsInv` | fasttravel-rt/fasttravel_rt_server/src/cospace/cospace_manager.rs:298-345 | every step of hosting, gate and node together keeps the node's table that of its manager and every admitted client at a registered cospace |
| `Deployment.AdmittedAreFound` | fasttravel-rt/fasttravel_rt_server/src/websocket/websocket_server.rs:147-179 | in every run of both together, a client that was handed an address by the hosting maps finds its cospace running and registered when its connection begins, and every lookup by a service that answers a client succeeds |
| `Deployment.AdmittedGetIn` | fasttravel-rt/fasttravel_rt_server/src/websocket/websocket_server.rs:164-176 | in every run an address is handed out if and only if the id is hosted on the node, and the upgrade that was granted begins at that cospace |
| `Deployment.RoutesFreely` | fasttravel-rt/fasttravel_rt_server/src/cospace/service_actor.rs:90-121 | whatever the node can do on its own it can do, step for step, in the deployment |

## Left out

- JSON web tokens, keys and claims: one logged verdict per ticket check stands for them.
- HTTP routing, node processes, command line and configuration: I/O plumbing.
- The actor runtime, channels and concurrent maps: modelled as queues and atomic map operations.
- Browser glue, TypeScript wrappers and the publish-subscribe streams: foreign calls.
- Contents of the model root: stored, never read.
- Heartbeats, timeouts, promise expiry, and termination across nodes: only noted as to do in the code.
- Requests that services make to clients inside a cospace's node: the repository's service makes none; asks are modelled in full between the two peers of a session.
- Tells of the connection service, and cancellation of client calls: the repository has neither.
- The conversion of a pool service's answer into a response inside a cospace's node: the repository's service never answers.
- SessionTheorems.Correlation: that a result is its own ask's answer is conditional on no pending promise having been replaced, because it fails otherwise (Completion.MixupHappens).
- Progress.DeliversAll: the count of replies is stated unless the client ids already asked for would overflow the cospace's counter, after which ids repeat.
- CospaceActors.CospaceActor.Disconnect: only the handler is modelled, since nothing in the repository sends it.
- Session.NextKeepsInv: a service's tell whose bytes the client takes for a request or a response (Framing.ClassifiedExactly says which) is not a step of a session.
- Actors.ClientConnectionActor.FinishTask: a response that cannot be handed to the socket counts as not answered.
