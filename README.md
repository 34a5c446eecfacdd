# Signalling gateway bookkeeping

A model of the signalling core of a mediasoup conferencing server: the NestJS
WebSocket gateway `SocketEventsGateway`. The gateway keeps five in-memory tables:

- `rooms`: room name to router and member socket ids;
- `peers`: socket id to its room, its own transport, producer and consumer id lists and
  its details;
- the `transports`, `producers` and `consumers` registries: arrays of records, each
  tagged with its owner socket and room.

Its socket handlers read and rewrite these tables. The model keeps the gateway's shape:

- `registry.dfy` (module `Registry`) holds the records as values. It also holds the
  `filter`/`find` lookups and the pure functions that specify what the `forEach` loops
  compute. Beside them are the lemmas about those functions and the consistency
  predicate the handlers preserve.
- `engine.dfy` (module `Engine`) is the media engine as the gateway sees it. A counter
  issues fresh ids for routers, transports, producers and consumers. Three sets record
  which handles were closed, paused and connected.
- `gateway.dfy` (module `SocketEvents`) is the gateway class. It has the five tables as
  fields, an `outbox` log of socket emits, and one method per handler.

Each handler runs as one atomic step. A property read on `undefined` in the source
(a missing peer, transport, producer or consumer) becomes an error result, as the
source's TypeError would be.

Two behaviours of the source are kept as written:

- Joining a room twice appends the socket to the member list twice; the source does not
  de-duplicate.
- `joinRoom` replaces an existing peer record without cleaning up the old room.

`Gateway.Valid()` is what every handler keeps true. It holds that:

- every record belongs to a socket with a peer entry;
- every peer's room exists;
- every handle was issued by the engine;
- handles are distinct within each registry;
- every producer sits on a producing transport of its own socket.

The last fact is why the consume reply's lookups cannot fail once the producer is found.

## Model

| member | source | states |
|---|---|---|
| Registry.FilterMember | src/socketEvents/socketEvents.gateway.ts:562 | an element is in the filtered array exactly when it was in the input and satisfies the predicate |
| Registry.FilterAppend | src/socketEvents/socketEvents.gateway.ts:562 | filter keeps the original order: filtering a + b gives the filtered a followed by the filtered b |
| Registry.FilterAll | src/socketEvents/socketEvents.gateway.ts:562 | a filter that every element passes returns the input unchanged |
| Registry.FilterPartition | src/socketEvents/socketEvents.gateway.ts:557-562 | a predicate and its negation split the input with nothing lost or duplicated (as multisets) |
| Registry.FindIndex | src/socketEvents/socketEvents.gateway.ts:410-413 | Array.find's index is the first index whose element satisfies the predicate, and there is none when no element does |
| Registry.Find | src/socketEvents/socketEvents.gateway.ts:410-413 | Array.find returns the first element satisfying the predicate, and nothing exactly when no element does |
| Registry.GetTransport | src/socketEvents/socketEvents.gateway.ts:409-415 | getTransport finds the first transport record owned by the socket with the given consumer flag, and nothing exactly when there is none |
| Registry.FindReceivingTransport | src/socketEvents/socketEvents.gateway.ts:241-245 | the find of transport-recv-connect and consume yields a receiving transport with that id, and nothing exactly when there is none |
| Registry.FindProducer | src/socketEvents/socketEvents.gateway.ts:266-268 | the producer lookup of consume yields a producer record with that id, and nothing exactly when there is none |
| Registry.FindConsumer | src/socketEvents/socketEvents.gateway.ts:362-364 | the consumer lookup of consumer-resume yields a consumer with that id, and nothing exactly when there is none |
| Registry.FindOwnProducer | src/socketEvents/socketEvents.gateway.ts:374-376 | the lookup of producer-media-paused and -resume yields a producer of the caller with that id, and nothing exactly when there is none |
| Registry.FindByHandleUnique | src/socketEvents/socketEvents.gateway.ts:324-326 | when handles are distinct, a find by id returns exactly the record that has that id |
| Registry.HandlesAt | src/socketEvents/socketEvents.gateway.ts:176 | the i-th id in the list is the handle of the i-th record |
| Registry.VisibleProducersExact | src/socketEvents/socketEvents.gateway.ts:166-181 | getProducers lists an id exactly when a producer with that id is in the caller's room and is owned by another socket |
| Registry.VisibleProducersAppend | src/socketEvents/socketEvents.gateway.ts:170-178 | getProducers keeps registry order: the list for a + b is a's list followed by b's |
| Registry.NewProducerEmitsAt | src/socketEvents/socketEvents.gateway.ts:396-405 | the i-th new-producer emit goes to the owner of the i-th listening transport and carries the new producer id |
| Registry.InformEmitsExact | src/socketEvents/socketEvents.gateway.ts:392-407 | a socket gets a new-producer emit exactly when it owns a receiving transport in the room and is not the producing socket; no other event is emitted |
| Registry.InformEmitsCount | src/socketEvents/socketEvents.gateway.ts:396-406 | there is one emit per listening transport record, and none for transports of the producing socket |
| Registry.RemovedExactly | src/socketEvents/socketEvents.gateway.ts:562 | removeItems keeps a record exactly when it was in the input and its socket is not the removed one |
| Registry.RemovedPartition | src/socketEvents/socketEvents.gateway.ts:556-565 | the records removeItems closes plus the records it keeps make up the input |
| Registry.ClosedExactly | src/socketEvents/socketEvents.gateway.ts:557-561 | when handles are distinct, removeItems closes a record's handle exactly when the record belongs to the socket |
| Registry.RemoveAbsent | src/socketEvents/socketEvents.gateway.ts:556-565 | for a socket with no records, removeItems keeps everything and closes nothing |
| Registry.LeaveExactly | src/socketEvents/socketEvents.gateway.ts:90-92 | the socket is no longer in its room's member list after leaving, and every other member stays |
| Registry.FilterDistinct | src/socketEvents/socketEvents.gateway.ts:562 | filtering a registry keeps its handles distinct |
| Registry.EnterRoomConsistent | src/socketEvents/socketEvents.gateway.ts:424-454 | entering a room with an issued router keeps the tables consistent |
| Registry.JoinConsistent | src/socketEvents/socketEvents.gateway.ts:108-118 | installing a peer record in an existing room keeps the tables consistent |
| Registry.AddTransportConsistent | src/socketEvents/socketEvents.gateway.ts:513-523 | appending a freshly issued transport of a joined socket keeps the tables consistent |
| Registry.AddProducerConsistent | src/socketEvents/socketEvents.gateway.ts:525-535 | appending a freshly issued producer on a producing transport of its socket keeps the tables consistent |
| Registry.AddConsumerConsistent | src/socketEvents/socketEvents.gateway.ts:537-554 | appending a freshly issued consumer of a joined socket keeps the tables consistent |
| Registry.DropConsumersConsistent | src/socketEvents/socketEvents.gateway.ts:300-303 | filtering the consumer registry keeps the tables consistent |
| Registry.DropConsistent | src/socketEvents/socketEvents.gateway.ts:63-80 | dropping a socket's records from all three registries keeps the tables consistent and leaves no record of that socket |
| Registry.LeaveConsistent | src/socketEvents/socketEvents.gateway.ts:82-93 | once a socket has no records, deleting its peer entry and rewriting its room's member list (same rooms, same routers) keeps the tables consistent |
| Registry.ReplySendTransportAsWritten | src/socketEvents/socketEvents.gateway.ts:328-330 | the consume reply as written reports the id of the first transport record, in either direction, owned by the producer's socket; there is none exactly when that socket owns no transport |
| Registry.ReplySendTransportAsWrittenDefined | src/socketEvents/socketEvents.gateway.ts:328-330 | when every producer sits on a producing transport of its socket, the find at 328-330 succeeds for any registered producer |
| Registry.ReplySendTransportAsWrittenMismatch | src/socketEvents/socketEvents.gateway.ts:328-330 | consistent tables (rooms, peers and registries) where the reply as written names receiving transport 1, though the producer sits on producing transport 2 |
| Registry.ReplySendTransportIsSendTransport | src/socketEvents/socketEvents.gateway.ts:266-268 | with every producer on a producing transport of its socket, the corrected id (the producer's `sendTransPortId`) names a producing transport of the producer's own socket, the id producer-closed later carries |
| SocketEvents.Gateway.constructor | src/socketEvents/socketEvents.gateway.ts:46-50 | the gateway starts with empty tables and a consistent state |
| SocketEvents.Gateway.HandleConnection | src/socketEvents/socketEvents.gateway.ts:52-57 | a connecting socket gets connection-success with its own id |
| SocketEvents.Gateway.CreateRoom | src/socketEvents/socketEvents.gateway.ts:417-457 | an existing room keeps its router and gets the socket appended to its old member list, without de-duplication; a new room gets a fresh router and the members [socketId]; no other room changes |
| SocketEvents.Gateway.JoinRoom | src/socketEvents/socketEvents.gateway.ts:99-127 | createRoom's effect, then the socket's peer record is replaced by a fresh one in that room, and consistency is kept |
| SocketEvents.Gateway.AddTransport | src/socketEvents/socketEvents.gateway.ts:513-523 | one record is appended at the end of the transport registry; a joined caller also gets the id appended at the end of its peer list, and other peers and fields are unchanged; without a peer record the registry still grows and the call fails |
| SocketEvents.Gateway.AddProducer | src/socketEvents/socketEvents.gateway.ts:525-535 | the same as AddTransport, for the producer registry and the peer's producer list |
| SocketEvents.Gateway.AddConsumer | src/socketEvents/socketEvents.gateway.ts:537-554 | the same as AddTransport, for the consumer registry and the peer's consumer list |
| SocketEvents.Gateway.CreateWebRtcTransportHandle | src/socketEvents/socketEvents.gateway.ts:129-162 | a joined caller gets a freshly issued transport registered in its room with the requested direction; an unknown socket gets an error and nothing changes |
| SocketEvents.Gateway.GetProducers | src/socketEvents/socketEvents.gateway.ts:164-182 | the loop returns the ids of the producers in the caller's room owned by other sockets, in registry order; an unknown socket gets an error |
| SocketEvents.Gateway.TransportConnect | src/socketEvents/socketEvents.gateway.ts:185-193 | connects the caller's first producing transport, or fails when there is none |
| SocketEvents.Gateway.OpenProducer | src/socketEvents/socketEvents.gateway.ts:204-213 | a freshly issued producer on the given producing transport is registered for the caller, and consistency is kept |
| SocketEvents.Gateway.TransportProduce | src/socketEvents/socketEvents.gateway.ts:196-229 | without a producing transport it fails and nothing changes; otherwise one producer is registered on the first producing transport, the room is informed, and producersExist is true exactly when the registry holds more than one producer after the add (that is, it was not empty before) |
| SocketEvents.Gateway.TransportRecvConnect | src/socketEvents/socketEvents.gateway.ts:232-247 | connects the receiving transport with that id, or fails when there is none |
| SocketEvents.Gateway.OpenConsumer | src/socketEvents/socketEvents.gateway.ts:277-322 | a freshly issued consumer, created paused, is registered for the caller, and consistency is kept |
| SocketEvents.Gateway.Consume | src/socketEvents/socketEvents.gateway.ts:249-354 | an unknown socket fails with NoPeer and a joined caller without that receiving transport fails with NoTransport, both with nothing changed; a refusal by the router changes nothing; otherwise one paused consumer is registered, linked to the producer's `sendTransPortId`, and the reply carries its id, the producer id and the first transport of the producer's socket (lines 328-330, as written); a missing producer fails after the registration |
| SocketEvents.Gateway.ConsumerResume | src/socketEvents/socketEvents.gateway.ts:356-366 | resumes the consumer with that id, or fails when there is none |
| SocketEvents.Gateway.MediaPaused | src/socketEvents/socketEvents.gateway.ts:368-379 | pauses the caller's own producer with that id, and does nothing when there is none |
| SocketEvents.Gateway.MediaResume | src/socketEvents/socketEvents.gateway.ts:381-390 | resumes the caller's own producer with that id, and does nothing when there is none |
| SocketEvents.Gateway.InformConsumers | src/socketEvents/socketEvents.gateway.ts:392-407 | the loop appends exactly InformEmits to the emit log: one new-producer per listening transport, in registry order |
| SocketEvents.Gateway.OnProducerClose | src/socketEvents/socketEvents.gateway.ts:288-304 | producer-closed is emitted to the consumer's socket with the captured ids, the consumer is closed and dropped from the registry, and consistency is kept |
| SocketEvents.Gateway.RemoveItems | src/socketEvents/socketEvents.gateway.ts:556-565 | returns the input records not owned by the socket, in order, and closes exactly the handles of the records it owns |
| SocketEvents.Gateway.HandleDisconnect | src/socketEvents/socketEvents.gateway.ts:59-97 | afterwards no registry holds a record of the socket, other records keep their order, and the socket's handles are closed; its peer entry is deleted and it leaves its room, which keeps its router and stays even when empty; without a peer record rooms and peers are unchanged |
| SocketEvents.Gateway.LeaveRoom | src/socketEvents/socketEvents.gateway.ts:82-96 | a joined socket's peer entry is deleted and the socket is filtered out of its room's member list, with the same router; an unknown socket leaves rooms and peers unchanged, because the lookup error is caught |

## Left out

- `src/main.ts` (application bootstrap, CORS and port) has no bookkeeping logic.
- `createWorker` and the worker `died` handler (lines 458-470) are engine setup and process exit.
- `createWebRtcTransport` (lines 472-511) is not modelled: its listen-IP options and `dtlsstatechange` handler belong to the engine. The gateway sees only a fresh transport id.
- Engine failures are not modelled. Creating a router, transport, producer or consumer always succeeds, so the `catch` of createWebRtcTransport (lines 154-161) is never taken.
- `router.canConsume` is a call into the engine. `Consume` takes its answer as the parameter `canConsume`.
- RTP capabilities, RTP, DTLS and ICE parameters, codec lists (lines 430-445), `kind` and `appData` are opaque payloads. They are not part of the model.
- Interleavings at `await` points are not modelled. Each handler is one atomic step.
- The event-emitter callbacks registered by transportProduce and consume are not modelled, except for the `producerclose` reaction (`OnProducerClose`). That leaves out `transportclose` (lines 219-222, 284-286) and `producerpause`/`producerresume` (lines 306-320).
- Logging is not modelled. Socket emits become entries of `outbox`, addressed by socket id; the peer record's `socket` object is not kept.
- SocketEvents.Gateway.RemoveItems: the closed handles are recorded as a set, so the order of the `close()` calls is not kept.
- SocketEvents.Gateway.Consume: the `params` reply omits `kind` and `rtpParameters`, and errors carry a fault kind instead of the caught error object.
- SocketEvents.Gateway.CreateWebRtcTransportHandle: a missing peer record throws outside the `try` (line 136). The model returns an error result for it.
- Room and socket names that collide with JavaScript object prototype properties are not modelled; maps are plain dictionaries here.

## Findings

| source | as written | input that shows it | evidently intended | confidence | as-written member | corrected member |
|---|---|---|---|---|---|---|
| src/socketEvents/socketEvents.gateway.ts:328-330 | the consume reply's `producerSendTransPortId` is the first transport record of the producer's socket, in either direction | socket "b" opens receiving transport 1, then producing transport 2, and produces producer 3 on transport 2; consuming producer 3 reports transport 1 (through the handlers: SocketEvents.ReplyScenario) | the producer's own send transport (its `sendTransPortId`, 2 here), the id the producer-closed, consumer-pause and consumer-resume events carry | medium, not executed | Registry.ReplySendTransportAsWrittenMismatch | Registry.ReplySendTransportIsSendTransport |
