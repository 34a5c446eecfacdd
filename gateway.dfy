/**
 * The signalling gateway: the five tables it keeps in memory (rooms, peers and the
 * transport, producer and consumer registries) and the handlers that change them.
 * Each handler runs as one atomic step; socket emits are appended to `outbox`.
 */
module SocketEvents {
  import opened Registry
  import opened Engine

  /** The lookups that fail in the source (a property read on `undefined`). */
  datatype Fault = NoPeer | NoTransport | NoProducer | NoConsumer

  datatype Result<+T> = Ok(value: T) | Err(fault: Fault)

  /** transport-produce's reply. */
  datatype ProduceReply = ProduceReply(id: Id, producersExist: bool)

  /** consume's `params`, without kind and RTP parameters. */
  datatype ConsumeParams = ConsumeParams(id: Id, producerId: Id, producerSendTransportId: Id, serverConsumerId: Id)

  /** consume answers with params, with nothing (the router cannot consume), or with an error. */
  datatype ConsumeOutcome = Consumed(params: ConsumeParams) | Refused | Failed(fault: Fault)

  class Gateway {
    var rooms: map<RoomName, Room>
    var peers: map<SocketId, Peer>
    var transports: seq<TransportRecord>
    var producers: seq<ProducerRecord>
    var consumers: seq<ConsumerRecord>
    /** Every socket emit so far, oldest first. */
    var outbox: seq<Emit>
    const engine: MediaEngine

    ghost predicate Valid()
      reads this, engine
    {
      Consistent(rooms, peers, transports, producers, consumers, engine.next)
    }

    constructor ()
      ensures Valid() && fresh(engine)
      ensures rooms == map[] && peers == map[] && outbox == []
      ensures transports == [] && producers == [] && consumers == []
    {
      rooms := map[];
      peers := map[];
      transports := [];
      producers := [];
      consumers := [];
      outbox := [];
      engine := new MediaEngine();
    }

    method HandleConnection(s: SocketId)
      modifies this`outbox
      ensures outbox == old(outbox) + [Emit(s, ConnectionSuccess(s))]
    {
      outbox := outbox + [Emit(s, ConnectionSuccess(s))];
    }

    /**
     * Reuses the room's router or has the engine create one, then appends the joiner to
     * the member list, duplicates included.
     */
    method CreateRoom(roomName: RoomName, s: SocketId) returns (router: Id)
      requires Valid()
      modifies this`rooms, engine
      ensures Valid()
      ensures roomName in old(rooms) ==> router == old(rooms)[roomName].router && engine.next == old(engine.next)
      ensures roomName !in old(rooms) ==> router == old(engine.next) && engine.next == old(engine.next) + 1
      ensures rooms == old(rooms)[roomName := Room(router, (if roomName in old(rooms) then old(rooms)[roomName].peers else []) + [s])]
      ensures engine.closed == old(engine.closed) && engine.paused == old(engine.paused)
      ensures engine.connected == old(engine.connected)
    {
      var members: seq<SocketId> := [];
      if roomName in rooms {
        router := rooms[roomName].router;
        members := rooms[roomName].peers;
      } else {
        router := engine.Create();
      }
      EnterRoomConsistent(rooms, peers, transports, producers, consumers, old(engine.next), engine.next,
                          roomName, Room(router, members + [s]));
      rooms := rooms[roomName := Room(router, members + [s])];
    }

    /** Enters the room, then installs a fresh peer record for the socket. */
    method JoinRoom(s: SocketId, roomName: RoomName) returns (router: Id)
      requires Valid()
      modifies this`rooms, this`peers, engine
      ensures Valid()
      ensures roomName in old(rooms) ==> router == old(rooms)[roomName].router && engine.next == old(engine.next)
      ensures roomName !in old(rooms) ==> router == old(engine.next) && engine.next == old(engine.next) + 1
      ensures rooms == old(rooms)[roomName := Room(router, (if roomName in old(rooms) then old(rooms)[roomName].peers else []) + [s])]
      ensures peers == old(peers)[s := FreshPeer(roomName)]
      ensures engine.closed == old(engine.closed) && engine.paused == old(engine.paused)
      ensures engine.connected == old(engine.connected)
    {
      router := CreateRoom(roomName, s);
      JoinConsistent(rooms, peers, transports, producers, consumers, engine.next, s, FreshPeer(roomName));
      peers := peers[s := FreshPeer(roomName)];
    }

    /**
     * Appends the transport to the registry and its id to the peer's list. Without a peer
     * record the source throws after the registry was extended: `ok` is false then.
     */
    method AddTransport(s: SocketId, transport: Id, roomName: RoomName, consumer: bool) returns (ok: bool)
      modifies this`transports, this`peers
      ensures transports == old(transports) + [Entry(s, roomName, transport, consumer)]
      ensures ok == (s in old(peers))
      ensures ok ==> peers == old(peers)[s := old(peers)[s].(transports := old(peers)[s].transports + [transport])]
      ensures !ok ==> peers == old(peers)
    {
      transports := transports + [Entry(s, roomName, transport, consumer)];
      if s !in peers {
        return false;
      }
      peers := peers[s := peers[s].(transports := peers[s].transports + [transport])];
      return true;
    }

    method AddProducer(s: SocketId, producer: Id, roomName: RoomName, sendTransportId: Id) returns (ok: bool)
      modifies this`producers, this`peers
      ensures producers == old(producers) + [Entry(s, roomName, producer, sendTransportId)]
      ensures ok == (s in old(peers))
      ensures ok ==> peers == old(peers)[s := old(peers)[s].(producers := old(peers)[s].producers + [producer])]
      ensures !ok ==> peers == old(peers)
    {
      producers := producers + [Entry(s, roomName, producer, sendTransportId)];
      if s !in peers {
        return false;
      }
      peers := peers[s := peers[s].(producers := peers[s].producers + [producer])];
      return true;
    }

    method AddConsumer(s: SocketId, consumer: Id, roomName: RoomName, link: ConsumerLink) returns (ok: bool)
      modifies this`consumers, this`peers
      ensures consumers == old(consumers) + [Entry(s, roomName, consumer, link)]
      ensures ok == (s in old(peers))
      ensures ok ==> peers == old(peers)[s := old(peers)[s].(consumers := old(peers)[s].consumers + [consumer])]
      ensures !ok ==> peers == old(peers)
    {
      consumers := consumers + [Entry(s, roomName, consumer, link)];
      if s !in peers {
        return false;
      }
      peers := peers[s := peers[s].(consumers := peers[s].consumers + [consumer])];
      return true;
    }

    /** createWebRtcTransport: a new transport on the peer's room router, registered as the caller's. */
    method CreateWebRtcTransportHandle(s: SocketId, consumer: bool) returns (r: Result<Id>)
      requires Valid()
      modifies this`transports, this`peers, engine
      ensures Valid()
      ensures s !in old(peers) ==> r == Err(NoPeer) && transports == old(transports) && peers == old(peers)
                                   && engine.next == old(engine.next)
      ensures s in old(peers) ==>
                && r == Ok(old(engine.next)) && engine.next == old(engine.next) + 1
                && transports == old(transports) + [Entry(s, old(peers)[s].roomName, r.value, consumer)]
                && peers == old(peers)[s := old(peers)[s].(transports := old(peers)[s].transports + [r.value])]
      ensures engine.closed == old(engine.closed) && engine.paused == old(engine.paused)
      ensures engine.connected == old(engine.connected)
    {
      if s !in peers {
        return Err(NoPeer);
      }
      var roomName := peers[s].roomName;
      // The engine creates the transport on rooms[roomName].router.
      var transport := engine.Create();
      ghost var peers0 := peers;
      var ok := AddTransport(s, transport, roomName, consumer);
      AddTransportConsistent(rooms, peers0, peers, old(transports), producers, consumers, transport,
                             Entry(s, roomName, transport, consumer));
      r := Ok(transport);
    }

    /** getProducers: the ids of the producers in the caller's room that other sockets own. */
    method GetProducers(s: SocketId) returns (r: Result<seq<Id>>)
      ensures s !in peers ==> r == Err(NoPeer)
      ensures s in peers ==> r == Ok(VisibleProducers(producers, s, peers[s].roomName))
    {
      if s !in peers {
        return Err(NoPeer);
      }
      var roomName := peers[s].roomName;
      var producerList: seq<Id> := [];
      var i := 0;
      while i < |producers|
        invariant 0 <= i <= |producers|
        invariant producerList == Handles(Filter(producers[..i], VisibleTo(s, roomName)))
      {
        var p := producers[i];
        assert producers[..i + 1] == producers[..i] + [p];
        FilterSnoc(producers[..i], p, VisibleTo(s, roomName));
        if p.socketId != s && p.roomName == roomName {
          HandlesSnoc(Filter(producers[..i], VisibleTo(s, roomName)), p);
          producerList := producerList + [p.handle];
        } else {
          assert Filter(producers[..i], VisibleTo(s, roomName)) + [] == Filter(producers[..i], VisibleTo(s, roomName));
        }
        i := i + 1;
      }
      assert producers[..i] == producers;
      return Ok(producerList);
    }

    /** transport-connect: connects the caller's first producing transport. */
    method TransportConnect(s: SocketId) returns (r: Result<Id>)
      modifies engine
      ensures GetTransport(transports, s, false).None? ==>
                r == Err(NoTransport) && engine.connected == old(engine.connected)
      ensures GetTransport(transports, s, false).Some? ==>
                r == Ok(GetTransport(transports, s, false).value.handle)
                && engine.connected == old(engine.connected) + {r.value}
      ensures engine.next == old(engine.next) && engine.closed == old(engine.closed)
      ensures engine.paused == old(engine.paused)
    {
      var found := GetTransport(transports, s, false);
      if found.None? {
        return Err(NoTransport);
      }
      engine.Connect(found.value.handle);
      r := Ok(found.value.handle);
    }

    /** transport-recv-connect: connects the receiving transport with the given id. */
    method TransportRecvConnect(transportId: Id) returns (r: Result<Id>)
      modifies engine
      ensures FindReceivingTransport(transports, transportId).None? ==>
                r == Err(NoTransport) && engine.connected == old(engine.connected)
      ensures FindReceivingTransport(transports, transportId).Some? ==>
                r == Ok(transportId) && engine.connected == old(engine.connected) + {transportId}
      ensures engine.next == old(engine.next) && engine.closed == old(engine.closed)
      ensures engine.paused == old(engine.paused)
    {
      var found := FindReceivingTransport(transports, transportId);
      if found.None? {
        return Err(NoTransport);
      }
      engine.Connect(found.value.handle);
      r := Ok(found.value.handle);
    }

    /** informConsumers: one `new-producer` emit per receiving transport of another socket in the room. */
    method InformConsumers(roomName: RoomName, s: SocketId, producerId: Id)
      requires Joined(transports, peers)
      modifies this`outbox
      ensures outbox == old(outbox) + InformEmits(transports, roomName, s, producerId)
    {
      var i := 0;
      while i < |transports|
        invariant 0 <= i <= |transports|
        invariant outbox == old(outbox) + InformEmits(transports[..i], roomName, s, producerId)
      {
        var t := transports[i];
        assert transports[..i + 1] == transports[..i] + [t];
        InformEmitsSnoc(transports[..i], t, roomName, s, producerId);
        if t.socketId != s && t.roomName == roomName && t.extra {
          assert InformEmits(transports[..i + 1], roomName, s, producerId)
              == InformEmits(transports[..i], roomName, s, producerId) + [Emit(t.socketId, NewProducer(producerId))];
          // The source reaches the socket through peers[t.socketId], present because the records are joined.
          outbox := outbox + [Emit(t.socketId, NewProducer(producerId))];
        }
        i := i + 1;
      }
      assert transports[..i] == transports;
    }

    /**
     * transport-produce: a producer on the caller's first producing transport, registered,
     * announced to the room, and answered with its id and whether the registry held
     * another producer.
     */
    method TransportProduce(s: SocketId) returns (r: Result<ProduceReply>)
      requires Valid()
      modifies this`producers, this`peers, this`outbox, engine
      ensures Valid()
      ensures GetTransport(transports, s, false).None? ==>
                && r == Err(NoTransport) && producers == old(producers) && peers == old(peers)
                && outbox == old(outbox) && engine.next == old(engine.next)
      ensures GetTransport(transports, s, false).Some? ==>
                && s in old(peers)
                && var roomName := old(peers)[s].roomName;
                && var transport := GetTransport(transports, s, false).value;
                && r == Ok(ProduceReply(old(engine.next), |producers| > 1))
                && r.value.producersExist == (|old(producers)| > 0)
                && engine.next == old(engine.next) + 1
                && producers == old(producers) + [Entry(s, roomName, r.value.id, transport.handle)]
                && peers == old(peers)[s := old(peers)[s].(producers := old(peers)[s].producers + [r.value.id])]
                && outbox == old(outbox) + InformEmits(transports, roomName, s, r.value.id)
      ensures engine.closed == old(engine.closed) && engine.paused == old(engine.paused)
      ensures engine.connected == old(engine.connected)
    {
      var found := GetTransport(transports, s, false);
      if found.None? {
        return Err(NoTransport);
      }
      var transport := found.value;
      var roomName := peers[s].roomName;
      var producer := OpenProducer(s, roomName, transport);
      InformConsumers(roomName, s, producer);
      r := Ok(ProduceReply(producer, |producers| > 1));
    }

    /** transport.produce on a producing transport of `s`, then addProducer. */
    method OpenProducer(s: SocketId, roomName: RoomName, transport: TransportRecord) returns (producer: Id)
      requires Valid() && s in peers
      requires transport in transports && !transport.extra && transport.socketId == s
      modifies this`producers, this`peers, engine
      ensures Valid()
      ensures producer == old(engine.next) && engine.next == producer + 1
      ensures producers == old(producers) + [Entry(s, roomName, producer, transport.handle)]
      ensures peers == old(peers)[s := old(peers)[s].(producers := old(peers)[s].producers + [producer])]
      ensures engine.closed == old(engine.closed) && engine.paused == old(engine.paused)
      ensures engine.connected == old(engine.connected)
    {
      producer := engine.Create();
      var entry := Entry(s, roomName, producer, transport.handle);
      assert OnSendTransport(transports, entry);
      ghost var peers0 := peers;
      var ok := AddProducer(s, producer, roomName, transport.handle);
      AddProducerConsistent(rooms, peers0, peers, transports, old(producers), consumers, producer, entry);
    }

    /** transport.consume (created paused), then addConsumer. */
    method OpenConsumer(s: SocketId, roomName: RoomName, link: ConsumerLink) returns (consumer: Id)
      requires Valid() && s in peers
      modifies this`consumers, this`peers, engine
      ensures Valid()
      ensures consumer == old(engine.next) && engine.next == consumer + 1
      ensures engine.paused == old(engine.paused) + {consumer}
      ensures consumers == old(consumers) + [Entry(s, roomName, consumer, link)]
      ensures peers == old(peers)[s := old(peers)[s].(consumers := old(peers)[s].consumers + [consumer])]
      ensures engine.closed == old(engine.closed) && engine.connected == old(engine.connected)
    {
      consumer := engine.CreatePaused();
      ghost var peers0 := peers;
      var ok := AddConsumer(s, consumer, roomName, link);
      AddConsumerConsistent(rooms, peers0, peers, transports, producers, old(consumers), consumer,
                            Entry(s, roomName, consumer, link));
    }

    /**
     * consume: a paused consumer of `remoteProducerId` on the caller's receiving transport,
     * when the router can consume it (`canConsume` is the engine's answer). The reply
     * reports the first transport of the producer's socket, as the source does; see
     * ReplySendTransportAsWritten and ProducerSendTransport.
     */
    method Consume(s: SocketId, transportId: Id, remoteProducerId: Id, canConsume: bool) returns (r: ConsumeOutcome)
      requires Valid()
      modifies this`consumers, this`peers, engine
      ensures Valid()
      ensures engine.closed == old(engine.closed) && engine.connected == old(engine.connected)
      ensures s !in old(peers) ==> r == Failed(NoPeer)
      ensures s in old(peers) && FindReceivingTransport(transports, transportId).None? ==> r == Failed(NoTransport)
      ensures s in old(peers) && FindReceivingTransport(transports, transportId).Some? && !canConsume ==> r == Refused
      ensures r.Refused? || r == Failed(NoPeer) || r == Failed(NoTransport) ==>
                && consumers == old(consumers) && peers == old(peers)
                && engine.next == old(engine.next) && engine.paused == old(engine.paused)
      ensures s in old(peers) && FindReceivingTransport(transports, transportId).Some? && canConsume ==>
                && var c := old(engine.next);
                && var remote := FindProducer(producers, remoteProducerId);
                && var link := ConsumerLink(transportId, remoteProducerId,
                                            if remote.Some? then Some(ProducerSendTransport(remote.value)) else None);
                && engine.next == c + 1 && engine.paused == old(engine.paused) + {c}
                && consumers == old(consumers) + [Entry(s, old(peers)[s].roomName, c, link)]
                && peers == old(peers)[s := old(peers)[s].(consumers := old(peers)[s].consumers + [c])]
                && (remote.None? ==> r == Failed(NoProducer))
                && (remote.Some? ==>
                      && ReplySendTransportAsWritten(transports, remote.value).Some?
                      && r == Consumed(ConsumeParams(c, remoteProducerId,
                                                     ReplySendTransportAsWritten(transports, remote.value).value, c)))
    {
      if s !in peers {
        return Failed(NoPeer);
      }
      var roomName := peers[s].roomName;
      var consumerTransport := FindReceivingTransport(transports, transportId);
      if consumerTransport.None? {
        return Failed(NoTransport);
      }
      var remote := FindProducer(producers, remoteProducerId);
      var sendTransportOfRemote := if remote.Some? then Some(ProducerSendTransport(remote.value)) else None;
      if !canConsume {
        return Refused;
      }
      var link := ConsumerLink(consumerTransport.value.handle, remoteProducerId, sendTransportOfRemote);
      var consumer := OpenConsumer(s, roomName, link);
      if remote.None? {
        // The source reads `remoteProducer.socketId` of undefined; the error is caught.
        return Failed(NoProducer);
      }
      ReplySendTransportAsWrittenDefined(producers, transports, remote.value);
      var producerSendTransport := ReplySendTransportAsWritten(transports, remote.value).value;
      r := Consumed(ConsumeParams(consumer, remoteProducerId, producerSendTransport, consumer));
    }

    /** consumer-resume: resumes the consumer with that id. */
    method ConsumerResume(consumerId: Id) returns (r: Result<Id>)
      modifies engine
      ensures FindConsumer(consumers, consumerId).None? ==> r == Err(NoConsumer) && engine.paused == old(engine.paused)
      ensures FindConsumer(consumers, consumerId).Some? ==>
                r == Ok(consumerId) && engine.paused == old(engine.paused) - {consumerId}
      ensures engine.next == old(engine.next) && engine.closed == old(engine.closed)
      ensures engine.connected == old(engine.connected)
    {
      var found := FindConsumer(consumers, consumerId);
      if found.None? {
        return Err(NoConsumer);
      }
      engine.Resume(found.value.handle);
      r := Ok(found.value.handle);
    }

    /** producer-media-paused: pauses the caller's producer with that id, if there is one. */
    method MediaPaused(s: SocketId, producerId: Id)
      modifies engine
      ensures FindOwnProducer(producers, s, producerId).Some? ==> engine.paused == old(engine.paused) + {producerId}
      ensures FindOwnProducer(producers, s, producerId).None? ==> engine.paused == old(engine.paused)
      ensures engine.next == old(engine.next) && engine.closed == old(engine.closed)
      ensures engine.connected == old(engine.connected)
    {
      var found := FindOwnProducer(producers, s, producerId);
      if found.Some? {
        engine.Pause(found.value.handle);
      }
    }

    /** producer-media-resume: resumes the caller's producer with that id, if there is one. */
    method MediaResume(s: SocketId, producerId: Id)
      modifies engine
      ensures FindOwnProducer(producers, s, producerId).Some? ==> engine.paused == old(engine.paused) - {producerId}
      ensures FindOwnProducer(producers, s, producerId).None? ==> engine.paused == old(engine.paused)
      ensures engine.next == old(engine.next) && engine.closed == old(engine.closed)
      ensures engine.connected == old(engine.connected)
    {
      var found := FindOwnProducer(producers, s, producerId);
      if found.Some? {
        engine.Resume(found.value.handle);
      }
    }

    /**
     * The reaction consume registers for `producerclose` on consumer `c`: tell its socket,
     * close the consumer and drop it from the registry.
     */
    method OnProducerClose(c: ConsumerRecord)
      requires Valid()
      modifies this`consumers, this`outbox, engine
      ensures Valid()
      ensures outbox == old(outbox) + [Emit(c.socketId, ProducerClosed(c.extra.producerId, c.extra.producerSendTransportId))]
      ensures engine.closed == old(engine.closed) + {c.handle}
      ensures consumers == Filter(old(consumers), WithoutHandle(c.handle))
      ensures engine.next == old(engine.next) && engine.paused == old(engine.paused)
      ensures engine.connected == old(engine.connected)
    {
      outbox := outbox + [Emit(c.socketId, ProducerClosed(c.extra.producerId, c.extra.producerSendTransportId))];
      engine.Close(c.handle);
      DropConsumersConsistent(rooms, peers, transports, producers, consumers, engine.next, WithoutHandle(c.handle));
      consumers := Filter(consumers, WithoutHandle(c.handle));
    }

    /**
     * removeItems: closes the handle of every item socket `s` owns and returns the other
     * items in their original order.
     */
    method RemoveItems<X(==)>(items: seq<Entry<X>>, s: SocketId) returns (kept: seq<Entry<X>>)
      modifies engine
      ensures kept == Filter(items, NotOwnedBy(s))
      ensures engine.closed == old(engine.closed) + OwnedHandles(items, s)
      ensures engine.next == old(engine.next) && engine.paused == old(engine.paused)
      ensures engine.connected == old(engine.connected)
    {
      var i := 0;
      while i < |items|
        invariant 0 <= i <= |items|
        invariant engine.closed == old(engine.closed) + OwnedHandles(items[..i], s)
        invariant engine.next == old(engine.next) && engine.paused == old(engine.paused)
        invariant engine.connected == old(engine.connected)
      {
        assert items[..i + 1] == items[..i] + [items[i]];
        OwnedHandlesSnoc(items[..i], items[i], s);
        if items[i].socketId == s {
          engine.Close(items[i].handle);
        }
        i := i + 1;
      }
      assert items[..i] == items;
      kept := Filter(items, NotOwnedBy(s));
    }

    /**
     * handleDisconnect: closes and drops every consumer, producer and transport of the
     * socket, then leaves its room (see LeaveRoom).
     */
    method HandleDisconnect(s: SocketId)
      requires Valid()
      modifies this`consumers, this`producers, this`transports, this`peers, this`rooms, engine
      ensures Valid()
      ensures consumers == Filter(old(consumers), NotOwnedBy(s))
      ensures producers == Filter(old(producers), NotOwnedBy(s))
      ensures transports == Filter(old(transports), NotOwnedBy(s))
      ensures engine.closed == old(engine.closed) + OwnedHandles(old(consumers), s)
                               + OwnedHandles(old(producers), s) + OwnedHandles(old(transports), s)
      ensures s in old(peers) ==>
                && var roomName := old(peers)[s].roomName;
                && roomName in old(rooms)
                && peers == old(peers) - {s}
                && rooms == old(rooms)[roomName := Room(old(rooms)[roomName].router, Filter(old(rooms)[roomName].peers, Other(s)))]
      ensures s !in old(peers) ==> peers == old(peers) && rooms == old(rooms)
      ensures engine.next == old(engine.next) && engine.paused == old(engine.paused)
      ensures engine.connected == old(engine.connected)
    {
      DropConsistent(rooms, peers, transports, producers, consumers, engine.next, s);
      consumers := RemoveItems(consumers, s);
      producers := RemoveItems(producers, s);
      transports := RemoveItems(transports, s);
      LeaveRoom(s);
    }

    /**
     * handleDisconnect's try block: deletes the peer record and removes the socket from
     * its room's member list, keeping the room and its router. A socket without a peer
     * record leaves rooms and peers as they were (the lookup throws and is caught).
     */
    method LeaveRoom(s: SocketId)
      requires Valid()
      requires Joined(transports, peers - {s}) && Joined(producers, peers - {s})
      requires Joined(consumers, peers - {s})
      modifies this`peers, this`rooms
      ensures Valid()
      ensures s in old(peers) ==>
                && var roomName := old(peers)[s].roomName;
                && roomName in old(rooms)
                && peers == old(peers) - {s}
                && rooms == old(rooms)[roomName := Room(old(rooms)[roomName].router, Filter(old(rooms)[roomName].peers, Other(s)))]
      ensures s !in old(peers) ==> peers == old(peers) && rooms == old(rooms)
    {
      ghost var rooms0, peers0 := rooms, peers;
      if s in peers {
        var roomName := peers[s].roomName;
        peers := peers - {s};
        rooms := rooms[roomName := Room(rooms[roomName].router, Filter(rooms[roomName].peers, Other(s)))];
      } else {
        assert peers0 - {s} == peers0;
      }
      LeaveConsistent(rooms0, peers0, transports, producers, consumers, engine.next, s, rooms);
    }
  }

  /** Two sockets joining one room share its router and are listed in join order. */
  method JoinScenario()
  {
    var g := new Gateway();
    var routerA := g.JoinRoom("A", "lobby");
    var routerB := g.JoinRoom("B", "lobby");
    assert routerA == routerB;
    assert g.rooms["lobby"].peers == ["A", "B"];
  }

  /** A socket that produced and then disconnects leaves no records behind; its room stays. */
  method DisconnectScenario()
  {
    var g := new Gateway();
    var router := g.JoinRoom("A", "lobby");
    var t := g.CreateWebRtcTransportHandle("A", false);
    var produced := g.TransportProduce("A");
    assert produced.Ok? && !produced.value.producersExist;
    g.HandleDisconnect("A");
    assert g.producers == [];
    assert "A" !in g.peers && g.rooms["lobby"].router == router;
  }

  /** Socket "b" joins "lobby" and opens a receiving transport, then a producing transport. */
  method ReceiverFirst() returns (g: Gateway, t1: Id, t2: Id)
    ensures fresh(g) && fresh(g.engine) && g.Valid()
    ensures g.transports == [Entry("b", "lobby", t1, true), Entry("b", "lobby", t2, false)]
    ensures g.producers == [] && "b" in g.peers && g.peers["b"].roomName == "lobby"
    ensures t1 != t2
  {
    g := new Gateway();
    var router := g.JoinRoom("b", "lobby");
    var r1 := g.CreateWebRtcTransportHandle("b", true);
    var r2 := g.CreateWebRtcTransportHandle("b", false);
    t1, t2 := r1.value, r2.value;
  }

  /** ReceiverFirst, then "b" produces: the producer sits on the producing transport t2. */
  method ReceiverFirstProducer() returns (g: Gateway, t1: Id, t2: Id, producer: Id)
    ensures fresh(g) && fresh(g.engine) && g.Valid()
    ensures g.transports == [Entry("b", "lobby", t1, true), Entry("b", "lobby", t2, false)]
    ensures g.producers == [Entry("b", "lobby", producer, t2)]
    ensures t1 != t2
  {
    g, t1, t2 := ReceiverFirst();
    assert GetTransport(g.transports, "b", false) == Some(g.transports[1]) by {
      assert FindIndex(g.transports, TransportOf("b", false)) == Some(1);
    }
    var p := g.TransportProduce("b");
    producer := p.value.id;
  }

  /**
   * Consuming the producer of ReceiverFirstProducer: the reply names the receiving transport
   * t1, while the producer sits on t2.
   */
  method ReplyScenario()
  {
    var g, t1, t2, producer := ReceiverFirstProducer();
    var router := g.JoinRoom("a", "lobby");
    var t4 := g.CreateWebRtcTransportHandle("a", true);
    var r := g.Consume("a", t4.value, producer, true);
    assert r.Consumed? && r.params.producerSendTransportId == t1;
    assert ProducerSendTransport(g.producers[0]) == t2 != t1;
  }
}
