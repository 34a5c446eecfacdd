/**
 * The in-memory tables of the signalling gateway, as values: the records kept in the
 * transport, producer and consumer registries, the room and peer entries, the events
 * emitted to sockets, and the pure lookups and filters the gateway's handlers use.
 */
module Registry {

  type SocketId = string
  type RoomName = string

  /** Id of a media-engine object (router, transport, producer or consumer). */
  type Id = nat

  datatype Option<+T> = None | Some(value: T)

  /**
   * One item of a registry: its owner socket, its room, the engine handle it keeps
   * (`transport`, `producer` or `consumer` in the source, the field `removeItems`
   * closes) and what else the record of that kind carries.
   */
  datatype Entry<+X> = Entry(socketId: SocketId, roomName: RoomName, handle: Id, extra: X)

  /** `extra` is the `consumer` flag: true for a receiving transport. */
  type TransportRecord = Entry<bool>

  /** `extra` is `sendTransPortId`, the transport the producer was produced on. */
  type ProducerRecord = Entry<Id>

  /**
   * `recvTransportId` is the record's `recvTransPortId`; `producerId` and
   * `producerSendTransportId` are what the reactions registered by `consume`
   * capture (`remoteProducerId`, `sendTransPortIdOfRemoteProd`).
   */
  datatype ConsumerLink = ConsumerLink(recvTransportId: Id, producerId: Id, producerSendTransportId: Option<Id>)
  type ConsumerRecord = Entry<ConsumerLink>

  datatype Room = Room(router: Id, peers: seq<SocketId>)
  datatype PeerDetails = PeerDetails(name: string, isAdmin: bool)
  datatype Peer = Peer(roomName: RoomName, transports: seq<Id>, producers: seq<Id>, consumers: seq<Id>, details: PeerDetails)

  /** The peer record `joinRoom` installs. */
  function FreshPeer(roomName: RoomName): Peer
  {
    Peer(roomName, [], [], [], PeerDetails("", false))
  }

  datatype Event =
    | ConnectionSuccess(socketId: SocketId)
    | NewProducer(producerId: Id)
    | ProducerClosed(remoteProducerId: Id, producerSendTransportId: Option<Id>)

  /** One `socket.emit` of the gateway: the receiving socket and the event. */
  datatype Emit = Emit(target: SocketId, event: Event)

  // ---------------------------------------------------------------------------
  // Array.prototype.filter: keeps the elements satisfying p, in order. It is
  // defined on the last element, the way the source's forEach loops extend
  // their results.

  function Filter<T>(xs: seq<T>, p: T -> bool): (r: seq<T>)
    ensures |r| <= |xs|
    decreases |xs|
  {
    if |xs| == 0 then []
    else Filter(xs[..|xs| - 1], p) + (if p(xs[|xs| - 1]) then [xs[|xs| - 1]] else [])
  }

  /** An element survives the filter exactly when it was there and satisfies p. */
  lemma {:induction false} FilterMember<T>(xs: seq<T>, p: T -> bool, x: T)
    ensures x in Filter(xs, p) <==> x in xs && p(x)
  {
    if |xs| > 0 {
      var init := xs[..|xs| - 1];
      FilterMember(init, p, x);
      assert xs == init + [xs[|xs| - 1]];
    }
  }

  /** One more element is kept at the end exactly when it satisfies p. */
  lemma FilterSnoc<T>(xs: seq<T>, x: T, p: T -> bool)
    ensures Filter(xs + [x], p) == Filter(xs, p) + (if p(x) then [x] else [])
  {
    assert (xs + [x])[..|xs|] == xs;
  }

  /** Filtering keeps the original order: it distributes over concatenation. */
  lemma {:induction false} FilterAppend<T>(a: seq<T>, b: seq<T>, p: T -> bool)
    ensures Filter(a + b, p) == Filter(a, p) + Filter(b, p)
    decreases |b|
  {
    if |b| == 0 {
      assert a + b == a;
    } else {
      var init, last := b[..|b| - 1], b[|b| - 1];
      var kept := if p(last) then [last] else [];
      calc {
        Filter(a + b, p);
      == { assert a + b == (a + init) + [last]; }
        Filter((a + init) + [last], p);
      == { FilterSnoc(a + init, last, p); }
        Filter(a + init, p) + kept;
      == { FilterAppend(a, init, p); }
        (Filter(a, p) + Filter(init, p)) + kept;
      ==
        Filter(a, p) + (Filter(init, p) + kept);
      == { assert b == init + [last]; FilterSnoc(init, last, p); }
        Filter(a, p) + Filter(b, p);
      }
    }
  }

  /** A filter every element passes changes nothing. */
  lemma {:induction false} FilterAll<T>(xs: seq<T>, p: T -> bool)
    requires forall i :: 0 <= i < |xs| ==> p(xs[i])
    ensures Filter(xs, p) == xs
  {
    if |xs| > 0 {
      FilterAll(xs[..|xs| - 1], p);
    }
  }

  /** A predicate and its negation split a sequence without losing or duplicating anything. */
  lemma {:induction false} FilterPartition<T>(xs: seq<T>, p: T -> bool, q: T -> bool)
    requires forall x :: q(x) == !p(x)
    ensures multiset(Filter(xs, p)) + multiset(Filter(xs, q)) == multiset(xs)
  {
    if |xs| > 0 {
      var init, last := xs[..|xs| - 1], xs[|xs| - 1];
      assert xs == init + [last];
      FilterPartition(init, p, q);
      FilterSnoc(init, last, p);
      FilterSnoc(init, last, q);
    }
  }

  // ---------------------------------------------------------------------------
  // Array.prototype.find: the first element satisfying p.

  function FindIndex<T>(xs: seq<T>, p: T -> bool): (r: Option<nat>)
    ensures r.Some? ==> r.value < |xs| && p(xs[r.value]) && forall j :: 0 <= j < r.value ==> !p(xs[j])
    ensures r.None? ==> forall j :: 0 <= j < |xs| ==> !p(xs[j])
  {
    if |xs| == 0 then None
    else if p(xs[0]) then Some(0)
    else match FindIndex(xs[1..], p)
      case None => None
      case Some(k) => Some(k + 1)
  }

  function Find<T>(xs: seq<T>, p: T -> bool): (r: Option<T>)
    ensures r.None? <==> forall j :: 0 <= j < |xs| ==> !p(xs[j])
    ensures r.Some? ==> exists i :: 0 <= i < |xs| && xs[i] == r.value && p(xs[i]) && forall j :: 0 <= j < i ==> !p(xs[j])
  {
    match FindIndex(xs, p)
    case None => None
    case Some(i) => Some(xs[i])
  }

  // ---------------------------------------------------------------------------
  // The predicates the handlers pass to filter, find and forEach.

  function OwnedBy<X>(s: SocketId): Entry<X> -> bool { (e: Entry<X>) => e.socketId == s }
  function NotOwnedBy<X>(s: SocketId): Entry<X> -> bool { (e: Entry<X>) => e.socketId != s }
  function WithHandle<X>(id: Id): Entry<X> -> bool { (e: Entry<X>) => e.handle == id }
  function WithoutHandle<X>(id: Id): Entry<X> -> bool { (e: Entry<X>) => e.handle != id }
  function Other(s: SocketId): SocketId -> bool { (x: SocketId) => x != s }

  /** getProducers: producers of the caller's room owned by someone else. */
  function VisibleTo(s: SocketId, roomName: RoomName): ProducerRecord -> bool {
    (p: ProducerRecord) => p.socketId != s && p.roomName == roomName
  }

  /** informConsumers: receiving transports of the room owned by someone else. */
  function Listens(roomName: RoomName, s: SocketId): TransportRecord -> bool {
    (t: TransportRecord) => t.socketId != s && t.roomName == roomName && t.extra
  }

  /** getTransport's find predicate. */
  function TransportOf(s: SocketId, consumer: bool): TransportRecord -> bool {
    (t: TransportRecord) => t.socketId == s && t.extra == consumer
  }

  /** The find of transport-recv-connect and consume: a receiving transport with that id. */
  function ReceivingWithId(id: Id): TransportRecord -> bool {
    (t: TransportRecord) => t.extra && t.handle == id
  }

  /** The find of producer-media-paused and producer-media-resume. */
  function OwnProducer(s: SocketId, id: Id): ProducerRecord -> bool {
    (p: ProducerRecord) => p.socketId == s && p.handle == id
  }

  // ---------------------------------------------------------------------------
  // Lookups.

  /** getTransport: the first transport of socket `s` whose consumer flag is `consumer`. */
  function GetTransport(ts: seq<TransportRecord>, s: SocketId, consumer: bool): (r: Option<TransportRecord>)
    ensures r.None? <==> forall t :: t in ts ==> !(t.socketId == s && t.extra == consumer)
    ensures r.Some? ==> exists i :: 0 <= i < |ts| && ts[i] == r.value && r.value.socketId == s && r.value.extra == consumer
                                   && forall j :: 0 <= j < i ==> !(ts[j].socketId == s && ts[j].extra == consumer)
  {
    Find(ts, TransportOf(s, consumer))
  }

  /** The find of transport-recv-connect and consume: the receiving transport with that id. */
  function FindReceivingTransport(ts: seq<TransportRecord>, id: Id): (r: Option<TransportRecord>)
    ensures r.None? <==> forall t :: t in ts ==> !(t.extra && t.handle == id)
    ensures r.Some? ==> r.value in ts && r.value.extra && r.value.handle == id
  {
    Find(ts, ReceivingWithId(id))
  }

  /** The finds of consume: the producer with that id. */
  function FindProducer(ps: seq<ProducerRecord>, id: Id): (r: Option<ProducerRecord>)
    ensures r.None? <==> forall p :: p in ps ==> p.handle != id
    ensures r.Some? ==> r.value in ps && r.value.handle == id
  {
    Find(ps, WithHandle(id))
  }

  /** The find of consumer-resume: the consumer with that id. */
  function FindConsumer(cs: seq<ConsumerRecord>, id: Id): (r: Option<ConsumerRecord>)
    ensures r.None? <==> forall c :: c in cs ==> c.handle != id
    ensures r.Some? ==> r.value in cs && r.value.handle == id
  {
    Find(cs, WithHandle(id))
  }

  /** The find of producer-media-paused and producer-media-resume: the caller's own producer with that id. */
  function FindOwnProducer(ps: seq<ProducerRecord>, s: SocketId, id: Id): (r: Option<ProducerRecord>)
    ensures r.None? <==> forall p :: p in ps ==> !(p.socketId == s && p.handle == id)
    ensures r.Some? ==> r.value in ps && r.value.socketId == s && r.value.handle == id
  {
    Find(ps, OwnProducer(s, id))
  }

  /** With distinct handles, looking a record up by its handle finds exactly that record. */
  lemma FindByHandleUnique<X>(xs: seq<Entry<X>>, e: Entry<X>)
    requires DistinctHandles(xs) && e in xs
    ensures Find(xs, WithHandle(e.handle)) == Some(e)
  {
    var k :| 0 <= k < |xs| && xs[k] == e;
    var r := Find(xs, WithHandle<X>(e.handle));
    assert WithHandle<X>(e.handle)(xs[k]);
    var i :| 0 <= i < |xs| && xs[i] == r.value && WithHandle<X>(e.handle)(xs[i]);
    assert i == k;
  }

  // ---------------------------------------------------------------------------
  // The ids and events the forEach loops produce.

  /** The handles of a sequence of records, in order. */
  function Handles<X>(xs: seq<Entry<X>>): (r: seq<Id>)
    ensures |r| == |xs|
    decreases |xs|
  {
    if |xs| == 0 then [] else Handles(xs[..|xs| - 1]) + [xs[|xs| - 1].handle]
  }

  lemma {:induction false} HandlesAt<X>(xs: seq<Entry<X>>, i: nat)
    requires i < |xs|
    ensures Handles(xs)[i] == xs[i].handle
    decreases |xs|
  {
    if i < |xs| - 1 {
      HandlesAt(xs[..|xs| - 1], i);
    }
  }

  lemma {:induction false} HandlesAppend<X>(a: seq<Entry<X>>, b: seq<Entry<X>>)
    ensures Handles(a + b) == Handles(a) + Handles(b)
    decreases |b|
  {
    if |b| == 0 {
      assert a + b == a;
    } else {
      var init, last := b[..|b| - 1], b[|b| - 1];
      calc {
        Handles(a + b);
      == { assert a + b == (a + init) + [last]; }
        Handles((a + init) + [last]);
      == { HandlesSnoc(a + init, last); }
        Handles(a + init) + [last.handle];
      == { HandlesAppend(a, init); }
        (Handles(a) + Handles(init)) + [last.handle];
      ==
        Handles(a) + (Handles(init) + [last.handle]);
      == { assert b == init + [last]; HandlesSnoc(init, last); }
        Handles(a) + Handles(b);
      }
    }
  }

  lemma HandlesSnoc<X>(xs: seq<Entry<X>>, e: Entry<X>)
    ensures Handles(xs + [e]) == Handles(xs) + [e.handle]
  {
    assert (xs + [e])[..|xs|] == xs;
  }

  /** getProducers: the ids of the producers the caller may consume, in registry order. */
  function VisibleProducers(ps: seq<ProducerRecord>, s: SocketId, roomName: RoomName): seq<Id>
  {
    Handles(Filter(ps, VisibleTo(s, roomName)))
  }

  /** One `new-producer` emit per listening transport, in registry order. */
  function NewProducerEmits(listeners: seq<TransportRecord>, producerId: Id): (r: seq<Emit>)
    ensures |r| == |listeners|
    decreases |listeners|
  {
    if |listeners| == 0 then []
    else NewProducerEmits(listeners[..|listeners| - 1], producerId)
         + [Emit(listeners[|listeners| - 1].socketId, NewProducer(producerId))]
  }

  /** The i-th emit goes to the owner of the i-th listening transport. */
  lemma {:induction false} NewProducerEmitsAt(listeners: seq<TransportRecord>, producerId: Id, i: nat)
    requires i < |listeners|
    ensures NewProducerEmits(listeners, producerId)[i] == Emit(listeners[i].socketId, NewProducer(producerId))
    decreases |listeners|
  {
    if i < |listeners| - 1 {
      NewProducerEmitsAt(listeners[..|listeners| - 1], producerId, i);
    }
  }

  /** One more transport record adds at most its own emit at the end. */
  lemma InformEmitsSnoc(ts: seq<TransportRecord>, t: TransportRecord, roomName: RoomName, s: SocketId, producerId: Id)
    ensures InformEmits(ts + [t], roomName, s, producerId)
         == InformEmits(ts, roomName, s, producerId)
            + (if t.socketId != s && t.roomName == roomName && t.extra then [Emit(t.socketId, NewProducer(producerId))] else [])
  {
    FilterSnoc(ts, t, Listens(roomName, s));
    var ls := Filter(ts, Listens(roomName, s));
    if Listens(roomName, s)(t) {
      assert (ls + [t])[..|ls|] == ls;
    } else {
      assert ls + [] == ls;
    }
  }

  /** The emits informConsumers sends for a new producer `producerId` of socket `s` in `roomName`. */
  function InformEmits(ts: seq<TransportRecord>, roomName: RoomName, s: SocketId, producerId: Id): seq<Emit>
  {
    NewProducerEmits(Filter(ts, Listens(roomName, s)), producerId)
  }

  /** The handles removeItems closes: those of the items socket `s` owns. */
  function OwnedHandles<X(==)>(items: seq<Entry<X>>, s: SocketId): set<Id>
  {
    set e | e in items && e.socketId == s :: e.handle
  }

  lemma OwnedHandlesSnoc<X>(xs: seq<Entry<X>>, e: Entry<X>, s: SocketId)
    ensures OwnedHandles(xs + [e], s) == OwnedHandles(xs, s) + (if e.socketId == s then {e.handle} else {})
  {
    var a, b := OwnedHandles(xs + [e], s), OwnedHandles(xs, s) + (if e.socketId == s then {e.handle} else {});
    forall h | h in a ensures h in b {
      var x :| x in xs + [e] && x.socketId == s && x.handle == h;
      if x != e { assert x in xs; }
    }
    forall h | h in b ensures h in a {
      if h in OwnedHandles(xs, s) {
        var x :| x in xs && x.socketId == s && x.handle == h;
        assert x in xs + [e];
      } else {
        assert e in xs + [e];
      }
    }
  }

  // ---------------------------------------------------------------------------
  // Properties of the lookups and the fan-out.

  /**
   * getProducers lists an id exactly when some producer with that id sits in the
   * caller's room and belongs to another socket.
   */
  lemma VisibleProducersExact(ps: seq<ProducerRecord>, s: SocketId, roomName: RoomName, id: Id)
    ensures id in VisibleProducers(ps, s, roomName)
        <==> exists p :: p in ps && p.socketId != s && p.roomName == roomName && p.handle == id
  {
    var vis := Filter(ps, VisibleTo(s, roomName));
    if id in VisibleProducers(ps, s, roomName) {
      var i :| 0 <= i < |vis| && Handles(vis)[i] == id;
      HandlesAt(vis, i);
      FilterMember(ps, VisibleTo(s, roomName), vis[i]);
    }
    if p :| p in ps && p.socketId != s && p.roomName == roomName && p.handle == id {
      FilterMember(ps, VisibleTo(s, roomName), p);
      var i :| 0 <= i < |vis| && vis[i] == p;
      HandlesAt(vis, i);
    }
  }

  /** getProducers follows registry order: the list for a + b is a's list then b's. */
  lemma VisibleProducersAppend(a: seq<ProducerRecord>, b: seq<ProducerRecord>, s: SocketId, roomName: RoomName)
    ensures VisibleProducers(a + b, s, roomName) == VisibleProducers(a, s, roomName) + VisibleProducers(b, s, roomName)
  {
    var p := VisibleTo(s, roomName);
    FilterAppend(a, b, p);
    HandlesAppend(Filter(a, p), Filter(b, p));
  }

  /**
   * informConsumers: a socket receives `new-producer` exactly when it owns a receiving
   * transport in the room and is not the producing socket; every emit carries the new id.
   */
  lemma InformEmitsExact(ts: seq<TransportRecord>, roomName: RoomName, s: SocketId, producerId: Id, e: Emit)
    ensures e in InformEmits(ts, roomName, s, producerId)
        <==> e.event == NewProducer(producerId)
             && exists t :: t in ts && t.extra && t.roomName == roomName && t.socketId != s && t.socketId == e.target
  {
    var ls := Filter(ts, Listens(roomName, s));
    var emits := InformEmits(ts, roomName, s, producerId);
    if e in emits {
      var i :| 0 <= i < |emits| && emits[i] == e;
      NewProducerEmitsAt(ls, producerId, i);
      FilterMember(ts, Listens(roomName, s), ls[i]);
    }
    if t :| t in ts && t.extra && t.roomName == roomName && t.socketId != s && t.socketId == e.target {
      if e.event == NewProducer(producerId) {
        FilterMember(ts, Listens(roomName, s), t);
        var i :| 0 <= i < |ls| && ls[i] == t;
        NewProducerEmitsAt(ls, producerId, i);
      }
    }
  }

  /** informConsumers sends one emit per listening transport record, and no more. */
  lemma InformEmitsCount(ts: seq<TransportRecord>, roomName: RoomName, s: SocketId, producerId: Id)
    ensures |InformEmits(ts, roomName, s, producerId)| == |Filter(ts, Listens(roomName, s))|
    ensures forall t :: t in ts && t.socketId == s ==> t !in Filter(ts, Listens(roomName, s))
  {
    forall t | t in ts && t.socketId == s
      ensures t !in Filter(ts, Listens(roomName, s))
    {
      FilterMember(ts, Listens(roomName, s), t);
    }
  }

  // ---------------------------------------------------------------------------
  // removeItems and the disconnect cascade.

  /** After removeItems no record of `s` remains, and every record of another socket does. */
  lemma RemovedExactly<X>(items: seq<Entry<X>>, s: SocketId, e: Entry<X>)
    ensures e in Filter(items, NotOwnedBy(s)) <==> e in items && e.socketId != s
  {
    FilterMember(items, NotOwnedBy<X>(s), e);
  }

  /** removeItems loses nothing: the records kept plus the records closed are the input. */
  lemma RemovedPartition<X>(items: seq<Entry<X>>, s: SocketId)
    ensures multiset(Filter(items, OwnedBy(s))) + multiset(Filter(items, NotOwnedBy(s))) == multiset(items)
  {
    FilterPartition(items, OwnedBy<X>(s), NotOwnedBy<X>(s));
  }

  /**
   * removeItems closes the handle of a record exactly when the record belongs to `s`:
   * with distinct handles no record of another socket shares a closed handle.
   */
  lemma ClosedExactly<X>(items: seq<Entry<X>>, s: SocketId, e: Entry<X>)
    requires DistinctHandles(items) && e in items
    ensures e.handle in OwnedHandles(items, s) <==> e.socketId == s
  {
    if e.handle in OwnedHandles(items, s) {
      var x :| x in items && x.socketId == s && x.handle == e.handle;
      var i :| 0 <= i < |items| && items[i] == x;
      var j :| 0 <= j < |items| && items[j] == e;
      assert i == j;
    }
  }

  /** A socket with no record is unaffected by removeItems. */
  lemma RemoveAbsent<X>(items: seq<Entry<X>>, s: SocketId)
    requires forall e :: e in items ==> e.socketId != s
    ensures Filter(items, NotOwnedBy(s)) == items
    ensures OwnedHandles(items, s) == {}
  {
    FilterAll(items, NotOwnedBy<X>(s));
  }

  /** Removing a socket from a member list leaves exactly the other members, in order. */
  lemma LeaveExactly(members: seq<SocketId>, s: SocketId, x: SocketId)
    ensures s !in Filter(members, Other(s))
    ensures x != s ==> (x in Filter(members, Other(s)) <==> x in members)
  {
    FilterMember(members, Other(s), s);
    FilterMember(members, Other(s), x);
  }

  // ---------------------------------------------------------------------------
  // Consistency of the tables: what every handler keeps true.

  /** Every record belongs to a socket that has a peer entry. */
  ghost predicate Joined<X>(xs: seq<Entry<X>>, peers: map<SocketId, Peer>) {
    forall e :: e in xs ==> e.socketId in peers
  }

  /** No two records of a registry share a handle. */
  ghost predicate DistinctHandles<X>(xs: seq<Entry<X>>) {
    forall i, j :: 0 <= i < j < |xs| ==> xs[i].handle != xs[j].handle
  }

  /** Every handle was issued by the engine before the counter reached `next`. */
  ghost predicate IssuedBelow<X>(xs: seq<Entry<X>>, next: nat) {
    forall e :: e in xs ==> e.handle < next
  }

  ghost predicate RoutersIssuedBelow(rooms: map<RoomName, Room>, next: nat) {
    forall r :: r in rooms ==> rooms[r].router < next
  }

  ghost predicate RoomsKnown(peers: map<SocketId, Peer>, rooms: map<RoomName, Room>) {
    forall s :: s in peers ==> peers[s].roomName in rooms
  }

  /** The producing transport a producer was created on. */
  ghost predicate OnSendTransport(ts: seq<TransportRecord>, p: ProducerRecord) {
    exists t :: t in ts && !t.extra && t.socketId == p.socketId && t.handle == p.extra
  }

  /** Every producer sits on a producing transport of its own socket. */
  ghost predicate ProducersOnSendTransports(ps: seq<ProducerRecord>, ts: seq<TransportRecord>) {
    forall p :: p in ps ==> OnSendTransport(ts, p)
  }

  ghost predicate Consistent(rooms: map<RoomName, Room>, peers: map<SocketId, Peer>,
                             ts: seq<TransportRecord>, ps: seq<ProducerRecord>, cs: seq<ConsumerRecord>,
                             next: nat)
  {
    && Joined(ts, peers) && Joined(ps, peers) && Joined(cs, peers)
    && RoomsKnown(peers, rooms)
    && RoutersIssuedBelow(rooms, next)
    && IssuedBelow(ts, next) && IssuedBelow(ps, next) && IssuedBelow(cs, next)
    && DistinctHandles(ts) && DistinctHandles(ps) && DistinctHandles(cs)
    && ProducersOnSendTransports(ps, ts)
  }

  /** Two peer tables with the same sockets, each in the same room. */
  ghost predicate SameMembership(peers: map<SocketId, Peer>, peers': map<SocketId, Peer>) {
    peers'.Keys == peers.Keys && forall s :: s in peers ==> peers'[s].roomName == peers[s].roomName
  }

  lemma IssuedLater<X>(xs: seq<Entry<X>>, next: nat, next': nat)
    requires IssuedBelow(xs, next) && next <= next'
    ensures IssuedBelow(xs, next')
  {
  }

  /** createRoom: entering a room keeps the tables consistent. */
  lemma EnterRoomConsistent(rooms: map<RoomName, Room>, peers: map<SocketId, Peer>,
                            ts: seq<TransportRecord>, ps: seq<ProducerRecord>, cs: seq<ConsumerRecord>,
                            next: nat, next': nat, roomName: RoomName, room: Room)
    requires Consistent(rooms, peers, ts, ps, cs, next)
    requires next <= next' && room.router < next'
    ensures Consistent(rooms[roomName := room], peers, ts, ps, cs, next')
  {
    IssuedLater(ts, next, next');
    IssuedLater(ps, next, next');
    IssuedLater(cs, next, next');
  }

  /** joinRoom: a peer record for a socket in an existing room keeps the tables consistent. */
  lemma JoinConsistent(rooms: map<RoomName, Room>, peers: map<SocketId, Peer>,
                       ts: seq<TransportRecord>, ps: seq<ProducerRecord>, cs: seq<ConsumerRecord>,
                       next: nat, s: SocketId, peer: Peer)
    requires Consistent(rooms, peers, ts, ps, cs, next)
    requires peer.roomName in rooms
    ensures Consistent(rooms, peers[s := peer], ts, ps, cs, next)
  {
  }

  /** addTransport after the engine issued `e.handle`. */
  lemma AddTransportConsistent(rooms: map<RoomName, Room>, peers: map<SocketId, Peer>, peers': map<SocketId, Peer>,
                               ts: seq<TransportRecord>, ps: seq<ProducerRecord>, cs: seq<ConsumerRecord>,
                               next: nat, e: TransportRecord)
    requires Consistent(rooms, peers, ts, ps, cs, next)
    requires SameMembership(peers, peers') && e.socketId in peers && e.handle == next
    ensures Consistent(rooms, peers', ts + [e], ps, cs, next + 1)
  {
    AppendFresh(ts, e, next);
    ExtendTransports(ps, ts, e);
    IssuedLater(ps, next, next + 1);
    IssuedLater(cs, next, next + 1);
  }

  /** addProducer after the engine issued `e.handle` on a producing transport of the same socket. */
  lemma AddProducerConsistent(rooms: map<RoomName, Room>, peers: map<SocketId, Peer>, peers': map<SocketId, Peer>,
                              ts: seq<TransportRecord>, ps: seq<ProducerRecord>, cs: seq<ConsumerRecord>,
                              next: nat, e: ProducerRecord)
    requires Consistent(rooms, peers, ts, ps, cs, next)
    requires SameMembership(peers, peers') && e.socketId in peers && e.handle == next
    requires OnSendTransport(ts, e)
    ensures Consistent(rooms, peers', ts, ps + [e], cs, next + 1)
  {
    AppendFresh(ps, e, next);
    IssuedLater(ts, next, next + 1);
    IssuedLater(cs, next, next + 1);
  }

  /** addConsumer after the engine issued `e.handle`. */
  lemma AddConsumerConsistent(rooms: map<RoomName, Room>, peers: map<SocketId, Peer>, peers': map<SocketId, Peer>,
                              ts: seq<TransportRecord>, ps: seq<ProducerRecord>, cs: seq<ConsumerRecord>,
                              next: nat, e: ConsumerRecord)
    requires Consistent(rooms, peers, ts, ps, cs, next)
    requires SameMembership(peers, peers') && e.socketId in peers && e.handle == next
    ensures Consistent(rooms, peers', ts, ps, cs + [e], next + 1)
  {
    AppendFresh(cs, e, next);
    IssuedLater(ts, next, next + 1);
    IssuedLater(ps, next, next + 1);
  }

  /** The producerclose reaction: dropping consumers keeps the tables consistent. */
  lemma DropConsumersConsistent(rooms: map<RoomName, Room>, peers: map<SocketId, Peer>,
                                ts: seq<TransportRecord>, ps: seq<ProducerRecord>, cs: seq<ConsumerRecord>,
                                next: nat, p: ConsumerRecord -> bool)
    requires Consistent(rooms, peers, ts, ps, cs, next)
    ensures Consistent(rooms, peers, ts, ps, Filter(cs, p), next)
  {
    FilterDistinct(cs, p);
    KeepIssued(cs, p, next);
    forall e | e in Filter(cs, p) ensures e.socketId in peers {
      FilterMember(cs, p, e);
    }
  }

  /** Appending a record with a freshly issued handle keeps the handles distinct. */
  lemma AppendFresh<X>(xs: seq<Entry<X>>, e: Entry<X>, next: nat)
    requires DistinctHandles(xs) && IssuedBelow(xs, next) && e.handle == next
    ensures DistinctHandles(xs + [e]) && IssuedBelow(xs + [e], next + 1)
  {
    forall i | 0 <= i < |xs| ensures (xs + [e])[i].handle != e.handle {
      assert xs[i] in xs;
    }
  }

  /** A new transport record leaves every producer on its send transport. */
  lemma ExtendTransports(ps: seq<ProducerRecord>, ts: seq<TransportRecord>, t: TransportRecord)
    requires ProducersOnSendTransports(ps, ts)
    ensures ProducersOnSendTransports(ps, ts + [t])
  {
    forall p | p in ps ensures OnSendTransport(ts + [t], p) {
      var u :| u in ts && !u.extra && u.socketId == p.socketId && u.handle == p.extra;
      assert u in ts + [t];
    }
  }

  /** Filtering keeps distinct handles distinct. */
  lemma {:induction false} FilterDistinct<X>(xs: seq<Entry<X>>, p: Entry<X> -> bool)
    requires DistinctHandles(xs)
    ensures DistinctHandles(Filter(xs, p))
    decreases |xs|
  {
    if |xs| > 0 {
      var init, last := xs[..|xs| - 1], xs[|xs| - 1];
      FilterDistinct(init, p);
      if p(last) {
        var f := Filter(init, p);
        forall i | 0 <= i < |f| ensures f[i].handle != last.handle {
          FilterMember(init, p, f[i]);
          var k :| 0 <= k < |init| && init[k] == f[i];
          assert xs[k] == f[i];
        }
      }
    }
  }

  /** Dropping the records of `s` keeps the remaining records joined once `s` leaves `peers`. */
  lemma DisconnectKeepsJoined<X>(xs: seq<Entry<X>>, peers: map<SocketId, Peer>, s: SocketId)
    requires Joined(xs, peers)
    ensures Joined(Filter(xs, NotOwnedBy(s)), peers - {s})
  {
    forall e | e in Filter(xs, NotOwnedBy(s)) ensures e.socketId in peers - {s} {
      FilterMember(xs, NotOwnedBy<X>(s), e);
    }
  }

  /** A surviving producer still finds its send transport among the surviving transports. */
  lemma DisconnectKeepsSendTransports(ps: seq<ProducerRecord>, ts: seq<TransportRecord>, s: SocketId)
    requires ProducersOnSendTransports(ps, ts)
    ensures ProducersOnSendTransports(Filter(ps, NotOwnedBy(s)), Filter(ts, NotOwnedBy(s)))
  {
    forall p | p in Filter(ps, NotOwnedBy(s)) ensures OnSendTransport(Filter(ts, NotOwnedBy(s)), p) {
      FilterMember(ps, NotOwnedBy<Id>(s), p);
      var t :| t in ts && !t.extra && t.socketId == p.socketId && t.handle == p.extra;
      FilterMember(ts, NotOwnedBy<bool>(s), t);
    }
  }

  /** Closing and dropping the records of `s` keeps the tables consistent and leaves none of `s`. */
  lemma DropConsistent(rooms: map<RoomName, Room>, peers: map<SocketId, Peer>,
                       ts: seq<TransportRecord>, ps: seq<ProducerRecord>, cs: seq<ConsumerRecord>,
                       next: nat, s: SocketId)
    requires Consistent(rooms, peers, ts, ps, cs, next)
    ensures Consistent(rooms, peers, Filter(ts, NotOwnedBy(s)), Filter(ps, NotOwnedBy(s)),
                       Filter(cs, NotOwnedBy(s)), next)
    ensures Joined(Filter(ts, NotOwnedBy(s)), peers - {s})
    ensures Joined(Filter(ps, NotOwnedBy(s)), peers - {s})
    ensures Joined(Filter(cs, NotOwnedBy(s)), peers - {s})
  {
    DisconnectKeepsJoined(ts, peers, s);
    DisconnectKeepsJoined(ps, peers, s);
    DisconnectKeepsJoined(cs, peers, s);
    FilterDistinct(ts, NotOwnedBy(s));
    FilterDistinct(ps, NotOwnedBy(s));
    FilterDistinct(cs, NotOwnedBy(s));
    KeepIssued(ts, NotOwnedBy(s), next);
    KeepIssued(ps, NotOwnedBy(s), next);
    KeepIssued(cs, NotOwnedBy(s), next);
    DisconnectKeepsSendTransports(ps, ts, s);
  }

  /**
   * Once no record belongs to `s`, deleting its peer entry and rewriting the member
   * lists of the rooms (keeping every room and its router) keeps the tables consistent.
   */
  lemma LeaveConsistent(rooms: map<RoomName, Room>, peers: map<SocketId, Peer>,
                        ts: seq<TransportRecord>, ps: seq<ProducerRecord>, cs: seq<ConsumerRecord>,
                        next: nat, s: SocketId, rooms': map<RoomName, Room>)
    requires Consistent(rooms, peers, ts, ps, cs, next)
    requires Joined(ts, peers - {s}) && Joined(ps, peers - {s}) && Joined(cs, peers - {s})
    requires rooms'.Keys == rooms.Keys
    requires forall r :: r in rooms' ==> rooms'[r].router == rooms[r].router
    ensures Consistent(rooms', peers - {s}, ts, ps, cs, next)
  {
  }

  lemma KeepIssued<X>(xs: seq<Entry<X>>, p: Entry<X> -> bool, next: nat)
    requires IssuedBelow(xs, next)
    ensures IssuedBelow(Filter(xs, p), next)
  {
    forall e | e in Filter(xs, p) ensures e.handle < next {
      FilterMember(xs, p, e);
    }
  }

  // ---------------------------------------------------------------------------
  // The transport id the consume reply reports as the remote producer's.

  /**
   * As written, consume reports the first transport of any direction owned by the
   * producer's socket.
   */
  function ReplySendTransportAsWritten(ts: seq<TransportRecord>, remote: ProducerRecord): (r: Option<Id>)
    ensures r.None? <==> forall t :: t in ts ==> t.socketId != remote.socketId
    ensures r.Some? ==> exists i :: 0 <= i < |ts| && ts[i].socketId == remote.socketId && ts[i].handle == r.value
                                   && forall j :: 0 <= j < i ==> ts[j].socketId != remote.socketId
  {
    match Find(ts, OwnedBy(remote.socketId))
    case None => None
    case Some(t) => Some(t.handle)
  }

  /** With consistent tables the lookup at 328-330 cannot fail: the producer's socket owns its send transport. */
  lemma ReplySendTransportAsWrittenDefined(ps: seq<ProducerRecord>, ts: seq<TransportRecord>, p: ProducerRecord)
    requires ProducersOnSendTransports(ps, ts) && p in ps
    ensures ReplySendTransportAsWritten(ts, p).Some?
  {
    assert OnSendTransport(ts, p);
  }

  /**
   * A socket that opened its receiving transport before its producing transport gets its
   * receiving transport reported, while the producer sits on the other one.
   */
  lemma ReplySendTransportAsWrittenMismatch()
    ensures var rooms := map["lobby" := Room(0, ["b"])];
            var peers := map["b" := Peer("lobby", [1, 2], [3], [], PeerDetails("", false))];
            var ts := [Entry("b", "lobby", 1, true), Entry("b", "lobby", 2, false)];
            var p := Entry("b", "lobby", 3, 2);
            && Consistent(rooms, peers, ts, [p], [], 4)
            && ReplySendTransportAsWritten(ts, p) == Some(1)
            && ts[0].extra && !ts[1].extra
            && ProducerSendTransport(p) == 2
  {
    var ts := [Entry("b", "lobby", 1, true), Entry("b", "lobby", 2, false)];
    var p := Entry("b", "lobby", 3, 2);
    assert ts[1] in ts;
    assert OnSendTransport(ts, p);
    assert FindIndex(ts, OwnedBy<bool>("b")) == Some(0);
  }

  /**
   * The producer's own send transport (its `sendTransPortId`): what consume captures for
   * the producer-closed, consumer-pause and consumer-resume events, and what its reply
   * evidently should report.
   */
  function ProducerSendTransport(remote: ProducerRecord): Id
  {
    remote.extra
  }

  /**
   * With consistent tables the corrected reply names a producing transport of the
   * producer's own socket, the same id the producer-closed event later carries.
   */
  lemma ReplySendTransportIsSendTransport(ps: seq<ProducerRecord>, ts: seq<TransportRecord>, id: Id)
    requires ProducersOnSendTransports(ps, ts)
    ensures match Find(ps, WithHandle(id))
            case None => true
            case Some(p) => p.handle == id
                            && exists t :: t in ts && !t.extra && t.socketId == p.socketId && t.handle == ProducerSendTransport(p)
  {
    match Find(ps, WithHandle(id))
    case None =>
    case Some(p) =>
      assert p in ps;
      assert OnSendTransport(ts, p);
  }
}
