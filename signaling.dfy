/**
 * The socket.io signalling relay. Sockets connect, join session rooms and relay
 * WebRTC offers, answers and ICE candidates to a target room; the relay never looks
 * inside the session descriptions or candidates it forwards. Every socket is also in
 * the room named by its own id, which is how an offer reaches a single peer.
 *
 * Delivery is an outbox that only grows: one entry per (recipient, message). Within
 * one broadcast, recipients are listed in connection order.
 */
module Signaling {
  import opened Common

  /** What the server emits, one constructor per event name. */
  datatype Message =
    | UserJoined(socketId: string)
    | Offer(source: string, sdp: string)
    | Answer(source: string, sdp: string)
    | IceCandidate(source: string, candidate: string)
    | UserLeft(socketId: string)

  function EventName(m: Message): string {
    match m
    case UserJoined(_) => "user-joined"
    case Offer(_, _) => "offer"
    case Answer(_, _) => "answer"
    case IceCandidate(_, _) => "ice-candidate"
    case UserLeft(_) => "user-left"
  }

  datatype Delivery = Delivery(to: string, message: Message)

  /** Whether socket `s` is in `room`, given each socket's set of joined rooms. */
  function InRoom(rooms: map<string, set<string>>, room: string): string -> bool {
    s => s in rooms && room in rooms[s]
  }

  function NotSelf(id: string): string -> bool {
    s => s != id
  }

  /** The connected sockets in `room`, in connection order. */
  function Members(connected: seq<string>, rooms: map<string, set<string>>, room: string): seq<string> {
    Filter(connected, InRoom(rooms, room))
  }

  /** One copy of `m` for each recipient, in order; the message itself is passed through untouched. */
  function Deliver(recipients: seq<string>, m: Message): (ds: seq<Delivery>)
    ensures |ds| == |recipients|
    ensures forall i :: 0 <= i < |ds| ==> ds[i] == Delivery(recipients[i], m)
    decreases |recipients|
  {
    if recipients == [] then [] else [Delivery(recipients[0], m)] + Deliver(recipients[1..], m)
  }

  /** `io.to(room).emit(m)`: every connected member of the room, the sender included. */
  function ToRoom(connected: seq<string>, rooms: map<string, set<string>>, room: string, m: Message)
    : (ds: seq<Delivery>)
    ensures forall d :: d in ds ==> d.message == m && d.to in connected && InRoom(rooms, room)(d.to)
  {
    Deliver(Members(connected, rooms, room), m)
  }

  /** `socket.to(room).emit(m)` from socket `sender`: every connected member of the room but the sender. */
  function ToRoomExcept(connected: seq<string>, rooms: map<string, set<string>>, room: string, sender: string,
                        m: Message): (ds: seq<Delivery>)
    ensures forall d :: d in ds ==> d.message == m && d.to != sender && d.to in connected && InRoom(rooms, room)(d.to)
  {
    Deliver(Filter(Members(connected, rooms, room), NotSelf(sender)), m)
  }

  /** `batch` once per registered handler set, handler sets in registration order. */
  function Repeat(batch: seq<Delivery>, k: nat): (ds: seq<Delivery>)
    ensures |ds| == k * |batch|
    decreases k
  {
    if k == 0 then [] else Repeat(batch, k - 1) + batch
  }

  /** Each connected socket is in its own room and has a handler count. */
  ghost predicate Registered(connected: seq<string>, rooms: map<string, set<string>>, handlerSets: map<string, nat>) {
    forall s :: s in connected ==> s in rooms && s in rooms[s] && s in handlerSets
  }

  /** Joining one more room and registering one more handler set keeps every socket registered. */
  lemma JoinKeepsRegistered(connected: seq<string>, rooms: map<string, set<string>>, handlerSets: map<string, nat>,
                            id: string, room: string)
    requires Registered(connected, rooms, handlerSets) && id in connected
    ensures Registered(connected, rooms[id := rooms[id] + {room}], handlerSets[id := handlerSets[id] + 1])
  {
  }

  class RelayServer {
    /** Connected socket ids, in connection order. */
    var connected: seq<string>
    /** The rooms each connected socket is in. */
    var rooms: map<string, set<string>>
    /** How many sets of offer/answer/ice-candidate handlers each socket has registered. */
    var handlerSets: map<string, nat>
    var outbox: seq<Delivery>

    /** Ids are distinct, and each connected socket is in its own room and has a handler count. */
    ghost predicate Valid()
      reads this
    {
      (forall s :: multiset(connected)[s] <= 1) && Registered(connected, rooms, handlerSets)
    }

    constructor()
      ensures Valid()
      ensures connected == [] && rooms == map[] && handlerSets == map[] && outbox == []
    {
      connected, rooms, handlerSets, outbox := [], map[], map[], [];
    }

    /** A new connection: the socket sits in its own room and has no relay handlers yet. */
    method Connect(id: string)
      requires Valid() && id !in connected
      modifies this
      ensures Valid()
      ensures connected == old(connected) + [id]
      ensures rooms == old(rooms)[id := {id}] && handlerSets == old(handlerSets)[id := 0]
      ensures outbox == old(outbox)
    {
      connected := connected + [id];
      rooms := rooms[id := {id}];
      handlerSets := handlerSets[id := 0];
    }

    /**
     * `join-session`: the socket enters the room, every other member hears `user-joined`
     * with the joiner's id, and one more set of relay handlers is registered.
     */
    method JoinSession(id: string, sessionId: string)
      requires Valid() && id in connected
      modifies this`rooms, this`handlerSets, this`outbox
      ensures Valid()
      ensures rooms == old(rooms)[id := old(rooms)[id] + {sessionId}]
      ensures handlerSets == old(handlerSets)[id := old(handlerSets)[id] + 1]
      ensures outbox == old(outbox) + ToRoomExcept(connected, rooms, sessionId, id, UserJoined(id))
    {
      JoinKeepsRegistered(connected, rooms, handlerSets, id, sessionId);
      rooms := rooms[id := rooms[id] + {sessionId}];
      outbox := outbox + ToRoomExcept(connected, rooms, sessionId, id, UserJoined(id));
      handlerSets := handlerSets[id := handlerSets[id] + 1];
    }

    /** Each registered handler set of the sending socket emits `batch` once. */
    method RunHandlers(id: string, batch: seq<Delivery>)
      requires id in handlerSets
      modifies this`outbox
      ensures outbox == old(outbox) + Repeat(batch, handlerSets[id])
    {
      var k := 0;
      while k < handlerSets[id]
        invariant k <= handlerSets[id]
        invariant outbox == old(outbox) + Repeat(batch, k)
      {
        outbox := outbox + batch;
        k := k + 1;
      }
    }

    /** `offer` from socket `id`: `{source: id, sdp}` to every member of `target`, once per handler set. */
    method RelayOffer(id: string, target: string, sdp: string)
      requires Valid() && id in connected
      modifies this`outbox
      ensures outbox == old(outbox) + Repeat(ToRoom(connected, rooms, target, Offer(id, sdp)), handlerSets[id])
    {
      RunHandlers(id, ToRoom(connected, rooms, target, Offer(id, sdp)));
    }

    /** `answer` from socket `id`: like an offer. */
    method RelayAnswer(id: string, target: string, sdp: string)
      requires Valid() && id in connected
      modifies this`outbox
      ensures outbox == old(outbox) + Repeat(ToRoom(connected, rooms, target, Answer(id, sdp)), handlerSets[id])
    {
      RunHandlers(id, ToRoom(connected, rooms, target, Answer(id, sdp)));
    }

    /** `ice-candidate` from socket `id`: sent with `socket.to`, so never to the sender itself. */
    method RelayIceCandidate(id: string, target: string, candidate: string)
      requires Valid() && id in connected
      modifies this`outbox
      ensures outbox
           == old(outbox) + Repeat(ToRoomExcept(connected, rooms, target, id, IceCandidate(id, candidate)), handlerSets[id])
    {
      RunHandlers(id, ToRoomExcept(connected, rooms, target, id, IceCandidate(id, candidate)));
    }

    /**
     * `disconnect`: the socket has already left every room and lost its handlers;
     * `user-left` goes to every socket still connected, whatever rooms they share.
     */
    method Disconnect(id: string)
      requires Valid() && id in connected
      modifies this
      ensures Valid()
      ensures connected == Filter(old(connected), NotSelf(id)) && id !in connected
      ensures rooms == old(rooms) - {id} && handlerSets == old(handlerSets) - {id}
      ensures outbox == old(outbox) + Deliver(connected, UserLeft(id))
    {
      FilterIn(connected, NotSelf(id), id);
      forall s ensures multiset(Filter(connected, NotSelf(id)))[s] <= 1 {
        FilterMultiset(connected, NotSelf(id), s);
      }
      forall s | s in Filter(connected, NotSelf(id))
        ensures s in connected && s != id
      {
        FilterIn(connected, NotSelf(id), s);
      }
      connected := Filter(connected, NotSelf(id));
      rooms := rooms - {id};
      handlerSets := handlerSets - {id};
      outbox := outbox + Deliver(connected, UserLeft(id));
    }
  }
  // ---------------------------------------------------------------------------
  // Who hears what

  /** A socket receives an `io.to(room)` broadcast exactly when it is connected and in the room. */
  lemma ToRoomReaches(connected: seq<string>, rooms: map<string, set<string>>, room: string, m: Message, s: string)
    ensures Delivery(s, m) in ToRoom(connected, rooms, room, m)
        <==> s in connected && s in rooms && room in rooms[s]
  {
    var ms := Members(connected, rooms, room);
    FilterIn(connected, InRoom(rooms, room), s);
    if s in ms {
      var i :| 0 <= i < |ms| && ms[i] == s;
      assert ToRoom(connected, rooms, room, m)[i] == Delivery(s, m);
    }
  }

  /** A socket receives a `socket.to(room)` broadcast exactly when it is connected, in the room and not the sender. */
  lemma ToRoomExceptReaches(connected: seq<string>, rooms: map<string, set<string>>, room: string, sender: string,
                            m: Message, s: string)
    ensures Delivery(s, m) in ToRoomExcept(connected, rooms, room, sender, m)
        <==> s in connected && s in rooms && room in rooms[s] && s != sender
  {
    var ms := Members(connected, rooms, room);
    var others := Filter(ms, NotSelf(sender));
    FilterIn(connected, InRoom(rooms, room), s);
    FilterIn(ms, NotSelf(sender), s);
    if s in others {
      var i :| 0 <= i < |others| && others[i] == s;
      assert ToRoomExcept(connected, rooms, room, sender, m)[i] == Delivery(s, m);
    }
  }

  /** A target room with no connected member receives nothing, and nothing is reported back. */
  lemma EmptyTargetReceivesNothing(connected: seq<string>, rooms: map<string, set<string>>, room: string, m: Message)
    requires forall s :: s in connected ==> !(s in rooms && room in rooms[s])
    ensures ToRoom(connected, rooms, room, m) == []
  {
  }

  /** Each recipient gets one copy of a broadcast per time it is listed. */
  lemma {:induction false} DeliverCount(recipients: seq<string>, m: Message, s: string)
    ensures multiset(Deliver(recipients, m))[Delivery(s, m)] == multiset(recipients)[s]
    decreases |recipients|
  {
    if recipients != [] {
      var first, rest := recipients[0], recipients[1..];
      DeliverCount(rest, m, s);
      assert recipients == [first] + rest;
      assert multiset(recipients) == multiset{first} + multiset(rest);
      assert multiset(Deliver(recipients, m)) == multiset{Delivery(first, m)} + multiset(Deliver(rest, m));
    }
  }

  /** `k` handler sets forward every delivery of a batch `k` times. */
  lemma {:induction false} RepeatCount(batch: seq<Delivery>, k: nat, d: Delivery)
    ensures multiset(Repeat(batch, k))[d] == k * multiset(batch)[d]
    decreases k
  {
    if k > 0 {
      RepeatCount(batch, k - 1, d);
      var x := multiset(batch)[d];
      assert multiset(Repeat(batch, k))[d] == (k - 1) * x + x;
      assert (k - 1) * x + x == k * x;
    }
  }

  /** After `k` joins by the sender, every member of the target room receives a relayed offer or answer exactly `k` times. */
  lemma ForwardedOncePerJoin(connected: seq<string>, rooms: map<string, set<string>>, room: string, m: Message,
                             k: nat, s: string)
    requires forall x :: multiset(connected)[x] <= 1
    requires s in connected && s in rooms && room in rooms[s]
    ensures multiset(Repeat(ToRoom(connected, rooms, room, m), k))[Delivery(s, m)] == k
  {
    RepeatCount(ToRoom(connected, rooms, room, m), k, Delivery(s, m));
    DeliverCount(Members(connected, rooms, room), m, s);
    FilterMultiset(connected, InRoom(rooms, room), s);
  }
}
