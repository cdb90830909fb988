/** The node's rooms, and the queues of the clients in them. */
module RoomHub {
  import opened Prelude
  import Broker

  type Room = Broker.Room
  type Rooms<C> = map<Room, set<C>>

  function Members<C>(rooms: Rooms<C>, room: Room): set<C> {
    if room in rooms then rooms[room] else {}
  }

  function Joined<C>(rooms: Rooms<C>, room: Room, c: C): Rooms<C> {
    rooms[room := Members(rooms, room) + {c}]
  }

  function Left<C(==)>(rooms: Rooms<C>, room: Room, c: C): Rooms<C> {
    if room !in rooms then rooms
    else if rooms[room] - {c} == {} then rooms - {room}
    else rooms[room := rooms[room] - {c}]
  }

  lemma Partition<T>(whole: set<T>, a: set<T>, b: set<T>)
    requires whole == a + b && a !! b
    ensures |whole| == |a| + |b|
  {
  }

  /** What travels between nodes. */
  datatype Broadcast = Broadcast(id: Bytes, room: Room, user: Bytes, content: Bytes, node: Bytes, at: int)

  datatype Outbound = Danmaku(message: Broadcast) | Pong | Error(reason: Bytes)

  const QUEUE_SIZE := 256

  /** A client's outgoing messages: those waiting in the channel, those the write loop has taken, and all that were
      ever accepted. */
  datatype Mailbox = Mailbox(queue: seq<Outbound>, taken: seq<Outbound>, accepted: seq<Outbound>)

  const EMPTY_MAILBOX := Mailbox([], [], [])

  /** A non-blocking send: a full channel refuses the message. */
  function Offer(b: Mailbox, msg: Outbound): Mailbox {
    if |b.queue| < QUEUE_SIZE then b.(queue := b.queue + [msg], accepted := b.accepted + [msg]) else b
  }

  function Take(b: Mailbox): Mailbox
    requires b.queue != []
  {
    b.(queue := b.queue[1..], taken := b.taken + [b.queue[0]])
  }

  /** First in, first out, without loss or repetition once accepted; bounded; and everything that was ever accepted is
      for the client's own room. */
  predicate Isolated(b: Mailbox, room: Room) {
    && b.taken + b.queue == b.accepted && |b.queue| <= QUEUE_SIZE
    && forall i :: 0 <= i < |b.accepted| && b.accepted[i].Danmaku? ==> b.accepted[i].message.room == room
  }

  lemma MailStaysIsolated(b: Mailbox, b': Mailbox, room: Room, msg: Outbound, reached: bool)
    requires Isolated(b, room) && (msg.Danmaku? ==> msg.message.room == room)
    requires reached <==> |b.queue| < 256
    requires b' == if reached then Mailbox(b.queue + [msg], b.taken, b.accepted + [msg]) else b
    ensures Isolated(b', room)
  {
  }

  class Client {
    const user: Bytes
    const room: Room
    const ip: Bytes
    var send: seq<Outbound>
    var closed: bool       // the guard against a second close
    var connCloses: nat    // closes of the underlying connection
    ghost var taken: seq<Outbound>
    ghost var accepted: seq<Outbound>

    ghost function Box(): Mailbox
      reads this
    {
      Mailbox(send, taken, accepted)
    }

    /** The mailbox is in order, and the connection closes at most once. */
    ghost predicate Valid()
      reads this
    {
      && Isolated(Box(), room)
      && connCloses == if closed then 1 else 0
    }

    constructor (user: Bytes, room: Room, ip: Bytes)
      ensures Valid() && Box() == Mailbox([], [], []) && !closed
      ensures this.user == user && this.room == room && this.ip == ip
    {
      this.user, this.room, this.ip := user, room, ip;
      send, closed, connCloses, taken, accepted := [], false, 0, [], [];
    }

    /** The message joins the end of the queue if and only if fewer than 256 are waiting. */
    method Enqueue(msg: Outbound) returns (ok: bool)
      modifies this`send, this`accepted
      ensures ok <==> |old(send)| < 256
      ensures ok ==> send == old(send) + [msg] && accepted == old(accepted) + [msg]
      ensures !ok ==> send == old(send) && accepted == old(accepted)
      ensures old(Valid()) && (msg.Danmaku? ==> msg.message.room == room) ==> Valid()
    {
      if |send| < QUEUE_SIZE {
        send := send + [msg];
        accepted := accepted + [msg];
        return true;
      }
      return false;
    }

    /** The write loop takes the oldest message. */
    method TakeNext() returns (msg: Option<Outbound>)
      modifies this`send, this`taken
      ensures msg.None? ==> old(send) == [] && Box() == old(Box())
      ensures msg.Some? ==> old(send) == [msg.value] + send && taken == old(taken) + [msg.value]
      ensures msg.Some? ==> old(send) != [] && Box() == Take(old(Box()))
      ensures old(Valid()) ==> Valid()
    {
      if send == [] {
        return None;
      }
      msg := Some(send[0]);
      taken := taken + [send[0]];
      send := send[1..];
    }

    method Close()
      modifies this`closed, this`connCloses
      ensures closed && send == old(send)
      ensures connCloses == old(connCloses) + if old(closed) then 0 else 1
      ensures old(Valid()) ==> Valid()
    {
      if !closed {
        closed := true;
        connCloses := connCloses + 1;
      }
    }
  }

  class Hub {
    var rooms: Rooms<Client>

    /** Every client sits only in the set of its own room, and no set is empty. */
    predicate Valid()
      reads this
    {
      forall r :: r in rooms ==> rooms[r] != {} && forall c :: c in rooms[r] ==> c.room == r
    }

    constructor ()
      ensures Valid() && rooms == map[]
    {
      rooms := map[];
    }

    method Join(client: Client) returns (n: nat)
      requires Valid()
      modifies this
      ensures Valid()
      ensures rooms == Joined(old(rooms), client.room, client)
      ensures forall r ::
        Members(rooms, r) == if r == client.room then Members(old(rooms), r) + {client} else Members(old(rooms), r)
      ensures n == |Members(rooms, client.room)|
    {
      if client.room !in rooms {
        rooms := rooms[client.room := {}];
      }
      rooms := rooms[client.room := rooms[client.room] + {client}];
      n := |rooms[client.room]|;
    }

    method Leave(client: Client) returns (n: nat)
      requires Valid()
      modifies this
      ensures Valid()
      ensures rooms == Left(old(rooms), client.room, client)
      ensures forall r ::
        Members(rooms, r) == if r == client.room then Members(old(rooms), r) - {client} else Members(old(rooms), r)
      ensures n == |Members(rooms, client.room)|
    {
      if client.room !in rooms {
        return 0;
      }
      rooms := rooms[client.room := rooms[client.room] - {client}];
      if |rooms[client.room]| == 0 {
        rooms := rooms - {client.room};
        return 0;
      }
      n := |rooms[client.room]|;
    }

    method RoomSize(room: Room) returns (n: nat)
      ensures n == |Members(rooms, room)|
    {
      n := if room in rooms then |rooms[room]| else 0;
    }

    /** The message joins the end of the queue of exactly the members where fewer than 256 are waiting; the result is
        their number. */
    method BroadcastLocal(room: Room, msg: Outbound) returns (count: nat, ghost reached: set<Client>)
      modifies Members(rooms, room)`send, Members(rooms, room)`accepted
      ensures forall c :: c in reached <==> c in Members(rooms, room) && |old(c.send)| < 256
      ensures forall c :: c in reached ==>
        c.send == old(c.send) + [msg] && c.accepted == old(c.accepted) + [msg]
      ensures forall c :: c in Members(rooms, room) && c !in reached ==>
        c.send == old(c.send) && c.accepted == old(c.accepted)
      ensures count == |reached|
    {
      hide Offer;
      count := 0;
      var todo := Members(rooms, room);
      reached := {};
      while todo != {}
        invariant todo <= Members(rooms, room) && reached <= Members(rooms, room) - todo
        invariant forall c :: c in Members(rooms, room) - todo ==> (c in reached <==> |old(c.send)| < 256)
        invariant count == |reached|
        invariant forall c :: c in Members(rooms, room) && c !in reached ==>
          c.send == old(c.send) && c.accepted == old(c.accepted)
        invariant forall c :: c in reached ==>
          c.send == old(c.send) + [msg] && c.accepted == old(c.accepted) + [msg]
        decreases todo
      {
        var client :| client in todo;
        var ok := client.Enqueue(msg);
        if ok {
          count := count + 1;
          reached := reached + {client};
        }
        todo := todo - {client};
      }
    }

    /** What a room's subscriber does with a message from its channel. Because channels and rooms correspond, the
        message is one for this room, so every queue keeps to its own room. */
    method Deliver(room: Room, message: Broadcast)
      returns (count: nat, dropped: int, ghost reached: set<Client>)
      requires Valid()
      requires Broker.ChannelName(message.room) == Broker.ChannelName(room)
      modifies Members(rooms, room)`send, Members(rooms, room)`accepted
      ensures forall c :: c in Members(rooms, room) && old(c.Valid()) ==> c.Valid()
      ensures forall c :: c in reached <==> c in Members(rooms, room) && |old(c.send)| < 256
      ensures forall c :: c in reached ==>
        c.send == old(c.send) + [Danmaku(message)] && c.accepted == old(c.accepted) + [Danmaku(message)]
      ensures forall c :: c in Members(rooms, room) && c !in reached ==>
        c.send == old(c.send) && c.accepted == old(c.accepted)
      ensures count == |reached| && count + dropped == |Members(rooms, room)|
    {
      Broker.ChannelsSeparate(message.room, room);
      ghost var members := Members(rooms, room);
      var localClients := RoomSize(room);
      count, reached := BroadcastLocal(room, Danmaku(message));
      Partition(members, reached, members - reached);
      dropped := localClients - count;
      forall c | c in members && old(c.Valid())
        ensures c.Valid()
      {
        MailStaysIsolated(old(c.Box()), c.Box(), room, Danmaku(message), c in reached);
      }
    }
  }
}
