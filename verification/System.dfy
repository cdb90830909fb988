/** One transition system for the whole node: any number of connections, the persistence worker, the shutdown of the
    handler and the close of the message service, interleaved in any order. Each step is one critical section or one
    other action that the rest of the node can observe. */
module System {
  import opened Prelude
  import B = Broker
  import H = RoomHub
  import K = LimiterKeys
  import L = Lifecycle
  import P = Persistence
  import S = Subscriptions

  type ConnId = L.ConnId
  type Room = B.Room

  // ---------- connections ----------

  /** Where a connection's handler stands. From Subscribing to Recorded it holds the subscription lock, in Guarded and
      Putting the reader side of the persistence lock. */
  datatype Pc =
    | Arrived | Registered
    | Subscribing | Opened | Recorded(id: nat) | Failed
    | Joining | Counting | Reading | Replying
    | Checking(content: Bytes) | Publishing(content: Bytes)
    | Persisting(message: H.Broadcast) | Guarded(message: H.Broadcast) | Putting(message: H.Broadcast)
    | ReadDone | AwaitingWriter | Leaving | Releasing
    | Dropping(id: nat) | Unsubscribing(id: nat)
    | CountingOut | Unregistering | Signing | Gone

  /** The order in which a handler passes these points. */
  function Stage(pc: Pc): nat {
    match pc
    case Arrived => 0 case Registered => 1
    case Subscribing => 2 case Opened => 3 case Recorded(_) => 4 case Failed => 5
    case Joining => 6 case Counting => 7 case Reading => 8 case Replying => 8
    case Checking(_) => 9 case Publishing(_) => 10
    case Persisting(_) => 11 case Guarded(_) => 12 case Putting(_) => 13
    case ReadDone => 14 case AwaitingWriter => 15 case Leaving => 16 case Releasing => 17
    case Dropping(_) => 18 case Unsubscribing(_) => 19
    case CountingOut => 20 case Unregistering => 21 case Signing => 22 case Gone => 23
  }

  datatype Writer = NotStarted | Running | Ended

  /** inbox counts the frames that have arrived and not been read; mail is what the write loop sends; closed says that
      client.Close has run. */
  datatype Conn = Conn(
    user: Bytes, room: Room, ip: Bytes, pc: Pc, writer: Writer, inbox: nat, mail: H.Mailbox, closed: bool)

  /** ServeWS up to the read loop; the read and write loops; Send; ServeWS after the read loop, with the deferred calls
      last. */
  datatype Entering =
    | Register | Acquire | SubscribeFails | SubscribeOpens | RecordCloser | InsertEntry | GiveUp | Join | CountIn

  datatype Listening =
    | FrameArrives | ReadOther | ReadDanmaku(content: Bytes) | Reply(msg: H.Outbound) | ReadEnds | TakeNext

  datatype Sending =
    | RejectContent | RefuseByLimit(scope: K.Scope) | LimiterFails | Accept
    | PublishFails | Publish(id: Bytes, node: Bytes, at: int) | LockPersist | CheckClosed | PutRecord

  datatype Exiting =
    | CloseClient | WriterEnds | AwaitWriter | Leave | Release | DropCloser | CloseSubscription
    | CountOut | Unregister | SignalDone

  // ---------- the rest of the node ----------

  datatype Lock = Free | ByConn(c: ConnId) | ByClose

  /** Handler.Shutdown: the snapshot's clients are closed one by one, then it waits for the handlers. */
  datatype Shutdown = NotAsked | ClosingClients(todo: set<ConnId>) | Waiting | Returned | TimedOut

  /** MessageService.Close. In EndingOne it has made the broker forget a closer that it is about to call. */
  datatype Closing =
    | Open | Locked | Flagged | Draining | Drained
    | EndingSubscriptions(todo: set<Room>) | EndingOne(id: nat, todo: set<Room>) | ClosingBroker | Closed

  function Progress(p: Closing): nat {
    match p
    case Open => 0 case Locked => 1 case Flagged => 2 case Draining => 3 case Drained => 4
    case EndingSubscriptions(_) => 5 case EndingOne(_, _) => 5 case ClosingBroker => 6 case Closed => 7
  }

  /** The exported counters, and below them counts that only the specification keeps. */
  datatype Counters = Counters(
    active: int, accepted: nat, published: nat, invalid: nat,
    limited: nat, userLimited: nat, ipLimited: nat, roomLimited: nat, queued: nat, dropped: nat,
    sends: nat, limiterErrors: nat, publishErrors: nat, closedDrops: nat)

  /** published holds the messages that this node has put on the rooms' channels, foreign the others there: those of
      other nodes, and those whose publishing failed only on the way back. */
  datatype State = State(
    conns: map<ConnId, Conn>, registry: L.Registry, shutdown: Shutdown,
    rooms: H.Rooms<ConnId>, subMu: Lock, table: S.Table, broker: B.Subscriptions,
    persistClosed: bool, pipe: P.Pipe, closing: Closing,
    counters: Counters, published: seq<H.Broadcast>, foreign: seq<H.Broadcast>, panicked: bool)

  const NO_COUNTS := Counters(0, 0, 0, 0, 0, 0, 0, 0, 0, 0, 0, 0, 0, 0)

  function Start(batchSize: int): State {
    State(map[], L.EMPTY, NotAsked, map[], Free, map[], B.EMPTY, false, P.Fresh(batchSize), Open,
          NO_COUNTS, [], [], false)
  }

  datatype ServerEvent =
    | ShutdownBegins | CloseOne(c: ConnId) | AllClosed | ShutdownReturns | ShutdownTimesOut
    | Tick | Receive | SaveReturns(ok: bool)
    | LockWrite | SetClosed | CloseChannel | WorkersDone
    | LockSubs | EndSubscription(room: Room) | EndDropped | ClearTable | CloseBroker

  datatype Step =
    | Arrive(c: ConnId, user: Bytes, room: Room, ip: Bytes)
    | Enter(c: ConnId, entering: Entering)
    | Listen(c: ConnId, listening: Listening)
    | Send(c: ConnId, sending: Sending)
    | Exit(c: ConnId, exiting: Exiting)
    | Server(server: ServerEvent)
    | Air(message: H.Broadcast)
    | Deliver(to: Room, message: H.Broadcast)

  const MAX_CONTENT := 200

  predicate ValidContent(content: Bytes) { 0 < |content| <= MAX_CONTENT }

  function RecordOf(m: H.Broadcast): P.Record { P.Record(m.id, m.room, m.user, m.content, m.at) }

  /** Somebody holds the writer side of the persistence lock. */
  predicate WriteLocked(s: State) { s.closing.Locked? || s.closing.Flagged? }

  /** Nobody holds the reader side of the persistence lock. */
  predicate NoReaders(s: State) {
    forall c :: c in s.conns ==> !s.conns[c].pc.Guarded? && !s.conns[c].pc.Putting?
  }

  // ---------- which steps can happen ----------

  predicate CanEnter(s: State, x: Conn, e: Entering) {
    match e
    case Register => x.pc.Arrived?
    case Acquire => x.pc.Registered? && s.subMu.Free?
    case SubscribeFails => x.pc.Subscribing?
    case SubscribeOpens => x.pc.Subscribing?
    case RecordCloser => x.pc.Opened?
    case InsertEntry => x.pc.Recorded?
    case GiveUp => x.pc.Failed?
    case Join => x.pc.Joining?
    case CountIn => x.pc.Counting?
  }

  predicate CanListen(x: Conn, e: Listening) {
    match e
    case FrameArrives => !x.closed
    case ReadOther => x.pc.Reading? && x.inbox > 0
    case ReadDanmaku(_) => x.pc.Reading? && x.inbox > 0
    case Reply(msg) => x.pc.Replying? && !msg.Danmaku?
    case ReadEnds => x.pc.Reading?
    case TakeNext => x.writer.Running? && x.mail.queue != []
  }

  predicate CanSend(s: State, x: Conn, e: Sending) {
    match e
    case RejectContent => x.pc.Checking? && !ValidContent(x.pc.content)
    case RefuseByLimit(_) => x.pc.Checking? && ValidContent(x.pc.content)
    case LimiterFails => x.pc.Checking? && ValidContent(x.pc.content)
    case Accept => x.pc.Checking? && ValidContent(x.pc.content)
    case PublishFails => x.pc.Publishing?
    case Publish(_, _, _) => x.pc.Publishing?
    case LockPersist => x.pc.Persisting? && !WriteLocked(s)
    case CheckClosed => x.pc.Guarded?
    case PutRecord => x.pc.Putting?
  }

  predicate CanExit(s: State, x: Conn, e: Exiting) {
    match e
    case CloseClient => x.pc.ReadDone?
    case WriterEnds => x.writer.Running?
    case AwaitWriter => x.pc.AwaitingWriter? && x.writer.Ended?
    case Leave => x.pc.Leaving?
    case Release => x.pc.Releasing? && s.subMu.Free?
    case DropCloser => x.pc.Dropping?
    case CloseSubscription => x.pc.Unsubscribing?
    case CountOut => x.pc.CountingOut?
    case Unregister => x.pc.Unregistering?
    case SignalDone => x.pc.Signing?
  }

  predicate CanServe(s: State, e: ServerEvent) {
    match e
    case ShutdownBegins => s.shutdown.NotAsked?
    case CloseOne(c) => s.shutdown.ClosingClients? && c in s.shutdown.todo && c in s.conns
    case AllClosed => s.shutdown.ClosingClients? && s.shutdown.todo == {}
    case ShutdownReturns => s.shutdown.Waiting? && s.registry.active == 0
    case ShutdownTimesOut => s.shutdown.Waiting?
    case Tick => s.pipe.worker.Selecting?
    case Receive => P.CanReceive(s.pipe)
    case SaveReturns(_) => s.pipe.worker.Saving?
    case LockWrite => s.closing.Open? && NoReaders(s)
    case SetClosed => s.closing.Locked?
    case CloseChannel => s.closing.Flagged?
    case WorkersDone => s.closing.Draining? && s.pipe.worker.Exited?
    case LockSubs => s.closing.Drained? && s.subMu.Free?
    case EndSubscription(r) => s.closing.EndingSubscriptions? && r in s.closing.todo && r in s.table
    case EndDropped => s.closing.EndingOne?
    case ClearTable => s.closing.EndingSubscriptions? && s.closing.todo == {}
    case CloseBroker => s.closing.ClosingBroker?
  }

  /** A step of a connection's handler, its read and write loops included. */
  predicate ByHandler(t: Step) { t.Enter? || t.Listen? || t.Send? || t.Exit? }

  /** The broker runs a subscriber for the room: a registered subscription, which may handle another message even after
      it was stopped, or one that was just opened. */
  predicate Subscribed(s: State, room: Room) {
    || (exists id :: id in s.broker.rooms && s.broker.rooms[id] == room)
    || (exists c :: c in s.conns && s.conns[c].pc.Opened? && s.conns[c].room == room)
  }

  predicate Aired(s: State, m: H.Broadcast) { m in s.published || m in s.foreign }

  predicate Enabled(s: State, t: Step) {
    match t
    case Arrive(c, _, room, _) => c !in s.conns && !s.registry.closing && room != []
    case Enter(c, e) => c in s.conns && CanEnter(s, s.conns[c], e)
    case Listen(c, e) => c in s.conns && CanListen(s.conns[c], e)
    case Send(c, e) => c in s.conns && CanSend(s, s.conns[c], e)
    case Exit(c, e) => c in s.conns && CanExit(s, s.conns[c], e)
    case Server(e) => CanServe(s, e)
    case Air(m) => ValidContent(m.content)  // the other nodes run the same code
    case Deliver(room, m) => Subscribed(s, room) && Aired(s, m) && B.ChannelName(m.room) == B.ChannelName(room)
  }

  // ---------- what they do ----------

  function Limited(k: Counters, scope: K.Scope): Counters {
    var k := k.(limited := k.limited + 1);
    match scope
    case User => k.(userLimited := k.userLimited + 1)
    case IP => k.(ipLimited := k.ipLimited + 1)
    case Room => k.(roomLimited := k.roomLimited + 1)
  }

  // Each handler step is written in two parts: what it makes of the connection, and what it does to the rest.

  function EnterSelf(s: State, x: Conn, e: Entering): Conn
    requires CanEnter(s, x, e)
  {
    match e
    case Register => if s.registry.closing then x.(pc := Gone, closed := true) else x.(pc := Registered)
    case Acquire => x.(pc := if x.room in s.table then Joining else Subscribing)
    case SubscribeFails => x.(pc := Failed)
    case SubscribeOpens => x.(pc := Opened)
    case RecordCloser => x.(pc := Recorded(s.broker.subIndex + 1))
    case InsertEntry => x.(pc := Joining)
    case GiveUp => x.(pc := Unregistering, closed := true)
    case Join => x.(pc := Counting)
    case CountIn => x.(pc := Reading, writer := Running)
  }

  function EnterRest(s: State, c: ConnId, x: Conn, e: Entering): State
    requires CanEnter(s, x, e)
  {
    match e
    case Register => s.(registry := L.Register(s.registry, c))
    case Acquire =>
      if x.room in s.table then s.(table := S.AddRef(s.table, x.room)) else s.(subMu := ByConn(c))
    case SubscribeFails => s.(subMu := Free)
    case SubscribeOpens => s
    case RecordCloser => s.(broker := B.Register(s.broker, x.room))
    case InsertEntry => s.(table := S.Insert(s.table, x.room, x.pc.id), subMu := Free)
    case GiveUp => s
    case Join => s.(rooms := H.Joined(s.rooms, x.room, c))
    case CountIn => s.(counters := s.counters.(active := s.counters.active + 1))
  }

  function ListenSelf(x: Conn, e: Listening): Conn
    requires CanListen(x, e)
  {
    match e
    case FrameArrives => x.(inbox := x.inbox + 1)
    case ReadOther => x.(inbox := x.inbox - 1, pc := Replying)
    case ReadDanmaku(content) => x.(inbox := x.inbox - 1, pc := Checking(content))
    case Reply(msg) => x.(pc := Reading, mail := H.Offer(x.mail, msg))
    case ReadEnds => x.(pc := ReadDone)
    case TakeNext => x.(mail := H.Take(x.mail), writer := if x.closed then Ended else Running)  // a late write fails
  }

  function ListenRest(s: State, e: Listening): State {
    if e.ReadDanmaku? then s.(counters := s.counters.(sends := s.counters.sends + 1)) else s
  }

  function MessageOf(x: Conn, e: Sending): H.Broadcast
    requires x.pc.Publishing? && e.Publish?
  {
    H.Broadcast(e.id, x.room, x.user, x.pc.content, e.node, e.at)
  }

  function SendSelf(s: State, x: Conn, e: Sending): Conn
    requires CanSend(s, x, e)
  {
    match e
    case RejectContent => x.(pc := Replying)
    case RefuseByLimit(_) => x.(pc := Replying)
    case LimiterFails => x.(pc := Replying)
    case Accept => x.(pc := Publishing(x.pc.content))
    case PublishFails => x.(pc := Replying)
    case Publish(_, _, _) => x.(pc := Persisting(MessageOf(x, e)))
    case LockPersist => x.(pc := Guarded(x.pc.message))
    case CheckClosed => x.(pc := if s.persistClosed then Reading else Putting(x.pc.message))
    case PutRecord => if s.pipe.closed then x else x.(pc := Reading)
  }

  function SendRest(s: State, x: Conn, e: Sending): State
    requires CanSend(s, x, e)
  {
    var k := s.counters;
    match e
    case RejectContent => s.(counters := k.(invalid := k.invalid + 1))
    case RefuseByLimit(scope) => s.(counters := Limited(k, scope))
    case LimiterFails => s.(counters := k.(limiterErrors := k.limiterErrors + 1))
    case Accept => s.(counters := k.(accepted := k.accepted + 1))
    case PublishFails => s.(counters := k.(publishErrors := k.publishErrors + 1))
    case Publish(_, _, _) =>
      s.(published := s.published + [MessageOf(x, e)], counters := k.(published := k.published + 1))
    case LockPersist => s
    case CheckClosed =>
      if s.persistClosed then s.(counters := k.(dropped := k.dropped + 1, closedDrops := k.closedDrops + 1)) else s
    case PutRecord =>
      if s.pipe.closed then s.(panicked := true)  // a send on a closed channel
      else if P.HasSpace(s.pipe) then
        s.(pipe := P.Put(s.pipe, RecordOf(x.pc.message)), counters := k.(queued := k.queued + 1))
      else s.(counters := k.(dropped := k.dropped + 1))
  }

  function ExitSelf(s: State, c: ConnId, x: Conn, e: Exiting): Conn
    requires CanExit(s, x, e)
  {
    match e
    case CloseClient => x.(pc := AwaitingWriter, closed := true)
    case WriterEnds => x.(writer := Ended, closed := true)
    case AwaitWriter => x.(pc := Leaving)
    case Leave => x.(pc := Releasing)
    case Release =>
      var last := S.LastReleased(s.table, x.room);
      x.(pc := if last.Some? then Dropping(last.value) else CountingOut)
    case DropCloser => x.(pc := Unsubscribing(x.pc.id))
    case CloseSubscription => x.(pc := CountingOut)
    case CountOut => x.(pc := Unregistering)
    case Unregister => x.(pc := if c in s.registry.clients then Signing else Gone)
    case SignalDone => x.(pc := Gone)
  }

  function ExitRest(s: State, c: ConnId, x: Conn, e: Exiting): State
    requires CanExit(s, x, e)
  {
    match e
    case CloseClient => s
    case WriterEnds => s
    case AwaitWriter => s
    case Leave => s.(rooms := H.Left(s.rooms, x.room, c))
    case Release => s.(table := S.Release(s.table, x.room))
    case DropCloser => s.(broker := B.Drop(s.broker, x.pc.id))
    case CloseSubscription => s.(broker := B.Fire(s.broker, x.pc.id))
    case CountOut => s.(counters := s.counters.(active := s.counters.active - 1))
    case Unregister => s.(registry := L.Forget(s.registry, c))
    case SignalDone =>
      s.(registry := L.Done(s.registry), panicked := s.panicked || s.registry.active <= 0)  // a negative WaitGroup
  }

  /** The only thing the server's own steps do to a connection is to close it. */
  function ServedConns(s: State, e: ServerEvent): map<ConnId, Conn>
    requires CanServe(s, e)
  {
    if e.CloseOne? then s.conns[e.c := s.conns[e.c].(closed := true)] else s.conns
  }

  /** The node after a step of the server, apart from the connections. */
  function Serve(s: State, e: ServerEvent): State
    requires CanServe(s, e)
  {
    match e
    case ShutdownBegins =>
      s.(registry := L.StartClosing(s.registry), shutdown := ClosingClients(s.registry.clients))
    case CloseOne(c) => s.(shutdown := ClosingClients(s.shutdown.todo - {c}))
    case AllClosed => s.(shutdown := Waiting)
    case ShutdownReturns => s.(shutdown := Returned)
    case ShutdownTimesOut => s.(shutdown := TimedOut)
    case Tick => s.(pipe := P.Flush(s.pipe, false))
    case Receive => s.(pipe := P.Receive(s.pipe))
    case SaveReturns(ok) => s.(pipe := P.Saved(s.pipe, ok))
    case LockWrite => s.(closing := Locked)
    case SetClosed => s.(closing := Flagged, persistClosed := true)
    case CloseChannel =>
      s.(closing := Draining, pipe := P.CloseQueue(s.pipe), panicked := s.panicked || s.pipe.closed)
    case WorkersDone => s.(closing := Drained)
    case LockSubs => s.(closing := EndingSubscriptions(s.table.Keys), subMu := ByClose)
    case EndSubscription(r) =>
      var id := s.table[r].id;
      s.(closing := EndingOne(id, s.closing.todo - {r}), broker := B.Drop(s.broker, id))
    case EndDropped =>
      s.(closing := EndingSubscriptions(s.closing.todo), broker := B.Fire(s.broker, s.closing.id))
    case ClearTable => s.(closing := ClosingBroker, table := map[])
    case CloseBroker => s.(closing := Closed, broker := B.CloseAll(s.broker), subMu := Free)
  }

  /** The connection after a handler's step. */
  function Self(s: State, t: Step): Conn
    requires ByHandler(t) && Enabled(s, t)
  {
    var x := s.conns[t.c];
    match t
    case Enter(_, e) => EnterSelf(s, x, e)
    case Listen(_, e) => ListenSelf(x, e)
    case Send(_, e) => SendSelf(s, x, e)
    case Exit(c, e) => ExitSelf(s, c, x, e)
  }

  /** The node after a handler's step, apart from the connection itself. */
  function Rest(s: State, t: Step): State
    requires ByHandler(t) && Enabled(s, t)
  {
    var x := s.conns[t.c];
    match t
    case Enter(c, e) => EnterRest(s, c, x, e)
    case Listen(_, e) => ListenRest(s, e)
    case Send(_, e) => SendRest(s, x, e)
    case Exit(c, e) => ExitRest(s, c, x, e)
  }

  /** A message from the room's channel joins the queue of every member that has space. */
  function Delivered(s: State, room: Room, m: H.Broadcast): map<ConnId, Conn> {
    map c | c in s.conns ::
      if c in H.Members(s.rooms, room) then s.conns[c].(mail := H.Offer(s.conns[c].mail, H.Danmaku(m)))
      else s.conns[c]
  }

  function Newcomer(user: Bytes, room: Room, ip: Bytes): Conn {
    Conn(user, room, ip, Arrived, NotStarted, 0, H.EMPTY_MAILBOX, false)
  }

  function Next(s: State, t: Step): State
    requires Enabled(s, t)
  {
    if t.Arrive? then s.(conns := s.conns[t.c := Newcomer(t.user, t.room, t.ip)])
    else if t.Server? then Serve(s, t.server).(conns := ServedConns(s, t.server))
    else if t.Air? then s.(foreign := s.foreign + [t.message])
    else if t.Deliver? then s.(conns := Delivered(s, t.to, t.message))
    else Rest(s, t).(conns := s.conns[t.c := Self(s, t)])
  }

  /** The run of the given steps leads from s to t. */
  predicate Run(s: State, steps: seq<Step>, t: State)
    decreases |steps|
  {
    if steps == [] then t == s
    else Enabled(s, steps[0]) && Run(Next(s, steps[0]), steps[1..], t)
  }
}
