/** What the invariant means for the whole node: subscriptions, messages, closing and shutting down. */
module SystemTheorems {
  import opened Prelude
  import opened System
  import opened SystemInvariant

  /** s is reached by some run of a node whose worker was started with this batch size. */
  ghost predicate Reachable(batchSize: int, s: State) {
    exists steps :: Run(Start(batchSize), steps, s)
  }

  lemma ReachableInv(batchSize: int, s: State)
    requires Reachable(batchSize, s)
    ensures Inv(s)
  {
    hide Inv, Run, Start;
    var steps :| Run(Start(batchSize), steps, s);
    StartInv(batchSize);
    InvAlways(Start(batchSize), steps, s);
  }

  // ---------- subscriptions ----------

  /** The subscriptions registered for a room and not closed. */
  ghost function LiveIds(s: State, r: Room): set<nat> {
    set id | id in s.broker.rooms && s.broker.rooms[id] == r && id !in s.broker.fired
  }

  /** Releases that removed the room's entry and have not closed its subscription yet. */
  ghost function PendingReleases(s: State, r: Room): set<ConnId> { Where(s.conns, Stretch(18, 19, Some(r))) }

  /** Acquires that have opened a subscription and not entered it into the table yet. */
  ghost function OpeningAcquires(s: State, r: Room): set<ConnId> { Where(s.conns, Stretch(3, 4, Some(r))) }

  /** Every live subscription of the room at Redis: the registered ones, and one that was just opened. */
  ghost function LiveCount(s: State, r: Room): nat {
    |LiveIds(s, r)| + |Where(s.conns, Stretch(3, 3, Some(r)))|
  }

  /** The hub's members of a room are always the connections that joined it and have not left. Until the service is
      closed they never outnumber the references, the references are exactly the connections between a successful
      Acquire and their Release, an entry exists exactly while there are any, and its subscription is one made for this
      room that nobody has begun to end; so every joined client's room is subscribed. */
  lemma RoomsAreSubscribed(batchSize: int, s: State, r: Room)
    requires Reachable(batchSize, s)
    ensures H.Members(s.rooms, r) == Where(s.conns, Inside(r))
    ensures Progress(s.closing) < 5 ==>
      && |H.Members(s.rooms, r)| <= Refs(s.table, r) == |Where(s.conns, Holding(r))|
      && (r in s.table <==> Where(s.conns, Holding(r)) != {})
      && (r in s.table ==> s.table[r].id in s.broker.closers && s.table[r].id in LiveIds(s, r))
      && (H.Members(s.rooms, r) != {} ==> r in s.table)
  {
    ReachableInv(batchSize, s);
    assert Where(s.conns, Inside(r)) <= Where(s.conns, Holding(r));
    Subset(Where(s.conns, Inside(r)), Where(s.conns, Holding(r)));
  }

  lemma Subset<T>(a: set<T>, b: set<T>)
    requires a <= b
    ensures |a| <= |b|
  {
    assert b == a + (b - a);
  }

  /** The connections of the room that have a registered subscription in hand. */
  ghost function HandsOf(s: State, r: Room): set<ConnId> {
    set c | c in s.conns && s.conns[c].room == r && IdOf(s.conns[c].pc).Some?
  }

  ghost function IdsOf(s: State, cs: set<ConnId>): set<nat>
    requires forall c :: c in cs ==> c in s.conns && IdOf(s.conns[c].pc).Some?
  {
    set c | c in cs :: IdOf(s.conns[c].pc).value
  }

  lemma {:induction false} AsManyIds(s: State, cs: set<ConnId>)
    requires forall c :: c in cs ==> c in s.conns && IdOf(s.conns[c].pc).Some?
    requires forall c, d :: c in cs && d in cs && c != d ==> IdOf(s.conns[c].pc) != IdOf(s.conns[d].pc)
    ensures |IdsOf(s, cs)| == |cs|
    decreases cs
  {
    if cs != {} {
      var c :| c in cs;
      AsManyIds(s, cs - {c});
      assert IdsOf(s, cs) == IdsOf(s, cs - {c}) + {IdOf(s.conns[c].pc).value};
    }
  }

  lemma LiveIdsAre(s: State, r: Room)
    requires OwnersInv(s) && IdsInv(s)
    ensures LiveIds(s, r) == (if r in s.table then {s.table[r].id} else {}) + IdsOf(s, HandsOf(s, r))
    ensures r in s.table ==> s.table[r].id !in IdsOf(s, HandsOf(s, r))
  {
  }

  /** Exact accounting over all interleavings, although Release leaves the lock before it unsubscribes: the live
      subscriptions of a room are its entry's, one for each release that still has to close its own, and one for an
      acquire that has the lock and has opened one. */
  lemma SubscriptionAccounting(batchSize: int, s: State, r: Room)
    requires Reachable(batchSize, s) && Progress(s.closing) < 5
    ensures LiveCount(s, r) == (if r in s.table then 1 else 0) + |PendingReleases(s, r)| + |OpeningAcquires(s, r)|
    ensures |OpeningAcquires(s, r)| <= 1
    ensures !s.subMu.ByConn? ==> OpeningAcquires(s, r) == {}
    ensures OpeningAcquires(s, r) != {} ==> r !in s.table
  {
    ReachableInv(batchSize, s);
    Accounting(s, r);
    OpeningUnderLock(s, r);
  }

  lemma HandsCount(s: State, r: Room)
    requires OwnersInv(s)
    ensures |IdsOf(s, HandsOf(s, r))| == |HandsOf(s, r)|
  {
    AsManyIds(s, HandsOf(s, r));
  }

  lemma Accounting(s: State, r: Room)
    requires OwnersInv(s) && IdsInv(s)
    ensures LiveCount(s, r) == (if r in s.table then 1 else 0) + |PendingReleases(s, r)| + |OpeningAcquires(s, r)|
  {
    hide OwnersInv, IdsInv, IdsOf, LiveIds;
    LiveIdsAre(s, r);
    HandsCount(s, r);
    HandsSplit(s, r);
    if r in s.table {
      H.Partition(LiveIds(s, r), {s.table[r].id}, IdsOf(s, HandsOf(s, r)));
    } else {
      assert LiveIds(s, r) == IdsOf(s, HandsOf(s, r));
    }
  }

  lemma HandsSplit(s: State, r: Room)
    ensures |HandsOf(s, r)| + |Where(s.conns, Stretch(3, 3, Some(r)))|
         == |PendingReleases(s, r)| + |OpeningAcquires(s, r)|
  {
    hide HandsOf, Where;
    var recorded := Where(s.conns, Stretch(4, 4, Some(r)));
    HandsParts(s, r);
    H.Partition(HandsOf(s, r), PendingReleases(s, r), recorded);
    WhereSplit(s.conns, 3, 3, 4, Some(r));
  }

  lemma HandsParts(s: State, r: Room)
    ensures
      var recorded := Where(s.conns, Stretch(4, 4, Some(r)));
      HandsOf(s, r) == PendingReleases(s, r) + recorded && PendingReleases(s, r) !! recorded
  {
  }

  lemma WhereSplit(conns: map<ConnId, Conn>, first: nat, mid: nat, last: nat, r: Option<Room>)
    requires first <= mid <= last
    ensures |Where(conns, Stretch(first, last, r))|
         == |Where(conns, Stretch(first, mid, r))| + |Where(conns, Stretch(mid + 1, last, r))|
  {
    hide Stage;
    H.Partition(Where(conns, Stretch(first, last, r)),
                Where(conns, Stretch(first, mid, r)), Where(conns, Stretch(mid + 1, last, r)));
  }

  lemma OpeningUnderLock(s: State, r: Room)
    requires LockInv(s)
    ensures |OpeningAcquires(s, r)| <= 1
    ensures !s.subMu.ByConn? ==> OpeningAcquires(s, r) == {}
    ensures OpeningAcquires(s, r) != {} ==> r !in s.table
  {
    forall c | c in OpeningAcquires(s, r)
      ensures s.subMu == ByConn(c)
    {
      assert Subscriber(s.conns[c]);
    }
    if s.subMu.ByConn? {
      assert OpeningAcquires(s, r) <= {s.subMu.c};
      Subset(OpeningAcquires(s, r), {s.subMu.c});
    }
  }

  /** Each client sits in the set of its own room only, and no set is empty. What the write loop took and what is
      waiting for it, at most 256 messages, are together exactly what the client's queue accepted, in order; and
      every chat message among these has valid content and was published for this client's room. This holds
      whatever the order of joins, leaves, subscriptions, deliveries, replies and writes. */
  lemma RoomIsolation(batchSize: int, s: State, c: ConnId)
    requires Reachable(batchSize, s) && c in s.conns
    ensures forall r :: c in H.Members(s.rooms, r) ==> r == s.conns[c].room
    ensures forall r :: r in s.rooms ==> s.rooms[r] != {}
    ensures
      var x := s.conns[c];
      && x.mail.taken + x.mail.queue == x.mail.accepted && |x.mail.queue| <= 256
      && forall m :: H.Danmaku(m) in x.mail.accepted ==>
        m.room == x.room && (m in s.published || m in s.foreign) && 0 < |m.content| <= 200
  {
    ReachableInv(batchSize, s);
    assert RoomsInv(s) && QueuesInv(s) && MessagesInv(s);
    hide Inv;
  }

  /** One delivery puts the message at the end of the queue of exactly those clients that joined the room, have not
      left it and have fewer than 256 messages waiting, and does nothing else. */
  lemma DeliveryIsExact(batchSize: int, s: State, room: Room, m: H.Broadcast, c: ConnId)
    requires Reachable(batchSize, s) && Enabled(s, Deliver(room, m)) && c in s.conns
    ensures
      var t, x := Next(s, Deliver(room, m)), s.conns[c];
      && t == s.(conns := t.conns) && t.conns.Keys == s.conns.Keys
      && t.conns[c] ==
           if x.room == room && 7 <= Stage(x.pc) <= 16 && |x.mail.queue| < 256
           then x.(mail := H.Mailbox(x.mail.queue + [H.Danmaku(m)], x.mail.taken, x.mail.accepted + [H.Danmaku(m)]))
           else x
  {
    ReachableInv(batchSize, s);
    assert RoomsInv(s);
    hide Inv, Subscribed;
    assert c in H.Members(s.rooms, room) <==> c in Where(s.conns, Inside(room));
  }

  /** While a client is joined, until the service is closed, each message that is on its room's channel can be
      delivered to it. */
  lemma DeliveryIsPossible(batchSize: int, s: State, c: ConnId, m: H.Broadcast)
    requires Reachable(batchSize, s) && Progress(s.closing) < 5
    requires c in s.conns && 7 <= Stage(s.conns[c].pc) <= 16
    requires (m in s.published || m in s.foreign) && m.room == s.conns[c].room
    ensures Enabled(s, Deliver(m.room, m))
  {
    ReachableInv(batchSize, s);
    JoinedIsSubscribed(s, c);
  }

  lemma JoinedIsSubscribed(s: State, c: ConnId)
    requires Inv(s) && Progress(s.closing) < 5 && c in s.conns && 7 <= Stage(s.conns[c].pc) <= 16
    ensures Subscribed(s, s.conns[c].room)
  {
    assert RefsInv(s) && OwnersInv(s);
    hide Inv, RefsInv;
    HolderHasEntry(s, c);
    assert s.table[s.conns[c].room].id in s.broker.rooms;
  }

  /** The broker's protocol in every reachable state, before, during and after Close: every registered subscription is
      in exactly one of three places (it has a closer, a handler or Close is about to close it, or it has been closed),
      and none is ever closed twice. */
  lemma ClosersAreExact(batchSize: int, s: State, id: nat)
    requires Reachable(batchSize, s)
    ensures id in s.broker.rooms <==> 1 <= id <= s.broker.subIndex
    ensures id in s.broker.rooms ==>
      && id in s.broker.closes && s.broker.closes[id] == (if id in s.broker.fired then 1 else 0)
      && !(id in s.broker.closers && id in s.broker.fired)
      && (id !in s.broker.closers && id !in s.broker.fired ==>
            ByCloser(s.closing, id) || exists c :: c in s.conns && s.conns[c].pc == Unsubscribing(id))
  {
    ReachableInv(batchSize, s);
    BrokerInv(s);
    hide Inv;
    assert id in s.broker.rooms && id !in s.broker.closers && id !in s.broker.fired ==> id in B.Pending(s.broker);
  }

  lemma BrokerInv(s: State)
    requires Inv(s)
    ensures B.Valid(s.broker) && PendingInv(s)
  {
  }

  /** Once Close has closed the broker, every subscription registered until then has been closed exactly once, now and
      in every later state, except while a handler is about to close it. */
  lemma CloseEndsSubscriptions(batchSize: int, s: State, id: nat, later: seq<Step>, t: State)
    requires Reachable(batchSize, s) && s.closing.ClosingBroker? && id in s.broker.rooms
    requires Run(Next(s, Server(CloseBroker)), later, t)
    ensures id in t.broker.closes && id !in t.broker.closers
    ensures t.broker.closes[id] == 1 || exists c :: c in t.conns && t.conns[c].pc == Unsubscribing(id)
  {
    CloseBrokerStep(s);
    hide *;
    ReachableInv(batchSize, s);
    InvKept(s, Server(CloseBroker));
    BrokerInv(s);
    B.CloseAllValid(s.broker);
    ForgottenStays(Next(s, Server(CloseBroker)), id, later, t);
    BrokerInv(t);
    ForgottenIsClosed(t, id);
  }

  lemma CloseBrokerStep(s: State)
    requires s.closing.ClosingBroker?
    ensures Enabled(s, Server(CloseBroker))
    ensures
      var t := Next(s, Server(CloseBroker));
      t.broker == B.CloseAll(s.broker) && t.broker.rooms == s.broker.rooms && Progress(t.closing) == 7
  {
  }

  lemma ForgottenIsClosed(s: State, id: nat)
    requires B.Valid(s.broker) && PendingInv(s) && Progress(s.closing) == 7
    requires id in s.broker.rooms && id !in s.broker.closers
    ensures id in s.broker.closes
    ensures s.broker.closes[id] == 1 || exists c :: c in s.conns && s.conns[c].pc == Unsubscribing(id)
  {
    assert id in B.Pending(s.broker) || id in s.broker.fired;
  }

  /** A closer that the broker has forgotten never comes back. */
  lemma {:induction false} ForgottenStays(s: State, id: nat, later: seq<Step>, t: State)
    requires Inv(s) && Progress(s.closing) == 7 && Run(s, later, t)
    requires id in s.broker.rooms && id !in s.broker.closers
    ensures Inv(t) && Progress(t.closing) == 7 && id in t.broker.rooms && id !in t.broker.closers
    decreases |later|
  {
    hide Inv, Next, Enabled, Progress;
    if later != [] {
      OnlyNewClosers(s, later[0], id);
      InvKept(s, later[0]);
      ProgressAtMost(Next(s, later[0]).closing);
      ForgottenStays(Next(s, later[0]), id, later[1..], t);
    }
  }

  lemma ProgressAtMost(p: Closing)
    ensures Progress(p) <= 7
  {
  }

  lemma OnlyNewClosers(s: State, t: Step, id: nat)
    requires Inv(s) && Enabled(s, t) && id in s.broker.rooms && id !in s.broker.closers
    ensures id in Next(s, t).broker.rooms && id !in Next(s, t).broker.closers
    ensures Progress(s.closing) <= Progress(Next(s, t).closing)
  {
    assert IdsInv(s) && LockInv(s);
    NextIs(s, t);
    hide Inv, IdsInv, LockInv, Next, Enabled, Self, Rest, Serve, ServedConns, CanServe, Progress, B.Valid;
    ProgressGrows(s, t);
    if ByHandler(t) {
      MoveIds(s, t);
    } else if t.Server? {
      ServeGrows(s, t.server);
    }
  }

  // ---------- messages ----------

  /** Calls of Send that are under way. */
  ghost function SendsUnderWay(s: State): set<ConnId> { Where(s.conns, Stretch(9, 13, None)) }

  /** With no Send under way every message is accounted for, each stage by the next. What was enqueued are records of
      published messages with valid content, none of them more often than it was published. */
  lemma MessagesAreConserved(batchSize: int, s: State)
    requires Reachable(batchSize, s) && SendsUnderWay(s) == {}
    ensures
      var k := s.counters;
      && k.sends == k.invalid + k.limited + k.limiterErrors + k.accepted
      && k.accepted == k.published + k.publishErrors
      && k.published == k.queued + k.dropped
      && k.limited == k.userLimited + k.ipLimited + k.roomLimited
      && k.queued == |s.pipe.enqueued| && k.published == |s.published|
    ensures forall rec :: rec in s.pipe.enqueued ==>
      0 < |rec.content| <= 200 && exists m :: m in s.published && Describes(rec, m)
    ensures multiset(s.pipe.enqueued) <= multiset(Records(s.published))
  {
    ReachableInv(batchSize, s);
    EnqueuedOnce(s);
    hide OnceInv, Records;
    assert Where(s.conns, CHECKING) <= SendsUnderWay(s);
    assert Where(s.conns, PUBLISHING) <= SendsUnderWay(s);
    assert Where(s.conns, PERSISTING) <= SendsUnderWay(s);
  }

  lemma EnqueuedOnce(s: State)
    requires Inv(s)
    ensures multiset(s.pipe.enqueued) <= multiset(Records(s.published))
  {
    assert OnceInv(s);
    hide Inv, Records;
    forall r
      ensures multiset(s.pipe.enqueued)[r] <= multiset(Records(s.published))[r]
    {
      assert |Carrying(s.conns, r)| >= 0;
    }
  }

  /** No run sends on a closed channel, closes one twice, or drives the WaitGroup below zero. */
  lemma NeverPanics(batchSize: int, s: State)
    requires Reachable(batchSize, s)
    ensures !s.panicked
    ensures s.registry.active == |s.registry.clients| + |Where(s.conns, Stretch(22, 22, None))|
  {
    ReachableInv(batchSize, s);
    assert RegistryInv(s);
    hide Inv, Where;
    WhereSplit(s.conns, 1, 21, 22, None);
  }

  /** Once the handler is closing, nobody is registered any more: clients only go, and the WaitGroup only falls. */
  lemma {:induction false} NoAddAfterClosing(s: State, steps: seq<Step>, t: State)
    requires Inv(s) && s.registry.closing && Run(s, steps, t)
    ensures t.registry.closing && t.registry.clients <= s.registry.clients && t.registry.active <= s.registry.active
    decreases |steps|
  {
    hide Inv, Next, Enabled;
    if steps != [] {
      RegistryFalls(s, steps[0]);
      InvKept(s, steps[0]);
      NoAddAfterClosing(Next(s, steps[0]), steps[1..], t);
    }
  }

  lemma RegistryFalls(s: State, t: Step)
    requires Inv(s) && s.registry.closing && Enabled(s, t)
    ensures
      var s' := Next(s, t);
      && s'.registry.closing && s'.registry.clients <= s.registry.clients && s'.registry.active <= s.registry.active
  {
    assert RegistryInv(s);
    NextIs(s, t);
    hide Inv, RegistryInv, Next, Enabled, Self, Rest, Serve, ServedConns, CanServe;
    if ByHandler(t) {
      RegistryMoves(s, t);
    } else if t.Server? {
      ServeFrame(s, t.server);
    }
  }

  lemma RegistryMoves(s: State, t: Step)
    requires RegistryInv(s) && s.registry.closing && ByHandler(t) && Enabled(s, t)
    ensures
      var r := Rest(s, t).registry;
      r.closing && r.clients <= s.registry.clients && r.active <= s.registry.active
  {
    hide Self, Rest, Where, On, CanEnter, CanListen, CanSend, CanExit;
    MoveRegistry(s, t);
    MoveShutdown(s, t);
    InWhere(s.conns, t.c, SERVED);
  }

  // ---------- closing the service ----------

  /** In order and without loss: what SaveBatch was given, what is waiting in the buffer, and what is waiting in the
      queue make up exactly what was enqueued. The batch size is the configured one, or 50 if that is not positive. */
  lemma PersistenceConserves(batchSize: int, s: State)
    requires Reachable(batchSize, s)
    ensures Flatten(s.pipe.handed) + P.Unhanded(s.pipe) + s.pipe.queue == s.pipe.enqueued
    ensures forall i :: 0 <= i < |s.pipe.handed| ==> 1 <= |s.pipe.handed[i]| <= s.pipe.batchSize
    ensures |s.pipe.queue| <= 4096 && |s.pipe.batch| <= s.pipe.batchSize
    ensures s.pipe.batchSize == if batchSize <= 0 then 50 else batchSize
  {
    ReachableInv(batchSize, s);
    hide Inv, Run;
    var steps :| Run(Start(batchSize), steps, s);
    BatchSizeStays(Start(batchSize), steps, s);
  }

  lemma {:induction false} BatchSizeStays(s: State, steps: seq<Step>, t: State)
    requires Run(s, steps, t)
    ensures t.pipe.batchSize == s.pipe.batchSize
    decreases |steps|
  {
    hide Next, Enabled;
    if steps != [] {
      BatchSizeKept(s, steps[0]);
      BatchSizeStays(Next(s, steps[0]), steps[1..], t);
    }
  }

  lemma BatchSizeKept(s: State, t: Step)
    requires Enabled(s, t)
    ensures Next(s, t).pipe.batchSize == s.pipe.batchSize
  {
    hide Self, EnterRest, SendRest, ExitRest, Serve, CanEnter, CanListen, CanSend, CanExit, CanServe;
    match t
    case Enter(c, e) => EnterRestFrame(s, c, s.conns[c], e);
    case Listen(_, _) =>
    case Send(c, e) => SendBatchSize(s, s.conns[c], e);
    case Exit(c, e) => ExitRestFrame(s, c, s.conns[c], e);
    case Server(e) => ServeBatchSize(s, e);
    case Arrive(_, _, _, _) =>
    case Air(_) =>
    case Deliver(_, _) =>
  }

  lemma SendBatchSize(s: State, x: Conn, e: Sending)
    requires CanSend(s, x, e)
    ensures SendRest(s, x, e).pipe.batchSize == s.pipe.batchSize
  {
  }

  lemma ServeBatchSize(s: State, e: ServerEvent)
    requires CanServe(s, e)
    ensures Serve(s, e).pipe.batchSize == s.pipe.batchSize
  {
    hide B.Fire, B.Drop, B.CloseAll;
  }

  /** Once Close has seen the worker go, nothing is waiting any more, every enqueued record was handed to SaveBatch
      exactly once and in order, and this stays so. */
  lemma CloseDrains(batchSize: int, s: State, later: seq<Step>, t: State)
    requires Reachable(batchSize, s) && Progress(s.closing) >= 4
    requires Run(s, later, t)
    ensures s.pipe.queue == [] && s.pipe.batch == [] && Flatten(s.pipe.handed) == s.pipe.enqueued
    ensures |s.pipe.enqueued| == s.counters.queued
    ensures t.pipe == s.pipe
  {
    hide Run;
    ReachableInv(batchSize, s);
    PipeRests(s, later, t);
  }

  lemma {:induction false} PipeRests(s: State, later: seq<Step>, t: State)
    requires Inv(s) && Progress(s.closing) >= 4 && Run(s, later, t)
    ensures t.pipe == s.pipe
    decreases |later|
  {
    hide Inv, Next, Enabled, Progress;
    if later != [] {
      PipeRestsStep(s, later[0]);
      InvKept(s, later[0]);
      PipeRests(Next(s, later[0]), later[1..], t);
    }
  }

  lemma PipeRestsStep(s: State, t: Step)
    requires Inv(s) && Progress(s.closing) >= 4 && Enabled(s, t)
    ensures Next(s, t).pipe == s.pipe && Progress(Next(s, t).closing) >= 4
  {
    AfterDrain(s);
    assert LockInv(s);
    NextIs(s, t);
    hide Inv, LockInv, Next, Enabled, Self, Rest, Serve, ServedConns, CanServe, Progress;
    ProgressGrows(s, t);
    if ByHandler(t) {
      MovePipe(s, t);
    } else if t.Server? {
      ServeIdle(s, t.server);
    }
  }

  /** On a closed channel no handler's step touches the pipeline. */
  lemma MovePipe(s: State, t: Step)
    requires LockInv(s) && s.pipe.closed && ByHandler(t) && Enabled(s, t)
    ensures Rest(s, t).pipe == s.pipe
  {
    hide LockInv, EnterRest, ListenRest, SendRest, ExitRest, CanEnter, CanListen, CanExit;
    match t
    case Enter(c, e) => EnterRestFrame(s, c, s.conns[c], e);
    case Listen(_, e) => ListenPipe(s, e);
    case Send(c, e) =>
      if e.PutRecord? {
        ChannelOpen(s, c);
      }
      SendPipe(s, s.conns[c], e);
    case Exit(c, e) => ExitRestFrame(s, c, s.conns[c], e);
  }

  lemma SendPipe(s: State, x: Conn, e: Sending)
    requires CanSend(s, x, e) && !e.PutRecord?
    ensures SendRest(s, x, e).pipe == s.pipe
  {
  }

  lemma AfterDrain(s: State)
    requires Inv(s) && Progress(s.closing) >= 4
    ensures s.pipe.closed && s.pipe.worker.Exited?
  {
  }

  lemma ServeIdle(s: State, e: ServerEvent)
    requires CanServe(s, e) && s.pipe.worker.Exited? && s.pipe.closed && Progress(s.closing) >= 4
    ensures Serve(s, e).pipe == s.pipe
  {
  }

  /** How many of the steps are receives of the worker. */
  function Receives(steps: seq<Step>): nat {
    if steps == [] then 0
    else (if steps[0].Server? && steps[0].server.Receive? then 1 else 0) + Receives(steps[1..])
  }

  /** After the channel is closed the worker exits after exactly one receive per waiting record and one more, however
      its receives, ticks and writes are interleaved with everything else. */
  lemma {:induction false} WorkerExitsOnTime(s: State, steps: seq<Step>, t: State)
    requires Inv(s) && s.pipe.closed && Run(s, steps, t)
    ensures Receives(steps) + P.ReceivesLeft(t.pipe) == P.ReceivesLeft(s.pipe)
    ensures t.pipe.worker.Exited? && s.pipe.worker.Selecting? ==> Receives(steps) == |s.pipe.queue| + 1
    decreases |steps|
  {
    hide Inv, Next, Enabled;
    if steps != [] {
      ReceiveStep(s, steps[0]);
      InvKept(s, steps[0]);
      WorkerExitsOnTime(Next(s, steps[0]), steps[1..], t);
    }
  }

  lemma ReceiveStep(s: State, t: Step)
    requires Inv(s) && s.pipe.closed && Enabled(s, t)
    ensures Next(s, t).pipe.closed
    ensures P.ReceivesLeft(Next(s, t).pipe)
         == P.ReceivesLeft(s.pipe) - if t.Server? && t.server.Receive? then 1 else 0
  {
    assert LockInv(s);
    NextIs(s, t);
    hide Inv, LockInv, Next, Enabled, Self, Rest, Serve, ServedConns, CanServe, P.ReceivesLeft;
    if ByHandler(t) {
      MovePipe(s, t);
    } else if t.Server? {
      ServeReceives(s, t.server);
    }
  }

  lemma ServeReceives(s: State, e: ServerEvent)
    requires CanServe(s, e) && s.pipe.closed
    ensures Serve(s, e).pipe.closed
    ensures P.ReceivesLeft(Serve(s, e).pipe) == P.ReceivesLeft(s.pipe) - if e.Receive? then 1 else 0
  {
    hide B.Fire, B.Drop, B.CloseAll;
  }

  // ---------- each record and each slice ----------

  /** A published message that reaches the queue is counted and put at its end, field by field, if fewer than 4096
      records are waiting there; otherwise it is counted as dropped and the pipeline stays as it was. */
  lemma PutIsExact(batchSize: int, s: State, c: ConnId)
    requires Reachable(batchSize, s) && Enabled(s, Send(c, PutRecord))
    ensures
      var t, m := Next(s, Send(c, PutRecord)), s.conns[c].pc.message;
      var r := P.Record(m.id, m.room, m.user, m.content, m.at);
      if |s.pipe.queue| < 4096 then
        && t.pipe == s.pipe.(queue := s.pipe.queue + [r], enqueued := s.pipe.enqueued + [r])
        && t.counters == s.counters.(queued := s.counters.queued + 1)
      else t.pipe == s.pipe && t.counters == s.counters.(dropped := s.counters.dropped + 1)
  {
    ReachableInv(batchSize, s);
    ChannelOpen(s, c);
    PutRecordIs(s, s.conns[c]);
    NextIs(s, Send(c, PutRecord));
    hide Inv, Next, SendRest;
  }

  lemma PutRecordIs(s: State, x: Conn)
    requires CanSend(s, x, PutRecord) && !s.pipe.closed
    ensures
      var r, m := SendRest(s, x, PutRecord), x.pc.message;
      var rec := P.Record(m.id, m.room, m.user, m.content, m.at);
      if |s.pipe.queue| < 4096 then
        && r.pipe == s.pipe.(queue := s.pipe.queue + [rec], enqueued := s.pipe.enqueued + [rec])
        && r.counters == s.counters.(queued := s.counters.queued + 1)
      else r.pipe == s.pipe && r.counters == s.counters.(dropped := s.counters.dropped + 1)
  {
  }

  function Ticks(steps: seq<Step>): nat {
    if steps == [] then 0 else (if steps[0] == Server(Tick) then 1 else 0) + Ticks(steps[1..])
  }

  /** How many of the slices are shorter than the batch size. */
  function Short(handed: seq<seq<P.Record>>, size: nat): nat {
    if handed == [] then 0
    else Short(handed[..|handed| - 1], size) + if |handed[|handed| - 1]| < size then 1 else 0
  }

  /** The worker has seen the closed channel empty. */
  predicate Final(p: P.Pipe) { p.worker.Exited? || (p.worker.Saving? && p.worker.last) }

  /** Records are written in full batches: only a tick, or the last flush of all, hands over a shorter slice. */
  lemma {:induction false} OnlyTicksAreShort(s: State, steps: seq<Step>, t: State)
    requires Inv(s) && Run(s, steps, t)
    ensures Final(s.pipe) ==> Final(t.pipe)
    ensures Short(t.pipe.handed, s.pipe.batchSize)
         <= Short(s.pipe.handed, s.pipe.batchSize) + Ticks(steps) + if Final(t.pipe) && !Final(s.pipe) then 1 else 0
    decreases |steps|
  {
    hide Inv, Next, Enabled, Short, Final;
    if steps != [] {
      SliceStep(s, steps[0]);
      BatchSizeKept(s, steps[0]);
      InvKept(s, steps[0]);
      OnlyTicksAreShort(Next(s, steps[0]), steps[1..], t);
    }
  }

  lemma SliceStep(s: State, t: Step)
    requires Inv(s) && Enabled(s, t)
    ensures
      var p, q, size := s.pipe, Next(s, t).pipe, s.pipe.batchSize;
      && (Final(p) ==> Final(q))
      && Short(q.handed, size) <= Short(p.handed, size)
           + (if t == Server(Tick) then 1 else 0) + (if Final(q) && !Final(p) then 1 else 0)
  {
    NextIs(s, t);
    PipeIsSound(s);
    hide Inv, Next, Enabled, Self, Rest, Serve, ServedConns, CanServe, Short;
    if ByHandler(t) {
      HandedKept(s, t);
    } else if t.Server? {
      ServeSlices(s, t.server);
    }
  }

  lemma PipeIsSound(s: State)
    requires Inv(s)
    ensures P.Sound(s.pipe)
  {
  }

  lemma HandedKept(s: State, t: Step)
    requires ByHandler(t) && Enabled(s, t)
    ensures Rest(s, t).pipe.handed == s.pipe.handed && Rest(s, t).pipe.worker == s.pipe.worker
  {
    hide Self, EnterRest, SendRest, ExitRest, CanEnter, CanListen, CanSend, CanExit;
    match t
    case Enter(c, e) => EnterRestFrame(s, c, s.conns[c], e);
    case Listen(_, e) => ListenPipe(s, e);
    case Send(c, e) => SendPutOnly(s, s.conns[c], e);
    case Exit(c, e) => ExitRestFrame(s, c, s.conns[c], e);
  }

  lemma ServeSlices(s: State, e: ServerEvent)
    requires P.Sound(s.pipe) && CanServe(s, e)
    ensures
      var p, q, size := s.pipe, Serve(s, e).pipe, s.pipe.batchSize;
      && (Final(p) ==> Final(q))
      && Short(q.handed, size) <= Short(p.handed, size)
           + (if e.Tick? then 1 else 0) + (if Final(q) && !Final(p) then 1 else 0)
  {
    hide B.Fire, B.Drop, B.CloseAll, P.Sound;
    var p, q := s.pipe, Serve(s, e).pipe;
    if q.handed != p.handed {
      assert q.handed[..|q.handed| - 1] == p.handed;
    }
  }

  // ---------- the counters, counted step by step ----------

  datatype Kind =
    | Sends | Invalid | UserLimited | AddressLimited | RoomLimited | LimiterErrors
    | Accepted | Published | PublishErrors | FailedWrites

  predicate OfKind(t: Step, k: Kind) {
    match k
    case Sends => t.Listen? && t.listening.ReadDanmaku?
    case Invalid => t.Send? && t.sending == RejectContent
    case UserLimited => t.Send? && t.sending == RefuseByLimit(K.User)
    case AddressLimited => t.Send? && t.sending == RefuseByLimit(K.IP)
    case RoomLimited => t.Send? && t.sending == RefuseByLimit(K.Room)
    case LimiterErrors => t.Send? && t.sending == LimiterFails
    case Accepted => t.Send? && t.sending == Accept
    case Published => t.Send? && t.sending.Publish?
    case PublishErrors => t.Send? && t.sending == PublishFails
    case FailedWrites => t == Server(SaveReturns(false))
  }

  function CounterOf(s: State, k: Kind): int {
    match k
    case Sends => s.counters.sends
    case Invalid => s.counters.invalid
    case UserLimited => s.counters.userLimited
    case AddressLimited => s.counters.ipLimited
    case RoomLimited => s.counters.roomLimited
    case LimiterErrors => s.counters.limiterErrors
    case Accepted => s.counters.accepted
    case Published => s.counters.published
    case PublishErrors => s.counters.publishErrors
    case FailedWrites => s.pipe.failed
  }

  function StepsOfKind(steps: seq<Step>, k: Kind): nat {
    if steps == [] then 0 else (if OfKind(steps[0], k) then 1 else 0) + StepsOfKind(steps[1..], k)
  }

  /** Each counter tells how often its event occurred in the run; in particular each refusal is counted in the scope
      that refused. */
  lemma {:induction false} CountersCount(s: State, steps: seq<Step>, t: State, k: Kind)
    requires Run(s, steps, t)
    ensures CounterOf(t, k) == CounterOf(s, k) + StepsOfKind(steps, k)
    decreases |steps|
  {
    hide Next, Enabled, OfKind, CounterOf;
    if steps != [] {
      CountsStep(s, steps[0], k);
      CountersCount(Next(s, steps[0]), steps[1..], t, k);
    }
  }

  lemma CountsStep(s: State, t: Step, k: Kind)
    requires Enabled(s, t)
    ensures CounterOf(Next(s, t), k) == CounterOf(s, k) + if OfKind(t, k) then 1 else 0
  {
    hide Self, EnterRest, SendRest, ExitRest, Serve, CanEnter, CanListen, CanSend, CanExit, CanServe;
    match t
    case Enter(c, e) => EnterCountersOnly(s, c, s.conns[c], e);
    case Listen(_, _) =>
    case Send(c, e) => SendCounts(s, s.conns[c], e);
    case Exit(c, e) => ExitCountersOnly(s, c, s.conns[c], e);
    case Server(e) => ServeFrame(s, e); ServeFailed(s, e);
    case Arrive(_, _, _, _) =>
    case Air(_) =>
    case Deliver(_, _) =>
  }

  lemma SendCounts(s: State, x: Conn, e: Sending)
    requires CanSend(s, x, e)
    ensures SendCounted(s.counters, SendRest(s, x, e).counters, e)
    ensures SendRest(s, x, e).pipe.failed == s.pipe.failed
  {
    SendPutOnly(s, x, e);
    SendCountersOnly(s, x, e);
    hide SendRest, CanSend, RecordOf, Limited;
    if e.RefuseByLimit? {
      LimitedCounts(s.counters, e.scope);
    }
  }

  lemma SendCountersOnly(s: State, x: Conn, e: Sending)
    requires CanSend(s, x, e)
    ensures SendEffect(s.counters, SendRest(s, x, e).counters, e)
  {
    if x.pc.Checking? {
      CheckEffect(s, x, e);
    } else {
      hide P.Put, P.HasSpace, RecordOf, MessageOf, ValidContent, Limited;
    }
  }

  lemma CheckEffect(s: State, x: Conn, e: Sending)
    requires CanSend(s, x, e) && x.pc.Checking?
    ensures SendEffect(s.counters, SendRest(s, x, e).counters, e)
  {
    hide ValidContent, Limited;
  }

  ghost predicate SendEffect(k: Counters, k': Counters, e: Sending) {
    match e
    case RejectContent => k' == k.(invalid := k.invalid + 1)
    case RefuseByLimit(scope) => k' == Limited(k, scope)
    case LimiterFails => k' == k.(limiterErrors := k.limiterErrors + 1)
    case Accept => k' == k.(accepted := k.accepted + 1)
    case PublishFails => k' == k.(publishErrors := k.publishErrors + 1)
    case Publish(_, _, _) => k' == k.(published := k.published + 1)
    case LockPersist => k' == k
    case CheckClosed => k' == k.(dropped := k'.dropped, closedDrops := k'.closedDrops)
    case PutRecord => k' == k.(dropped := k'.dropped, queued := k'.queued)
  }

  lemma LimitedCounts(k: Counters, scope: K.Scope)
    ensures Limited(k, scope) == k.(limited := k.limited + 1, userLimited := Limited(k, scope).userLimited,
                                    ipLimited := Limited(k, scope).ipLimited,
                                    roomLimited := Limited(k, scope).roomLimited)
    ensures SendCounted(k, Limited(k, scope), RefuseByLimit(scope))
  {
  }

  ghost predicate SendCounted(k: Counters, k': Counters, e: Sending) {
    && k'.sends == k.sends
    && k'.invalid == k.invalid + (if e == RejectContent then 1 else 0)
    && k'.userLimited == k.userLimited + (if e == RefuseByLimit(K.User) then 1 else 0)
    && k'.ipLimited == k.ipLimited + (if e == RefuseByLimit(K.IP) then 1 else 0)
    && k'.roomLimited == k.roomLimited + (if e == RefuseByLimit(K.Room) then 1 else 0)
    && k'.limiterErrors == k.limiterErrors + (if e == LimiterFails then 1 else 0)
    && k'.accepted == k.accepted + (if e == Accept then 1 else 0)
    && k'.published == k.published + (if e.Publish? then 1 else 0)
    && k'.publishErrors == k.publishErrors + (if e == PublishFails then 1 else 0)
  }

  lemma ServeFailed(s: State, e: ServerEvent)
    requires CanServe(s, e)
    ensures Serve(s, e).pipe.failed == s.pipe.failed + if e == SaveReturns(false) then 1 else 0
  {
    hide B.Fire, B.Drop, B.CloseAll;
  }

  // ---------- shutting down ----------

  /** Nobody is served any more, and nobody will be. */
  ghost predicate Quiet(s: State) {
    && s.registry == L.Registry(true, {}, 0)
    && s.rooms == map[] && s.table == map[]
    && B.Valid(s.broker) && s.broker.closers == {} && s.broker.fired == s.broker.rooms.Keys
    && s.counters.active == 0
    && forall c :: c in s.conns ==> s.conns[c].pc.Arrived? || s.conns[c].pc.Gone?
  }

  lemma ReturnedIsQuiet(s: State)
    requires Inv(s) && s.shutdown.Returned? && Progress(s.closing) < 5
    ensures Quiet(s)
  {
    assert RegistryInv(s) && RoomsInv(s) && RefsInv(s) && RefsPositive(s) && OwnersInv(s) && IdsInv(s);
    assert s.counters.active == |Where(s.conns, COUNTED)| && s.registry.active == 0;
    hide Inv, RoomsInv, RefsInv, RefsPositive, OwnersInv, IdsInv, Where, On;
    forall c | c in s.conns
      ensures s.conns[c].pc.Arrived? || s.conns[c].pc.Gone?
    {
      NobodyAwaited(s, c);
      OutsidePath(s.conns[c]);
    }
    NowhereOn(s, SERVED);
    NowhereOn(s, COUNTED);
    NoRooms(s);
    AllFired(s);
  }

  lemma OutsidePath(x: Conn)
    ensures !On(x, AWAITED) <==> x.pc.Arrived? || x.pc.Gone?
  {
  }

  lemma NowhereOn(s: State, k: Stretch)
    requires forall c :: c in s.conns ==> s.conns[c].pc.Arrived? || s.conns[c].pc.Gone?
    requires 0 < k.first && k.last < 23
    ensures Where(s.conns, k) == {}
  {
  }

  lemma NoRooms(s: State)
    requires RoomsInv(s) && RefsInv(s) && RefsPositive(s)
    requires forall c :: c in s.conns ==> s.conns[c].pc.Arrived? || s.conns[c].pc.Gone?
    ensures s.rooms == map[] && s.table == map[]
  {
    hide Where;
    forall r: Room
      ensures r !in s.table && r !in s.rooms
    {
      NowhereOn(s, Holding(r));
      NowhereOn(s, Inside(r));
      assert H.Members(s.rooms, r) == {};
      assert |Where(s.conns, Holding(r))| == 0;
    }
  }

  lemma AllFired(s: State)
    requires OwnersInv(s) && IdsInv(s) && s.table == map[]
    requires forall c :: c in s.conns ==> IdOf(s.conns[c].pc).None?
    ensures s.broker.closers == {} && s.broker.fired == s.broker.rooms.Keys
  {
  }

  lemma QuietStep(s: State, t: Step)
    requires Quiet(s) && Enabled(s, t)
    ensures Quiet(Next(s, t)) && Next(s, t).counters == s.counters && Next(s, t).published == s.published
  {
    hide EnterSelf, EnterRest, ListenSelf, ListenRest, SendSelf, SendRest, ExitSelf, ExitRest, Serve, ServedConns;
    hide CanEnter, CanListen, CanSend, CanExit, CanServe;
    match t
    case Arrive(_, _, _, _) =>
    case Air(_) =>
    case Deliver(_, _) => ServedPcs(s, t);
    case Enter(c, e) => QuietEnter(s, c, s.conns[c], e);
    case Listen(c, e) => QuietListen(s, s.conns[c], e);
    case Send(c, e) => QuietSend(s, s.conns[c], e);
    case Exit(c, e) => QuietExit(s, s.conns[c], e);
    case Server(e) => QuietServe(s, e);
  }

  lemma QuietEnter(s: State, c: ConnId, x: Conn, e: Entering)
    requires Quiet(s) && (x.pc.Arrived? || x.pc.Gone?) && CanEnter(s, x, e)
    ensures EnterSelf(s, x, e).pc.Gone? && EnterRest(s, c, x, e) == s
  {
  }

  lemma QuietListen(s: State, x: Conn, e: Listening)
    requires (x.pc.Arrived? || x.pc.Gone?) && CanListen(x, e)
    ensures ListenSelf(x, e).pc == x.pc && ListenRest(s, e) == s
  {
  }

  lemma QuietSend(s: State, x: Conn, e: Sending)
    requires x.pc.Arrived? || x.pc.Gone?
    ensures !CanSend(s, x, e)
  {
  }

  /** Only a write loop could still be ending, which changes nothing here. */
  lemma QuietExit(s: State, x: Conn, e: Exiting)
    requires (x.pc.Arrived? || x.pc.Gone?) && CanExit(s, x, e)
    ensures forall c :: ExitSelf(s, c, x, e).pc == x.pc && ExitRest(s, c, x, e) == s
  {
  }

  lemma QuietServe(s: State, e: ServerEvent)
    requires Quiet(s) && CanServe(s, e)
    ensures Quiet(Serve(s, e).(conns := ServedConns(s, e)))
    ensures Serve(s, e).counters == s.counters && Serve(s, e).published == s.published
  {
    hide Serve, ServedConns;
    ServeFrame(s, e);
    ServeBroker(s, e);
    ServedPcs(s, Server(e));
  }

  /** Handler.Shutdown returning nil, before the service is closed, means that in this and every later state no client
      is registered or joined, no room is subscribed, every subscription has been closed, the gauge is at zero, and
      no Send runs or can start; so the Close that follows finds nothing to end and drops no message. */
  lemma CleanShutdown(batchSize: int, s: State, later: seq<Step>, t: State)
    requires Reachable(batchSize, s) && s.shutdown.Returned? && s.closing.Open?
    requires Run(s, later, t)
    ensures Quiet(s) && Quiet(t)
    ensures t.counters == s.counters && t.published == s.published && t.counters.closedDrops == 0
    ensures SendsUnderWay(t) == {}
  {
    hide *;
    ReachableInv(batchSize, s);
    OpenMeans(s);
    ReturnedIsQuiet(s);
    QuietStays(s, later, t);
    QuietSends(t);
  }

  lemma OpenMeans(s: State)
    requires Inv(s) && s.closing.Open?
    ensures Progress(s.closing) < 5 && s.counters.closedDrops == 0
  {
  }

  lemma QuietSends(s: State)
    requires Quiet(s)
    ensures SendsUnderWay(s) == {}
  {
  }

  lemma {:induction false} QuietStays(s: State, later: seq<Step>, t: State)
    requires Quiet(s) && Run(s, later, t)
    ensures Quiet(t) && t.counters == s.counters && t.published == s.published
    decreases |later|
  {
    hide Quiet, Next, Enabled;
    if later != [] {
      QuietStep(s, later[0]);
      QuietStays(Next(s, later[0]), later[1..], t);
    }
  }
}
