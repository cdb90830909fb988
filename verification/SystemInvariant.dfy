/** What every step of the node keeps, for any number of connections and any interleaving. */
module SystemInvariant {
  import opened Prelude
  import opened System

  // ---------- counting connections ----------

  /** A stretch of the handler's path, possibly for one room only. */
  datatype Stretch = Stretch(first: nat, last: nat, room: Option<Room>)

  function Holding(r: Room): Stretch { Stretch(6, 17, Some(r)) }   // between a successful Acquire and its Release
  function Inside(r: Room): Stretch { Stretch(7, 16, Some(r)) }    // in the hub
  const SERVED := Stretch(1, 21, None)                             // registered
  const AWAITED := Stretch(1, 22, None)                            // registered, or about to call Done
  const COUNTED := Stretch(8, 20, None)                            // in the connection gauge
  const CHECKING := Stretch(9, 9, None)
  const PUBLISHING := Stretch(10, 10, None)
  const PERSISTING := Stretch(11, 13, None)

  predicate On(x: Conn, k: Stretch) {
    k.first <= Stage(x.pc) <= k.last && (k.room.Some? ==> x.room == k.room.value)
  }

  function Where(conns: map<ConnId, Conn>, k: Stretch): set<ConnId> {
    set c | c in conns && On(conns[c], k)
  }

  lemma WhereAfter(conns: map<ConnId, Conn>, c: ConnId, y: Conn, k: Stretch)
    ensures
      var before, after := Where(conns, k), Where(conns[c := y], k);
      && after == (if On(y, k) then before + {c} else before - {c})
      && |after| == |before| - (if c in before then 1 else 0) + (if On(y, k) then 1 else 0)
  {
  }

  // ---------- the invariant ----------

  ghost predicate ConnOk(x: Conn) {
    && x.room != []
    && (Stage(x.pc) < 8 ==> x.writer.NotStarted?)
    && (8 <= Stage(x.pc) <= 20 ==> !x.writer.NotStarted?)
    && (Stage(x.pc) > 15 ==> !x.writer.Running?)
    && (Stage(x.pc) > 14 || x.writer.Ended? ==> x.closed)
    && (x.pc.Publishing? ==> ValidContent(x.pc.content))
  }

  ghost predicate ConnInv(s: State) { forall c :: c in s.conns ==> ConnOk(s.conns[c]) }

  predicate Subscriber(x: Conn) { x.pc.Subscribing? || x.pc.Opened? || x.pc.Recorded? }

  ghost predicate SubLockInv(s: State) {
    && (forall c :: c in s.conns ==> (Subscriber(s.conns[c]) <==> s.subMu == ByConn(c)))
    && (s.subMu.ByConn? ==> s.subMu.c in s.conns)
    && (s.subMu.ByClose? <==> 5 <= Progress(s.closing) <= 6)
    && (forall c :: c in s.conns && Subscriber(s.conns[c]) ==> s.conns[c].room !in s.table)
  }

  ghost predicate PersistLockInv(s: State) {
    && (1 <= Progress(s.closing) <= 2 ==> NoReaders(s))
    && (s.persistClosed <==> Progress(s.closing) >= 2)
    && (s.pipe.closed <==> Progress(s.closing) >= 3)
    && (Progress(s.closing) >= 4 ==> s.pipe.worker.Exited?)
    && (s.persistClosed ==> forall c :: c in s.conns ==> !s.conns[c].pc.Putting?)
  }

  ghost predicate LockInv(s: State) { SubLockInv(s) && PersistLockInv(s) }

  ghost predicate RegistryInv(s: State) {
    && s.registry.clients == Where(s.conns, SERVED)
    && s.registry.active == |Where(s.conns, AWAITED)|
    && (s.registry.closing <==> !s.shutdown.NotAsked?)
  }

  ghost predicate RoomsInv(s: State) {
    && (forall r :: r in s.rooms ==> s.rooms[r] != {})
    && forall r :: H.Members(s.rooms, r) == Where(s.conns, Inside(r))
  }

  /** Until Close takes over the table, a room's references are its holders. */
  ghost predicate RefsInv(s: State) {
    forall r :: |Where(s.conns, Holding(r))| == if r in s.table then s.table[r].refs else 0
  }

  ghost predicate RefsPositive(s: State) { forall r :: r in s.table ==> s.table[r].refs > 0 }

  function IdOf(pc: Pc): Option<nat> {
    if pc.Recorded? || pc.Dropping? || pc.Unsubscribing? then Some(pc.id) else None
  }

  /** The connection has a subscription in hand: just registered, or taken out of the table and not closed yet. */
  ghost predicate InHand(x: Conn, table: S.Table, broker: B.Subscriptions)
    requires IdOf(x.pc).Some?
  {
    var id := IdOf(x.pc).value;
    && id in broker.rooms && broker.rooms[id] == x.room && id !in broker.fired
    && (id in broker.closers <==> !x.pc.Unsubscribing?)
    && (x.room in table ==> table[x.room].id != id)
  }

  ghost predicate InTable(id: nat, table: S.Table, broker: B.Subscriptions)
    requires id in broker.rooms
  {
    broker.rooms[id] in table && table[broker.rooms[id]].id == id
  }

  ghost predicate Owned(id: nat, conns: map<ConnId, Conn>, table: S.Table, broker: B.Subscriptions)
    requires id in broker.rooms
  {
    InTable(id, table, broker) || exists c :: c in conns && IdOf(conns[c].pc) == Some(id)
  }

  ghost predicate OneOwner(conns: map<ConnId, Conn>, table: S.Table, broker: B.Subscriptions) {
    && (forall r :: r in table ==>
          table[r].id in broker.closers && table[r].id in broker.rooms && broker.rooms[table[r].id] == r)
    && (forall c :: c in conns && IdOf(conns[c].pc).Some? ==> InHand(conns[c], table, broker))
    && (forall c, d :: c in conns && d in conns && c != d && IdOf(conns[c].pc).Some? ==>
          IdOf(conns[c].pc) != IdOf(conns[d].pc))
    && (forall id :: id in broker.rooms && id !in broker.fired ==> Owned(id, conns, table, broker))
  }

  /** Until Close takes over, every registered subscription that is not closed is in exactly one place: in the table
      under its own room, or in the hand of one connection of that room. */
  ghost predicate OwnersInv(s: State) { OneOwner(s.conns, s.table, s.broker) }

  /** Every id a connection or the table mentions was registered. */
  ghost predicate IdsInv(s: State) {
    && B.Valid(s.broker)
    && (forall r :: r in s.table ==> s.table[r].id in s.broker.rooms)
    && (forall c :: c in s.conns && IdOf(s.conns[c].pc).Some? ==> IdOf(s.conns[c].pc).value in s.broker.rooms)
    && (forall c :: c in s.conns && s.conns[c].pc.Unsubscribing? ==> s.conns[c].pc.id !in s.broker.closers)
    && (s.closing.EndingOne? ==> s.closing.id in s.broker.rooms && s.closing.id !in s.broker.closers)
  }

  /** Close is between the two halves of unsubscribing. */
  predicate ByCloser(p: Closing, id: nat) { p.EndingOne? && p.id == id }

  /** A subscription between the two halves of unsubscribing is in the hand of a connection, or of Close. */
  ghost predicate PendingInv(s: State) {
    forall id :: id in B.Pending(s.broker) ==>
      ByCloser(s.closing, id) || exists c :: c in s.conns && s.conns[c].pc == Unsubscribing(id)
  }

  /** What Close has still to end has an entry. */
  ghost predicate EndingInv(s: State) {
    s.closing.EndingSubscriptions? || s.closing.EndingOne? ==> s.closing.todo <= s.table.Keys
  }

  /** The counters balance, once the calls under way are added. */
  ghost predicate CountersInv(s: State) {
    var k := s.counters;
    && k.sends == k.invalid + k.limited + k.limiterErrors + k.accepted + |Where(s.conns, CHECKING)|
    && k.accepted == k.published + k.publishErrors + |Where(s.conns, PUBLISHING)|
    && k.published == k.queued + k.dropped + |Where(s.conns, PERSISTING)|
    && k.limited == k.userLimited + k.ipLimited + k.roomLimited
    && k.active == |Where(s.conns, COUNTED)|
    && k.closedDrops <= k.dropped
    && (Progress(s.closing) < 2 ==> k.closedDrops == 0)
    && k.published == |s.published| && k.queued == |s.pipe.enqueued|
  }

  /** The record stands for the message: each field is the message's own. */
  predicate Describes(r: P.Record, m: H.Broadcast) {
    r.id == m.id && r.room == m.room && r.user == m.user && r.content == m.content && r.at == m.at
  }

  ghost predicate Genuine(s: State, r: P.Record) {
    exists m :: m in s.published && Describes(r, m)
  }

  /** Only published messages are enqueued, with their own fields, and only valid content is published. */
  ghost predicate MessagesInv(s: State) {
    && (forall m :: m in s.published ==> 0 < |m.content| <= 200)
    && (forall c :: c in s.conns && On(s.conns[c], PERSISTING) ==>
          s.conns[c].pc.message in s.published
          && s.conns[c].pc.message.room == s.conns[c].room && s.conns[c].pc.message.user == s.conns[c].user)
    && (forall r :: r in s.pipe.enqueued ==> Genuine(s, r))
  }

  function Records(ms: seq<H.Broadcast>): seq<P.Record> {
    seq(|ms|, i requires 0 <= i < |ms| => RecordOf(ms[i]))
  }

  /** The connections that have published a message with this record and not enqueued or dropped it yet. */
  ghost function Carrying(conns: map<ConnId, Conn>, r: P.Record): set<ConnId> {
    set c | c in conns && On(conns[c], PERSISTING) && RecordOf(conns[c].pc.message) == r
  }

  /** Nothing is enqueued more often than it was published, counting what is still on its way. */
  ghost predicate OnceInv(s: State) {
    forall r :: multiset(s.pipe.enqueued)[r] + |Carrying(s.conns, r)| <= multiset(Records(s.published))[r]
  }

  /** The mailbox is in order and bounded, and each message ever accepted was on the channel of the client's room. */
  ghost predicate QueueOk(x: Conn, published: seq<H.Broadcast>, foreign: seq<H.Broadcast>) {
    && x.mail.taken + x.mail.queue == x.mail.accepted && |x.mail.queue| <= 256
    && forall m :: H.Danmaku(m) in x.mail.accepted ==> m.room == x.room && (m in published || m in foreign)
  }

  ghost predicate QueuesInv(s: State) {
    && (forall c :: c in s.conns ==> QueueOk(s.conns[c], s.published, s.foreign))
    && (forall m :: m in s.foreign ==> 0 < |m.content| <= 200)
  }

  ghost predicate PipeInv(s: State) { P.Sound(s.pipe) }

  /** Once the snapshot has been worked off, every client that is still registered is closed. */
  ghost predicate ShutdownInv(s: State) {
    && (s.shutdown.ClosingClients? ==>
          && s.shutdown.todo <= s.conns.Keys
          && forall c :: c in s.conns && On(s.conns[c], SERVED) ==> s.conns[c].closed || c in s.shutdown.todo)
    && (s.shutdown.Waiting? || s.shutdown.Returned? || s.shutdown.TimedOut? ==>
          forall c :: c in s.conns && On(s.conns[c], SERVED) ==> s.conns[c].closed)
    && (s.shutdown.Returned? ==> s.registry.active == 0)
  }

  ghost predicate Inv(s: State) {
    && ConnInv(s) && LockInv(s) && RegistryInv(s) && RoomsInv(s)
    && IdsInv(s) && PendingInv(s) && EndingInv(s)
    && (Progress(s.closing) < 5 ==> RefsInv(s) && RefsPositive(s) && OwnersInv(s))
    && CountersInv(s) && MessagesInv(s) && OnceInv(s) && QueuesInv(s) && PipeInv(s) && ShutdownInv(s)
    && !s.panicked
  }

  // ---------- how a step looks from outside ----------

  /** The three kinds of steps. */
  lemma NextIs(s: State, t: Step)
    requires Enabled(s, t)
    ensures ByHandler(t) ==>
      t.c in s.conns && Next(s, t) == Rest(s, t).(conns := s.conns[t.c := Self(s, t)])
    ensures t.Server? ==>
      CanServe(s, t.server) && Next(s, t) == Serve(s, t.server).(conns := ServedConns(s, t.server))
    ensures !ByHandler(t) && !t.Server? ==>
      Next(s, t) == s.(conns := Next(s, t).conns, foreign := Next(s, t).foreign)
  {
    hide Self, Rest, Serve, ServedConns, Delivered, CanEnter, CanListen, CanSend, CanExit, CanServe;
  }

  /** Within the read loop and Send. */
  predicate InLoop(pc: Pc) { 8 <= Stage(pc) <= 14 }

  lemma ListenSelfFrame(x: Conn, e: Listening)
    requires CanListen(x, e)
    ensures
      var y := ListenSelf(x, e);
      && (y.pc == x.pc || (InLoop(x.pc) && InLoop(y.pc)))
      && y.room == x.room && y.user == x.user && y.closed == x.closed
      && (On(y, PERSISTING) ==> y.pc == x.pc) && (y.pc.Publishing? ==> y.pc == x.pc)
  {
  }

  lemma SendSelfFrame(s: State, x: Conn, e: Sending)
    requires CanSend(s, x, e)
    ensures
      var y := SendSelf(s, x, e);
      && InLoop(x.pc) && InLoop(y.pc)
      && y.room == x.room && y.user == x.user && y.closed == x.closed && y.writer == x.writer
      && (y.pc.Publishing? ==> ValidContent(y.pc.content))
  {
  }

  lemma SendOnly(s: State, x: Conn, e: Sending)
    requires CanSend(s, x, e)
    ensures
      var r := SendRest(s, x, e);
      r == s.(counters := r.counters, pipe := r.pipe, published := r.published, panicked := r.panicked)
  {
    hide CanSend, P.Put, P.HasSpace, RecordOf, Limited, MessageOf, ValidContent;
  }

  lemma SendPutOnly(s: State, x: Conn, e: Sending)
    requires CanSend(s, x, e)
    ensures SendRest(s, x, e).pipe == s.pipe || SendRest(s, x, e).pipe == P.Put(s.pipe, RecordOf(x.pc.message))
  {
    hide P.Put, P.HasSpace, RecordOf, Limited, MessageOf, ValidContent;
  }

  /** Send leaves registry, rooms, subscriptions and the subscription lock alone. */
  lemma SendRestFrame(s: State, x: Conn, e: Sending)
    requires CanSend(s, x, e)
    ensures
      var r := SendRest(s, x, e);
      && r.conns == s.conns && r.closing == s.closing && r.shutdown == s.shutdown && r.persistClosed == s.persistClosed
      && r.pipe.closed == s.pipe.closed && r.pipe.worker == s.pipe.worker
      && r.registry == s.registry && r.rooms == s.rooms
      && r.subMu == s.subMu && r.table == s.table && r.broker == s.broker
  {
    hide SendRest, CanSend;
    SendOnly(s, x, e);
    SendPutOnly(s, x, e);
  }

  lemma EnterRestFrame(s: State, c: ConnId, x: Conn, e: Entering)
    requires CanEnter(s, x, e)
    ensures
      var r := EnterRest(s, c, x, e);
      && r.conns == s.conns && r.closing == s.closing && r.shutdown == s.shutdown && r.persistClosed == s.persistClosed
      && r.pipe == s.pipe && r.published == s.published && r.panicked == s.panicked
      && EnterSelf(s, x, e).room == x.room && EnterSelf(s, x, e).user == x.user
  {
  }

  lemma ExitRestFrame(s: State, c: ConnId, x: Conn, e: Exiting)
    requires CanExit(s, x, e)
    ensures
      var r := ExitRest(s, c, x, e);
      && r.conns == s.conns && r.closing == s.closing && r.shutdown == s.shutdown && r.persistClosed == s.persistClosed
      && r.pipe == s.pipe && r.published == s.published
      && ExitSelf(s, c, x, e).room == x.room && ExitSelf(s, c, x, e).user == x.user
  {
  }

  lemma ServeFrame(s: State, e: ServerEvent)
    requires CanServe(s, e)
    ensures
      var r := Serve(s, e);
      && r.rooms == s.rooms && r.counters == s.counters && r.published == s.published && r.foreign == s.foreign
      && r.registry == (if e.ShutdownBegins? then L.StartClosing(s.registry) else s.registry)
      && r.table == (if e.ClearTable? then map[] else s.table)
      && r.subMu == (if e.LockSubs? then ByClose else if e.CloseBroker? then Free else s.subMu)
  {
    hide P.Flush, P.Receive, P.Saved, B.Fire, B.Drop, B.CloseAll;
  }

  lemma ServePipe(s: State, e: ServerEvent)
    requires CanServe(s, e)
    ensures
      var r := Serve(s, e);
      && r.pipe.enqueued == s.pipe.enqueued
      && (r.pipe.closed <==> s.pipe.closed || e.CloseChannel?)
      && (r.persistClosed <==> s.persistClosed || e.SetClosed?)
      && (s.pipe.worker.Exited? ==> r.pipe.worker.Exited?)
      && r.panicked == (s.panicked || (e.CloseChannel? && s.pipe.closed))
  {
    hide P.Flush, P.Saved, B.Fire, B.Drop, B.CloseAll;
  }

  lemma SameClosing(s: State, t: Step)
    requires ByHandler(t) && Enabled(s, t)
    ensures Rest(s, t).closing == s.closing
  {
    hide EnterRest, SendRest, ExitRest, CanEnter, CanListen, CanSend, CanExit;
    var x := s.conns[t.c];
    match t
    case Enter(c, e) => EnterRestFrame(s, c, x, e);
    case Listen(_, _) =>
    case Send(_, e) => SendRestFrame(s, x, e);
    case Exit(c, e) => ExitRestFrame(s, c, x, e);
  }

  predicate OfClose(e: ServerEvent) {
    || e.LockWrite? || e.SetClosed? || e.CloseChannel? || e.WorkersDone?
    || e.LockSubs? || e.EndSubscription? || e.EndDropped? || e.ClearTable? || e.CloseBroker?
  }

  lemma ClosesKnown(s: State, e: ServerEvent)
    requires CanServe(s, e) && e.CloseOne?
    ensures e.c in s.conns
  {
  }

  /** The server's own steps and the network's leave each connection where it is. */
  lemma ServedPcs(s: State, t: Step)
    requires Enabled(s, t) && !ByHandler(t)
    ensures
      var conns := Next(s, t).conns;
      && s.conns.Keys <= conns.Keys
      && (forall c :: c in s.conns ==>
            && conns[c].pc == s.conns[c].pc && conns[c].room == s.conns[c].room && conns[c].user == s.conns[c].user
            && (s.conns[c].closed ==> conns[c].closed))
      && (forall c :: c in conns && c !in s.conns ==> conns[c].pc.Arrived?)
  {
    hide Serve, CanServe;
    if t.Server? && t.server.CloseOne? {
      ClosesKnown(s, t.server);
    }
  }

  /** Arrivals, the server's own steps and the network move no connection along its path. */
  lemma ServedWhere(s: State, t: Step, k: Stretch)
    requires Enabled(s, t) && !ByHandler(t) && k.first > 0
    ensures Where(Next(s, t).conns, k) == Where(s.conns, k)
  {
  }

  /** MessageService.Close goes through its points one by one. */
  lemma ServeProgress(s: State, e: ServerEvent)
    requires CanServe(s, e)
    ensures
      var before, after := Progress(s.closing), Progress(Serve(s, e).closing);
      && (e.LockWrite? ==> before == 0 && after == 1 && NoReaders(s))
      && (e.SetClosed? ==> before == 1 && after == 2) && (e.CloseChannel? ==> before == 2 && after == 3)
      && (e.WorkersDone? ==> before == 3 && after == 4 && s.pipe.worker.Exited?)
      && (e.LockSubs? ==> before == 4 && after == 5)
      && (e.EndSubscription? || e.EndDropped? ==> before == 5 && after == 5)
      && (e.ClearTable? ==> before == 5 && after == 6) && (e.CloseBroker? ==> before == 6 && after == 7)
      && (!OfClose(e) ==> after == before)
  {
    hide P.Flush, P.Receive, P.Saved, P.CanReceive, B.Fire, B.Drop, B.CloseAll;
  }

  // ---------- the connection itself ----------

  lemma EnterConn(s: State, x: Conn, e: Entering)
    requires CanEnter(s, x, e) && ConnOk(x)
    ensures ConnOk(EnterSelf(s, x, e))
  {
  }

  lemma ListenConn(x: Conn, e: Listening)
    requires CanListen(x, e) && ConnOk(x)
    ensures ConnOk(ListenSelf(x, e))
  {
  }

  lemma SendConn(s: State, x: Conn, e: Sending)
    requires CanSend(s, x, e) && ConnOk(x)
    ensures ConnOk(SendSelf(s, x, e))
  {
  }

  lemma ExitConn(s: State, c: ConnId, x: Conn, e: Exiting)
    requires CanExit(s, x, e) && ConnOk(x)
    ensures ConnOk(ExitSelf(s, c, x, e))
  {
  }

  lemma SelfOk(s: State, t: Step)
    requires ByHandler(t) && Enabled(s, t) && ConnOk(s.conns[t.c])
    ensures ConnOk(Self(s, t))
  {
    hide EnterSelf, ListenSelf, SendSelf, ExitSelf, CanEnter, CanListen, CanSend, CanExit;
    match t
    case Enter(c, e) => EnterConn(s, s.conns[c], e);
    case Listen(c, e) => ListenConn(s.conns[c], e);
    case Send(c, e) => SendConn(s, s.conns[c], e);
    case Exit(c, e) => ExitConn(s, c, s.conns[c], e);
  }

  lemma ConnKept(s: State, t: Step)
    requires ConnInv(s) && Enabled(s, t)
    ensures ConnInv(Next(s, t))
  {
    hide Self, Rest, ConnOk;
    if ByHandler(t) {
      SelfOk(s, t);
    } else {
      ConnServed(s, t);
    }
  }

  lemma ConnServed(s: State, t: Step)
    requires ConnInv(s) && Enabled(s, t) && !ByHandler(t)
    ensures ConnInv(Next(s, t))
  {
  }

  // ---------- the registry ----------

  /** Entering and leaving the two stretches is what changes the registry. */
  ghost predicate RegistryStep(before: L.Registry, after: L.Registry, c: ConnId, x: Conn, y: Conn) {
    && after.clients == (if On(y, SERVED) then before.clients + {c} else before.clients - {c})
    && after.active == before.active + (if On(y, AWAITED) then 1 else 0) - (if On(x, AWAITED) then 1 else 0)
    && after.closing == before.closing
    && (On(y, SERVED) ==> On(x, SERVED) || !before.closing)
  }

  lemma EnterRegistry(s: State, c: ConnId, x: Conn, e: Entering)
    requires CanEnter(s, x, e) && (c in s.registry.clients <==> On(x, SERVED))
    ensures RegistryStep(s.registry, EnterRest(s, c, x, e).registry, c, x, EnterSelf(s, x, e))
  {
  }

  lemma ExitRegistry(s: State, c: ConnId, x: Conn, e: Exiting)
    requires CanExit(s, x, e) && (c in s.registry.clients <==> On(x, SERVED))
    ensures RegistryStep(s.registry, ExitRest(s, c, x, e).registry, c, x, ExitSelf(s, c, x, e))
  {
  }

  lemma MoveRegistry(s: State, t: Step)
    requires RegistryInv(s) && ByHandler(t) && Enabled(s, t)
    ensures RegistryStep(s.registry, Rest(s, t).registry, t.c, s.conns[t.c], Self(s, t))
    ensures Rest(s, t).shutdown == s.shutdown
  {
    hide EnterSelf, ListenSelf, SendSelf, ExitSelf, EnterRest, SendRest, ExitRest;
    hide CanEnter, CanListen, CanSend, CanExit;
    var x := s.conns[t.c];
    match t
    case Enter(c, e) => EnterRestFrame(s, c, x, e); EnterRegistry(s, c, x, e);
    case Listen(c, e) => ListenSelfFrame(x, e);
    case Send(c, e) => SendSelfFrame(s, x, e); SendRestFrame(s, x, e);
    case Exit(c, e) => ExitRestFrame(s, c, x, e); ExitRegistry(s, c, x, e);
  }

  lemma RegistryKept(s: State, t: Step)
    requires RegistryInv(s) && Enabled(s, t)
    ensures RegistryInv(Next(s, t))
  {
    hide Self, Rest, Serve, CanEnter, CanListen, CanSend, CanExit, On;
    if ByHandler(t) {
      MoveRegistry(s, t);
      WhereAfter(s.conns, t.c, Self(s, t), SERVED);
      WhereAfter(s.conns, t.c, Self(s, t), AWAITED);
    } else {
      RegistryServed(s, t);
    }
  }

  lemma RegistryServed(s: State, t: Step)
    requires RegistryInv(s) && Enabled(s, t) && !ByHandler(t)
    ensures RegistryInv(Next(s, t))
  {
    hide Serve, CanServe, Where, ServedConns;
    ServedWhere(s, t, SERVED);
    ServedWhere(s, t, AWAITED);
    if t.Server? {
      ServeFrame(s, t.server);
      ServeShutdown(s, t.server);
    }
  }

  // ---------- the locks ----------

  ghost predicate LockStep(s: State, r: State, c: ConnId, x: Conn, y: Conn) {
    && (Subscriber(y) <==> r.subMu == ByConn(c))
    && (r.subMu == s.subMu || (s.subMu == ByConn(c) && r.subMu.Free?) || (s.subMu.Free? && r.subMu == ByConn(c)))
    && (forall room :: room in r.table && room !in s.table ==> room == x.room && Subscriber(x) && !Subscriber(y))
    && (Subscriber(y) && !Subscriber(x) ==> x.room !in s.table)
    && (y.pc.Guarded? ==> x.pc.Guarded? || !(1 <= Progress(s.closing) <= 2))
    && (y.pc.Putting? ==> x.pc.Putting? || (x.pc.Guarded? && !s.persistClosed))
    && r.closing == s.closing && r.persistClosed == s.persistClosed
    && r.pipe.closed == s.pipe.closed && r.pipe.worker == s.pipe.worker
    && y.room == x.room
  }

  lemma EnterLock(s: State, c: ConnId, x: Conn, e: Entering)
    requires CanEnter(s, x, e) && (Subscriber(x) <==> s.subMu == ByConn(c))
    ensures LockStep(s, EnterRest(s, c, x, e), c, x, EnterSelf(s, x, e))
  {
  }

  lemma ListenLock(s: State, c: ConnId, x: Conn, e: Listening)
    requires CanListen(x, e) && (Subscriber(x) <==> s.subMu == ByConn(c))
    ensures LockStep(s, ListenRest(s, e), c, x, ListenSelf(x, e))
  {
  }

  lemma SendLock(s: State, c: ConnId, x: Conn, e: Sending)
    requires CanSend(s, x, e) && (Subscriber(x) <==> s.subMu == ByConn(c))
    ensures LockStep(s, SendRest(s, x, e), c, x, SendSelf(s, x, e))
  {
    hide SendRest;
    SendRestFrame(s, x, e);
  }

  lemma ExitLock(s: State, c: ConnId, x: Conn, e: Exiting)
    requires CanExit(s, x, e) && (Subscriber(x) <==> s.subMu == ByConn(c))
    ensures LockStep(s, ExitRest(s, c, x, e), c, x, ExitSelf(s, c, x, e))
  {
  }

  lemma MoveLock(s: State, t: Step)
    requires LockInv(s) && ByHandler(t) && Enabled(s, t)
    ensures LockStep(s, Rest(s, t), t.c, s.conns[t.c], Self(s, t))
  {
    hide EnterSelf, ListenSelf, SendSelf, ExitSelf, EnterRest, SendRest, ExitRest;
    hide CanEnter, CanListen, CanSend, CanExit;
    hide LockStep;
    var x := s.conns[t.c];
    match t
    case Enter(c, e) => EnterLock(s, c, x, e);
    case Listen(c, e) => ListenLock(s, c, x, e);
    case Send(c, e) => SendLock(s, c, x, e);
    case Exit(c, e) => ExitLock(s, c, x, e);
  }

  lemma LockKept(s: State, t: Step)
    requires LockInv(s) && Enabled(s, t)
    ensures LockInv(Next(s, t))
  {
    hide Self, Rest, Serve, CanEnter, CanListen, CanSend, CanExit;
    if ByHandler(t) {
      MoveLock(s, t);
    } else {
      LockServed(s, t);
    }
  }

  lemma LockServed(s: State, t: Step)
    requires LockInv(s) && Enabled(s, t) && !ByHandler(t)
    ensures LockInv(Next(s, t))
  {
    hide SubLockInv, PersistLockInv, Next, Enabled;
    SubLockServed(s, t);
    PersistLockServed(s, t);
  }

  lemma SubLockServed(s: State, t: Step)
    requires SubLockInv(s) && Enabled(s, t) && !ByHandler(t)
    ensures SubLockInv(Next(s, t))
  {
    NextIs(s, t);
    ServedPcs(s, t);
    hide SubLockInv, Next, Enabled, Serve, CanServe, ServedConns;
    if t.Server? {
      SubLockServe(s, t.server);
      ServeConns(s, t.server);
      SubLockFrame(Serve(s, t.server), Next(s, t).conns);
    } else {
      SubLockFrame(s, Next(s, t).conns);
    }
  }

  lemma SubLockFrame(s: State, conns: map<ConnId, Conn>)
    requires SubLockInv(s) && s.conns.Keys <= conns.Keys
    requires forall c :: c in s.conns ==> conns[c].pc == s.conns[c].pc && conns[c].room == s.conns[c].room
    requires forall c :: c in conns && c !in s.conns ==> conns[c].pc.Arrived?
    ensures forall foreign :: SubLockInv(s.(conns := conns, foreign := foreign))
  {
    hide Progress;
  }

  /** Only Close itself takes the lock and gives it back. */
  lemma SubLockServe(s: State, e: ServerEvent)
    requires SubLockInv(s) && CanServe(s, e)
    ensures SubLockInv(Serve(s, e))
  {
    ServeFrame(s, e);
    ServeProgress(s, e);
    LockFree(s, e);
    ServeConns(s, e);
    hide Serve, CanServe, Progress, Subscriber;
  }

  lemma ServeConns(s: State, e: ServerEvent)
    requires CanServe(s, e)
    ensures Serve(s, e).conns == s.conns
  {
    hide P.Flush, P.Receive, P.Saved, B.Fire, B.Drop, B.CloseAll;
  }

  lemma PersistLockServed(s: State, t: Step)
    requires PersistLockInv(s) && Enabled(s, t) && !ByHandler(t)
    ensures PersistLockInv(Next(s, t))
  {
    hide Serve, CanServe, ServedConns, Delivered, Progress;
    ServedPcs(s, t);
    if t.Server? {
      ServePipe(s, t.server);
      ServeProgress(s, t.server);
    }
  }

  lemma LockFree(s: State, e: ServerEvent)
    requires CanServe(s, e) && (s.subMu.ByClose? <==> 5 <= Progress(s.closing) <= 6)
    ensures e.LockSubs? ==> s.subMu.Free?
    ensures e.CloseBroker? ==> s.subMu.ByClose?
  {
  }

  // ---------- the rooms ----------

  ghost predicate RoomsStep(before: H.Rooms<ConnId>, after: H.Rooms<ConnId>, c: ConnId, x: Conn, y: Conn) {
    && y.room == x.room
    && after == if On(y, Inside(x.room)) == On(x, Inside(x.room)) then before
               else if On(y, Inside(x.room)) then H.Joined(before, x.room, c) else H.Left(before, x.room, c)
  }

  lemma EnterRooms(s: State, c: ConnId, x: Conn, e: Entering)
    requires CanEnter(s, x, e)
    ensures RoomsStep(s.rooms, EnterRest(s, c, x, e).rooms, c, x, EnterSelf(s, x, e))
  {
  }

  lemma ExitRoomsOnly(s: State, c: ConnId, x: Conn, e: Exiting)
    requires CanExit(s, x, e)
    ensures ExitRest(s, c, x, e).rooms == if e.Leave? then H.Left(s.rooms, x.room, c) else s.rooms
  {
    hide H.Left, S.Release, B.Drop, B.Fire;
  }

  lemma ExitInside(s: State, c: ConnId, x: Conn, e: Exiting)
    requires CanExit(s, x, e)
    ensures
      var y := ExitSelf(s, c, x, e);
      && y.room == x.room
      && (On(y, Inside(x.room)) <==> On(x, Inside(x.room)) && !e.Leave?)
      && (e.Leave? ==> On(x, Inside(x.room)))
  {
  }

  lemma ExitRooms(s: State, c: ConnId, x: Conn, e: Exiting)
    requires CanExit(s, x, e)
    ensures RoomsStep(s.rooms, ExitRest(s, c, x, e).rooms, c, x, ExitSelf(s, c, x, e))
  {
    hide ExitRest, ExitSelf, CanExit, On, H.Left, H.Joined;
    ExitRoomsOnly(s, c, x, e);
    ExitInside(s, c, x, e);
  }

  lemma MoveRooms(s: State, t: Step)
    requires ByHandler(t) && Enabled(s, t)
    ensures RoomsStep(s.rooms, Rest(s, t).rooms, t.c, s.conns[t.c], Self(s, t))
  {
    hide EnterSelf, ListenSelf, SendSelf, ExitSelf, EnterRest, SendRest, ExitRest;
    hide CanEnter, CanListen, CanSend, CanExit;
    var x := s.conns[t.c];
    match t
    case Enter(c, e) => EnterRooms(s, c, x, e);
    case Listen(c, e) => ListenSelfFrame(x, e);
    case Send(c, e) => SendSelfFrame(s, x, e); SendRestFrame(s, x, e);
    case Exit(c, e) => ExitRooms(s, c, x, e);
  }

  lemma RoomsMoved(s: State, rooms: H.Rooms<ConnId>, c: ConnId, y: Conn)
    requires RoomsInv(s) && c in s.conns && RoomsStep(s.rooms, rooms, c, s.conns[c], y)
    ensures forall r :: r in rooms ==> rooms[r] != {}
    ensures forall r :: H.Members(rooms, r) == Where(s.conns[c := y], Inside(r))
  {
  }

  lemma InWhere(conns: map<ConnId, Conn>, c: ConnId, k: Stretch)
    ensures c in Where(conns, k) <==> c in conns && On(conns[c], k)
  {
  }

  lemma RoomsKept(s: State, t: Step)
    requires RoomsInv(s) && Enabled(s, t)
    ensures RoomsInv(Next(s, t))
  {
    hide Self, Rest, CanEnter, CanListen, CanSend, CanExit, H.Members, RoomsStep;
    if ByHandler(t) {
      MoveRooms(s, t);
      RoomsMoved(s, Rest(s, t).rooms, t.c, Self(s, t));
    } else {
      RoomsServed(s, t);
    }
  }

  lemma RoomsServed(s: State, t: Step)
    requires RoomsInv(s) && Enabled(s, t) && !ByHandler(t)
    ensures RoomsInv(Next(s, t))
  {
    hide Serve, CanServe, ServedConns, Delivered, Where, H.Members;
    if t.Server? {
      ServeFrame(s, t.server);
    }
    forall r
      ensures Where(Next(s, t).conns, Inside(r)) == Where(s.conns, Inside(r))
    {
      ServedWhere(s, t, Inside(r));
    }
  }

  // ---------- references ----------

  function Refs(t: S.Table, r: Room): int { if r in t then t[r].refs else 0 }

  /** A room's references change with its holders. */
  ghost predicate RefsStep(before: S.Table, after: S.Table, x: Conn, y: Conn) {
    && y.room == x.room
    && (forall r :: r != x.room ==> Refs(after, r) == Refs(before, r) && (r in after <==> r in before))
    && Refs(after, x.room) == Refs(before, x.room)
         + (if On(y, Holding(x.room)) then 1 else 0) - (if On(x, Holding(x.room)) then 1 else 0)
    && (x.room in after ==> Refs(after, x.room) > 0)
  }

  lemma EnterRefs(s: State, c: ConnId, x: Conn, e: Entering)
    requires CanEnter(s, x, e) && (x.room in s.table ==> s.table[x.room].refs > 0)
    requires Subscriber(x) ==> x.room !in s.table
    ensures RefsStep(s.table, EnterRest(s, c, x, e).table, x, EnterSelf(s, x, e))
  {
  }

  lemma ExitTableOnly(s: State, c: ConnId, x: Conn, e: Exiting)
    requires CanExit(s, x, e)
    ensures ExitRest(s, c, x, e).table == if e.Release? then S.Release(s.table, x.room) else s.table
  {
    hide S.Release, H.Left, B.Drop, B.Fire;
  }

  lemma ExitHolding(s: State, c: ConnId, x: Conn, e: Exiting)
    requires CanExit(s, x, e)
    ensures
      var y := ExitSelf(s, c, x, e);
      && y.room == x.room && (e.Release? ==> x.pc.Releasing?)
      && (On(y, Holding(x.room)) <==> On(x, Holding(x.room)) && !e.Release?)
  {
  }

  lemma ExitRefs(s: State, c: ConnId, x: Conn, e: Exiting)
    requires CanExit(s, x, e) && (x.room in s.table ==> s.table[x.room].refs > 0)
    requires x.pc.Releasing? ==> x.room in s.table
    ensures RefsStep(s.table, ExitRest(s, c, x, e).table, x, ExitSelf(s, c, x, e))
  {
    hide ExitRest, ExitSelf, CanExit;
    ExitTableOnly(s, c, x, e);
    ExitHolding(s, c, x, e);
  }

  lemma HolderHasEntry(s: State, c: ConnId)
    requires RefsInv(s) && c in s.conns && On(s.conns[c], Holding(s.conns[c].room))
    ensures s.conns[c].room in s.table
  {
    assert c in Where(s.conns, Holding(s.conns[c].room));
  }

  lemma MoveRefs(s: State, t: Step)
    requires RefsInv(s) && RefsPositive(s) && LockInv(s) && ByHandler(t) && Enabled(s, t)
    ensures RefsStep(s.table, Rest(s, t).table, s.conns[t.c], Self(s, t))
  {
    hide EnterSelf, ListenSelf, SendSelf, ExitSelf, EnterRest, SendRest, ExitRest;
    hide CanEnter, CanListen, CanSend, CanExit;
    var x := s.conns[t.c];
    if x.pc.Releasing? {
      HolderHasEntry(s, t.c);
    }
    assert Subscriber(x) ==> x.room !in s.table;
    MoveRefsFrom(s, t);
  }

  lemma MoveRefsFrom(s: State, t: Step)
    requires RefsPositive(s) && ByHandler(t) && Enabled(s, t)
    requires Subscriber(s.conns[t.c]) ==> s.conns[t.c].room !in s.table
    requires s.conns[t.c].pc.Releasing? ==> s.conns[t.c].room in s.table
    ensures RefsStep(s.table, Rest(s, t).table, s.conns[t.c], Self(s, t))
  {
    hide EnterSelf, ListenSelf, SendSelf, ExitSelf, EnterRest, SendRest, ExitRest;
    hide CanEnter, CanListen, CanSend, CanExit;
    var x := s.conns[t.c];
    match t
    case Enter(c, e) => EnterRefs(s, c, x, e);
    case Listen(c, e) => ListenSelfFrame(x, e);
    case Send(c, e) => SendSelfFrame(s, x, e); SendRestFrame(s, x, e);
    case Exit(c, e) => ExitRefs(s, c, x, e);
  }

  lemma RefsMoved(s: State, table: S.Table, c: ConnId, y: Conn)
    requires RefsInv(s) && c in s.conns && RefsStep(s.table, table, s.conns[c], y)
    ensures forall r :: |Where(s.conns[c := y], Holding(r))| == Refs(table, r)
  {
    hide Where, RefsInv;
    forall r
      ensures |Where(s.conns[c := y], Holding(r))| == Refs(table, r)
    {
      WhereAfter(s.conns, c, y, Holding(r));
      InWhere(s.conns, c, Holding(r));
      RefsAt(s, r);
    }
  }

  lemma RefsAt(s: State, r: Room)
    requires RefsInv(s)
    ensures |Where(s.conns, Holding(r))| == Refs(s.table, r)
  {
  }

  /** Until Close takes the table over, the references are exact; an entry always holds at least one. */
  lemma RefsKept(s: State, t: Step)
    requires RefsInv(s) && RefsPositive(s) && LockInv(s) && Enabled(s, t)
    requires Progress(Next(s, t).closing) < 5
    ensures RefsInv(Next(s, t)) && RefsPositive(Next(s, t))
  {
    hide Self, Rest, CanEnter, CanListen, CanSend, CanExit, LockInv;
    if ByHandler(t) {
      MoveRefs(s, t);
      RefsMoved(s, Rest(s, t).table, t.c, Self(s, t));
      var table := Rest(s, t).table;
      forall r | r in table
        ensures table[r].refs > 0
      {
        assert r != s.conns[t.c].room ==> Refs(table, r) == Refs(s.table, r);
      }
    } else {
      RefsServed(s, t);
    }
  }

  lemma RefsServed(s: State, t: Step)
    requires RefsInv(s) && RefsPositive(s) && Enabled(s, t) && !ByHandler(t)
    requires Progress(Next(s, t).closing) < 5
    ensures RefsInv(Next(s, t)) && RefsPositive(Next(s, t))
  {
    hide Serve, CanServe, ServedConns, Delivered, Where, Progress;
    if t.Server? {
      ServeFrame(s, t.server);
      ServeProgress(s, t.server);
    }
    forall r
      ensures Where(Next(s, t).conns, Holding(r)) == Where(s.conns, Holding(r))
    {
      ServedWhere(s, t, Holding(r));
    }
  }

  // ---------- owners of broker subscriptions ----------

  predicate SameIds(a: S.Table, b: S.Table) {
    a.Keys == b.Keys && forall r :: r in a ==> a[r].id == b[r].id
  }

  /** The step gave nobody a subscription and took none away. */
  ghost predicate Unowned(s: State, r: State, x: Conn, y: Conn) {
    && r.broker == s.broker && SameIds(s.table, r.table)
    && IdOf(y.pc) == IdOf(x.pc) && (y.pc.Unsubscribing? <==> x.pc.Unsubscribing?) && y.room == x.room
  }

  lemma UnownedKeeps(s: State, c: ConnId, y: Conn, r: State)
    requires OwnersInv(s) && c in s.conns && Unowned(s, r, s.conns[c], y)
    ensures OneOwner(s.conns[c := y], r.table, r.broker)
  {
    var conns := s.conns[c := y];
    forall id | id in s.broker.rooms && id !in s.broker.fired
      ensures Owned(id, conns, r.table, r.broker)
    {
      assert Owned(id, s.conns, s.table, s.broker);
      if !InTable(id, s.table, s.broker) {
        var d :| d in s.conns && IdOf(s.conns[d].pc) == Some(id);
        assert d in conns && IdOf(conns[d].pc) == Some(id);
      }
    }
  }

  lemma OwnersRecord(s: State, c: ConnId, y: Conn)
    requires OwnersInv(s) && B.Valid(s.broker)
    requires c in s.conns && s.conns[c].pc.Opened? && s.conns[c].room !in s.table
    requires y == s.conns[c].(pc := Recorded(s.broker.subIndex + 1))
    ensures OneOwner(s.conns[c := y], s.table, B.Register(s.broker, y.room))
  {
    var conns, broker := s.conns[c := y], B.Register(s.broker, y.room);
    B.RegisterValid(s.broker, y.room);
    forall id | id in broker.rooms && id !in broker.fired
      ensures Owned(id, conns, s.table, broker)
    {
      if id == broker.subIndex {
        assert c in conns && IdOf(conns[c].pc) == Some(id);
      } else {
        assert Owned(id, s.conns, s.table, s.broker);
        if !InTable(id, s.table, s.broker) {
          var d :| d in s.conns && IdOf(s.conns[d].pc) == Some(id);
          assert d in conns && IdOf(conns[d].pc) == Some(id);
        }
      }
    }
  }

  lemma OwnersInsert(s: State, c: ConnId, y: Conn)
    requires OwnersInv(s)
    requires c in s.conns && s.conns[c].pc.Recorded? && s.conns[c].room !in s.table
    requires y == s.conns[c].(pc := Joining)
    ensures OneOwner(s.conns[c := y], S.Insert(s.table, y.room, s.conns[c].pc.id), s.broker)
  {
    var conns, mine := s.conns[c := y], s.conns[c].pc.id;
    var table := S.Insert(s.table, y.room, mine);
    assert InHand(s.conns[c], s.table, s.broker);
    forall id | id in s.broker.rooms && id !in s.broker.fired
      ensures Owned(id, conns, table, s.broker)
    {
      assert Owned(id, s.conns, s.table, s.broker);
      if id != mine && !InTable(id, s.table, s.broker) {
        var d :| d in s.conns && IdOf(s.conns[d].pc) == Some(id);
        assert d in conns && IdOf(conns[d].pc) == Some(id);
      }
    }
    forall d | d in conns && IdOf(conns[d].pc).Some?
      ensures InHand(conns[d], table, s.broker)
    {
      assert InHand(s.conns[d], s.table, s.broker);
    }
  }

  lemma OwnersRelease(s: State, c: ConnId, y: Conn)
    requires OwnersInv(s) && B.Valid(s.broker)
    requires c in s.conns && s.conns[c].pc.Releasing? && s.conns[c].room in s.table
    requires y == s.conns[c].(pc := Dropping(s.table[s.conns[c].room].id))
    ensures OneOwner(s.conns[c := y], s.table - {y.room}, s.broker)
  {
    var conns, table, mine := s.conns[c := y], s.table - {y.room}, s.table[y.room].id;
    assert mine !in s.broker.fired;
    hide B.Valid;
    forall id | id in s.broker.rooms && id !in s.broker.fired
      ensures Owned(id, conns, table, s.broker)
    {
      assert Owned(id, s.conns, s.table, s.broker);
      if id == mine {
        assert c in conns && IdOf(conns[c].pc) == Some(id);
      } else if !InTable(id, s.table, s.broker) {
        var d :| d in s.conns && IdOf(s.conns[d].pc) == Some(id);
        assert d in conns && IdOf(conns[d].pc) == Some(id);
      }
    }
    forall d | d in s.conns && d != c && IdOf(s.conns[d].pc).Some?
      ensures InHand(s.conns[d], s.table, s.broker) && IdOf(s.conns[d].pc) != Some(mine)
    {
      assert InHand(s.conns[d], s.table, s.broker);
    }
  }

  lemma OwnersDrop(s: State, c: ConnId, y: Conn)
    requires OwnersInv(s) && B.Valid(s.broker)
    requires c in s.conns && s.conns[c].pc.Dropping?
    requires y == s.conns[c].(pc := Unsubscribing(s.conns[c].pc.id))
    ensures OneOwner(s.conns[c := y], s.table, B.Drop(s.broker, y.pc.id))
  {
    var conns, mine := s.conns[c := y], y.pc.id;
    var broker := B.Drop(s.broker, mine);
    assert InHand(s.conns[c], s.table, s.broker);
    forall id | id in broker.rooms && id !in broker.fired
      ensures Owned(id, conns, s.table, broker)
    {
      assert Owned(id, s.conns, s.table, s.broker);
      if !InTable(id, s.table, s.broker) {
        var d :| d in s.conns && IdOf(s.conns[d].pc) == Some(id);
        assert d in conns && IdOf(conns[d].pc) == Some(id);
      }
    }
    forall d | d in conns && IdOf(conns[d].pc).Some?
      ensures InHand(conns[d], s.table, broker)
    {
      assert InHand(s.conns[d], s.table, s.broker);
      assert d != c ==> IdOf(s.conns[d].pc) != IdOf(s.conns[c].pc);
    }
    forall r | r in s.table
      ensures s.table[r].id != mine
    {
      assert s.broker.rooms[s.table[r].id] == r;
    }
  }

  lemma OwnersFire(s: State, c: ConnId, y: Conn)
    requires OwnersInv(s) && B.Valid(s.broker)
    requires c in s.conns && s.conns[c].pc.Unsubscribing?
    requires y == s.conns[c].(pc := CountingOut)
    ensures OneOwner(s.conns[c := y], s.table, B.Fire(s.broker, s.conns[c].pc.id))
  {
    var conns, mine := s.conns[c := y], s.conns[c].pc.id;
    var broker := B.Fire(s.broker, mine);
    assert InHand(s.conns[c], s.table, s.broker);
    assert broker.rooms == s.broker.rooms && broker.fired == s.broker.fired + {mine}
        && broker.closers == s.broker.closers;
    hide B.Valid, B.Fire;
    forall id | id in broker.rooms && id !in broker.fired
      ensures Owned(id, conns, s.table, broker)
    {
      assert Owned(id, s.conns, s.table, s.broker);
      if !InTable(id, s.table, s.broker) {
        var d :| d in s.conns && IdOf(s.conns[d].pc) == Some(id);
        assert d in conns && IdOf(conns[d].pc) == Some(id);
      }
    }
    forall d | d in conns && IdOf(conns[d].pc).Some?
      ensures InHand(conns[d], s.table, broker)
    {
      assert InHand(s.conns[d], s.table, s.broker);
      assert IdOf(s.conns[d].pc) != IdOf(s.conns[c].pc);
    }
  }

  lemma EnterUnowned(s: State, c: ConnId, x: Conn, e: Entering)
    requires CanEnter(s, x, e) && !e.RecordCloser? && !e.InsertEntry?
    ensures Unowned(s, EnterRest(s, c, x, e), x, EnterSelf(s, x, e))
  {
  }

  lemma ExitUnowned(s: State, c: ConnId, x: Conn, e: Exiting)
    requires CanExit(s, x, e) && !e.DropCloser? && !e.CloseSubscription?
    requires e.Release? ==> S.LastReleased(s.table, x.room).None?
    ensures Unowned(s, ExitRest(s, c, x, e), x, ExitSelf(s, c, x, e))
  {
  }

  lemma EnterOwners(s: State, c: ConnId, e: Entering)
    requires OwnersInv(s) && IdsInv(s) && LockInv(s) && c in s.conns && CanEnter(s, s.conns[c], e)
    ensures
      var r := EnterRest(s, c, s.conns[c], e);
      OneOwner(s.conns[c := EnterSelf(s, s.conns[c], e)], r.table, r.broker)
  {
    hide OneOwner;
    var x := s.conns[c];
    if e.RecordCloser? {
      OwnersRecord(s, c, EnterSelf(s, x, e));
    } else if e.InsertEntry? {
      OwnersInsert(s, c, EnterSelf(s, x, e));
    } else {
      EnterUnowned(s, c, x, e);
      UnownedKeeps(s, c, EnterSelf(s, x, e), EnterRest(s, c, x, e));
    }
  }

  lemma ExitOwners(s: State, c: ConnId, e: Exiting)
    requires OwnersInv(s) && IdsInv(s) && c in s.conns && CanExit(s, s.conns[c], e)
    ensures
      var r := ExitRest(s, c, s.conns[c], e);
      OneOwner(s.conns[c := ExitSelf(s, c, s.conns[c], e)], r.table, r.broker)
  {
    hide OneOwner;
    var x := s.conns[c];
    if e.DropCloser? {
      OwnersDrop(s, c, ExitSelf(s, c, x, e));
    } else if e.CloseSubscription? {
      OwnersFire(s, c, ExitSelf(s, c, x, e));
    } else if e.Release? && S.LastReleased(s.table, x.room).Some? {
      OwnersRelease(s, c, ExitSelf(s, c, x, e));
    } else {
      ExitUnowned(s, c, x, e);
      UnownedKeeps(s, c, ExitSelf(s, c, x, e), ExitRest(s, c, x, e));
    }
  }

  lemma MoveOwners(s: State, t: Step)
    requires OwnersInv(s) && IdsInv(s) && LockInv(s) && ByHandler(t) && Enabled(s, t)
    ensures OneOwner(s.conns[t.c := Self(s, t)], Rest(s, t).table, Rest(s, t).broker)
  {
    hide EnterSelf, ListenSelf, SendSelf, ExitSelf, EnterRest, SendRest, ExitRest;
    hide CanEnter, CanListen, CanSend, CanExit;
    hide OneOwner, IdsInv, LockInv;
    var x := s.conns[t.c];
    match t
    case Enter(c, e) => EnterOwners(s, c, e);
    case Listen(c, e) => ListenSelfFrame(x, e); UnownedKeeps(s, c, ListenSelf(x, e), ListenRest(s, e));
    case Send(c, e) =>
      SendSelfFrame(s, x, e);
      SendRestFrame(s, x, e);
      UnownedKeeps(s, c, SendSelf(s, x, e), SendRest(s, x, e));
    case Exit(c, e) => ExitOwners(s, c, e);
  }

  lemma OwnersKept(s: State, t: Step)
    requires OwnersInv(s) && IdsInv(s) && LockInv(s) && Enabled(s, t)
    requires Progress(Next(s, t).closing) < 5
    ensures OwnersInv(Next(s, t))
  {
    hide Self, Rest, Progress, CanEnter, CanListen, CanSend, CanExit, OneOwner, LockInv, IdsInv;
    if ByHandler(t) {
      MoveOwners(s, t);
    } else {
      OwnersServed(s, t);
    }
  }

  lemma OwnersServed(s: State, t: Step)
    requires OwnersInv(s) && Enabled(s, t) && !ByHandler(t)
    requires Progress(Next(s, t).closing) < 5
    ensures OwnersInv(Next(s, t))
  {
    NextIs(s, t);
    ServedPcs(s, t);
    hide OneOwner, Next, Enabled, Progress, Serve, CanServe, ServedConns;
    if t.Server? {
      ServeFrame(s, t.server);
      ServeProgress(s, t.server);
      ServeBroker(s, t.server);
    }
    OwnersFrame(s, Next(s, t).conns);
  }

  lemma OwnersFrame(s: State, conns: map<ConnId, Conn>)
    requires OwnersInv(s) && s.conns.Keys <= conns.Keys
    requires forall c :: c in s.conns ==> conns[c].pc == s.conns[c].pc && conns[c].room == s.conns[c].room
    requires forall c :: c in conns && c !in s.conns ==> conns[c].pc.Arrived?
    ensures OneOwner(conns, s.table, s.broker)
  {
    forall id | id in s.broker.rooms && id !in s.broker.fired
      ensures Owned(id, conns, s.table, s.broker)
    {
      assert Owned(id, s.conns, s.table, s.broker);
      if !InTable(id, s.table, s.broker) {
        var d :| d in s.conns && IdOf(s.conns[d].pc) == Some(id);
        assert d in conns && IdOf(conns[d].pc) == Some(id);
      }
    }
    forall d | d in conns && IdOf(conns[d].pc).Some?
      ensures InHand(conns[d], s.table, s.broker)
    {
      assert InHand(s.conns[d], s.table, s.broker);
    }
  }

  lemma ServeBroker(s: State, e: ServerEvent)
    requires CanServe(s, e)
    ensures
      var r := Serve(s, e);
      r.broker == if e.EndSubscription? then B.Drop(s.broker, s.table[e.room].id)
                  else if e.EndDropped? then B.Fire(s.broker, s.closing.id)
                  else if e.CloseBroker? then B.CloseAll(s.broker) else s.broker
  {
    hide P.Flush, P.Receive, P.Saved, B.Fire, B.Drop, B.CloseAll;
  }

  // ---------- identifiers ----------

  /** Registered subscriptions stay registered, and only a new one gets a closer. */
  ghost predicate Grows(before: B.Subscriptions, after: B.Subscriptions) {
    && B.Valid(after)
    && (forall id :: id in before.rooms ==> id in after.rooms && (id in after.closers ==> id in before.closers))
  }

  ghost predicate IdsStep(s: State, r: State, y: Conn) {
    && Grows(s.broker, r.broker)
    && (forall room :: room in r.table ==> r.table[room].id in r.broker.rooms)
    && (IdOf(y.pc).Some? ==> IdOf(y.pc).value in r.broker.rooms)
    && (y.pc.Unsubscribing? ==> y.pc.id !in r.broker.closers)
  }

  lemma RecordIds(s: State, c: ConnId)
    requires IdsInv(s) && c in s.conns && CanEnter(s, s.conns[c], RecordCloser)
    ensures IdsStep(s, EnterRest(s, c, s.conns[c], RecordCloser), EnterSelf(s, s.conns[c], RecordCloser))
  {
    B.RegisterValid(s.broker, s.conns[c].room);
  }

  lemma EnterIds(s: State, c: ConnId, e: Entering)
    requires IdsInv(s) && c in s.conns && CanEnter(s, s.conns[c], e)
    ensures IdsStep(s, EnterRest(s, c, s.conns[c], e), EnterSelf(s, s.conns[c], e))
  {
    hide B.Valid, B.Register;
    if e.RecordCloser? {
      hide EnterSelf, EnterRest, CanEnter;
      RecordIds(s, c);
    }
  }

  lemma DropIds(s: State, c: ConnId, e: Exiting)
    requires IdsInv(s) && c in s.conns && CanExit(s, s.conns[c], e) && (e.DropCloser? || e.CloseSubscription?)
    ensures IdsStep(s, ExitRest(s, c, s.conns[c], e), ExitSelf(s, c, s.conns[c], e))
  {
    B.UnsubscribeValid(s.broker, s.conns[c].pc.id);
    hide B.Valid;
  }

  lemma ExitIds(s: State, c: ConnId, e: Exiting)
    requires IdsInv(s) && c in s.conns && CanExit(s, s.conns[c], e)
    ensures IdsStep(s, ExitRest(s, c, s.conns[c], e), ExitSelf(s, c, s.conns[c], e))
  {
    hide B.Valid, B.Drop, B.Fire;
    if e.DropCloser? || e.CloseSubscription? {
      hide ExitSelf, ExitRest, CanExit;
      DropIds(s, c, e);
    }
  }

  lemma MoveIds(s: State, t: Step)
    requires IdsInv(s) && ByHandler(t) && Enabled(s, t)
    ensures IdsStep(s, Rest(s, t), Self(s, t))
  {
    hide EnterSelf, ListenSelf, SendSelf, ExitSelf, EnterRest, SendRest, ExitRest;
    hide CanEnter, CanListen, CanSend, CanExit;
    var x := s.conns[t.c];
    match t
    case Enter(c, e) => EnterIds(s, c, e);
    case Listen(c, e) => ListenSelfFrame(x, e);
    case Send(c, e) => SendSelfFrame(s, x, e); SendRestFrame(s, x, e);
    case Exit(c, e) => ExitIds(s, c, e);
  }

  lemma IdsKept(s: State, t: Step)
    requires IdsInv(s) && Enabled(s, t)
    ensures IdsInv(Next(s, t))
  {
    hide Self, Rest, Serve, CanEnter, CanListen, CanSend, CanExit, B.Valid;
    if ByHandler(t) {
      MoveIds(s, t);
      SameClosing(s, t);
    } else {
      IdsServed(s, t);
    }
  }

  lemma IdsServed(s: State, t: Step)
    requires IdsInv(s) && Enabled(s, t) && !ByHandler(t)
    ensures IdsInv(Next(s, t))
  {
    hide Serve, CanServe, ServedConns, Delivered, B.Valid;
    ServedPcs(s, t);
    if t.Server? {
      ServeFrame(s, t.server);
      ServeGrows(s, t.server);
      ServeBroker(s, t.server);
      ServeEnding(s, t.server);
    }
  }

  lemma ServeGrows(s: State, e: ServerEvent)
    requires IdsInv(s) && CanServe(s, e)
    ensures Grows(s.broker, Serve(s, e).broker) && Serve(s, e).broker.rooms == s.broker.rooms
  {
    ServeEnding(s, e);
    ServeBroker(s, e);
    hide Serve;
    if e.EndSubscription? {
      B.UnsubscribeValid(s.broker, s.table[e.room].id);
    } else if e.EndDropped? {
      B.UnsubscribeValid(s.broker, s.closing.id);
    } else if e.CloseBroker? {
      B.CloseAllValid(s.broker);
    }
  }

  // ---------- pending closes ----------

  ghost predicate PendingStep(before: B.Subscriptions, after: B.Subscriptions, x: Conn, y: Conn) {
    forall id :: id in B.Pending(after) ==>
      y.pc == Unsubscribing(id) || (id in B.Pending(before) && x.pc != Unsubscribing(id))
  }

  lemma EnterPending(s: State, c: ConnId, x: Conn, e: Entering)
    requires CanEnter(s, x, e) && B.Valid(s.broker)
    ensures PendingStep(s.broker, EnterRest(s, c, x, e).broker, x, EnterSelf(s, x, e))
  {
  }

  lemma ExitPending(s: State, c: ConnId, x: Conn, e: Exiting)
    requires CanExit(s, x, e) && B.Valid(s.broker)
    requires IdOf(x.pc).Some? ==> IdOf(x.pc).value in s.broker.rooms
    requires x.pc.Unsubscribing? ==> x.pc.id !in s.broker.closers
    ensures PendingStep(s.broker, ExitRest(s, c, x, e).broker, x, ExitSelf(s, c, x, e))
  {
    if x.pc.Dropping? || x.pc.Unsubscribing? {
      B.UnsubscribeValid(s.broker, x.pc.id);
    }
    hide B.Valid, B.Pending, B.Drop, B.Fire;
  }

  lemma MovePending(s: State, t: Step)
    requires IdsInv(s) && ByHandler(t) && Enabled(s, t)
    ensures PendingStep(s.broker, Rest(s, t).broker, s.conns[t.c], Self(s, t))
  {
    hide EnterSelf, ListenSelf, SendSelf, ExitSelf, EnterRest, SendRest, ExitRest;
    hide CanEnter, CanListen, CanSend, CanExit;
    hide B.Valid, B.Pending;
    var x := s.conns[t.c];
    match t
    case Enter(c, e) => EnterPending(s, c, x, e);
    case Listen(c, e) => ListenSelfFrame(x, e);
    case Send(c, e) => SendSelfFrame(s, x, e); SendRestFrame(s, x, e);
    case Exit(c, e) => ExitPending(s, c, x, e);
  }

  lemma PendingKept(s: State, t: Step)
    requires PendingInv(s) && IdsInv(s) && Enabled(s, t)
    ensures PendingInv(Next(s, t))
  {
    hide Self, Rest, Serve, Delivered, CanEnter, CanListen, CanSend, CanExit, CanServe, IdsInv, B.Pending, ByCloser;
    var s' := Next(s, t);
    if ByHandler(t) {
      MovePending(s, t);
      SameClosing(s, t);
    } else {
      ServedPcs(s, t);
      if t.Server? {
        ServePending(s, t.server);
      }
    }
    forall id | id in B.Pending(s'.broker) && !ByCloser(s'.closing, id)
      ensures exists c :: c in s'.conns && s'.conns[c].pc == Unsubscribing(id)
    {
      if ByHandler(t) && s'.conns[t.c].pc == Unsubscribing(id) {
      } else {
        var c :| c in s.conns && s.conns[c].pc == Unsubscribing(id);
        assert c in s'.conns && s'.conns[c].pc == Unsubscribing(id);
      }
    }
  }

  lemma ServePending(s: State, e: ServerEvent)
    requires IdsInv(s) && CanServe(s, e)
    ensures
      var r := Serve(s, e);
      forall id :: id in B.Pending(r.broker) ==>
        ByCloser(r.closing, id) || (id in B.Pending(s.broker) && !ByCloser(s.closing, id))
  {
    ServeBroker(s, e);
    ServeEnding(s, e);
    hide Serve;
    if e.EndSubscription? {
      B.UnsubscribeValid(s.broker, s.table[e.room].id);
    } else if e.EndDropped? {
      B.UnsubscribeValid(s.broker, s.closing.id);
    } else if e.CloseBroker? {
      B.CloseAllValid(s.broker);
    }
    hide B.Valid, B.Pending, B.Drop, B.Fire, B.CloseAll;
  }

  /** How Close goes through the table. */
  lemma ServeEnding(s: State, e: ServerEvent)
    requires CanServe(s, e)
    ensures
      var p := Serve(s, e).closing;
      && (e.LockSubs? ==> p == EndingSubscriptions(s.table.Keys))
      && (e.EndSubscription? ==>
            && s.closing.EndingSubscriptions? && e.room in s.table
            && p == EndingOne(s.table[e.room].id, s.closing.todo - {e.room}))
      && (e.EndDropped? ==> s.closing.EndingOne? && p == EndingSubscriptions(s.closing.todo))
      && (s.closing.EndingOne? && !e.EndDropped? ==> p == s.closing)
      && (!e.LockSubs? && !e.EndSubscription? && !e.EndDropped? ==>
            p == s.closing || !(p.EndingSubscriptions? || p.EndingOne?))
      && (e.ClearTable? ==> !(p.EndingSubscriptions? || p.EndingOne?))
  {
    hide P.Flush, P.Receive, P.Saved, P.CanReceive, B.Fire, B.Drop, B.CloseAll;
  }

  // ---------- what Close has still to end ----------

  /** While Close holds the subscription lock, no handler removes an entry. */
  lemma EnterTable(s: State, c: ConnId, x: Conn, e: Entering)
    requires CanEnter(s, x, e)
    ensures s.table.Keys <= EnterRest(s, c, x, e).table.Keys
  {
  }

  lemma ExitTable(s: State, c: ConnId, x: Conn, e: Exiting)
    requires CanExit(s, x, e) && s.subMu.ByClose?
    ensures ExitRest(s, c, x, e).table == s.table
  {
  }

  lemma MoveTable(s: State, t: Step)
    requires s.subMu.ByClose? && ByHandler(t) && Enabled(s, t)
    ensures s.table.Keys <= Rest(s, t).table.Keys
  {
    hide EnterRest, SendRest, ExitRest, CanEnter, CanListen, CanSend, CanExit;
    var x := s.conns[t.c];
    match t
    case Enter(c, e) => EnterTable(s, c, x, e);
    case Listen(_, _) =>
    case Send(_, e) => SendRestFrame(s, x, e);
    case Exit(c, e) => ExitTable(s, c, x, e);
  }

  lemma EndingKept(s: State, t: Step)
    requires EndingInv(s) && LockInv(s) && Enabled(s, t)
    ensures EndingInv(Next(s, t))
  {
    EndingLocked(s);
    hide LockInv, Self, Rest, Serve, CanEnter, CanListen, CanSend, CanExit, CanServe;
    if ByHandler(t) {
      SameClosing(s, t);
      if s.subMu.ByClose? {
        MoveTable(s, t);
      }
    } else if t.Server? {
      ServeFrame(s, t.server);
      ServeEnding(s, t.server);
    }
  }

  lemma EndingLocked(s: State)
    requires LockInv(s)
    ensures s.closing.EndingSubscriptions? || s.closing.EndingOne? ==> s.subMu.ByClose?
  {
  }

  // ---------- the counters ----------

  function Has(x: Conn, k: Stretch): int { if On(x, k) then 1 else 0 }

  /** Each count changes together with the calls under way. */
  ghost predicate CountersStep(s: State, r: State, x: Conn, y: Conn) {
    var k, k' := s.counters, r.counters;
    && k'.sends - k'.invalid - k'.limited - k'.limiterErrors - k'.accepted
       == k.sends - k.invalid - k.limited - k.limiterErrors - k.accepted + Has(y, CHECKING) - Has(x, CHECKING)
    && k'.accepted - k'.published - k'.publishErrors
       == k.accepted - k.published - k.publishErrors + Has(y, PUBLISHING) - Has(x, PUBLISHING)
    && k'.published - k'.queued - k'.dropped
       == k.published - k.queued - k.dropped + Has(y, PERSISTING) - Has(x, PERSISTING)
    && k'.limited - k'.userLimited - k'.ipLimited - k'.roomLimited
       == k.limited - k.userLimited - k.ipLimited - k.roomLimited
    && k'.active == k.active + Has(y, COUNTED) - Has(x, COUNTED)
    && k'.dropped - k'.closedDrops >= k.dropped - k.closedDrops
    && (k'.closedDrops == k.closedDrops || s.persistClosed)
    && k'.published - |r.published| == k.published - |s.published|
    && k'.queued - |r.pipe.enqueued| == k.queued - |s.pipe.enqueued|
  }

  lemma EnterCountersOnly(s: State, c: ConnId, x: Conn, e: Entering)
    requires CanEnter(s, x, e)
    ensures EnterRest(s, c, x, e).counters ==
      s.counters.(active := s.counters.active + if e.CountIn? then 1 else 0)
    ensures EnterRest(s, c, x, e).pipe == s.pipe && EnterRest(s, c, x, e).published == s.published
  {
  }

  lemma EnterStretches(s: State, x: Conn, e: Entering)
    requires CanEnter(s, x, e)
    ensures
      var y := EnterSelf(s, x, e);
      && !InSend(x.pc) && !InSend(y.pc)
      && Has(y, COUNTED) == Has(x, COUNTED) + if e.CountIn? then 1 else 0
  {
  }

  predicate InSend(pc: Pc) { 9 <= Stage(pc) <= 13 }

  lemma EnterCounters(s: State, c: ConnId, x: Conn, e: Entering)
    requires CanEnter(s, x, e)
    ensures CountersStep(s, EnterRest(s, c, x, e), x, EnterSelf(s, x, e))
  {
    hide EnterRest, EnterSelf, CanEnter, Stage;
    EnterCountersOnly(s, c, x, e);
    EnterStretches(s, x, e);
  }

  lemma ListenCounters(s: State, x: Conn, e: Listening)
    requires CanListen(x, e)
    ensures CountersStep(s, ListenRest(s, e), x, ListenSelf(x, e))
  {
  }

  lemma CheckCounters(s: State, x: Conn, e: Sending)
    requires CanSend(s, x, e) && x.pc.Checking?
    ensures CountersStep(s, SendRest(s, x, e), x, SendSelf(s, x, e))
  {
    hide P.Put, P.HasSpace, RecordOf, MessageOf;
  }

  lemma PublishCounters(s: State, x: Conn, e: Sending)
    requires CanSend(s, x, e) && x.pc.Publishing?
    ensures CountersStep(s, SendRest(s, x, e), x, SendSelf(s, x, e))
  {
    hide P.Put, P.HasSpace, RecordOf, Limited;
  }

  lemma LockCounters(s: State, x: Conn, e: Sending)
    requires CanSend(s, x, e) && (e.LockPersist? || e.CheckClosed?)
    ensures CountersStep(s, SendRest(s, x, e), x, SendSelf(s, x, e))
  {
    hide P.Put, P.HasSpace, RecordOf, Limited, MessageOf;
  }

  lemma PutOnly(s: State, x: Conn)
    requires CanSend(s, x, PutRecord) && !s.pipe.closed
    ensures
      var r, k, kept := SendRest(s, x, PutRecord), s.counters, P.HasSpace(s.pipe);
      && SendSelf(s, x, PutRecord) == x.(pc := Reading) && r.published == s.published
      && r.counters == (if kept then k.(queued := k.queued + 1) else k.(dropped := k.dropped + 1))
      && r.pipe.enqueued == s.pipe.enqueued + if kept then [RecordOf(x.pc.message)] else []
  {
    hide P.Put, P.HasSpace, RecordOf, Limited, MessageOf;
  }

  lemma PutCounters(s: State, x: Conn)
    requires CanSend(s, x, PutRecord) && !s.pipe.closed
    ensures CountersStep(s, SendRest(s, x, PutRecord), x, SendSelf(s, x, PutRecord))
  {
    PutOnly(s, x);
    hide SendRest, SendSelf, P.HasSpace, RecordOf;
  }

  lemma SendCounters(s: State, x: Conn, e: Sending)
    requires CanSend(s, x, e) && !(e.PutRecord? && s.pipe.closed)
    ensures CountersStep(s, SendRest(s, x, e), x, SendSelf(s, x, e))
  {
    hide SendRest, SendSelf, CountersStep;
    if x.pc.Checking? {
      CheckCounters(s, x, e);
    } else if x.pc.Publishing? {
      PublishCounters(s, x, e);
    } else if e.PutRecord? {
      PutCounters(s, x);
    } else {
      LockCounters(s, x, e);
    }
  }

  lemma ExitCountersOnly(s: State, c: ConnId, x: Conn, e: Exiting)
    requires CanExit(s, x, e)
    ensures ExitRest(s, c, x, e).counters ==
      s.counters.(active := s.counters.active - if e.CountOut? then 1 else 0)
    ensures ExitRest(s, c, x, e).pipe == s.pipe && ExitRest(s, c, x, e).published == s.published
  {
  }

  lemma ExitStretches(s: State, c: ConnId, x: Conn, e: Exiting)
    requires CanExit(s, x, e)
    ensures
      var y := ExitSelf(s, c, x, e);
      && (y.pc == x.pc || (Stage(x.pc) >= 14 && Stage(y.pc) > 14))
      && Has(y, COUNTED) == Has(x, COUNTED) - if e.CountOut? then 1 else 0
  {
  }

  lemma ExitCounters(s: State, c: ConnId, x: Conn, e: Exiting)
    requires CanExit(s, x, e)
    ensures CountersStep(s, ExitRest(s, c, x, e), x, ExitSelf(s, c, x, e))
  {
    hide ExitRest, ExitSelf, CanExit, Stage;
    ExitCountersOnly(s, c, x, e);
    ExitStretches(s, c, x, e);
  }

  /** The fence: whoever is about to send a record finds the channel open. */
  lemma ChannelOpen(s: State, c: ConnId)
    requires LockInv(s) && c in s.conns && s.conns[c].pc.Putting?
    ensures !s.pipe.closed && !s.persistClosed
  {
  }

  lemma MoveCounters(s: State, t: Step)
    requires LockInv(s) && ByHandler(t) && Enabled(s, t)
    ensures CountersStep(s, Rest(s, t), s.conns[t.c], Self(s, t))
  {
    hide EnterSelf, ListenSelf, SendSelf, ExitSelf, EnterRest, ListenRest, SendRest, ExitRest;
    hide CanEnter, CanListen, CanExit, CountersStep, LockInv;
    var x := s.conns[t.c];
    match t
    case Enter(c, e) => EnterCounters(s, c, x, e);
    case Listen(c, e) => ListenCounters(s, x, e);
    case Send(c, e) =>
      if e.PutRecord? {
        ChannelOpen(s, c);
      }
      SendCounters(s, x, e);
    case Exit(c, e) => ExitCounters(s, c, x, e);
  }

  lemma CountersMoved(s: State, r: State, c: ConnId, y: Conn)
    requires CountersInv(s) && c in s.conns && CountersStep(s, r, s.conns[c], y)
    requires r.closing == s.closing && (s.persistClosed ==> Progress(s.closing) >= 2)
    ensures CountersInv(r.(conns := s.conns[c := y]))
  {
    hide On, Progress;
    WhereHas(s.conns, c, y, CHECKING);
    WhereHas(s.conns, c, y, PUBLISHING);
    WhereHas(s.conns, c, y, PERSISTING);
    WhereHas(s.conns, c, y, COUNTED);
  }

  lemma WhereHas(conns: map<ConnId, Conn>, c: ConnId, y: Conn, k: Stretch)
    requires c in conns
    ensures |Where(conns[c := y], k)| == |Where(conns, k)| + Has(y, k) - Has(conns[c], k)
  {
    WhereAfter(conns, c, y, k);
    InWhere(conns, c, k);
  }

  lemma CountersKept(s: State, t: Step)
    requires CountersInv(s) && LockInv(s) && Enabled(s, t)
    ensures CountersInv(Next(s, t))
  {
    hide Self, Rest, Serve, CanEnter, CanListen, CanSend, CanExit, CanServe;
    hide CountersInv, CountersStep, LockStep, Progress;
    if ByHandler(t) {
      MoveCounters(s, t);
      MoveLock(s, t);
      SameClosing(s, t);
      CountersMoved(s, Rest(s, t), t.c, Self(s, t));
    } else {
      CountersServed(s, t);
    }
  }

  lemma CountersServed(s: State, t: Step)
    requires CountersInv(s) && Enabled(s, t) && !ByHandler(t)
    ensures CountersInv(Next(s, t))
  {
    hide Serve, CanServe, ServedConns, Delivered, Where, Progress;
    ServedWhere(s, t, CHECKING);
    ServedWhere(s, t, PUBLISHING);
    ServedWhere(s, t, PERSISTING);
    ServedWhere(s, t, COUNTED);
    if t.Server? {
      ServeFrame(s, t.server);
      ServePipe(s, t.server);
      ServeProgress(s, t.server);
    }
  }

  // ---------- messages ----------

  ghost predicate MessagesStep(s: State, r: State, x: Conn, y: Conn) {
    && y.room == x.room && y.user == x.user
    && if y.pc.Persisting? && !On(x, PERSISTING) then
         && r.published == s.published + [y.pc.message] && ValidContent(y.pc.message.content)
         && y.pc.message.room == y.room && y.pc.message.user == y.user
         && r.pipe.enqueued == s.pipe.enqueued
       else
         && r.published == s.published
         && (On(y, PERSISTING) ==> On(x, PERSISTING) && y.pc.message == x.pc.message)
         && (|| r.pipe.enqueued == s.pipe.enqueued
             || (On(x, PERSISTING) && !On(y, PERSISTING)
                 && r.pipe.enqueued == s.pipe.enqueued + [RecordOf(x.pc.message)]))
  }

  lemma EnterMessages(s: State, c: ConnId, x: Conn, e: Entering)
    requires CanEnter(s, x, e)
    ensures MessagesStep(s, EnterRest(s, c, x, e), x, EnterSelf(s, x, e))
  {
  }

  lemma SendMessages(s: State, x: Conn, e: Sending)
    requires CanSend(s, x, e) && (x.pc.Publishing? ==> ValidContent(x.pc.content))
    ensures MessagesStep(s, SendRest(s, x, e), x, SendSelf(s, x, e))
  {
  }

  lemma ExitMessages(s: State, c: ConnId, x: Conn, e: Exiting)
    requires CanExit(s, x, e)
    ensures MessagesStep(s, ExitRest(s, c, x, e), x, ExitSelf(s, c, x, e))
  {
  }

  lemma MoveMessages(s: State, t: Step)
    requires ConnInv(s) && ByHandler(t) && Enabled(s, t)
    ensures MessagesStep(s, Rest(s, t), s.conns[t.c], Self(s, t))
  {
    hide EnterSelf, ListenSelf, SendSelf, ExitSelf, EnterRest, SendRest, ExitRest;
    hide CanEnter, CanListen, CanSend, CanExit;
    var x := s.conns[t.c];
    assert ConnOk(x);
    match t
    case Enter(c, e) => EnterMessages(s, c, x, e);
    case Listen(c, e) => ListenSelfFrame(x, e);
    case Send(c, e) => SendMessages(s, x, e);
    case Exit(c, e) => ExitMessages(s, c, x, e);
  }

  lemma MessagesKept(s: State, t: Step)
    requires MessagesInv(s) && ConnInv(s) && Enabled(s, t)
    ensures MessagesInv(Next(s, t))
  {
    hide Self, Rest, Serve, CanEnter, CanListen, CanSend, CanExit, ConnInv;
    if ByHandler(t) {
      MoveMessages(s, t);
      MessagesMoved(s, Rest(s, t), t.c, Self(s, t));
    } else {
      MessagesServed(s, t);
    }
  }

  lemma MessagesMoved(s: State, r: State, c: ConnId, y: Conn)
    requires MessagesInv(s) && c in s.conns && MessagesStep(s, r, s.conns[c], y)
    ensures MessagesInv(r.(conns := s.conns[c := y]))
  {
  }

  lemma MessagesServed(s: State, t: Step)
    requires MessagesInv(s) && Enabled(s, t) && !ByHandler(t)
    ensures MessagesInv(Next(s, t))
  {
    hide Serve, CanServe, ServedConns, Delivered, RecordOf;
    var s' := Next(s, t);
    ServedPcs(s, t);
    if t.Server? {
      ServeFrame(s, t.server);
      ServePipe(s, t.server);
    }
    forall m | m in s.pipe.enqueued
      ensures Genuine(s', m)
    {
      assert Genuine(s, m);
    }
  }

  // ---------- no message twice ----------

  function Carries(x: Conn, r: P.Record): int {
    if On(x, PERSISTING) && RecordOf(x.pc.message) == r then 1 else 0
  }

  lemma CarryingAfter(conns: map<ConnId, Conn>, c: ConnId, y: Conn, r: P.Record)
    requires c in conns
    ensures |Carrying(conns[c := y], r)| == |Carrying(conns, r)| + Carries(y, r) - Carries(conns[c], r)
  {
    var before, after := Carrying(conns, r), Carrying(conns[c := y], r);
    assert after == if Carries(y, r) == 1 then before + {c} else before - {c};
    assert c in before <==> Carries(conns[c], r) == 1;
  }

  lemma RecordsAppend(ms: seq<H.Broadcast>, m: H.Broadcast)
    ensures Records(ms + [m]) == Records(ms) + [RecordOf(m)]
  {
  }

  lemma OnceKept(s: State, t: Step)
    requires OnceInv(s) && ConnInv(s) && Enabled(s, t)
    ensures OnceInv(Next(s, t))
  {
    hide Self, Rest, Serve, CanEnter, CanListen, CanSend, CanExit, ConnInv, OnceInv, MessagesStep;
    if ByHandler(t) {
      MoveMessages(s, t);
      OnceMoved(s, Rest(s, t), t.c, Self(s, t));
    } else {
      OnceServed(s, t);
    }
  }

  lemma OnceMoved(s: State, r: State, c: ConnId, y: Conn)
    requires OnceInv(s) && c in s.conns && MessagesStep(s, r, s.conns[c], y)
    ensures OnceInv(r.(conns := s.conns[c := y]))
  {
    hide Carrying, RecordOf, Records, On;
    forall rec
      ensures multiset(r.pipe.enqueued)[rec] + |Carrying(s.conns[c := y], rec)| <= multiset(Records(r.published))[rec]
    {
      CarryingAfter(s.conns, c, y, rec);
      if y.pc.Persisting? {
        RecordsAppend(s.published, y.pc.message);
      }
    }
  }

  lemma OnceServed(s: State, t: Step)
    requires OnceInv(s) && Enabled(s, t) && !ByHandler(t)
    ensures OnceInv(Next(s, t))
  {
    hide Serve, CanServe, ServedConns, Delivered, RecordOf, Records;
    var s' := Next(s, t);
    ServedPcs(s, t);
    if t.Server? {
      ServeFrame(s, t.server);
      ServePipe(s, t.server);
    }
    forall rec
      ensures Carrying(s'.conns, rec) == Carrying(s.conns, rec)
    {
    }
  }

  // ---------- the clients' queues ----------

  /** A handler adds no chat message to its queue, and keeps it bounded. */
  ghost predicate QueueStep(s: State, r: State, x: Conn, y: Conn) {
    && y.room == x.room && r.foreign == s.foreign
    && (x.mail.taken + x.mail.queue == x.mail.accepted ==> y.mail.taken + y.mail.queue == y.mail.accepted)
    && (|x.mail.queue| <= 256 ==> |y.mail.queue| <= 256)
    && forall m :: H.Danmaku(m) in y.mail.accepted ==> H.Danmaku(m) in x.mail.accepted
  }

  lemma EnterQueue(s: State, c: ConnId, x: Conn, e: Entering)
    requires CanEnter(s, x, e)
    ensures QueueStep(s, EnterRest(s, c, x, e), x, EnterSelf(s, x, e))
  {
  }

  lemma ListenQueue(s: State, x: Conn, e: Listening)
    requires CanListen(x, e)
    ensures QueueStep(s, ListenRest(s, e), x, ListenSelf(x, e))
  {
  }

  lemma SendQueue(s: State, x: Conn, e: Sending)
    requires CanSend(s, x, e)
    ensures QueueStep(s, SendRest(s, x, e), x, SendSelf(s, x, e))
  {
  }

  lemma ExitQueue(s: State, c: ConnId, x: Conn, e: Exiting)
    requires CanExit(s, x, e)
    ensures QueueStep(s, ExitRest(s, c, x, e), x, ExitSelf(s, c, x, e))
  {
  }

  lemma MoveQueue(s: State, t: Step)
    requires ByHandler(t) && Enabled(s, t)
    ensures QueueStep(s, Rest(s, t), s.conns[t.c], Self(s, t))
  {
    hide EnterSelf, ListenSelf, SendSelf, ExitSelf, EnterRest, ListenRest, SendRest, ExitRest;
    hide CanEnter, CanListen, CanSend, CanExit, QueueStep;
    var x := s.conns[t.c];
    match t
    case Enter(c, e) => EnterQueue(s, c, x, e);
    case Listen(_, e) => ListenQueue(s, x, e);
    case Send(_, e) => SendQueue(s, x, e);
    case Exit(c, e) => ExitQueue(s, c, x, e);
  }

  lemma QueuesKept(s: State, t: Step)
    requires QueuesInv(s) && RoomsInv(s) && ConnInv(s) && Enabled(s, t)
    ensures QueuesInv(Next(s, t))
  {
    hide Self, Rest, CanEnter, CanListen, CanSend, CanExit, ConnInv, RoomsInv;
    if ByHandler(t) {
      MoveQueue(s, t);
      MoveMessages(s, t);
    } else if t.Deliver? {
      QueuesDelivered(s, t.to, t.message);
    } else {
      QueuesServed(s, t);
    }
  }

  /** Only members of the subscriber's room are offered the message, and it was aired for this very room. */
  lemma QueuesDelivered(s: State, room: Room, m: H.Broadcast)
    requires QueuesInv(s) && RoomsInv(s) && Enabled(s, Deliver(room, m))
    ensures QueuesInv(Next(s, Deliver(room, m)))
  {
    hide Subscribed, ValidContent, B.ChannelName;
    B.ChannelsSeparate(m.room, room);
    var conns := Delivered(s, room, m);
    forall c | c in conns
      ensures QueueOk(conns[c], s.published, s.foreign)
    {
      assert QueueOk(s.conns[c], s.published, s.foreign);
      assert c in H.Members(s.rooms, room) ==> c in Where(s.conns, Inside(room));
    }
  }

  lemma QueuesServed(s: State, t: Step)
    requires QueuesInv(s) && Enabled(s, t) && !ByHandler(t) && !t.Deliver?
    ensures QueuesInv(Next(s, t))
  {
    hide Serve;
    if t.Server? {
      ServeFrame(s, t.server);
    }
  }

  // ---------- the pipeline ----------

  lemma PipeKept(s: State, t: Step)
    requires PipeInv(s) && LockInv(s) && Enabled(s, t)
    ensures PipeInv(Next(s, t))
  {
    hide P.Sound, P.Put, EnterRest, ListenRest, ExitRest, Self, Serve, LockInv;
    hide CanEnter, CanListen, CanExit;
    match t
    case Enter(c, e) => EnterRestFrame(s, c, s.conns[c], e);
    case Listen(_, e) => ListenPipe(s, e);
    case Send(c, e) =>
      if e.PutRecord? {
        ChannelOpen(s, c);
        P.PutValid(s.pipe, RecordOf(s.conns[c].pc.message));
      }
    case Exit(c, e) => ExitRestFrame(s, c, s.conns[c], e);
    case Server(e) => PipeServed(s, e);
    case Arrive(_, _, _, _) =>
    case Air(_) =>
    case Deliver(_, _) =>
  }

  lemma ListenPipe(s: State, e: Listening)
    ensures ListenRest(s, e).pipe == s.pipe && ListenRest(s, e).panicked == s.panicked
    ensures ListenRest(s, e).shutdown == s.shutdown
  {
  }

  lemma PipeServed(s: State, e: ServerEvent)
    requires PipeInv(s) && CanServe(s, e)
    ensures P.Sound(Serve(s, e).pipe)
  {
    if e.Tick? {
      P.TickValid(s.pipe);
    } else if e.Receive? {
      P.ReceiveValid(s.pipe);
    } else if e.SaveReturns? {
      P.SavedValid(s.pipe, e.ok);
    }
  }

  // ---------- shutdown ----------

  ghost predicate ShutdownStep(s: State, r: State, x: Conn, y: Conn) {
    && r.shutdown == s.shutdown && (x.closed ==> y.closed)
    && (On(y, AWAITED) ==> On(x, AWAITED) || !s.registry.closing)
    && (On(y, SERVED) ==> On(x, SERVED) || !s.registry.closing)
  }

  lemma EnterShutdown(s: State, c: ConnId, x: Conn, e: Entering)
    requires CanEnter(s, x, e)
    ensures ShutdownStep(s, EnterRest(s, c, x, e), x, EnterSelf(s, x, e))
  {
  }

  lemma ExitShutdown(s: State, c: ConnId, x: Conn, e: Exiting)
    requires CanExit(s, x, e)
    ensures ShutdownStep(s, ExitRest(s, c, x, e), x, ExitSelf(s, c, x, e))
  {
  }

  lemma MoveShutdown(s: State, t: Step)
    requires ByHandler(t) && Enabled(s, t)
    ensures ShutdownStep(s, Rest(s, t), s.conns[t.c], Self(s, t))
  {
    hide EnterSelf, ListenSelf, SendSelf, ExitSelf, EnterRest, SendRest, ExitRest;
    hide CanEnter, CanListen, CanSend, CanExit;
    var x := s.conns[t.c];
    match t
    case Enter(c, e) => EnterShutdown(s, c, x, e);
    case Listen(c, e) => ListenSelfFrame(x, e);
    case Send(c, e) => SendSelfFrame(s, x, e); SendRestFrame(s, x, e);
    case Exit(c, e) => ExitShutdown(s, c, x, e);
  }

  lemma NobodyAwaited(s: State, c: ConnId)
    requires RegistryInv(s) && s.registry.active == 0 && c in s.conns
    ensures !On(s.conns[c], AWAITED)
  {
    InWhere(s.conns, c, AWAITED);
    assert Where(s.conns, AWAITED) == {};
  }

  lemma ShutdownKept(s: State, t: Step)
    requires ShutdownInv(s) && RegistryInv(s) && Enabled(s, t)
    ensures ShutdownInv(Next(s, t))
  {
    hide Self, Rest, Serve, CanEnter, CanListen, CanSend, CanExit, Where, On, RegistryInv;
    if ByHandler(t) {
      MoveShutdown(s, t);
      MoveRegistry(s, t);
      AskedMeansClosing(s);
      if s.registry.active == 0 {
        NobodyAwaited(s, t.c);
      }
    } else {
      ShutdownServed(s, t);
    }
  }

  lemma AskedMeansClosing(s: State)
    requires RegistryInv(s)
    ensures s.registry.closing <==> !s.shutdown.NotAsked?
  {
  }

  lemma ShutdownServed(s: State, t: Step)
    requires ShutdownInv(s) && RegistryInv(s) && Enabled(s, t) && !ByHandler(t)
    ensures ShutdownInv(Next(s, t))
  {
    hide Serve, CanServe, ServedConns, Delivered;
    ServedPcs(s, t);
    if t.Server? {
      ServeFrame(s, t.server);
      ServeShutdown(s, t.server);
      ServedAreClients(s);
      hide RegistryInv;
    }
  }

  lemma ServedAreClients(s: State)
    requires RegistryInv(s)
    ensures forall c :: c in s.conns && On(s.conns[c], SERVED) ==> c in s.registry.clients
    ensures s.registry.clients <= s.conns.Keys
  {
  }

  lemma ServeShutdown(s: State, e: ServerEvent)
    requires CanServe(s, e)
    ensures
      Serve(s, e).shutdown ==
        if e.ShutdownBegins? then ClosingClients(s.registry.clients)
        else if e.CloseOne? then ClosingClients(s.shutdown.todo - {e.c})
        else if e.AllClosed? then Waiting else if e.ShutdownReturns? then Returned
        else if e.ShutdownTimesOut? then TimedOut else s.shutdown
    ensures e.CloseOne? ==> e.c in s.conns && ServedConns(s, e)[e.c].closed && s.shutdown.ClosingClients?
    ensures e.AllClosed? ==> s.shutdown.ClosingClients? && s.shutdown.todo == {}
    ensures e.ShutdownReturns? ==> s.registry.active == 0
    ensures e.ShutdownReturns? || e.ShutdownTimesOut? ==> s.shutdown.Waiting?
    ensures e.ShutdownBegins? ==> s.shutdown.NotAsked?
  {
    hide P.Flush, P.Receive, P.Saved, P.CanReceive, B.Fire, B.Drop, B.CloseAll;
  }

  // ---------- no panic ----------

  /** Nothing sends on or closes a closed channel, and the WaitGroup's counter never goes below zero. */
  lemma NoPanic(s: State, t: Step)
    requires LockInv(s) && RegistryInv(s) && !s.panicked && Enabled(s, t)
    ensures !Next(s, t).panicked
  {
    hide EnterRest, ListenRest, Self, Serve, LockInv, RegistryInv, CanEnter, CanListen;
    match t
    case Enter(c, e) => EnterRestFrame(s, c, s.conns[c], e);
    case Listen(_, e) => ListenPipe(s, e);
    case Send(c, e) =>
      if e.PutRecord? {
        ChannelOpen(s, c);
      }
    case Exit(c, e) =>
      if e.SignalDone? {
        SomebodyAwaited(s, c);
      }
    case Server(e) =>
      ServePipe(s, e);
      if e.CloseChannel? {
        ClosedOnce(s);
      }
    case Arrive(_, _, _, _) =>
    case Air(_) =>
    case Deliver(_, _) =>
  }

  lemma SomebodyAwaited(s: State, c: ConnId)
    requires RegistryInv(s) && c in s.conns && On(s.conns[c], AWAITED)
    ensures s.registry.active > 0
  {
    assert c in Where(s.conns, AWAITED);
  }

  lemma ClosedOnce(s: State)
    requires LockInv(s) && s.closing.Flagged?
    ensures !s.pipe.closed
  {
  }

  // ---------- every run ----------

  lemma StartInv(batchSize: int)
    ensures Inv(Start(batchSize))
  {
    StartCounts(batchSize);
    hide CountersInv, OnceInv, Where;
    StartPlaces(batchSize);
  }

  lemma StartCounts(batchSize: int)
    ensures CountersInv(Start(batchSize)) && OnceInv(Start(batchSize))
  {
  }

  lemma StartPlaces(batchSize: int)
    ensures
      var s := Start(batchSize);
      && RegistryInv(s) && RoomsInv(s) && RefsInv(s) && OwnersInv(s) && IdsInv(s) && PendingInv(s)
  {
  }

  lemma InvKept(s: State, t: Step)
    requires Inv(s) && Enabled(s, t)
    ensures Inv(Next(s, t))
  {
    hide ConnInv, LockInv, RegistryInv, RoomsInv, RefsPositive, IdsInv, RefsInv, OwnersInv, CountersInv, MessagesInv;
    hide OnceInv, QueuesInv, PipeInv, ShutdownInv, PendingInv, EndingInv, Next, Progress, Enabled;
    ConnKept(s, t);
    LockKept(s, t);
    RegistryKept(s, t);
    RoomsKept(s, t);
    IdsKept(s, t);
    PendingKept(s, t);
    EndingKept(s, t);
    CountersKept(s, t);
    MessagesKept(s, t);
    OnceKept(s, t);
    QueuesKept(s, t);
    PipeKept(s, t);
    ShutdownKept(s, t);
    NoPanic(s, t);
    ProgressGrows(s, t);
    if Progress(Next(s, t).closing) < 5 {
      RefsKept(s, t);
      OwnersKept(s, t);
    }
  }

  lemma ProgressGrows(s: State, t: Step)
    requires LockInv(s) && Enabled(s, t)
    ensures Progress(s.closing) <= Progress(Next(s, t).closing)
  {
    hide Self, Rest, Serve, CanEnter, CanListen, CanSend, CanExit, CanServe, Progress, LockInv;
    if ByHandler(t) {
      SameClosing(s, t);
    } else if t.Server? {
      ServeProgress(s, t.server);
    }
  }

  lemma {:induction false} RunThen(s: State, first: seq<Step>, mid: State, second: seq<Step>, t: State)
    requires Run(s, first, mid) && Run(mid, second, t)
    ensures Run(s, first + second, t)
    decreases |first|
  {
    if first == [] {
      assert first + second == second;
    } else {
      RunThen(Next(s, first[0]), first[1..], mid, second, t);
      assert (first + second)[1..] == first[1..] + second;
    }
  }

  /** The invariant holds in every state that a run can reach. */
  lemma {:induction false} InvAlways(s: State, steps: seq<Step>, t: State)
    requires Inv(s) && Run(s, steps, t)
    ensures Inv(t)
    decreases |steps|
  {
    hide Inv, Next, Enabled;
    if steps != [] {
      InvKept(s, steps[0]);
      InvAlways(Next(s, steps[0]), steps[1..], t);
    }
  }
}
