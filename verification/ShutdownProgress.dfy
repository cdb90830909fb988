/** Why waiting for the handlers in Shutdown comes to an end. */
module ShutdownProgress {
  import opened Prelude
  import B = Broker
  import H = RoomHub
  import P = Persistence
  import opened System
  import opened SystemInvariant
  import opened SystemTheorems

  /** The handler refuses newcomers and has closed every client that is still registered. */
  ghost predicate Ending(s: State) {
    s.registry.closing && forall c :: c in s.conns && On(s.conns[c], SERVED) ==> s.conns[c].closed
  }

  /** When Shutdown has worked off its snapshot, no registered client was missed. */
  lemma SnapshotSuffices(batchSize: int, s: State)
    requires Reachable(batchSize, s)
    requires s.shutdown.Waiting? || s.shutdown.TimedOut? || s.shutdown.Returned?
    ensures Ending(s)
  {
    ReachableInv(batchSize, s);
  }

  // ---------- a measure ----------

  /** How far a handler is from its end. Each message read adds less than its frame was worth. */
  function Weight(pc: Pc): nat {
    match pc
    case Registered => 40 case Subscribing => 39 case Opened => 38 case Recorded(_) => 37 case Failed => 36
    case Joining => 36 case Counting => 35 case Reading => 20 case Replying => 21
    case Checking(_) => 29 case Publishing(_) => 28
    case Persisting(_) => 27 case Guarded(_) => 26 case Putting(_) => 25
    case ReadDone => 19 case AwaitingWriter => 18 case Leaving => 17 case Releasing => 16
    case Dropping(_) => 15 case Unsubscribing(_) => 14
    case CountingOut => 13 case Unregistering => 12 case Signing => 11
    case Arrived => 0 case Gone => 0
  }

  function Rank(x: Conn): nat {
    if On(x, AWAITED) then 20 * x.inbox + Weight(x.pc) + if x.writer.Running? then 1 else 0 else 0
  }

  ghost function TotalOver(conns: map<ConnId, Conn>, cs: set<ConnId>): nat
    requires cs <= conns.Keys
    decreases cs
  {
    if cs == {} then 0
    else
      var c :| c in cs;
      Rank(conns[c]) + TotalOver(conns, cs - {c})
  }

  ghost function Total(s: State): nat { TotalOver(s.conns, s.conns.Keys) }

  lemma {:induction false} TotalPick(conns: map<ConnId, Conn>, cs: set<ConnId>, c: ConnId)
    requires cs <= conns.Keys && c in cs
    ensures TotalOver(conns, cs) == Rank(conns[c]) + TotalOver(conns, cs - {c})
    decreases cs
  {
    hide Rank;
    var d :| d in cs && TotalOver(conns, cs) == Rank(conns[d]) + TotalOver(conns, cs - {d});
    if d != c {
      TotalPick(conns, cs - {d}, c);
      TotalPick(conns, cs - {c}, d);
      assert cs - {d} - {c} == cs - {c} - {d};
    }
  }

  lemma {:induction false} TotalSame(a: map<ConnId, Conn>, b: map<ConnId, Conn>, cs: set<ConnId>)
    requires cs <= a.Keys && cs <= b.Keys
    requires forall c :: c in cs ==> Rank(a[c]) == Rank(b[c])
    ensures TotalOver(a, cs) == TotalOver(b, cs)
    decreases cs
  {
    hide Rank;
    if cs != {} {
      var c :| c in cs;
      TotalPick(a, cs, c);
      TotalPick(b, cs, c);
      TotalSame(a, b, cs - {c});
    }
  }

  lemma TotalAfter(conns: map<ConnId, Conn>, c: ConnId, y: Conn)
    requires c in conns
    ensures TotalOver(conns[c := y], conns.Keys) == TotalOver(conns, conns.Keys) + Rank(y) - Rank(conns[c])
    ensures conns[c := y].Keys == conns.Keys
  {
    hide Rank;
    var after := conns[c := y];
    assert after.Keys == conns.Keys;
    TotalPick(conns, conns.Keys, c);
    TotalPick(after, conns.Keys, c);
    TotalSame(conns, after, conns.Keys - {c});
  }

  // ---------- the measure and the steps ----------

  lemma EnterRank(s: State, x: Conn, e: Entering)
    requires CanEnter(s, x, e) && s.registry.closing
    ensures Rank(EnterSelf(s, x, e)) <= Rank(x)
    ensures On(x, AWAITED) ==> Rank(EnterSelf(s, x, e)) < Rank(x)
  {
  }

  lemma ListenRank(x: Conn, e: Listening)
    requires CanListen(x, e) && (On(x, AWAITED) ==> x.closed)
    ensures Rank(ListenSelf(x, e)) <= Rank(x)
    ensures On(x, AWAITED) ==> Rank(ListenSelf(x, e)) < Rank(x)
  {
  }

  lemma SendRank(s: State, x: Conn, e: Sending)
    requires CanSend(s, x, e) && !(e.PutRecord? && s.pipe.closed)
    ensures Rank(SendSelf(s, x, e)) < Rank(x)
  {
  }

  lemma ExitRank(s: State, c: ConnId, x: Conn, e: Exiting)
    requires CanExit(s, x, e)
    ensures Rank(ExitSelf(s, c, x, e)) <= Rank(x)
    ensures On(x, AWAITED) ==> Rank(ExitSelf(s, c, x, e)) < Rank(x)
  {
  }

  /** A step of a handler that Shutdown is waiting for. */
  predicate Awaited(s: State, t: Step) {
    ByHandler(t) && t.c in s.conns && On(s.conns[t.c], AWAITED)
  }

  lemma MoveRank(s: State, t: Step)
    requires Inv(s) && Ending(s) && ByHandler(t) && Enabled(s, t)
    ensures Rank(Self(s, t)) <= Rank(s.conns[t.c])
    ensures Awaited(s, t) ==> Rank(Self(s, t)) < Rank(s.conns[t.c])
  {
    var x := s.conns[t.c];
    assert ConnOk(x) && LockInv(s);
    assert On(x, AWAITED) ==> x.closed;
    hide Inv, Ending, LockInv, Rank, EnterSelf, ListenSelf, SendSelf, ExitSelf, CanEnter, CanListen, CanExit;
    assert s.registry.closing by { IsClosing(s); }
    match t
    case Enter(c, e) => EnterRank(s, x, e);
    case Listen(c, e) => ListenRank(x, e);
    case Send(c, e) =>
      if e.PutRecord? {
        ChannelOpen(s, c);
      }
      SendRank(s, x, e);
    case Exit(c, e) => ExitRank(s, c, x, e);
  }

  lemma IsClosing(s: State)
    requires Ending(s)
    ensures s.registry.closing
  {
  }

  /** While clients are being waited for, each step of theirs lowers the measure, and no other step raises it. */
  lemma MeasureFalls(s: State, t: Step)
    requires Inv(s) && Ending(s) && Enabled(s, t)
    ensures Total(Next(s, t)) <= Total(s)
    ensures Awaited(s, t) ==> Total(Next(s, t)) < Total(s)
    ensures Ending(Next(s, t))
  {
    EndingStays(s, t);
    hide Inv, Ending, Self, Rest, Serve, Rank, CanEnter, CanListen, CanSend, CanExit, TotalOver, On;
    IsClosing(s);
    if ByHandler(t) {
      MoveRank(s, t);
      TotalAfter(s.conns, t.c, Self(s, t));
    } else if t.Server? && t.server.CloseOne? {
      var x := s.conns[t.server.c];
      ClosingKeepsRank(x);
      TotalAfter(s.conns, t.server.c, x.(closed := true));
    } else if t.Deliver? {
      DeliveryKeepsRank(s, t.to, t.message);
      TotalSame(s.conns, Next(s, t).conns, s.conns.Keys);
    }
  }

  lemma DeliveryKeepsRank(s: State, room: Room, m: H.Broadcast)
    ensures Delivered(s, room, m).Keys == s.conns.Keys
    ensures forall c :: c in s.conns ==> Rank(Delivered(s, room, m)[c]) == Rank(s.conns[c])
  {
  }

  lemma ClosingKeepsRank(x: Conn)
    ensures Rank(x.(closed := true)) == Rank(x)
  {
  }

  lemma EndingStays(s: State, t: Step)
    requires Inv(s) && Ending(s) && Enabled(s, t)
    ensures Ending(Next(s, t))
  {
    hide Ending, Next, Enabled;
    if ByHandler(t) {
      EndingMoved(s, t);
    } else {
      EndingServed(s, t);
    }
  }

  lemma EndingMoved(s: State, t: Step)
    requires Inv(s) && Ending(s) && ByHandler(t) && Enabled(s, t)
    ensures Ending(Next(s, t))
  {
    assert RegistryInv(s);
    NextIs(s, t);
    hide Inv, RegistryInv, Next, Enabled, Self, Rest, On;
    MoveShutdown(s, t);
    RegistryStays(s, t);
  }

  lemma EndingServed(s: State, t: Step)
    requires Ending(s) && !ByHandler(t) && Enabled(s, t)
    ensures Ending(Next(s, t))
  {
    hide Serve, ServedConns, Delivered, CanServe;
    ServedPcs(s, t);
    if t.Server? {
      ServeFrame(s, t.server);
    }
  }

  lemma RegistryStays(s: State, t: Step)
    requires RegistryInv(s) && ByHandler(t) && Enabled(s, t)
    ensures Rest(s, t).registry.closing == s.registry.closing
  {
    hide Self, Rest, CanEnter, CanListen, CanSend, CanExit;
    MoveRegistry(s, t);
  }

  // ---------- somebody can always move ----------

  /** The step that a handler takes next when nothing holds it up. */
  function NextOf(c: ConnId, x: Conn): Step {
    match x.pc
    case Arrived => Enter(c, Register)
    case Registered => Enter(c, Acquire)
    case Subscribing => Enter(c, SubscribeOpens)
    case Opened => Enter(c, RecordCloser)
    case Recorded(_) => Enter(c, InsertEntry)
    case Failed => Enter(c, GiveUp)
    case Joining => Enter(c, Join)
    case Counting => Enter(c, CountIn)
    case Reading => Listen(c, ReadEnds)
    case Replying => Listen(c, Reply(H.Pong))
    case Checking(content) => Send(c, if ValidContent(content) then LimiterFails else RejectContent)
    case Publishing(_) => Send(c, PublishFails)
    case Persisting(_) => Send(c, LockPersist)
    case Guarded(_) => Send(c, CheckClosed)
    case Putting(_) => Send(c, PutRecord)
    case ReadDone => Exit(c, CloseClient)
    case AwaitingWriter => Exit(c, if x.writer.Running? then WriterEnds else AwaitWriter)
    case Leaving => Exit(c, Leave)
    case Releasing => Exit(c, Release)
    case Dropping(_) => Exit(c, DropCloser)
    case Unsubscribing(_) => Exit(c, CloseSubscription)
    case CountingOut => Exit(c, CountOut)
    case Unregistering => Exit(c, Unregister)
    case Signing => Exit(c, SignalDone)
    case Gone => Exit(c, SignalDone)
  }

  lemma NextEnabled(s: State, c: ConnId)
    requires c in s.conns && ConnOk(s.conns[c]) && !s.conns[c].pc.Gone?
    requires !WriteLocked(s) && (s.subMu.Free? || Subscriber(s.conns[c]))
    ensures Enabled(s, NextOf(c, s.conns[c]))
  {
  }

  /** Before the service is closed the handlers never block each other for good: as long as one is awaited, one of
      those awaited has a step to take. */
  lemma NoDeadlock(s: State) returns (t: Step)
    requires Inv(s) && s.closing.Open? && s.registry.active > 0
    ensures Enabled(s, t) && Awaited(s, t)
  {
    hide NextOf, Enabled;
    var c := Candidate(s);
    NextEnabled(s, c);
    t := NextOf(c, s.conns[c]);
    NextBy(c, s.conns[c]);
  }

  lemma NextBy(c: ConnId, x: Conn)
    ensures ByHandler(NextOf(c, x)) && NextOf(c, x).c == c
  {
  }

  /** The holder of the subscription lock, or else anyone who is awaited. */
  lemma Candidate(s: State) returns (c: ConnId)
    requires Inv(s) && s.closing.Open? && s.registry.active > 0
    ensures c in s.conns && ConnOk(s.conns[c]) && On(s.conns[c], AWAITED) && !s.conns[c].pc.Gone?
    ensures !WriteLocked(s) && (s.subMu.Free? || Subscriber(s.conns[c]))
  {
    assert RegistryInv(s) && LockInv(s) && ConnInv(s);
    hide Inv, ConnOk, RegistryInv, LockInv, Stage;
    c := AnyAwaited(s);
    if s.subMu.ByConn? {
      c := s.subMu.c;
      HolderIsSubscriber(s);
    }
    LocksBeforeClose(s);
    AwaitedIsNotGone(s.conns[c]);
    SubscriberIsAwaited(s.conns[c]);
  }

  lemma AnyAwaited(s: State) returns (c: ConnId)
    requires RegistryInv(s) && s.registry.active > 0
    ensures c in s.conns && On(s.conns[c], AWAITED)
  {
    assert Where(s.conns, AWAITED) != {};
    c :| c in Where(s.conns, AWAITED);
  }

  lemma HolderIsSubscriber(s: State)
    requires LockInv(s) && s.subMu.ByConn?
    ensures s.subMu.c in s.conns && Subscriber(s.conns[s.subMu.c])
  {
  }

  lemma LocksBeforeClose(s: State)
    requires LockInv(s) && s.closing.Open?
    ensures !WriteLocked(s) && !s.subMu.ByClose?
  {
  }

  lemma AwaitedIsNotGone(x: Conn)
    ensures On(x, AWAITED) ==> !x.pc.Gone?
  {
  }

  lemma SubscriberIsAwaited(x: Conn)
    ensures Subscriber(x) ==> On(x, AWAITED) && !x.pc.Gone?
  {
  }

  /** How many of the run's steps are taken by handlers that Shutdown is waiting for. */
  ghost function AwaitedSteps(s: State, steps: seq<Step>): nat
    decreases |steps|
  {
    if steps == [] || !Enabled(s, steps[0]) then 0
    else (if Awaited(s, steps[0]) then 1 else 0) + AwaitedSteps(Next(s, steps[0]), steps[1..])
  }

  /** In any run from here on, whatever else happens in between, the awaited handlers take at most Total(s) steps. */
  lemma {:induction false} BoundedWait(s: State, steps: seq<Step>, t: State)
    requires Inv(s) && Ending(s) && Run(s, steps, t)
    ensures AwaitedSteps(s, steps) + Total(t) <= Total(s)
    decreases |steps|
  {
    hide Inv, Ending, Next, Enabled, Total, Awaited;
    if steps != [] {
      MeasureFalls(s, steps[0]);
      InvKept(s, steps[0]);
      BoundedWait(Next(s, steps[0]), steps[1..], t);
    }
  }

  /** And letting the handlers run is enough to bring the wait to its end. */
  lemma {:induction false} WaitCanEnd(s: State) returns (steps: seq<Step>, t: State)
    requires Inv(s) && Ending(s) && s.closing.Open?
    ensures Run(s, steps, t) && Inv(t) && t.registry.active == 0 && t.shutdown == s.shutdown && t.closing.Open?
    ensures forall i :: 0 <= i < |steps| ==> ByHandler(steps[i])
    decreases Total(s)
  {
    hide *;
    if s.registry.active == 0 {
      EmptyRun(s);
      return [], s;
    }
    var step, next := OneAwaitedStep(s);
    var rest;
    rest, t := WaitCanEnd(next);
    steps := [step] + rest;
    LongerRun(s, step, next, rest, t);
  }

  lemma EmptyRun(s: State)
    ensures Run(s, [], s)
  {
  }

  lemma LongerRun(s: State, step: Step, next: State, rest: seq<Step>, t: State)
    requires Enabled(s, step) && next == Next(s, step) && Run(next, rest, t)
    ensures Run(s, [step] + rest, t)
  {
  }

  lemma OneAwaitedStep(s: State) returns (step: Step, next: State)
    requires Inv(s) && Ending(s) && s.closing.Open? && s.registry.active != 0
    ensures ByHandler(step) && Enabled(s, step) && next == Next(s, step)
    ensures Inv(next) && Ending(next) && next.closing.Open? && next.shutdown == s.shutdown
    ensures Total(next) < Total(s)
  {
    hide Ending, Next, Enabled, Total;
    ActiveIsCount(s);
    step := NoDeadlock(s);
    next := Next(s, step);
    hide Inv;
    MeasureFalls(s, step);
    InvKept(s, step);
    HandlerKeeps(s, step);
  }

  lemma ActiveIsCount(s: State)
    requires Inv(s)
    ensures s.registry.active >= 0
  {
  }

  lemma HandlerKeeps(s: State, t: Step)
    requires ByHandler(t) && Enabled(s, t)
    ensures Next(s, t).closing == s.closing && Next(s, t).shutdown == s.shutdown
  {
    hide Self, Rest, CanEnter, CanListen, CanSend, CanExit, On;
    SameClosing(s, t);
    MoveShutdown(s, t);
  }

  // ---------- closing the service after that ----------

  /** What Close does next, or the worker that it waits for. */
  function CloseNext(s: State): ServerEvent {
    match s.closing
    case Open => LockWrite
    case Locked => SetClosed
    case Flagged => CloseChannel
    case Draining =>
      if s.pipe.worker.Exited? then WorkersDone else if s.pipe.worker.Saving? then SaveReturns(true) else Receive
    case Drained => LockSubs
    case EndingSubscriptions(_) => ClearTable
    case EndingOne(_, _) => EndDropped
    case ClosingBroker => CloseBroker
    case Closed => Tick
  }

  /** The work that is left for Close: points, the worker's receives and writes, and a subscription to end. */
  function CloseWork(s: State): nat {
    4 * (7 - Progress(s.closing)) + (if s.closing.EndingOne? then 1 else 0)
    + P.Work(s.pipe)
  }

  lemma CloseLocks(s: State)
    requires Inv(s) && Quiet(s)
    ensures NoReaders(s)
    ensures s.closing.Drained? ==> s.subMu.Free?
    ensures s.closing.EndingSubscriptions? ==> s.closing.todo == {}
    ensures s.closing.Draining? ==> s.pipe.closed
  {
    assert LockInv(s) && EndingInv(s);
  }

  lemma WorkerIsNext(s: State)
    requires s.closing.Draining? && s.pipe.closed
    ensures Enabled(s, Server(CloseNext(s)))
    ensures
      var t := Next(s, Server(CloseNext(s)));
      CloseWork(t) < CloseWork(s) && t.pipe.enqueued == s.pipe.enqueued
  {
    P.WorkFalls(s.pipe);
    hide NoReaders, B.Fire, B.Drop, B.CloseAll, P.Flush, P.Receive, P.Saved, P.CanReceive, P.Work;
  }

  lemma CloseIsNext(s: State)
    requires NoReaders(s) && !s.closing.Draining? && !s.closing.Closed?
    requires s.closing.Drained? ==> s.subMu.Free?
    requires s.closing.EndingSubscriptions? ==> s.closing.todo == {}
    ensures Enabled(s, Server(CloseNext(s)))
    ensures
      var t := Next(s, Server(CloseNext(s)));
      CloseWork(t) < CloseWork(s) && t.pipe.enqueued == s.pipe.enqueued
  {
    var e := CloseNext(s);
    CloseMayGo(s);
    ServeProgress(s, e);
    ServeEnding(s, e);
    ClosePipe(s, e);
    hide NoReaders, Serve, CanServe, CloseNext;
  }

  lemma CloseMayGo(s: State)
    requires NoReaders(s) && !s.closing.Draining? && !s.closing.Closed?
    requires s.closing.Drained? ==> s.subMu.Free?
    requires s.closing.EndingSubscriptions? ==> s.closing.todo == {}
    ensures CanServe(s, CloseNext(s)) && OfClose(CloseNext(s)) && !CloseNext(s).EndSubscription?
  {
    hide NoReaders;
  }

  lemma ClosePipe(s: State, e: ServerEvent)
    requires CanServe(s, e) && OfClose(e)
    ensures P.Work(Serve(s, e).pipe) == P.Work(s.pipe) && Serve(s, e).pipe.enqueued == s.pipe.enqueued
  {
    hide B.Fire, B.Drop, B.CloseAll, P.Flush, P.Receive, P.Saved, P.CanReceive;
  }

  lemma OneCloseStep(s: State) returns (next: State)
    requires Inv(s) && Quiet(s) && !s.closing.Closed?
    ensures Enabled(s, Server(CloseNext(s))) && next == Next(s, Server(CloseNext(s)))
    ensures Inv(next) && Quiet(next) && CloseWork(next) < CloseWork(s) && next.pipe.enqueued == s.pipe.enqueued
  {
    hide Inv, Quiet, CloseNext, CloseWork, Serve, ServedConns;
    CloseLocks(s);
    if s.closing.Draining? {
      WorkerIsNext(s);
    } else {
      CloseIsNext(s);
    }
    next := Next(s, Server(CloseNext(s)));
    InvKept(s, Server(CloseNext(s)));
    QuietStep(s, Server(CloseNext(s)));
  }

  /** After a clean shutdown MessageService.Close never gets stuck: from any of its points, its own steps and the
      worker's lead to its end, and by then everything that was enqueued has been handed over, once and in order. */
  lemma {:induction false} CloseCanEnd(s: State) returns (steps: seq<Step>, t: State)
    requires Inv(s) && Quiet(s)
    ensures Run(s, steps, t) && forall i :: 0 <= i < |steps| ==> steps[i].Server?
    ensures t.closing.Closed? && Inv(t) && Quiet(t)
    ensures Flatten(t.pipe.handed) == t.pipe.enqueued == s.pipe.enqueued
    decreases CloseWork(s)
  {
    hide *;
    if s.closing.Closed? {
      EmptyRun(s);
      ClosedIsDrained(s);
      return [], s;
    }
    var next := OneCloseStep(s);
    var rest;
    rest, t := CloseCanEnd(next);
    steps := [Server(CloseNext(s))] + rest;
    LongerRun(s, Server(CloseNext(s)), next, rest, t);
  }

  lemma ClosedIsDrained(s: State)
    requires Inv(s) && s.closing.Closed?
    ensures Flatten(s.pipe.handed) == s.pipe.enqueued
  {
    AfterDrain(s);
  }
}
