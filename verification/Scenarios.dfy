/** What can happen, from every state in which the node serves: clients join, chat and hear each other, a failed
    subscription leaves no trace, and the node can be shut down. */
module Scenarios {
  import opened Prelude
  import opened System
  import opened SystemInvariant
  import opened SystemTheorems
  import B = Broker
  import H = RoomHub
  import P = Persistence
  import M = MessageService
  import SP = ShutdownProgress

  /** The node serves and nobody holds the subscription lock. */
  ghost predicate Serving(s: State) {
    Inv(s) && s.shutdown.NotAsked? && s.closing.Open? && s.subMu.Free?
  }

  lemma OneStep(s: State, step: Step) returns (t: State)
    requires Enabled(s, step)
    ensures t == Next(s, step) && Run(s, [step], t)
    ensures Inv(s) ==> Inv(t)
  {
    hide Inv, Next, Enabled;
    t := Next(s, step);
    assert [step][1..] == [];
    if Inv(s) {
      InvKept(s, step);
    }
  }

  // ---------- joining ----------

  lemma EnterStep(s: State, c: ConnId, e: Entering) returns (t: State)
    requires c in s.conns && CanEnter(s, s.conns[c], e)
    ensures Run(s, [Enter(c, e)], t) && (Inv(s) ==> Inv(t))
    ensures t == EnterRest(s, c, s.conns[c], e).(conns := s.conns[c := EnterSelf(s, s.conns[c], e)])
  {
    t := OneStep(s, Enter(c, e));
    EnterRestFrame(s, c, s.conns[c], e);
  }

  /** Apart from one connection and what it holds, the node is as before. */
  ghost predicate Others(s: State, t: State, c: ConnId) {
    && c in t.conns && t.conns.Keys == s.conns.Keys + {c}
    && (forall d :: d in s.conns && d != c ==> t.conns[d] == s.conns[d])
    && t.published == s.published && t.foreign == s.foreign && t.pipe == s.pipe
    && t.shutdown == s.shutdown && t.closing == s.closing && t.persistClosed == s.persistClosed
  }

  lemma ArriveStep(s: State, c: ConnId, user: Bytes, room: Room, ip: Bytes) returns (t: State)
    requires Inv(s) && s.shutdown.NotAsked? && c !in s.conns && room != []
    ensures Run(s, [Arrive(c, user, room, ip)], t) && Inv(t) && !s.registry.closing
    ensures t == s.(conns := s.conns[c := Conn(user, room, ip, Arrived, NotStarted, 0, H.EMPTY_MAILBOX, false)])
  {
    assert RegistryInv(s);
    hide Inv, RegistryInv, Run;
    NotClosing(s);
    t := OneStep(s, Arrive(c, user, room, ip));
  }

  lemma Arrives(s: State, c: ConnId, user: Bytes, room: Room, ip: Bytes) returns (steps: seq<Step>, t: State)
    requires Serving(s) && c !in s.conns && room != []
    ensures Run(s, steps, t) && Serving(t)
    ensures t == s.(conns := s.conns[c := Conn(user, room, ip, Registered, NotStarted, 0, H.EMPTY_MAILBOX, false)],
                    registry := s.registry.(clients := s.registry.clients + {c}, active := s.registry.active + 1))
  {
    hide Inv, Run;
    var t1 := ArriveStep(s, c, user, room, ip);
    t := EnterStep(t1, c, Register);
    RunThen(s, [Arrive(c, user, room, ip)], t1, [Enter(c, Register)], t);
    steps := [Arrive(c, user, room, ip)] + [Enter(c, Register)];
  }

  lemma NotClosing(s: State)
    requires RegistryInv(s)
    ensures s.registry.closing <==> !s.shutdown.NotAsked?
  {
  }

  lemma Acquires(s: State, c: ConnId) returns (steps: seq<Step>, t: State)
    requires Serving(s) && c in s.conns && s.conns[c].pc.Registered?
    ensures Run(s, steps, t) && Serving(t) && Others(s, t, c)
    ensures t.conns[c] == s.conns[c].(pc := Joining)
  {
    hide Inv, Run;
    var t1 := EnterStep(s, c, Acquire);
    if s.conns[c].room in s.table {
      return [Enter(c, Acquire)], t1;
    }
    var rest;
    rest, t := Subscribes(t1, c);
    steps := [Enter(c, Acquire)] + rest;
    RunThen(s, [Enter(c, Acquire)], t1, rest, t);
  }

  lemma Subscribes(s: State, c: ConnId) returns (steps: seq<Step>, t: State)
    requires Inv(s) && s.shutdown.NotAsked? && s.closing.Open? && c in s.conns && s.conns[c].pc.Subscribing?
    ensures Run(s, steps, t) && Serving(t) && Others(s, t, c)
    ensures t.conns[c] == s.conns[c].(pc := Joining)
  {
    hide Inv, Run, B.Register;
    var t1 := EnterStep(s, c, SubscribeOpens);
    var t2 := EnterStep(t1, c, RecordCloser);
    t := EnterStep(t2, c, InsertEntry);
    RunThen(s, [Enter(c, SubscribeOpens)], t1, [Enter(c, RecordCloser)], t2);
    RunThen(s, [Enter(c, SubscribeOpens)] + [Enter(c, RecordCloser)], t2, [Enter(c, InsertEntry)], t);
    steps := [Enter(c, SubscribeOpens)] + [Enter(c, RecordCloser)] + [Enter(c, InsertEntry)];
  }

  lemma EntersRoom(s: State, c: ConnId) returns (steps: seq<Step>, t: State)
    requires Serving(s) && c in s.conns && s.conns[c].pc.Joining?
    ensures Run(s, steps, t) && Serving(t) && Others(s, t, c)
    ensures t.conns[c] == s.conns[c].(pc := Reading, writer := Running)
  {
    hide Inv, Run, H.Joined;
    var t1 := EnterStep(s, c, Join);
    t := EnterStep(t1, c, CountIn);
    RunThen(s, [Enter(c, Join)], t1, [Enter(c, CountIn)], t);
    steps := [Enter(c, Join)] + [Enter(c, CountIn)];
  }

  /** A newcomer can join any room while the node serves, whoever else is there, and nobody else notices. */
  lemma AnyoneCanJoin(s: State, c: ConnId, user: Bytes, room: Room, ip: Bytes) returns (steps: seq<Step>, t: State)
    requires Serving(s) && c !in s.conns && room != []
    ensures Run(s, steps, t) && Serving(t) && Others(s, t, c)
    ensures t.conns[c] == Conn(user, room, ip, Reading, Running, 0, H.EMPTY_MAILBOX, false)
  {
    hide Run, Serving;
    var first, t1 := Arrives(s, c, user, room, ip);
    var more, t2 := Acquires(t1, c);
    var last;
    last, t := EntersRoom(t2, c);
    RunThen(s, first, t1, more, t2);
    RunThen(s, first + more, t2, last, t);
    steps := first + more + last;
  }

  lemma TurnedAway(s: State, c: ConnId) returns (steps: seq<Step>, t: State)
    requires Serving(s) && c in s.conns && s.conns[c].pc.Registered? && s.conns[c].room !in s.table
    ensures Run(s, steps, t) && Serving(t)
    ensures t == s.(conns := s.conns[c := s.conns[c].(pc := Unregistering, closed := true)])
  {
    hide Inv, Run;
    var t1 := EnterStep(s, c, Acquire);
    var t2 := EnterStep(t1, c, SubscribeFails);
    t := EnterStep(t2, c, GiveUp);
    RunThen(s, [Enter(c, Acquire)], t1, [Enter(c, SubscribeFails)], t2);
    RunThen(s, [Enter(c, Acquire)] + [Enter(c, SubscribeFails)], t2, [Enter(c, GiveUp)], t);
    steps := [Enter(c, Acquire)] + [Enter(c, SubscribeFails)] + [Enter(c, GiveUp)];
  }

  lemma ExitStep(s: State, c: ConnId, e: Exiting) returns (t: State)
    requires c in s.conns && CanExit(s, s.conns[c], e)
    ensures Run(s, [Exit(c, e)], t) && (Inv(s) ==> Inv(t))
    ensures t == ExitRest(s, c, s.conns[c], e).(conns := s.conns[c := ExitSelf(s, c, s.conns[c], e)])
  {
    t := OneStep(s, Exit(c, e));
    ExitRestFrame(s, c, s.conns[c], e);
  }

  lemma Forgotten(s: State, c: ConnId) returns (steps: seq<Step>, t: State)
    requires Serving(s) && c in s.conns && s.conns[c].pc.Unregistering? && c in s.registry.clients
    requires !s.panicked && s.registry.active > 0
    ensures Run(s, steps, t) && Serving(t)
    ensures t == s.(conns := s.conns[c := s.conns[c].(pc := Gone)],
                    registry := s.registry.(clients := s.registry.clients - {c}, active := s.registry.active - 1))
  {
    hide Inv, Run;
    var t1 := ExitStep(s, c, Unregister);
    t := ExitStep(t1, c, SignalDone);
    RunThen(s, [Exit(c, Unregister)], t1, [Exit(c, SignalDone)], t);
    steps := [Exit(c, Unregister)] + [Exit(c, SignalDone)];
  }

  /** A newcomer whose subscription fails is turned away, and the node is as if it had never come. */
  lemma FailedJoinLeavesNoTrace(s: State, c: ConnId, user: Bytes, room: Room, ip: Bytes)
    returns (steps: seq<Step>, t: State)
    requires Serving(s) && c !in s.conns && room != [] && room !in s.table
    ensures Run(s, steps, t) && Serving(t) && c in t.conns && t.conns[c].pc.Gone? && t.conns[c].closed
    ensures t == s.(conns := s.conns[c := t.conns[c]])
  {
    hide *;
    NewToRegistry(s, c);
    var first, t1 := Arrives(s, c, user, room, ip);
    var second, t2 := TurnedAway(t1, c);
    var third;
    third, t := Forgotten(t2, c);
    RunThen(s, first, t1, second, t2);
    RunThen(s, first + second, t2, third, t);
    steps := first + second + third;
    assert s.registry.clients + {c} - {c} == s.registry.clients;
  }

  lemma NewToRegistry(s: State, c: ConnId)
    requires Serving(s) && c !in s.conns
    ensures c !in s.registry.clients && s.registry.active >= 0 && !s.panicked
  {
    assert RegistryInv(s);
  }

  // ---------- chatting ----------

  lemma QueuedIsPossible(s: State, c: ConnId, content: Bytes, m: H.Broadcast)
    requires Inv(s) && s.closing.Open? && |s.pipe.queue| < 4096 && 0 < |content| <= 200
    requires c in s.conns && m == H.Broadcast(m.id, s.conns[c].room, s.conns[c].user, content, m.node, m.at)
    ensures LockInv(s) && M.Possible(s, s.conns[c], content, M.Queued(m))
  {
  }

  lemma FrameStep(s: State, c: ConnId) returns (t: State)
    requires c in s.conns && !s.conns[c].closed
    ensures Run(s, [Listen(c, FrameArrives)], t) && (Inv(s) ==> Inv(t))
    ensures t == s.(conns := s.conns[c := s.conns[c].(inbox := s.conns[c].inbox + 1)])
  {
    hide Inv, Run;
    t := OneStep(s, Listen(c, FrameArrives));
  }

  lemma ComesBack(t: State, c: ConnId, m: H.Broadcast)
    requires Inv(t) && t.closing.Open? && c in t.conns && t.conns[c].pc.Reading?
    requires m in t.published && m.room == t.conns[c].room
    ensures Enabled(t, Deliver(m.room, m))
  {
    hide Inv, Subscribed, B.ChannelName;
    JoinedIsSubscribed(t, c);
  }

  /** A client that is served can send a message at any time: the message is published and queued with the client's
      own fields, and it can come back to every client of the room, the sender included. */
  lemma AnyoneCanChat(s: State, c: ConnId, content: Bytes, id: Bytes, node: Bytes, at: int)
    returns (steps: seq<Step>, t: State)
    requires Inv(s) && s.closing.Open? && |s.pipe.queue| < 4096 && 0 < |content| <= 200
    requires c in s.conns && s.conns[c].pc.Reading? && !s.conns[c].closed
    ensures Run(s, steps, t) && Inv(t) && c in t.conns && t.conns[c].pc.Reading?
    ensures
      var x := s.conns[c];
      var m := H.Broadcast(id, x.room, x.user, content, node, at);
      && t.published == s.published + [m] && t.closing.Open?
      && t.pipe.enqueued == s.pipe.enqueued + [P.Record(id, x.room, x.user, content, at)]
      && Enabled(t, Deliver(x.room, m))
  {
    hide *;
    var x := s.conns[c];
    var m := H.Broadcast(id, x.room, x.user, content, node, at);
    var s1 := FrameStep(s, c);
    QueuedIsPossible(s1, c, content, m);
    M.PutMeans(s1.pipe, m);
    t := M.CallIsRun(s1, c, content, M.Queued(m));
    var call := M.StepsOf(c, content, M.Queued(m));
    steps := [Listen(c, FrameArrives)] + call;
    RunThen(s, [Listen(c, FrameArrives)], s1, call, t);
    InvAlways(s, steps, t);
    ComesBack(t, c, m);
  }

  // ---------- shutting down ----------

  lemma ServerStep(s: State, e: ServerEvent) returns (t: State)
    requires Inv(s) && CanServe(s, e)
    ensures Run(s, [Server(e)], t) && Inv(t)
    ensures t == Serve(s, e).(conns := ServedConns(s, e))
  {
    hide Inv;
    t := OneStep(s, Server(e));
  }

  lemma TodoIsKnown(s: State)
    requires Inv(s) && s.shutdown.ClosingClients?
    ensures s.shutdown.todo <= s.conns.Keys
  {
    assert ShutdownInv(s);
  }

  /** Shutdown can work off its snapshot. */
  lemma {:induction false} ClosesClients(s: State) returns (steps: seq<Step>, t: State)
    requires Inv(s) && s.shutdown.ClosingClients? && s.closing.Open?
    ensures Run(s, steps, t) && Inv(t) && t.shutdown == Waiting && t.closing.Open?
    decreases |s.shutdown.todo|
  {
    hide Inv, Run;
    if s.shutdown.todo == {} {
      t := ServerStep(s, AllClosed);
      return [Server(AllClosed)], t;
    }
    TodoIsKnown(s);
    var c :| c in s.shutdown.todo;
    var next := ServerStep(s, CloseOne(c));
    var rest;
    rest, t := ClosesClients(next);
    steps := [Server(CloseOne(c))] + rest;
    RunThen(s, [Server(CloseOne(c))], next, rest, t);
  }

  lemma WaitingIsEnding(s: State)
    requires Inv(s) && s.shutdown.Waiting?
    ensures SP.Ending(s)
  {
    assert RegistryInv(s) && ShutdownInv(s);
  }

  lemma Begins(s: State) returns (t: State)
    requires Inv(s) && s.shutdown.NotAsked? && s.closing.Open?
    ensures Run(s, [Server(ShutdownBegins)], t) && Inv(t) && t.shutdown.ClosingClients? && t.closing.Open?
  {
    hide Inv, Run;
    t := ServerStep(s, ShutdownBegins);
  }

  lemma Returns(s: State) returns (t: State)
    requires Inv(s) && s.shutdown.Waiting? && s.registry.active == 0 && s.closing.Open?
    ensures Run(s, [Server(ShutdownReturns)], t) && Inv(t) && Quiet(t)
  {
    hide Inv, Run, Quiet;
    t := ServerStep(s, ShutdownReturns);
    ReturnedIsQuiet(t);
  }

  /** Whatever clients, calls and writes are under way, the node can be shut down and closed: Shutdown returns, Close
      returns, nothing that was enqueued is lost, and nothing is left. */
  lemma ShutdownCanEnd(s: State) returns (steps: seq<Step>, t: State)
    requires Inv(s) && s.shutdown.NotAsked? && s.closing.Open?
    ensures Run(s, steps, t) && t.closing.Closed? && Quiet(t)
    ensures Flatten(t.pipe.handed) == t.pipe.enqueued
  {
    hide *;
    var begun := Begins(s);
    var closing, waiting := ClosesClients(begun);
    WaitingIsEnding(waiting);
    var handlers, alone := SP.WaitCanEnd(waiting);
    var returned := Returns(alone);
    var last;
    last, t := SP.CloseCanEnd(returned);
    steps := [Server(ShutdownBegins)] + closing;
    RunThen(s, [Server(ShutdownBegins)], begun, closing, waiting);
    RunThen(s, steps, waiting, handlers, alone);
    RunThen(s, steps + handlers, alone, [Server(ShutdownReturns)], returned);
    steps := steps + handlers + [Server(ShutdownReturns)];
    RunThen(s, steps, returned, last, t);
    steps := steps + last;
  }
}
