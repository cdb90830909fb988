/** The message service as an object: one Send from validation to the persistence queue, and Close. */
module MessageService {
  import opened Prelude
  import C = CheckLimit
  import FW = FixedWindow
  import H = RoomHub
  import K = LimiterKeys
  import P = Persistence
  import RL = RateLimiter
  import S = Subscriptions
  import Broker
  import opened System
  import opened SystemInvariant

  datatype SendError = InvalidContent | Refused(refusal: C.Refusal) | PublishFailed

  /** How one call of Send ends. */
  datatype Outcome =
    | Rejected | LimitedBy(scope: K.Scope) | LimiterFailed | NotPublished
    | Queued(message: H.Broadcast) | QueueFull(message: H.Broadcast) | ServiceClosed(message: H.Broadcast)

  function ScopeOf(name: Bytes): K.Scope {
    if name == "user" then K.User else if name == "ip" then K.IP else K.Room
  }

  /** A rate-limit error always carries the name of one of the three scopes. */
  lemma RefusalNamesScope(r: Result<RL.Decision, RL.Error>)
    ensures
      var refusal := C.ToRefusal(r);
      refusal.Some? && refusal.value.RateLimited? ==> K.ScopeName(ScopeOf(refusal.value.scope)) == refusal.value.scope
  {
  }

  /** What a whole call does to the counters. */
  function Tally(k: Counters, o: Outcome): Counters {
    var k := k.(sends := k.sends + 1);
    match o
    case Rejected => k.(invalid := k.invalid + 1)
    case LimitedBy(scope) => Limited(k, scope)
    case LimiterFailed => k.(limiterErrors := k.limiterErrors + 1)
    case NotPublished => k.(accepted := k.accepted + 1, publishErrors := k.publishErrors + 1)
    case Queued(_) => k.(accepted := k.accepted + 1, published := k.published + 1, queued := k.queued + 1)
    case QueueFull(_) => k.(accepted := k.accepted + 1, published := k.published + 1, dropped := k.dropped + 1)
    case ServiceClosed(_) =>
      k.(accepted := k.accepted + 1, published := k.published + 1, dropped := k.dropped + 1,
         closedDrops := k.closedDrops + 1)
  }

  /** One more call, refused in this scope. */
  function LimitedOnce(k: Counters, scope: Bytes): Counters {
    k.(sends := k.sends + 1, limited := k.limited + 1,
       userLimited := k.userLimited + (if scope == "user" then 1 else 0),
       ipLimited := k.ipLimited + (if scope == "ip" then 1 else 0),
       roomLimited := k.roomLimited + (if scope == "room" then 1 else 0))
  }

  lemma LimitedOnceIs(k: Counters, scope: K.Scope)
    ensures LimitedOnce(k, K.ScopeName(scope)) == Limited(k.(sends := k.sends + 1), scope)
  {
  }

  /** Each stage accounts for the one before it. */
  predicate Balanced(k: Counters) {
    && k.sends == k.invalid + k.limited + k.limiterErrors + k.accepted
    && k.accepted == k.published + k.publishErrors
    && k.published == k.queued + k.dropped
    && k.limited == k.userLimited + k.ipLimited + k.roomLimited
  }

  lemma NothingBalances()
    ensures Balanced(NO_COUNTS)
  {
  }

  lemma TallyBalances(k: Counters, o: Outcome)
    ensures Balanced(k) <==> Balanced(Tally(k, o))
  {
  }

  // ---------- a call as a run of the transition system ----------

  /** The steps of a call with this outcome. */
  function StepsOf(c: ConnId, content: Bytes, o: Outcome): seq<Step> {
    [Listen(c, ReadDanmaku(content))] +
    match o
    case Rejected => [Send(c, RejectContent)]
    case LimitedBy(scope) => [Send(c, RefuseByLimit(scope))]
    case LimiterFailed => [Send(c, LimiterFails)]
    case NotPublished => [Send(c, Accept), Send(c, PublishFails)]
    case Queued(m) => Forwarded(c, m) + [Send(c, CheckClosed), Send(c, PutRecord)]
    case QueueFull(m) => Forwarded(c, m) + [Send(c, CheckClosed), Send(c, PutRecord)]
    case ServiceClosed(m) => Forwarded(c, m) + [Send(c, CheckClosed)]
  }

  function Forwarded(c: ConnId, m: H.Broadcast): seq<Step> {
    [Send(c, Accept), Send(c, Publish(m.id, m.node, m.at)), Send(c, LockPersist)]
  }

  /** Whether a call that the connection makes now, and that nothing interrupts, can end so. */
  predicate Possible(s: State, x: Conn, content: Bytes, o: Outcome) {
    if !(0 < |content| <= 200) then o.Rejected?
    else
      match o
      case Rejected => false
      case LimitedBy(_) => true
      case LimiterFailed => true
      case NotPublished => true
      case Queued(m) => Own(s, x, content, m) && !s.persistClosed && |s.pipe.queue| < 4096
      case QueueFull(m) => Own(s, x, content, m) && !s.persistClosed && |s.pipe.queue| >= 4096
      case ServiceClosed(m) => Own(s, x, content, m) && s.persistClosed
  }

  predicate Own(s: State, x: Conn, content: Bytes, m: H.Broadcast) {
    m == H.Broadcast(m.id, x.room, x.user, content, m.node, m.at) && !WriteLocked(s)
  }

  /** Apart from the connection's own place in the call, its counters, the messages and the queue, nothing changed. */
  ghost predicate Within(s: State, t: State, c: ConnId, pc: Pc) {
    && c in s.conns && c in t.conns && t.conns[c].pc == pc
    && t == s.(conns := s.conns[c := s.conns[c].(pc := pc)], counters := t.counters, pipe := t.pipe,
               published := t.published)
  }

  lemma SendStep(s: State, c: ConnId, e: Sending) returns (t: State)
    requires c in s.conns && CanSend(s, s.conns[c], e) && !(e.PutRecord? && s.pipe.closed)
    ensures Run(s, [Send(c, e)], t)
    ensures c in s.conns && t == SendRest(s, s.conns[c], e).(conns := s.conns[c := SendSelf(s, s.conns[c], e)])
    ensures Within(s, t, c, SendSelf(s, s.conns[c], e).pc)
  {
    t := Next(s, Send(c, e));
    SendRestFrame(s, s.conns[c], e);
    assert [Send(c, e)][1..] == [];
  }

  lemma PublishedRun(s: State, c: ConnId, m: H.Broadcast) returns (t: State)
    requires c in s.conns && s.conns[c].pc.Checking? && ValidContent(s.conns[c].pc.content)
    requires Own(s, s.conns[c], s.conns[c].pc.content, m)
    ensures Run(s, [Send(c, Accept), Send(c, Publish(m.id, m.node, m.at))], t) && Within(s, t, c, Persisting(m))
    ensures t.counters == s.counters.(accepted := s.counters.accepted + 1, published := s.counters.published + 1)
    ensures t.published == s.published + [m] && t.pipe == s.pipe
  {
    hide Run;
    var t1 := SendStep(s, c, Accept);
    t := SendStep(t1, c, Publish(m.id, m.node, m.at));
    RunThen(s, [Send(c, Accept)], t1, [Send(c, Publish(m.id, m.node, m.at))], t);
    assert [Send(c, Accept)] + [Send(c, Publish(m.id, m.node, m.at))]
        == [Send(c, Accept), Send(c, Publish(m.id, m.node, m.at))];
  }

  /** The steps from an accepted message to the reader side of the persistence lock. */
  lemma ForwardedRun(s: State, c: ConnId, m: H.Broadcast) returns (t: State)
    requires c in s.conns && s.conns[c].pc.Checking? && ValidContent(s.conns[c].pc.content)
    requires Own(s, s.conns[c], s.conns[c].pc.content, m)
    ensures Run(s, Forwarded(c, m), t) && Within(s, t, c, Guarded(m))
    ensures t.counters == s.counters.(accepted := s.counters.accepted + 1, published := s.counters.published + 1)
    ensures t.published == s.published + [m] && t.pipe == s.pipe
  {
    hide Run;
    var steps := [Send(c, Accept), Send(c, Publish(m.id, m.node, m.at))];
    var t1 := PublishedRun(s, c, m);
    t := SendStep(t1, c, LockPersist);
    RunThen(s, steps, t1, [Send(c, LockPersist)], t);
    assert steps + [Send(c, LockPersist)] == Forwarded(c, m);
  }

  /** What is left of a call once it is inside the lock. */
  lemma KeptRun(s: State, c: ConnId, m: H.Broadcast, steps: seq<Step>) returns (t: State)
    requires c in s.conns && s.conns[c].pc == Guarded(m) && (s.pipe.closed ==> s.persistClosed)
    requires steps == if s.persistClosed then [Send(c, CheckClosed)] else [Send(c, CheckClosed), Send(c, PutRecord)]
    ensures Run(s, steps, t) && Within(s, t, c, Reading)
    ensures
      var k := s.counters;
      t.counters ==
        if s.persistClosed then k.(dropped := k.dropped + 1, closedDrops := k.closedDrops + 1)
        else if P.HasSpace(s.pipe) then k.(queued := k.queued + 1) else k.(dropped := k.dropped + 1)
    ensures t.published == s.published
    ensures t.pipe == if !s.persistClosed && P.HasSpace(s.pipe) then P.Put(s.pipe, RecordOf(m)) else s.pipe
  {
    hide Run, P.Put;
    var t1 := SendStep(s, c, CheckClosed);
    if s.persistClosed {
      t := t1;
    } else {
      t := SendStep(t1, c, PutRecord);
      RunThen(s, [Send(c, CheckClosed)], t1, [Send(c, PutRecord)], t);
      assert [Send(c, CheckClosed)] + [Send(c, PutRecord)] == steps;
    }
  }

  lemma ReadStep(s: State, c: ConnId, content: Bytes) returns (t: State)
    requires c in s.conns && s.conns[c].pc.Reading? && s.conns[c].inbox > 0
    ensures Run(s, [Listen(c, ReadDanmaku(content))], t)
    ensures t == s.(conns := t.conns, counters := s.counters.(sends := s.counters.sends + 1))
    ensures t.conns == s.conns[c := s.conns[c].(inbox := s.conns[c].inbox - 1, pc := Checking(content))]
  {
    t := Next(s, Listen(c, ReadDanmaku(content)));
    assert [Listen(c, ReadDanmaku(content))][1..] == [];
  }

  /** An uninterrupted call is a run of the transition system: it does to the counters, the published messages and the
      queue what the method below promises, and brings the connection back to its read loop, or first to the reply that
      an error gets there. */
  lemma CallIsRun(s: State, c: ConnId, content: Bytes, o: Outcome) returns (t: State)
    requires c in s.conns && s.conns[c].pc.Reading? && s.conns[c].inbox > 0
    requires LockInv(s) && Possible(s, s.conns[c], content, o)
    ensures Run(s, StepsOf(c, content, o), t)
    ensures c in t.conns && t.counters == Tally(s.counters, o)
    ensures
      var pc := if o.Queued? || o.QueueFull? || o.ServiceClosed? then Reading else Replying;
      t == s.(conns := s.conns[c := s.conns[c].(pc := pc, inbox := s.conns[c].inbox - 1)],
              counters := t.counters, pipe := t.pipe, published := t.published)
    ensures t.published ==
      if o.Queued? || o.QueueFull? || o.ServiceClosed? then s.published + [o.message] else s.published
    ensures !o.Queued? ==> t.pipe == s.pipe
    ensures o.Queued? ==>
      var m := o.message;
      var r := P.Record(m.id, m.room, m.user, m.content, m.at);
      t.pipe == s.pipe.(queue := s.pipe.queue + [r], enqueued := s.pipe.enqueued + [r])
  {
    hide Run, P.Put, RecordOf, LockInv, StepsOf, Forwarded, Possible, Within;
    ClosedMeans(s);
    var s1 := ReadStep(s, c, content);
    AfterRead(s, s1, c, content, o);
    if o.Queued? {
      PutMeans(s.pipe, o.message);
    }
    if o.Queued? || o.QueueFull? || o.ServiceClosed? {
      t := ForwardedCall(s, s1, c, content, o);
    } else if o.NotPublished? {
      t := UnpublishedCall(s, s1, c, content);
    } else {
      t := StoppedCall(s, s1, c, content, o);
    }
  }

  lemma AfterRead(s: State, s1: State, c: ConnId, content: Bytes, o: Outcome)
    requires c in s.conns && Possible(s, s.conns[c], content, o) && s.conns[c].inbox > 0
    requires s1 == s.(conns := s1.conns, counters := s.counters.(sends := s.counters.sends + 1))
    requires s1.conns == s.conns[c := s.conns[c].(inbox := s.conns[c].inbox - 1, pc := Checking(content))]
    ensures Possible(s1, s1.conns[c], content, o)
    ensures !o.Rejected? ==> ValidContent(content)
    ensures o.Queued? ==> |s.pipe.queue| < 4096
    ensures forall t, pc :: Within(s1, t, c, pc) ==>
      t == s.(conns := s.conns[c := s.conns[c].(pc := pc, inbox := s.conns[c].inbox - 1)],
              counters := t.counters, pipe := t.pipe, published := t.published)
  {
  }

  lemma ClosedMeans(s: State)
    requires LockInv(s)
    ensures s.pipe.closed ==> s.persistClosed
  {
  }

  lemma PutMeans(p: P.Pipe, m: H.Broadcast)
    ensures |p.queue| < 4096 ==>
      var r := P.Record(m.id, m.room, m.user, m.content, m.at);
      P.Put(p, RecordOf(m)) == p.(queue := p.queue + [r], enqueued := p.enqueued + [r])
  {
  }

  lemma StoppedCall(s: State, s1: State, c: ConnId, content: Bytes, o: Outcome) returns (t: State)
    requires c in s1.conns && s1.conns[c].pc == Checking(content) && Possible(s1, s1.conns[c], content, o)
    requires o.Rejected? || o.LimitedBy? || o.LimiterFailed?
    requires Run(s, [Listen(c, ReadDanmaku(content))], s1)
    ensures Run(s, StepsOf(c, content, o), t)
    ensures Within(s1, t, c, Replying) && t.pipe == s1.pipe && t.published == s1.published
    ensures
      var k := s1.counters;
      t.counters == if o.Rejected? then k.(invalid := k.invalid + 1)
                    else if o.LimitedBy? then Limited(k, o.scope)
                    else k.(limiterErrors := k.limiterErrors + 1)
  {
    hide Run;
    var e: Sending :=
      if o.Rejected? then RejectContent else if o.LimitedBy? then RefuseByLimit(o.scope) else LimiterFails;
    t := SendStep(s1, c, e);
    RunThen(s, [Listen(c, ReadDanmaku(content))], s1, [Send(c, e)], t);
  }

  lemma UnpublishedCall(s: State, s1: State, c: ConnId, content: Bytes) returns (t: State)
    requires c in s1.conns && s1.conns[c].pc == Checking(content) && ValidContent(content)
    requires Run(s, [Listen(c, ReadDanmaku(content))], s1)
    ensures Run(s, StepsOf(c, content, NotPublished), t)
    ensures Within(s1, t, c, Replying) && t.pipe == s1.pipe && t.published == s1.published
    ensures
      var k := s1.counters;
      t.counters == k.(accepted := k.accepted + 1, publishErrors := k.publishErrors + 1)
  {
    hide Run;
    var s2 := SendStep(s1, c, Accept);
    t := SendStep(s2, c, PublishFails);
    RunThen(s1, [Send(c, Accept)], s2, [Send(c, PublishFails)], t);
    assert [Send(c, Accept)] + [Send(c, PublishFails)] == [Send(c, Accept), Send(c, PublishFails)];
    RunThen(s, [Listen(c, ReadDanmaku(content))], s1, [Send(c, Accept), Send(c, PublishFails)], t);
  }

  lemma ForwardIsPossible(s: State, c: ConnId, content: Bytes, o: Outcome)
    requires c in s.conns && Possible(s, s.conns[c], content, o)
    requires o.Queued? || o.QueueFull? || o.ServiceClosed?
    ensures Own(s, s.conns[c], content, o.message) && (s.persistClosed <==> o.ServiceClosed?)
    ensures !s.persistClosed ==> (P.HasSpace(s.pipe) <==> o.Queued?)
  {
  }

  lemma ForwardedCall(s: State, s1: State, c: ConnId, content: Bytes, o: Outcome) returns (t: State)
    requires c in s1.conns && s1.conns[c].pc == Checking(content) && ValidContent(content)
    requires o.Queued? || o.QueueFull? || o.ServiceClosed?
    requires Possible(s1, s1.conns[c], content, o) && (s1.pipe.closed ==> s1.persistClosed)
    requires Run(s, [Listen(c, ReadDanmaku(content))], s1)
    ensures Run(s, StepsOf(c, content, o), t)
    ensures Within(s1, t, c, Reading)
    ensures
      var k := s1.counters.(accepted := s1.counters.accepted + 1, published := s1.counters.published + 1);
      t.counters == if o.Queued? then k.(queued := k.queued + 1)
                    else if o.QueueFull? then k.(dropped := k.dropped + 1)
                    else k.(dropped := k.dropped + 1, closedDrops := k.closedDrops + 1)
    ensures t.pipe == if o.Queued? then P.Put(s1.pipe, RecordOf(o.message)) else s1.pipe
    ensures t.published == s1.published + [o.message]
  {
    hide *;
    ForwardIsPossible(s1, c, content, o);
    var rest := if o.ServiceClosed? then [Send(c, CheckClosed)] else [Send(c, CheckClosed), Send(c, PutRecord)];
    var s2 := ForwardedRun(s1, c, o.message);
    WithinMeans(s1, s2, c, Guarded(o.message));
    t := KeptRun(s2, c, o.message, rest);
    WithinThen(s1, s2, t, c, Guarded(o.message), Reading);
    RunThen(s1, Forwarded(c, o.message), s2, rest, t);
    RunThen(s, [Listen(c, ReadDanmaku(content))], s1, Forwarded(c, o.message) + rest, t);
    StepsOfForwarded(c, content, o);
  }

  lemma StepsOfForwarded(c: ConnId, content: Bytes, o: Outcome)
    requires o.Queued? || o.QueueFull? || o.ServiceClosed?
    ensures StepsOf(c, content, o) == [Listen(c, ReadDanmaku(content))] + (Forwarded(c, o.message) +
              if o.ServiceClosed? then [Send(c, CheckClosed)] else [Send(c, CheckClosed), Send(c, PutRecord)])
  {
  }

  lemma WithinMeans(s: State, t: State, c: ConnId, pc: Pc)
    requires Within(s, t, c, pc)
    ensures c in t.conns && t.conns[c].pc == pc && t.persistClosed == s.persistClosed
  {
  }

  lemma WithinThen(s: State, mid: State, t: State, c: ConnId, first: Pc, second: Pc)
    requires Within(s, mid, c, first) && Within(mid, t, c, second)
    ensures Within(s, t, c, second)
  {
  }

  class MessageService {
    const redis: FW.Redis
    const limits: C.LimitConfig
    const node: Bytes
    const rooms: S.RoomSubscriptions
    const pipeline: P.Pipeline
    var persistClosed: bool
    var counters: Counters
    ghost var published: seq<H.Broadcast>

    ghost predicate Valid()
      reads this, rooms, rooms.broker, pipeline, pipeline.buffer
    {
      && rooms.Valid() && pipeline.Valid()
      && (persistClosed <==> pipeline.closed)
      && Balanced(counters) && counters.queued == |pipeline.enqueued|
    }

    constructor (redis: FW.Redis, limits: C.LimitConfig, node: Bytes, rooms: S.RoomSubscriptions, pipeline: P.Pipeline)
      requires rooms.Valid() && pipeline.Valid() && !pipeline.closed && pipeline.enqueued == []
      ensures Valid() && this.redis == redis && this.limits == limits && this.node == node
      ensures this.rooms == rooms && this.pipeline == pipeline && !persistClosed && published == []
    {
      hide Balanced;
      NothingBalances();
      this.redis, this.limits, this.node, this.rooms, this.pipeline := redis, limits, node, rooms, pipeline;
      persistClosed, published := false, [];
      counters := NO_COUNTS;
    }

    /** The record is queued, or dropped because the service is closed or the queue is full. */
    method EnqueuePersistence(m: H.Broadcast) returns (o: Outcome)
      requires rooms.Valid() && pipeline.Valid() && (persistClosed <==> pipeline.closed)
      modifies this`counters, pipeline`queue, pipeline`enqueued
      ensures pipeline.Valid()
      ensures
        var k := old(counters);
        counters == if o.Queued? then k.(queued := k.queued + 1)
                    else k.(dropped := k.dropped + 1, closedDrops := k.closedDrops + if o.ServiceClosed? then 1 else 0)
      ensures o == if persistClosed then ServiceClosed(m)
                   else if |old(pipeline.queue)| < 4096 then Queued(m) else QueueFull(m)
      ensures o.Queued? ==>
        var r := P.Record(m.id, m.room, m.user, m.content, m.at);
        pipeline.queue == old(pipeline.queue) + [r] && pipeline.enqueued == old(pipeline.enqueued) + [r]
      ensures !o.Queued? ==> pipeline.queue == old(pipeline.queue) && pipeline.enqueued == old(pipeline.enqueued)
      ensures pipeline.View() == if o.Queued? then P.Put(old(pipeline.View()), RecordOf(m)) else old(pipeline.View())
    {
      if persistClosed {
        counters := counters.(dropped := counters.dropped + 1, closedDrops := counters.closedDrops + 1);
        return ServiceClosed(m);
      }
      var sent := pipeline.TrySend(RecordOf(m));
      if sent {
        counters := counters.(queued := counters.queued + 1);
        return Queued(m);
      }
      counters := counters.(dropped := counters.dropped + 1);
      return QueueFull(m);
    }

    /** Runs the limiter; a refusal is counted by its scope, another limiter error only by the specification. */
    method Admit(s: C.Sender, fault: RL.Fault) returns (refusal: Option<C.Refusal>, ghost o: Outcome)
      modifies this`counters, redis`store, redis`calls
      ensures refusal == C.ToRefusal(RL.AllowResult(old(redis.store), redis.now, C.RulesFor(limits, s), fault))
      ensures refusal.None? <==> C.Admitted(old(redis.store), redis.now, limits, s, fault)
      ensures C.Answer(old(redis.store), redis.now, limits, s, fault, refusal)
      ensures refusal.Some? && refusal.value.RateLimited? ==>
        counters == LimitedOnce(old(counters), refusal.value.scope)
      ensures refusal.Some? ==>
        && counters == Tally(old(counters), o)
        && if refusal.value.RateLimited? then o.LimitedBy? && K.ScopeName(o.scope) == refusal.value.scope
           else o == LimiterFailed
      ensures refusal.None? ==> counters == old(counters)
      ensures old(redis.Traced()) ==> redis.Traced()
    {
      hide C.ToRefusal, C.RulesFor, RL.AllowResult, RL.ValidRules, FW.StoreAfter, K.ScopeName, ScopeOf, FW.Redis.Traced;
      RefusalNamesScope(RL.AllowResult(redis.store, redis.now, C.RulesFor(limits, s), fault));
      o := LimiterFailed;
      refusal := C.CheckLimit(redis, limits, s, fault);
      if refusal.Some? {
        if refusal.value.RateLimited? {
          var scope := ScopeOf(refusal.value.scope);
          LimitedOnceIs(old(counters), scope);
          o := LimitedBy(scope);
          counters := Limited(counters.(sends := counters.sends + 1), scope);
        } else {
          counters := counters.(sends := counters.sends + 1, limiterErrors := counters.limiterErrors + 1);
        }
      }
    }

    /** Publishes an accepted message and queues it for persistence. */
    method Forward(m: H.Broadcast, publishOk: bool) returns (o: Outcome)
      requires rooms.Valid() && pipeline.Valid() && (persistClosed <==> pipeline.closed)
      modifies this`counters, this`published, pipeline`queue, pipeline`enqueued
      ensures pipeline.Valid()
      ensures counters == Tally(old(counters), o)
      ensures o == if !publishOk then NotPublished
                   else if persistClosed then ServiceClosed(m)
                   else if |old(pipeline.queue)| < 4096 then Queued(m) else QueueFull(m)
      ensures o.Queued? ==>
        pipeline.queue == old(pipeline.queue) + [P.Record(m.id, m.room, m.user, m.content, m.at)]
      ensures published == old(published) + if publishOk then [m] else []
      ensures pipeline.View() == if o.Queued? then P.Put(old(pipeline.View()), RecordOf(m)) else old(pipeline.View())
    {
      hide P.Sound, P.Put;
      counters := counters.(sends := counters.sends + 1, accepted := counters.accepted + 1);
      if !publishOk {
        counters := counters.(publishErrors := counters.publishErrors + 1);
        return NotPublished;
      }
      published := published + [m];
      counters := counters.(published := counters.published + 1);
      o := EnqueuePersistence(m);
    }

    /** content has been trimmed; id and at are the new message's identifier and time; publishOk says whether the broker
        took it. */
    method Send(s: C.Sender, content: Bytes, fault: RL.Fault, publishOk: bool, id: Bytes, at: int)
      returns (r: Result<H.Broadcast, SendError>, ghost o: Outcome)
      requires Valid()
      modifies this`counters, this`published, redis`store, redis`calls, pipeline`queue, pipeline`enqueued
      ensures Valid()
      ensures counters == Tally(old(counters), o)
      ensures o.Rejected? <==> !(0 < |content| <= 200)
      ensures r.Ok? <==>
        0 < |content| <= 200 && C.Admitted(old(redis.store), redis.now, limits, s, fault) && publishOk
      ensures published == old(published) + if r.Ok? then [H.Broadcast(id, s.room, s.user, content, node, at)] else []
      ensures o.Queued? ==> pipeline.queue == old(pipeline.queue) + [P.Record(id, s.room, s.user, content, at)]
      ensures r.Err? && r.error.Refused? ==>
        C.Answer(old(redis.store), redis.now, limits, s, fault, Some(r.error.refusal))
      ensures r.Err? && r.error.Refused? && r.error.refusal.RateLimited? ==>
        counters == LimitedOnce(old(counters), r.error.refusal.scope)
      ensures
        var refusal := C.ToRefusal(RL.AllowResult(old(redis.store), redis.now, C.RulesFor(limits, s), fault));
        var m := H.Broadcast(id, s.room, s.user, content, node, at);
        if !(0 < |content| <= 200) then r == Err(InvalidContent) && redis.store == old(redis.store)
        else if refusal.Some? then
          && r == Err(Refused(refusal.value))
          && if refusal.value.RateLimited? then o.LimitedBy? && K.ScopeName(o.scope) == refusal.value.scope
             else o == LimiterFailed
        else if !publishOk then r == Err(PublishFailed) && o == NotPublished
        else
          && r == Ok(m) && o == (if persistClosed then ServiceClosed(m)
                                 else if |old(pipeline.queue)| < 4096 then Queued(m) else QueueFull(m))
      ensures pipeline.View() ==
        if o.Queued? then P.Put(old(pipeline.View()), RecordOf(o.message)) else old(pipeline.View())
      ensures old(redis.Traced()) ==> redis.Traced()
    {
      hide C.Answer, C.ToRefusal, C.RulesFor, RL.AllowResult, K.ScopeName, FW.Redis.Traced;
      hide P.Sound, RecordOf, Broker.Valid;
      if |content| == 0 || |content| > MAX_CONTENT {
        o := Rejected;
        counters := counters.(sends := counters.sends + 1, invalid := counters.invalid + 1);
        return Err(InvalidContent), o;
      }
      var refusal;
      refusal, o := Admit(s, fault);
      if refusal.Some? {
        TallyBalances(old(counters), o);
        return Err(Refused(refusal.value)), o;
      }
      var m := H.Broadcast(id, s.room, s.user, content, node, at);
      var sent := Forward(m, publishOk);
      o := sent;
      TallyBalances(old(counters), o);
      r := if sent.NotPublished? then Err(PublishFailed) else Ok(m);
    }

    /** Waiting for the worker lets it run to its end, whatever the ticks and the outcomes of its writes; then every
        subscription is ended. A second call does nothing. */
    method Close(ticks: seq<bool>, writes: seq<bool>)
      requires Valid()
      modifies this`persistClosed, pipeline, pipeline.buffer, rooms, rooms.broker
      ensures Valid() && persistClosed
      ensures !old(persistClosed) ==>
        && pipeline.worker.Exited? && Flatten(pipeline.handed) == pipeline.enqueued == old(pipeline.enqueued)
        && rooms.subscriptions == map[] && rooms.broker.closers == {}
        && rooms.broker.rooms == old(rooms.broker.rooms)
        && rooms.broker.fired == rooms.broker.rooms.Keys - Broker.Pending(old(rooms.broker.View()))
      ensures old(persistClosed) ==>
        && pipeline.View() == old(pipeline.View())
        && rooms.subscriptions == old(rooms.subscriptions) && rooms.broker.View() == old(rooms.broker.View())
    {
      if persistClosed {
        return;
      }
      persistClosed := true;
      pipeline.CloseChannel();
      var receives := pipeline.RunToExit(ticks, writes);
      rooms.Close();
    }
  }
}
