/** From a client's message to the room's history. */
module EndToEnd {
  import opened Prelude
  import opened System
  import opened SystemInvariant
  import opened SystemTheorems
  import H = RoomHub
  import History
  import P = Persistence

  /** What the database holds of this node: the records of the successful writes. */
  function Table(s: State): seq<P.Record>
    requires |s.pipe.outcomes| <= |s.pipe.handed|
  {
    P.Stored(s.pipe.handed, s.pipe.outcomes)
  }

  /** Once Close is past the worker's end, if no message was dropped and no write failed, the database holds the record
      of each published message exactly as often as the message was published, and nothing else. */
  lemma EverythingIsStored(batchSize: int, s: State)
    requires Reachable(batchSize, s) && Progress(s.closing) >= 4 && SendsUnderWay(s) == {}
    requires s.counters.dropped == 0 && s.pipe.failed == 0
    ensures |s.pipe.outcomes| <= |s.pipe.handed|
    ensures multiset(Table(s)) == multiset(Records(s.published))
  {
    hide *;
    DrainedPipe(batchSize, s);
    MessagesAreConserved(batchSize, s);
    P.AllStored(s.pipe.handed, s.pipe.outcomes);
    SameSize(s.pipe.enqueued, Records(s.published));
    TableIs(s);
  }

  lemma DrainedPipe(batchSize: int, s: State)
    requires Reachable(batchSize, s) && Progress(s.closing) >= 4
    ensures Flatten(s.pipe.handed) == s.pipe.enqueued
    ensures |s.pipe.outcomes| == |s.pipe.handed| && s.pipe.failed == P.Failures(s.pipe.outcomes)
    ensures |Records(s.published)| == |s.published|
  {
    ReachableInv(batchSize, s);
    AfterDrain(s);
  }

  lemma TableIs(s: State)
    requires |s.pipe.outcomes| <= |s.pipe.handed|
    ensures Table(s) == P.Stored(s.pipe.handed, s.pipe.outcomes)
    ensures |s.pipe.outcomes| == |s.pipe.handed| ==> s.pipe.handed[..|s.pipe.outcomes|] == s.pipe.handed
  {
  }

  lemma SameSize<T>(a: seq<T>, b: seq<T>)
    requires multiset(a) <= multiset(b) && |a| == |b|
    ensures multiset(a) == multiset(b)
  {
    assert multiset(b) == multiset(a) + (multiset(b) - multiset(a));
    assert |multiset(b)| == |multiset(a)| + |multiset(b) - multiset(a)|;
  }

  /** Then the history of the message's room, and of no other room, has a row with the message's own fields, for every
      cursor after the message. */
  lemma PublishedIsFound(batchSize: int, s: State, m: H.Broadcast, cut: int)
    requires Reachable(batchSize, s) && Progress(s.closing) >= 4 && SendsUnderWay(s) == {}
    requires s.counters.dropped == 0 && s.pipe.failed == 0
    requires m in s.published && m.at < cut
    ensures |s.pipe.outcomes| <= |s.pipe.handed|
    ensures
      var row := P.Record(m.id, m.room, m.user, m.content, m.at);
      && row in History.Sought(Table(s), m.room, cut)
      && forall room :: room != m.room ==> row !in History.Sought(Table(s), room, cut)
  {
    hide *;
    EverythingIsStored(batchSize, s);
    var row := P.Record(m.id, m.room, m.user, m.content, m.at);
    RecordOfPublished(s, m);
    InBoth(row, Table(s), Records(s.published));
    forall room
      ensures row in History.Sought(Table(s), room, cut) <==> room == m.room
    {
      History.SoughtIs(Table(s), room, cut, row);
      Counted(row, History.Sought(Table(s), room, cut));
    }
  }

  lemma RecordOfPublished(s: State, m: H.Broadcast)
    requires m in s.published
    ensures P.Record(m.id, m.room, m.user, m.content, m.at) in Records(s.published)
  {
    var i :| 0 <= i < |s.published| && s.published[i] == m;
    assert Records(s.published)[i] == P.Record(m.id, m.room, m.user, m.content, m.at);
  }

  lemma InBoth<T>(x: T, a: seq<T>, b: seq<T>)
    requires multiset(a) == multiset(b) && x in b
    ensures multiset(a)[x] > 0
  {
    assert x in multiset(b);
  }

  lemma Counted<T>(x: T, a: seq<T>)
    ensures multiset(a)[x] > 0 <==> x in a
  {
  }
}
