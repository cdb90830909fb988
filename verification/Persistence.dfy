/** Asynchronous batch writing: a bounded queue and one worker that fills and reuses a single buffer. */
module Persistence {
  import opened Prelude

  datatype Record = Record(id: Bytes, room: Bytes, user: Bytes, content: Bytes, at: int)

  const QUEUE_CAPACITY := 4096
  const DEFAULT_BATCH_SIZE := 50

  /** Waiting in select, inside SaveBatch (for the last time or not), or gone. */
  datatype Worker = Selecting | Saving(last: bool) | Exited

  /** handed holds the slices given to SaveBatch and enqueued the records that entered the queue, both in order;
      outcomes says of each SaveBatch that has returned whether it succeeded. */
  datatype Pipe = Pipe(
    batchSize: nat, queue: seq<Record>, closed: bool, worker: Worker, batch: seq<Record>,
    handed: seq<seq<Record>>, enqueued: seq<Record>, failed: nat, outcomes: seq<bool>)

  function Fresh(batchSize: int): Pipe {
    Pipe(if batchSize <= 0 then DEFAULT_BATCH_SIZE else batchSize, [], false, Selecting, [], [], [], 0, [])
  }

  predicate HasSpace(p: Pipe) { |p.queue| < QUEUE_CAPACITY }

  /** A non-blocking send: a full queue refuses the record. */
  function Put(p: Pipe, r: Record): (q: Pipe)
    ensures q.closed == p.closed && q.worker == p.worker
    ensures q.enqueued == p.enqueued + if HasSpace(p) then [r] else []
  {
    if HasSpace(p) then p.(queue := p.queue + [r], enqueued := p.enqueued + [r]) else p
  }

  function CloseQueue(p: Pipe): Pipe { p.(closed := true) }

  /** Hands the batch to SaveBatch; an empty batch is not handed over. */
  function Flush(p: Pipe, last: bool): (r: Pipe)
    ensures r.closed == p.closed && r.enqueued == p.enqueued && r.queue == p.queue
  {
    if p.batch == [] then p.(worker := if last then Exited else Selecting)
    else p.(worker := Saving(last), handed := p.handed + [p.batch])
  }

  predicate CanReceive(p: Pipe) { p.worker.Selecting? && (p.queue != [] || p.closed) }

  /** One receive in the worker's select: a record, or the news that the queue is closed and empty. */
  function Receive(p: Pipe): (r: Pipe)
    requires CanReceive(p)
    ensures r.closed == p.closed && r.enqueued == p.enqueued
    ensures ReceivesLeft(r) == ReceivesLeft(p) - 1 || !p.closed
  {
    if p.queue == [] then Flush(p, true)
    else
      var taken := p.(batch := p.batch + [p.queue[0]], queue := p.queue[1..]);
      if |taken.batch| >= p.batchSize then Flush(taken, false) else taken
  }

  /** SaveBatch returns; a failed batch is counted and given up. */
  function Saved(p: Pipe, ok: bool): (r: Pipe)
    requires p.worker.Saving?
    ensures r.closed == p.closed && r.enqueued == p.enqueued && r.queue == p.queue
  {
    p.(batch := [], worker := if p.worker.last then Exited else Selecting,
       failed := p.failed + (if ok then 0 else 1), outcomes := p.outcomes + [ok])
  }

  /** The part of the buffer that has not been handed over yet. */
  function Unhanded(p: Pipe): seq<Record> { if p.worker.Saving? then [] else p.batch }

  function Failures(outcomes: seq<bool>): nat {
    if outcomes == [] then 0
    else Failures(outcomes[..|outcomes| - 1]) + if outcomes[|outcomes| - 1] then 0 else 1
  }

  /** The records of the slices whose SaveBatch succeeded. */
  function Stored(handed: seq<seq<Record>>, outcomes: seq<bool>): seq<Record>
    requires |outcomes| <= |handed|
  {
    if outcomes == [] then []
    else
      var k := |outcomes| - 1;
      Stored(handed, outcomes[..k]) + if outcomes[k] then handed[k] else []
  }

  /** A record is stored if and only if some successful write had it. */
  lemma {:induction false} StoredIs(handed: seq<seq<Record>>, outcomes: seq<bool>, r: Record)
    requires |outcomes| <= |handed|
    ensures r in Stored(handed, outcomes) <==> exists k :: 0 <= k < |outcomes| && outcomes[k] && r in handed[k]
  {
    if outcomes != [] {
      var k := |outcomes| - 1;
      StoredIs(handed, outcomes[..k], r);
      assert forall i :: 0 <= i < k ==> outcomes[..k][i] == outcomes[i];
    }
  }

  /** Without a failed write, what was handed over is what is stored. */
  lemma {:induction false} AllStored(handed: seq<seq<Record>>, outcomes: seq<bool>)
    requires |outcomes| <= |handed| && Failures(outcomes) == 0
    ensures Stored(handed, outcomes) == Flatten(handed[..|outcomes|])
  {
    if outcomes != [] {
      var k := |outcomes| - 1;
      AllStored(handed, outcomes[..k]);
      assert handed[..k + 1] == handed[..k] + [handed[k]];
      FlattenAppend(handed[..k], handed[k]);
    }
  }

  /** Nothing is lost, repeated or reordered between the queue's entrance and SaveBatch; batches are never empty and
      never exceed the batch size; and the worker only leaves an empty, closed queue behind. */
  ghost predicate Sound(p: Pipe) {
    && p.batchSize > 0 && |p.queue| <= 4096
    && Flatten(p.handed) + Unhanded(p) + p.queue == p.enqueued
    && (forall i :: 0 <= i < |p.handed| ==> 1 <= |p.handed[i]| <= p.batchSize)
    && (p.worker.Selecting? ==> |p.batch| < p.batchSize)
    && (p.worker.Saving? ==> p.handed != [] && p.handed[|p.handed| - 1] == p.batch)
    && (p.worker.Saving? && p.worker.last ==> p.closed && p.queue == [])
    && (p.worker.Exited? ==> p.closed && p.queue == [] && p.batch == [])
    && |p.handed| == |p.outcomes| + (if p.worker.Saving? then 1 else 0) && p.failed == Failures(p.outcomes)
  }

  lemma PutValid(p: Pipe, r: Record)
    requires Sound(p) && !p.closed
    ensures Sound(Put(p, r))
  {
  }

  lemma FlushValid(p: Pipe, last: bool)
    requires p.worker.Selecting? && p.batchSize > 0 && |p.batch| <= p.batchSize && |p.queue| <= QUEUE_CAPACITY
    requires Flatten(p.handed) + p.batch + p.queue == p.enqueued
    requires forall i :: 0 <= i < |p.handed| ==> 1 <= |p.handed[i]| <= p.batchSize
    requires |p.handed| == |p.outcomes| && p.failed == Failures(p.outcomes)
    requires last ==> p.closed && p.queue == []
    ensures Sound(Flush(p, last))
  {
    if p.batch != [] {
      var p' := Flush(p, last);
      FlattenAppend(p.handed, p.batch);
      hide Flatten;
      assert Flatten(p'.handed) + [] == Flatten(p'.handed);
      assert p'.handed[..|p.handed|] == p.handed && p'.handed[|p.handed|] == p.batch;
    }
  }

  lemma ReceiveValid(p: Pipe)
    requires Sound(p) && CanReceive(p)
    ensures Sound(Receive(p))
  {
    if p.queue == [] {
      FlushValid(p, true);
    } else {
      var taken := p.(batch := p.batch + [p.queue[0]], queue := p.queue[1..]);
      TakenInOrder(p);
      if |taken.batch| >= p.batchSize {
        hide Flush, Flatten;
        FlushValid(taken, false);
      }
    }
  }

  lemma TakenInOrder(p: Pipe)
    requires p.queue != []
    ensures Flatten(p.handed) + (p.batch + [p.queue[0]]) + p.queue[1..] == Flatten(p.handed) + p.batch + p.queue
  {
    hide Flatten;
    assert [p.queue[0]] + p.queue[1..] == p.queue;
  }

  lemma TickValid(p: Pipe)
    requires Sound(p) && p.worker.Selecting?
    ensures Sound(Flush(p, false))
  {
  }

  lemma SavedValid(p: Pipe, ok: bool)
    requires Sound(p) && p.worker.Saving?
    ensures Sound(Saved(p, ok))
  {
  }

  /** How many receives are left before the worker of a closed queue is gone. */
  function ReceivesLeft(p: Pipe): nat {
    if p.worker.Exited? || (p.worker.Saving? && p.worker.last) then 0 else |p.queue| + 1
  }

  /** The receives and writes that are left. */
  function Work(p: Pipe): nat { 2 * ReceivesLeft(p) + if p.worker.Saving? then 1 else 0 }

  /** The worker of a closed queue always has something to do, until it is gone. */
  lemma WorkFalls(p: Pipe)
    requires p.closed
    ensures p.worker.Selecting? ==> CanReceive(p) && Work(Receive(p)) < Work(p) && Receive(p).enqueued == p.enqueued
    ensures p.worker.Saving? ==> Work(Saved(p, true)) < Work(p) && Saved(p, true).enqueued == p.enqueued
  {
  }

  class Pipeline {
    const buffer: array<Record>  // batch is buffer[..n]; batch[:0] keeps the array
    var n: nat
    var queue: seq<Record>
    var closed: bool
    var worker: Worker
    var failed: nat
    ghost var handed: seq<seq<Record>>
    ghost var enqueued: seq<Record>
    ghost var outcomes: seq<bool>

    ghost function View(): Pipe
      reads this, buffer
      requires n <= buffer.Length
    {
      Pipe(buffer.Length, queue, closed, worker, buffer[..n], handed, enqueued, failed, outcomes)
    }

    ghost predicate Valid()
      reads this, buffer
    {
      n <= buffer.Length && Sound(View())
    }

    constructor (batchSize: int)
      ensures Valid() && fresh(buffer) && View() == Fresh(batchSize)
    {
      buffer := new Record[if batchSize <= 0 then DEFAULT_BATCH_SIZE else batchSize];
      n, queue, closed, worker, failed, handed, enqueued, outcomes := 0, [], false, Selecting, 0, [], [], [];
    }

    method TrySend(r: Record) returns (sent: bool)
      requires Valid() && !closed
      modifies this`queue, this`enqueued
      ensures Valid()
      ensures sent <==> |old(queue)| < 4096
      ensures sent ==> queue == old(queue) + [r] && enqueued == old(enqueued) + [r]
      ensures !sent ==> queue == old(queue) && enqueued == old(enqueued)
      ensures View() == Put(old(View()), r)
    {
      PutValid(View(), r);
      sent := |queue| < QUEUE_CAPACITY;
      if sent {
        queue := queue + [r];
        enqueued := enqueued + [r];
      }
    }

    method CloseChannel()
      requires Valid()
      modifies this`closed
      ensures Valid() && closed && View() == CloseQueue(old(View()))
    {
      closed := true;
    }

    /** The slice is read while SaveBatch runs; nothing writes the buffer before it returns. */
    method StartFlush(last: bool)
      requires n <= buffer.Length
      modifies this`worker, this`handed
      ensures n <= buffer.Length && View() == Flush(old(View()), last)
      ensures handed == old(handed) + if n == 0 then [] else [buffer[..n]]
      ensures worker == if n != 0 then Saving(last) else if last then Exited else Selecting
    {
      if n == 0 {
        worker := if last then Exited else Selecting;
        return;
      }
      worker := Saving(last);
      handed := handed + [buffer[..n]];
    }

    method FinishFlush(ok: bool)
      requires Valid() && worker.Saving?
      modifies this`n, this`worker, this`failed, this`outcomes
      ensures Valid() && View() == Saved(old(View()), ok)
      ensures n == 0 && failed == old(failed) + (if ok then 0 else 1)
      ensures worker == if old(worker.last) then Exited else Selecting
    {
      SavedValid(View(), ok);
      if !ok {
        failed := failed + 1;
      }
      n := 0;
      outcomes := outcomes + [ok];
      worker := if worker.last then Exited else Selecting;
    }

    method OnTick()
      requires Valid() && worker.Selecting?
      modifies this`worker, this`handed
      ensures Valid() && View() == Flush(old(View()), false)
      ensures handed == old(handed) + if n == 0 then [] else [buffer[..n]]
    {
      TickValid(View());
      StartFlush(false);
    }

    /** A record joins the batch, and a full batch is flushed at once, so that the append never outgrows the
        buffer; when the channel is closed and empty, what there is is flushed for the last time. */
    method OnReceive()
      requires Valid() && CanReceive(View())
      modifies this, buffer
      ensures Valid() && View() == Receive(old(View()))
      ensures old(queue) != [] ==>
        && queue == old(queue)[1..] && buffer[..n] == old(buffer[..n]) + [old(queue)[0]]
        && worker == (if n == buffer.Length then Saving(false) else Selecting)
        && handed == old(handed) + if n == buffer.Length then [buffer[..n]] else []
      ensures old(queue) == [] ==>
        && n == old(n) && worker == (if n == 0 then Exited else Saving(true))
        && handed == old(handed) + if n == 0 then [] else [old(buffer[..n])]
    {
      ReceiveValid(View());
      if queue == [] {
        StartFlush(true);
      } else {
        hide Flatten, Sound;
        ghost var before := buffer[..n];
        buffer[n] := queue[0];
        n := n + 1;
        assert buffer[..n] == before + [queue[0]];
        queue := queue[1..];
        if n >= buffer.Length {
          StartFlush(false);
        }
      }
    }

    /** The worker's loop once the queue is closed, for any choice between tick and receive and any outcome of the
        writes: it makes exactly one receive for each waiting record and one more, and everything has been handed
        over. */
    method RunToExit(ticks: seq<bool>, outcomes: seq<bool>) returns (receives: nat)
      requires Valid() && closed
      modifies this, buffer
      ensures Valid() && worker.Exited?
      ensures receives == ReceivesLeft(old(View()))
      ensures Flatten(handed) == enqueued == old(enqueued)
    {
      receives := 0;
      var i, saves := 0, 0;
      while !worker.Exited?
        invariant Valid() && closed && enqueued == old(enqueued)
        invariant receives + ReceivesLeft(View()) == ReceivesLeft(old(View()))
        invariant 0 <= i <= |ticks|
        decreases ReceivesLeft(View()), |ticks| - i, if worker.Saving? then 1 else 0
      {
        if worker.Saving? {
          FinishFlush(saves < |outcomes| && outcomes[saves]);
          saves := saves + 1;
        } else if i < |ticks| && ticks[i] {
          OnTick();
          i := i + 1;
        } else {
          OnReceive();
          receives := receives + 1;
          i := if i < |ticks| then i + 1 else i;
        }
      }
    }
  }
}
