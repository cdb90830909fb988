/** The counters against a plain specification: per key, the accepted times grouped by window. */
module WindowHistory {
  import opened Prelude
  import opened FixedWindow

  /** One sequence of accepted times for each window the key has had, oldest window first. */
  type History = seq<seq<int>>

  /** The accepted times of the window that is open at now. */
  function Current(h: History, now: int, window: int): seq<int> {
    if h == [] then []
    else
      var last := h[|h| - 1];
      if last != [] && now < last[0] + window then last else []
  }

  /** A request accepted at now joins the open window, or opens one. */
  function Record(h: History, now: int, window: int): History {
    if Current(h, now, window) == [] then h + [[now]]
    else h[..|h| - 1] + [h[|h| - 1] + [now]]
  }

  /** The history that a run of calls gives a key. */
  ghost function HistoryOf(calls: seq<Call>, key: Bytes, window: int): History {
    if calls == [] then []
    else
      var front, last := calls[..|calls| - 1], calls[|calls| - 1];
      var h := HistoryOf(front, key, window);
      if Accepts(After(front), last.at, last.args) && Names(last.args, key) then Record(h, last.at, window) else h
  }

  ghost predicate WindowOk(w: seq<int>, limit: int, window: int) {
    && 1 <= |w| <= limit
    && forall i :: 0 <= i < |w| ==> w[0] <= w[i] < w[0] + window
  }

  /** Windows hold between one and limit requests, last for window, and never overlap. */
  ghost predicate Windowed(h: History, limit: int, window: int) {
    && (forall i :: 0 <= i < |h| ==> WindowOk(h[i], limit, window))
    && (forall i, j :: 0 <= i && j == i + 1 && j < |h| ==> h[i][0] + window <= h[j][0])
  }

  /** The entry of a key agrees with its history. */
  ghost predicate Agrees(st: Store, now: int, key: Bytes, h: History, limit: int, window: int) {
    && Windowed(h, limit, window)
    && if h == [] then key !in st
       else
         var last := h[|h| - 1];
         key in st && last[0] <= now && st[key] == Entry(|last|, Some(last[0] + window))
  }

  // ---------- what one call does to one key ----------

  lemma {:induction false} BumpAllFrame(st: Store, now: int, args: seq<Arg>, n: nat, key: Bytes)
    requires n <= |args|
    requires forall i :: 0 <= i < n ==> args[i].key != key
    ensures key in BumpAll(st, now, args, n) <==> key in st
    ensures key in st ==> BumpAll(st, now, args, n)[key] == st[key]
  {
    if n > 0 {
      BumpAllFrame(st, now, args, n - 1, key);
    }
  }

  /** With distinct keys, counting all rules counts each key exactly once. */
  lemma {:induction false} BumpAllOne(st: Store, now: int, args: seq<Arg>, n: nat, i: nat)
    requires i < n <= |args| && WellFormed(args)
    ensures args[i].key in Bump(st, now, args[i])
    ensures args[i].key in BumpAll(st, now, args, n)
    ensures BumpAll(st, now, args, n)[args[i].key] == Bump(st, now, args[i])[args[i].key]
  {
    if i < n - 1 {
      BumpAllOne(st, now, args, n - 1, i);
    } else {
      BumpAllFrame(st, now, args, n - 1, args[i].key);
    }
  }

  lemma RecordWindowed(h: History, now: int, limit: int, window: int)
    requires Windowed(h, limit, window) && limit > 0 && window > 0
    requires h != [] ==> h[|h| - 1][0] <= now
    requires |Current(h, now, window)| < limit
    ensures Windowed(Record(h, now, window), limit, window)
  {
  }

  lemma KeyStep(st: Store, before: int, call: Call, key: Bytes, h: History, limit: int, window: int)
    requires Agrees(st, before, key, h, limit, window) && before <= call.at
    requires WellFormed(call.args) && ArgsUse(call.args, key, limit, window)
    ensures
      var h' := if Accepts(st, call.at, call.args) && Names(call.args, key) then Record(h, call.at, window) else h;
      Agrees(StoreAfter(st, call.at, call.args), call.at, key, h', limit, window)
  {
    var now, args := call.at, call.args;
    hide BumpAll;
    if Accepts(st, now, args) {
      if Names(args, key) {
        var i :| 0 <= i < |args| && args[i].key == key;
        BumpAllOne(st, now, args, |args|, i);
        BumpAgrees(st, before, now, args[i], h);
      } else {
        BumpAllFrame(st, now, args, |args|, key);
      }
    }
  }

  /** Counting one request for one key. */
  lemma BumpAgrees(st: Store, before: int, now: int, a: Arg, h: History)
    requires Agrees(st, before, a.key, h, a.limit, a.window) && before <= now
    requires a.limit > 0 && a.window > 0 && Get(st, a.key, now) < a.limit
    ensures Agrees(Bump(st, now, a), now, a.key, Record(h, now, a.window), a.limit, a.window)
  {
    RecordWindowed(h, now, a.limit, a.window);
  }

  lemma RunFront(calls: seq<Call>, key: Bytes, limit: int, window: int)
    requires Run(calls) && Uses(calls, key, limit, window) && calls != []
    ensures
      var front, last := calls[..|calls| - 1], calls[|calls| - 1];
      && Run(front) && Uses(front, key, limit, window) && (front != [] ==> front[|front| - 1].at <= last.at)
      && WellFormed(last.args) && ArgsUse(last.args, key, limit, window)
  {
  }

  lemma AgreesLater(st: Store, now: int, later: int, key: Bytes, h: History, limit: int, window: int)
    requires Agrees(st, now, key, h, limit, window) && now <= later
    ensures Agrees(st, later, key, h, limit, window)
  {
  }

  lemma {:induction false} KeyAlways(calls: seq<Call>, now: int, key: Bytes, limit: int, window: int)
    requires Run(calls) && Uses(calls, key, limit, window)
    requires calls != [] ==> calls[|calls| - 1].at <= now
    ensures Agrees(After(calls), now, key, HistoryOf(calls, key, window), limit, window)
  {
    if calls != [] {
      var front, last := calls[..|calls| - 1], calls[|calls| - 1];
      RunFront(calls, key, limit, window);
      hide Agrees, Run, Uses, ArgsUse, WellFormed, Accepts, Names, StoreAfter, Record;
      KeyAlways(front, last.at, key, limit, window);
      KeyStep(After(front), last.at, last, key, HistoryOf(front, key, window), limit, window);
      AgreesLater(After(calls), last.at, now, key, HistoryOf(calls, key, window), limit, window);
    }
  }

  /** What agreement says about the commands: the count is the size of the open window, at most the limit, and a
      deadline is never further away than a window. */
  lemma AgreesMeans(st: Store, now: int, key: Bytes, h: History, limit: int, window: int)
    requires Agrees(st, now, key, h, limit, window)
    ensures Get(st, key, now) == |Current(h, now, window)|
    ensures Current(h, now, window) != [] ==> |Current(h, now, window)| <= limit
    ensures window > 0 ==> Pttl(st, key, now) <= window
  {
  }

  // ---------- refinement ----------

  /** A counter is always the number of requests accepted in the key's current window. */
  lemma CounterIsWindowSize(calls: seq<Call>, now: int, key: Bytes, limit: int, window: int)
    requires Run(calls) && Uses(calls, key, limit, window)
    requires calls != [] ==> calls[|calls| - 1].at <= now
    ensures Get(After(calls), key, now) == |Current(HistoryOf(calls, key, window), now, window)|
  {
    KeyAlways(calls, now, key, limit, window);
  }

  /** The accepted times in the open window of the rule's key. */
  ghost function OpenWindow(calls: seq<Call>, now: int, a: Arg): seq<int> {
    Current(HistoryOf(calls, a.key, a.window), now, a.window)
  }

  /** A run that is followed at now by a call whose keys have had fixed quotas. */
  ghost predicate FixedQuotas(calls: seq<Call>, now: int, args: seq<Arg>) {
    && Run(calls) && WellFormed(args)
    && (calls != [] ==> calls[|calls| - 1].at <= now)
    && forall i :: 0 <= i < |args| ==> Uses(calls, args[i].key, args[i].limit, args[i].window)
  }

  /** The script refines the specification: it accepts exactly when every key's current window has room. */
  lemma {:induction false} AcceptsIffRoom(calls: seq<Call>, now: int, args: seq<Arg>)
    requires FixedQuotas(calls, now, args)
    ensures Accepts(After(calls), now, args)
       <==> forall i :: 0 <= i < |args| ==> |OpenWindow(calls, now, args[i])| < args[i].limit
  {
    var st := After(calls);
    forall i | 0 <= i < |args|
      ensures |OpenWindow(calls, now, args[i])| == Get(st, args[i].key, now)
    {
      CounterIsWindowSize(calls, now, args[i].key, args[i].limit, args[i].window);
    }
  }

  /** A refusal names the first full rule, reports when its window ends, and changes nothing. */
  lemma {:induction false} RefusalNamesFirstFull(calls: seq<Call>, now: int, args: seq<Arg>) returns (i: nat)
    requires FixedQuotas(calls, now, args)
    requires !Accepts(After(calls), now, args)
    ensures i < |args| && |OpenWindow(calls, now, args[i])| >= args[i].limit
    ensures forall j :: 0 <= j < i ==> |OpenWindow(calls, now, args[j])| < args[j].limit
    ensures Reply(After(calls), now, args) == [0, i + 1, OpenWindow(calls, now, args[i])[0] + args[i].window - now]
    ensures StoreAfter(After(calls), now, args) == After(calls)
  {
    var st := After(calls);
    i := FirstFull(st, now, args, 0);
    forall j | 0 <= j < |args|
      ensures |OpenWindow(calls, now, args[j])| == Get(st, args[j].key, now)
    {
      CounterIsWindowSize(calls, now, args[j].key, args[j].limit, args[j].window);
    }
    FullWindow(calls, now, args[i]);
  }

  /** A full counter has a deadline: the end of its open window. */
  lemma FullWindow(calls: seq<Call>, now: int, a: Arg)
    requires Run(calls) && Uses(calls, a.key, a.limit, a.window) && a.limit > 0
    requires calls != [] ==> calls[|calls| - 1].at <= now
    requires Get(After(calls), a.key, now) >= a.limit
    ensures
      var open := OpenWindow(calls, now, a);
      open != [] && Pttl(After(calls), a.key, now) == open[0] + a.window - now > 0
  {
    KeyAlways(calls, now, a.key, a.limit, a.window);
  }

  /** The history holds exactly the log: every accepted call once, in order. */
  lemma {:induction false} HistoryIsLog(calls: seq<Call>, key: Bytes, window: int)
    ensures Flatten(HistoryOf(calls, key, window)) == Log(calls, key)
  {
    if calls != [] {
      var front, last := calls[..|calls| - 1], calls[|calls| - 1];
      HistoryIsLog(front, key, window);
      FlattenRecord(HistoryOf(front, key, window), last.at, window);
    }
  }

  lemma FlattenRecord(h: History, now: int, window: int)
    ensures Flatten(Record(h, now, window)) == Flatten(h) + [now]
  {
  }

  // ---------- the expiry fence, from any store ----------

  ghost predicate Fenced(st: Store, key: Bytes, deadline: int) {
    key in st && st[key].count >= 1 && st[key].expiry == Some(deadline)
  }

  lemma {:induction false} BumpKeepsFence(st: Store, now: int, args: seq<Arg>, n: nat, key: Bytes, deadline: int)
    requires n <= |args| && Fenced(st, key, deadline) && now < deadline
    ensures Fenced(BumpAll(st, now, args, n), key, deadline)
  {
    if n > 0 {
      BumpKeepsFence(st, now, args, n - 1, key, deadline);
    }
  }

  /** Once a counter has a deadline, no later call moves it, whatever keys, limits and windows the calls use. */
  lemma {:induction false} FenceNeverMoves(st: Store, calls: seq<Call>, key: Bytes, deadline: int)
    requires Fenced(st, key, deadline)
    requires forall i :: 0 <= i < |calls| ==> calls[i].at < deadline
    ensures Fenced(Exec(st, calls), key, deadline)
  {
    if calls != [] {
      var front, last := calls[..|calls| - 1], calls[|calls| - 1];
      FenceNeverMoves(st, front, key, deadline);
      BumpKeepsFence(Exec(st, front), last.at, last.args, |last.args|, key, deadline);
    }
  }

  /** From any store, even one holding counters without a deadline: after a refusal the refusing key is gone once the
      reported time has passed, whatever calls come in between, and it is still full until then. */
  lemma {:induction false} RefusalEnds(st: Store, now: int, args: seq<Arg>, calls: seq<Call>)
    requires WellFormed(args) && !Accepts(st, now, args)
    requires
      var ttl := Reply(st, now, args)[2];
      forall i :: 0 <= i < |calls| ==> now <= calls[i].at < now + ttl
    ensures
      var i, ttl := FirstFull(st, now, args, 0), Reply(st, now, args)[2];
      var later := Exec(StoreAfter(st, now, args), calls);
      && ttl > 0
      && Fenced(later, args[i].key, now + ttl)
      && Get(later, args[i].key, now + ttl) == 0
  {
    var i, ttl := FirstFull(st, now, args, 0), Reply(st, now, args)[2];
    assert Fenced(StoreAfter(st, now, args), args[i].key, now + ttl);
    FenceNeverMoves(StoreAfter(st, now, args), calls, args[i].key, now + ttl);
  }
}
