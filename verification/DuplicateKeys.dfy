/** What happens when one call of the script names a key more than once, which checkLimit never does. */
module DuplicateKeys {
  import opened Prelude
  import opened FixedWindow
  import opened WindowHistory
  import opened RateBound

  /** How many of the first n rules name the key. */
  function Occurrences(args: seq<Arg>, key: Bytes, n: nat): nat
    requires n <= |args|
  {
    if n == 0 then 0 else Occurrences(args, key, n - 1) + if args[n - 1].key == key then 1 else 0
  }

  /** An accepted call adds one to a counter for each rule that names it. */
  lemma {:induction false} BumpAllCounts(st: Store, now: int, args: seq<Arg>, n: nat, key: Bytes)
    requires n <= |args| && forall i :: 0 <= i < n ==> args[i].window > 0
    ensures Get(BumpAll(st, now, args, n), key, now) == Get(st, key, now) + Occurrences(args, key, n)
  {
    if n > 0 {
      BumpAllCounts(st, now, args, n - 1, key);
    }
  }

  /** The call leaves the counter within the limit, from any store in which it is accepted. */
  ghost predicate KeepsLimit(args: seq<Arg>, key: Bytes, limit: int) {
    forall st, now :: Accepts(st, now, args) ==> Get(StoreAfter(st, now, args), key, now) <= limit
  }

  /** The same, only from stores that runs of calls without duplicate keys lead to. */
  ghost predicate KeepsLimitInRuns(args: seq<Arg>, key: Bytes, limit: int) {
    forall calls, now :: Run(calls) && LastBefore(calls, now) && Accepts(After(calls), now, args) ==>
      Get(StoreAfter(After(calls), now, args), key, now) <= limit
  }

  ghost predicate LastBefore(calls: seq<Call>, now: int) { calls != [] ==> calls[|calls| - 1].at <= now }

  /** Positive limits and windows, and one limit for the key of rule i. */
  ghost predicate OneLimit(args: seq<Arg>, i: nat) {
    && i < |args|
    && (forall j :: 0 <= j < |args| ==> args[j].limit > 0 && args[j].window > 0)
    && forall j :: 0 <= j < |args| && args[j].key == args[i].key ==> args[j].limit == args[i].limit
  }

  /** A call keeps a key's limit if and only if it names the key once; and where it does not, a run shows it. */
  lemma LimitKeptIffNamedOnce(args: seq<Arg>, i: nat)
    requires OneLimit(args, i)
    ensures KeepsLimit(args, args[i].key, args[i].limit) <==> Occurrences(args, args[i].key, |args|) == 1
    ensures KeepsLimitInRuns(args, args[i].key, args[i].limit) <==> Occurrences(args, args[i].key, |args|) == 1
  {
    hide KeepsLimit, KeepsLimitInRuns;
    NamedAtLeastOnce(args, i, |args|);
    AnyStoreMeansRuns(args, args[i].key, args[i].limit);
    if Occurrences(args, args[i].key, |args|) == 1 {
      OnceKeeps(args, i);
    } else {
      TwiceOvershoots(args, i);
    }
  }

  lemma AnyStoreMeansRuns(args: seq<Arg>, key: Bytes, limit: int)
    ensures KeepsLimit(args, key, limit) ==> KeepsLimitInRuns(args, key, limit)
  {
  }

  lemma {:induction false} NamedAtLeastOnce(args: seq<Arg>, i: nat, n: nat)
    requires i < n <= |args|
    ensures Occurrences(args, args[i].key, n) >= 1
  {
    if i < n - 1 {
      NamedAtLeastOnce(args, i, n - 1);
    }
  }

  lemma OnceKeeps(args: seq<Arg>, i: nat)
    requires OneLimit(args, i) && Occurrences(args, args[i].key, |args|) == 1
    ensures KeepsLimit(args, args[i].key, args[i].limit)
  {
    forall st, now | Accepts(st, now, args)
      ensures Get(StoreAfter(st, now, args), args[i].key, now) <= args[i].limit
    {
      BumpAllCounts(st, now, args, |args|, args[i].key);
    }
  }

  /** All but one of the quota is used up by calls that name only the key; then comes the call in question. */
  lemma TwiceOvershoots(args: seq<Arg>, i: nat)
    requires OneLimit(args, i) && Occurrences(args, args[i].key, |args|) >= 2
    ensures !KeepsLimitInRuns(args, args[i].key, args[i].limit)
  {
    var calls := AlmostFull(args[i].key, args[i].limit, args[i].window);
    forall j | 0 <= j < |args|
      ensures Get(After(calls), args[j].key, 0) < args[j].limit
    {
    }
    assert Accepts(After(calls), 0, args);
    BumpAllCounts(After(calls), 0, args, |args|, args[i].key);
    assert LastBefore(calls, 0);
    assert Get(StoreAfter(After(calls), 0, args), args[i].key, 0) > args[i].limit;
  }

  lemma AlmostFull(key: Bytes, limit: int, window: int) returns (calls: seq<Call>)
    requires limit > 0 && window > 0
    ensures Run(calls) && LastBefore(calls, 0) && Get(After(calls), key, 0) == limit - 1
    ensures forall other :: other in After(calls) ==> other == key
  {
    hide *;
    NothingYet(key, limit, window);
    BurstSteady([], key, limit, window, 0, 0, limit - 1);
    calls := BurstAccepted([], key, limit, window, 0, limit - 1, 0, window);
    SteadyIsRun(calls, key, limit, window, 0);
    ReadyIsCount(calls, key, window, 0, limit - 1, window);
    forall other | other in After(calls)
      ensures other == key
    {
      UnnamedIsAbsent(calls, other);
      SteadyNames(calls, key, limit, window, 0, other);
    }
  }

  lemma NothingYet(key: Bytes, limit: int, window: int)
    ensures SteadyRun([], key, limit, window, 0) && Ready([], key, window, 0, 0, window)
  {
  }

  lemma SteadyIsRun(calls: seq<Call>, key: Bytes, limit: int, window: int, end: int)
    requires SteadyRun(calls, key, limit, window, end) && limit > 0 && window > 0
    ensures Run(calls) && LastBefore(calls, end)
  {
  }

  lemma SteadyNames(calls: seq<Call>, key: Bytes, limit: int, window: int, end: int, other: Bytes)
    requires SteadyRun(calls, key, limit, window, end)
    requires exists i :: 0 <= i < |calls| && Names(calls[i].args, other)
    ensures other == key
  {
  }

  lemma ReadyIsCount(calls: seq<Call>, key: Bytes, window: int, at: int, count: nat, deadline: int)
    requires Ready(calls, key, window, at, count, deadline) && at < deadline
    ensures Get(After(calls), key, at) == count
  {
    hide After;
  }

  /** Only keys that some call names are ever in the store. */
  lemma {:induction false} UnnamedIsAbsent(calls: seq<Call>, key: Bytes)
    ensures key in After(calls) ==> exists i :: 0 <= i < |calls| && Names(calls[i].args, key)
  {
    if calls != [] {
      var front, last := calls[..|calls| - 1], calls[|calls| - 1];
      UnnamedIsAbsent(front, key);
      if !Names(last.args, key) {
        BumpAllFrame(After(front), last.at, last.args, |last.args|, key);
        assert key in After(calls) ==> key in After(front);
        if key in After(front) {
          var i :| 0 <= i < |front| && Names(front[i].args, key);
          assert calls[i] == front[i];
        }
      }
    }
  }

  /** The smallest instance: the first call of all, with a limit of one. */
  lemma DuplicateKeyOvershoots(key: Bytes)
    ensures
      var args := [Arg(key, 1, 1000), Arg(key, 1, 1000)];
      && Accepts(map[], 0, args)
      && Get(StoreAfter(map[], 0, args), key, 0) == 2
  {
    var args := [Arg(key, 1, 1000), Arg(key, 1, 1000)];
    assert BumpAll(map[], 0, args, 1) == Bump(map[], 0, args[0]);
    assert BumpAll(map[], 0, args, 2) == Bump(BumpAll(map[], 0, args, 1), 0, args[1]);
  }
}
