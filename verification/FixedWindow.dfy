/** The limiter's Redis script: check every rule, and only then count the request under every rule. */
module FixedWindow {
  import opened Prelude

  datatype Entry = Entry(count: int, expiry: Option<int>)

  /** Counters by key. An entry whose expiry has come is treated as absent. */
  type Store = map<Bytes, Entry>

  /** KEYS[i] with its two ARGV values; the window is in milliseconds. */
  datatype Arg = Arg(key: Bytes, limit: int, window: int)

  // ---------- Redis commands ----------

  predicate Live(e: Entry, now: int) { e.expiry.None? || now < e.expiry.value }

  predicate Present(st: Store, key: Bytes, now: int) { key in st && Live(st[key], now) }

  function Get(st: Store, key: Bytes, now: int): int {
    if Present(st, key, now) then st[key].count else 0
  }

  function Pttl(st: Store, key: Bytes, now: int): int {
    if !Present(st, key, now) then -2
    else if st[key].expiry.None? then -1
    else st[key].expiry.value - now
  }

  function Incr(st: Store, key: Bytes, now: int): Store {
    if Present(st, key, now) then st[key := st[key].(count := st[key].count + 1)]
    else st[key := Entry(1, None)]
  }

  function Pexpire(st: Store, key: Bytes, now: int, window: int): Store {
    if !Present(st, key, now) then st
    else if window <= 0 then st - {key}
    else st[key := st[key].(expiry := Some(now + window))]
  }

  // ---------- the script ----------

  /** The first rule at or after position from that is used up; |args| when none is. */
  function FirstFull(st: Store, now: int, args: seq<Arg>, from: nat): (i: nat)
    requires from <= |args|
    ensures from <= i <= |args|
    ensures i < |args| ==> Get(st, args[i].key, now) >= args[i].limit
    ensures forall j :: from <= j < i ==> Get(st, args[j].key, now) < args[j].limit
    decreases |args| - from
  {
    if from == |args| || Get(st, args[from].key, now) >= args[from].limit then from
    else FirstFull(st, now, args, from + 1)
  }

  predicate Accepts(st: Store, now: int, args: seq<Arg>) {
    FirstFull(st, now, args, 0) == |args|
  }

  function Bump(st: Store, now: int, a: Arg): Store {
    var counted := Incr(st, a.key, now);
    if counted[a.key].count == 1 then Pexpire(counted, a.key, now, a.window) else counted
  }

  /** The store after the first n rules have been counted. */
  function BumpAll(st: Store, now: int, args: seq<Arg>, n: nat): Store
    requires n <= |args|
  {
    if n == 0 then st else Bump(BumpAll(st, now, args, n - 1), now, args[n - 1])
  }

  /** A full counter without a deadline is given one. */
  function Refuse(st: Store, now: int, a: Arg): Store {
    if Pttl(st, a.key, now) < 0 then Pexpire(st, a.key, now, a.window) else st
  }

  function StoreAfter(st: Store, now: int, args: seq<Arg>): Store {
    var i := FirstFull(st, now, args, 0);
    if i < |args| then Refuse(st, now, args[i]) else BumpAll(st, now, args, |args|)
  }

  /** Allowed flag, 1-based index of the refusing rule, remaining milliseconds. */
  function Reply(st: Store, now: int, args: seq<Arg>): seq<int> {
    var i := FirstFull(st, now, args, 0);
    if i == |args| then [1, 0, 0]
    else
      var ttl := Pttl(st, args[i].key, now);
      [0, i + 1, if ttl < 0 then args[i].window else ttl]
  }

  // ---------- whole runs ----------

  datatype Call = Call(at: int, args: seq<Arg>)

  /** The store after the calls. */
  function Exec(st: Store, calls: seq<Call>): Store {
    if calls == [] then st
    else
      var last := calls[|calls| - 1];
      StoreAfter(Exec(st, calls[..|calls| - 1]), last.at, last.args)
  }

  function After(calls: seq<Call>): Store { Exec(map[], calls) }

  ghost predicate Timed(calls: seq<Call>) {
    forall i, j :: 0 <= i < j < |calls| ==> calls[i].at <= calls[j].at
  }

  ghost predicate Names(args: seq<Arg>, key: Bytes) { exists i :: 0 <= i < |args| && args[i].key == key }

  /** What the script needs from one call: positive limits and windows, and no key twice. */
  ghost predicate WellFormed(args: seq<Arg>) {
    && (forall i :: 0 <= i < |args| ==> args[i].limit > 0 && args[i].window > 0)
    && (forall i, j :: 0 <= i < j < |args| ==> args[i].key != args[j].key)
  }

  ghost predicate Run(calls: seq<Call>) {
    Timed(calls) && forall i :: 0 <= i < |calls| ==> WellFormed(calls[i].args)
  }

  ghost predicate ArgsUse(args: seq<Arg>, key: Bytes, limit: int, window: int) {
    forall i :: 0 <= i < |args| && args[i].key == key ==> args[i].limit == limit && args[i].window == window
  }

  /** Every call that names the key gives it the same limit and window. */
  ghost predicate Uses(calls: seq<Call>, key: Bytes, limit: int, window: int) {
    forall c :: 0 <= c < |calls| ==> ArgsUse(calls[c].args, key, limit, window)
  }

  /** The times of the accepted calls that name the key. */
  ghost function Log(calls: seq<Call>, key: Bytes): seq<int> {
    if calls == [] then []
    else
      var front, last := calls[..|calls| - 1], calls[|calls| - 1];
      Log(front, key) +
      if Accepts(After(front), last.at, last.args) && Names(last.args, key) then [last.at] else []
  }

  // ---------- Redis as an object ----------

  class Redis {
    var now: int
    var store: Store
    ghost var calls: seq<Call>  // the script executions so far

    /** The store is explained by the executions alone: nobody else wrote to it. */
    ghost predicate Traced()
      reads this
    {
      && store == After(calls)
      && Timed(calls)
      && forall i :: 0 <= i < |calls| ==> calls[i].at <= now
    }

    constructor ()
      ensures Traced() && calls == [] && store == map[]
    {
      now, store, calls := 0, map[], [];
    }

    method Advance(elapsed: nat)
      modifies this`now
      ensures now == old(now) + elapsed
      ensures old(Traced()) ==> Traced()
    {
      now := now + elapsed;
    }

    /** The two loops of the script. */
    method FixedWindowScript(keys: seq<Bytes>, argv: seq<int>) returns (reply: seq<int>)
      requires |argv| == 2 * |keys|
      modifies this`store
      ensures store == StoreAfter(old(store), now, Zip(keys, argv))
      ensures reply == Reply(old(store), now, Zip(keys, argv))
    {
      ghost var args := Zip(keys, argv);
      ghost var before := store;
      var i := 0;
      while i < |keys|
        invariant 0 <= i <= |keys|
        invariant store == before
        invariant FirstFull(before, now, args, 0) == FirstFull(before, now, args, i)
      {
        var current := Get(store, keys[i], now);
        var limit := argv[i * 2];
        var window := argv[i * 2 + 1];
        if current >= limit {
          var ttl := Pttl(store, keys[i], now);
          if ttl < 0 {
            store := Pexpire(store, keys[i], now, window);
            ttl := window;
          }
          return [0, i + 1, ttl];
        }
        i := i + 1;
      }
      i := 0;
      while i < |keys|
        invariant 0 <= i <= |keys|
        invariant store == BumpAll(before, now, args, i)
      {
        assert args[i] == Arg(keys[i], argv[i * 2], argv[i * 2 + 1]);
        store := Incr(store, keys[i], now);
        if store[keys[i]].count == 1 {
          store := Pexpire(store, keys[i], now, argv[i * 2 + 1]);
        }
        i := i + 1;
      }
      return [1, 0, 0];
    }

    /** Redis runs the script as one step, at one time. */
    method Eval(keys: seq<Bytes>, argv: seq<int>) returns (reply: seq<int>)
      requires |argv| == 2 * |keys|
      modifies this`store, this`calls
      ensures store == StoreAfter(old(store), now, Zip(keys, argv))
      ensures reply == Reply(old(store), now, Zip(keys, argv))
      ensures calls == old(calls) + [Call(now, Zip(keys, argv))]
      ensures old(Traced()) ==> Traced()
    {
      reply := FixedWindowScript(keys, argv);
      ghost var call := Call(now, Zip(keys, argv));
      assert (calls + [call])[..|calls|] == calls;
      calls := calls + [call];
    }
  }

  /** KEYS and ARGV read together, as the script indexes them. */
  function Zip(keys: seq<Bytes>, argv: seq<int>): (args: seq<Arg>)
    requires |argv| == 2 * |keys|
  {
    seq(|keys|, i requires 0 <= i < |keys| => Arg(keys[i], argv[i * 2], argv[i * 2 + 1]))
  }
}
