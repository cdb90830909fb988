/** The Go side of the limiter: rule validation, the script call, and decoding its reply. */
module RateLimiter {
  import opened Prelude
  import opened FixedWindow

  const MILLISECOND := 1000000  // time.Duration counts nanoseconds
  const MAX_INT64 := 0x7FFF_FFFF_FFFF_FFFF

  /** One dimension of the limit; the window is a time.Duration. */
  datatype Rule = Rule(scope: Bytes, key: Bytes, limit: int, window: int)

  datatype Decision = Decision(allowed: bool, rejectedScope: Bytes, retryAfter: int)

  datatype Error = InvalidRules(scope: Option<Bytes>) | InvalidResult | RedisFailure

  /** What can go wrong between the client and Redis: the script may run or not before the call fails. */
  datatype Fault = Healthy | Unreachable | ReplyLost

  /** A value in a script reply, as the Redis client hands it over. */
  datatype Value = Int64(n: int) | Other

  /** Go's integer division truncates toward zero. */
  function Milliseconds(d: int): int {
    if d >= 0 then d / MILLISECOND else -(-d / MILLISECOND)
  }

  /** 64-bit wrap-around. */
  function Wrap64(x: int): int {
    (x + 0x8000_0000_0000_0000) % 0x1_0000_0000_0000_0000 - 0x8000_0000_0000_0000
  }

  predicate ValidRule(r: Rule) {
    r.scope != [] && r.key != [] && r.limit > 0 && Milliseconds(r.window) > 0
  }

  function ArgOf(r: Rule): Arg { Arg(r.key, r.limit, Milliseconds(r.window)) }

  function ArgsOf(rules: seq<Rule>): seq<Arg> {
    seq(|rules|, i requires 0 <= i < |rules| => ArgOf(rules[i]))
  }

  /** The first rule at or after position from that fails validation; |rules| when all are valid. */
  function FirstInvalid(rules: seq<Rule>, from: nat): (i: nat)
    requires from <= |rules|
    ensures from <= i <= |rules|
    ensures i < |rules| ==> !ValidRule(rules[i])
    ensures forall j :: from <= j < i ==> ValidRule(rules[j])
    decreases |rules| - from
  {
    if from == |rules| || !ValidRule(rules[from]) then from else FirstInvalid(rules, from + 1)
  }

  predicate ValidRules(rules: seq<Rule>) {
    rules != [] && FirstInvalid(rules, 0) == |rules|
  }

  function Decode(reply: seq<Value>, rules: seq<Rule>): Result<Decision, Error> {
    if |reply| != 3 || !reply[0].Int64? || !reply[1].Int64? || !reply[2].Int64? then Err(InvalidResult)
    else
      var allowed, index, ttl := reply[0].n, reply[1].n, reply[2].n;
      if allowed != 0 && allowed != 1 then Err(InvalidResult)
      else if allowed == 1 then Ok(Decision(true, [], 0))
      else if index < 1 || index > |rules| then Err(InvalidResult)
      else Ok(Decision(false, rules[index - 1].scope, Wrap64((if ttl < 0 then 0 else ttl) * MILLISECOND)))
  }

  function Integers(reply: seq<int>): seq<Value> {
    seq(|reply|, i requires 0 <= i < |reply| => Int64(reply[i]))
  }

  function AllowResult(st: Store, now: int, rules: seq<Rule>, fault: Fault): Result<Decision, Error> {
    if rules == [] then Err(InvalidRules(None))
    else
      var bad := FirstInvalid(rules, 0);
      if bad < |rules| then Err(InvalidRules(Some(rules[bad].scope)))
      else if fault != Healthy then Err(RedisFailure)
      else Decode(Integers(Reply(st, now, ArgsOf(rules))), rules)
  }

  /** A named scope and key, a positive limit, and a window of at least a millisecond. */
  ghost predicate Proper(r: Rule) { r.scope != [] && r.key != [] && r.limit > 0 && r.window >= 1000000 }

  /** Nothing but a healthy call with proper rules lets a request pass, and only if no counter has reached its limit. A
      refusal names the scope of the first rule whose counter has; improper rules are reported by the scope of the
      first one, and with proper rules every fault is reported as such. */
  ghost predicate Verdict(st: Store, now: int, rules: seq<Rule>, fault: Fault, r: Result<Decision, Error>) {
    && (r.Ok? && r.value.allowed <==>
          && rules != [] && (forall j :: 0 <= j < |rules| ==> Proper(rules[j])) && fault == Healthy
          && forall j :: 0 <= j < |rules| ==> Get(st, rules[j].key, now) < rules[j].limit)
    && (r.Ok? && !r.value.allowed ==>
          exists i :: 0 <= i < |rules| && FirstUsedUp(st, now, rules, i) && r.value.rejectedScope == rules[i].scope)
    && (rules == [] ==> r == Err(InvalidRules(None)))
    && (forall i :: 0 <= i < |rules| && !Proper(rules[i]) && (forall j :: 0 <= j < i ==> Proper(rules[j])) ==>
          r == Err(InvalidRules(Some(rules[i].scope))))
    && (rules != [] && (forall j :: 0 <= j < |rules| ==> Proper(rules[j])) ==>
          (r == Err(RedisFailure) <==> fault != Healthy) && (fault == Healthy <==> r.Ok?))
  }

  ghost predicate FirstUsedUp(st: Store, now: int, rules: seq<Rule>, i: nat)
    requires i < |rules|
  {
    && Get(st, rules[i].key, now) >= rules[i].limit
    && forall j :: 0 <= j < i ==> Get(st, rules[j].key, now) < rules[j].limit
  }

  lemma AllowMeans(st: Store, now: int, rules: seq<Rule>, fault: Fault)
    ensures Verdict(st, now, rules, fault, AllowResult(st, now, rules, fault))
  {
    assert forall j :: 0 <= j < |rules| ==> (ValidRule(rules[j]) <==> Proper(rules[j]));
    var bad := FirstInvalid(rules, 0);
    if rules != [] && bad == |rules| {
      var args, full := ArgsOf(rules), FirstFull(st, now, ArgsOf(rules), 0);
      assert forall j :: 0 <= j < |rules| ==> args[j].key == rules[j].key && args[j].limit == rules[j].limit;
      assert full < |rules| ==> FirstUsedUp(st, now, rules, full);
    }
  }

  /** Allow's loop over the rules: it stops at the first invalid one, and otherwise lays out the script's arguments. */
  method BuildArguments(rules: seq<Rule>) returns (bad: nat, keys: seq<Bytes>, args: seq<int>)
    ensures bad == FirstInvalid(rules, 0)
    ensures bad == |rules| ==> |args| == 2 * |keys| && Zip(keys, args) == ArgsOf(rules)
  {
    keys, args, bad := [], [], 0;
    while bad < |rules|
      invariant 0 <= bad <= |rules| && |keys| == bad && |args| == 2 * bad
      invariant FirstInvalid(rules, 0) == FirstInvalid(rules, bad)
      invariant forall j :: 0 <= j < bad ==>
        keys[j] == rules[j].key && args[2 * j] == rules[j].limit && args[2 * j + 1] == Milliseconds(rules[j].window)
    {
      var rule := rules[bad];
      if rule.scope == [] || rule.key == [] || rule.limit <= 0 || Milliseconds(rule.window) <= 0 {
        return;
      }
      keys := keys + [rule.key];
      args := args + [rule.limit, Milliseconds(rule.window)];
      bad := bad + 1;
    }
  }

  method Allow(redis: Redis, rules: seq<Rule>, fault: Fault) returns (r: Result<Decision, Error>)
    modifies redis`store, redis`calls
    ensures Verdict(old(redis.store), redis.now, rules, fault, r)
    ensures r == AllowResult(old(redis.store), redis.now, rules, fault)
    ensures
      var ran := ValidRules(rules) && fault != Unreachable;
      && redis.store == (if ran then StoreAfter(old(redis.store), redis.now, ArgsOf(rules)) else old(redis.store))
      && redis.calls == old(redis.calls) + (if ran then [Call(redis.now, ArgsOf(rules))] else [])
    ensures old(redis.Traced()) ==> redis.Traced()
  {
    AllowMeans(redis.store, redis.now, rules, fault);
    hide Verdict;
    if |rules| == 0 {
      return Err(InvalidRules(None));
    }
    var bad, keys, args := BuildArguments(rules);
    if bad < |rules| {
      return Err(InvalidRules(Some(rules[bad].scope)));
    }
    if fault.Unreachable? {
      return Err(RedisFailure);
    }
    var reply := redis.Eval(keys, args);
    if fault.ReplyLost? {
      return Err(RedisFailure);
    }
    r := Decode(Integers(reply), rules);
  }

  /** Anything but three integers that mean "allowed" or name a rule is an error, never a decision. */
  lemma DecodeAccepts(reply: seq<Value>, rules: seq<Rule>)
    ensures Decode(reply, rules).Err? ==> Decode(reply, rules) == Err(InvalidResult)
    ensures Decode(reply, rules).Ok? <==>
      && |reply| == 3 && (forall i :: 0 <= i < 3 ==> reply[i].Int64?)
      && (reply[0] == Int64(1) || (reply[0] == Int64(0) && 1 <= reply[1].n <= |rules|))
    ensures Decode(reply, rules).Ok? ==> (Decode(reply, rules).value.allowed <==> reply[0] == Int64(1))
  {
  }

  /** The script's replies always decode: a healthy call with valid rules is allowed exactly when the script accepted,
      and otherwise names the scope of the first full rule. */
  lemma RepliesDecode(st: Store, now: int, rules: seq<Rule>)
    requires ValidRules(rules)
    ensures AllowResult(st, now, rules, Healthy).Ok?
    ensures
      var d, i := AllowResult(st, now, rules, Healthy).value, FirstFull(st, now, ArgsOf(rules), 0);
      && (d.allowed <==> Accepts(st, now, ArgsOf(rules)))
      && (!d.allowed ==> i < |rules| && d.rejectedScope == rules[i].scope)
  {
  }

  /** A refused caller is told the true waiting time, which is positive and at most the refusing rule's window,
      so the conversion to nanoseconds never overflows, provided no deadline lies beyond the window in use. */
  lemma RetryAfterWithinWindow(st: Store, now: int, rules: seq<Rule>)
    requires ValidRules(rules) && !Accepts(st, now, ArgsOf(rules))
    requires forall i :: 0 <= i < |rules| ==> rules[i].window <= MAX_INT64
    requires forall i :: 0 <= i < |rules| ==>
      Pttl(st, rules[i].key, now) <= Milliseconds(rules[i].window)
    ensures
      var d, i := AllowResult(st, now, rules, Healthy), FirstFull(st, now, ArgsOf(rules), 0);
      && d.Ok? && i < |rules|
      && d.value.retryAfter == Reply(st, now, ArgsOf(rules))[2] * MILLISECOND
      && 0 < d.value.retryAfter <= rules[i].window
  {
    var i := FirstFull(st, now, ArgsOf(rules), 0);
    assert ArgsOf(rules)[i] == ArgOf(rules[i]) && ValidRule(rules[i]);
  }
}
