/** The three-way limit of the message service, and what it promises each user, address and room. */
module CheckLimit {
  import opened Prelude
  import opened FixedWindow
  import opened WindowHistory
  import opened LimiterKeys
  import opened RateBound
  import Base64Url
  import RL = RateLimiter

  datatype LimitConfig = LimitConfig(
    userCount: int, userWindow: int, ipCount: int, ipWindow: int, roomCount: int, roomWindow: int)
  {
    function Count(scope: Scope): int {
      match scope case User => userCount case IP => ipCount case Room => roomCount
    }

    function Window(scope: Scope): int {
      match scope case User => userWindow case IP => ipWindow case Room => roomWindow
    }

    /** Every count is positive and every window lasts at least a millisecond. */
    predicate Usable() {
      && userCount > 0 && ipCount > 0 && roomCount > 0
      && userWindow >= 1000000 && ipWindow >= 1000000 && roomWindow >= 1000000
    }

    /** Every window is a time.Duration, that is, a 64-bit number. */
    predicate Durations() {
      userWindow <= RL.MAX_INT64 && ipWindow <= RL.MAX_INT64 && roomWindow <= RL.MAX_INT64
    }
  }

  /** The sender of a message: the fields of a send request that the limiter looks at. */
  datatype Sender = Sender(user: Bytes, room: Bytes, ip: Bytes) {
    /** Whose quota the request uses in a scope. */
    function Charged(scope: Scope): Owner {
      Owner(room, scope, match scope case User => user case IP => ip case Room => [])
    }
  }

  datatype Refusal = RateLimited(scope: Bytes, reason: Bytes, retryAfter: int) | LimiterFailed(error: RL.Error)

  function RuleFor(cfg: LimitConfig, s: Sender, scope: Scope): RL.Rule {
    RL.Rule(ScopeName(scope), KeyFor(s.Charged(scope)), cfg.Count(scope), cfg.Window(scope))
  }

  function RulesFor(cfg: LimitConfig, s: Sender): seq<RL.Rule> {
    [RuleFor(cfg, s, User), RuleFor(cfg, s, IP), RuleFor(cfg, s, Room)]
  }

  function ToRefusal(r: Result<RL.Decision, RL.Error>): Option<Refusal> {
    match r
    case Err(e) => Some(LimiterFailed(e))
    case Ok(d) =>
      if d.allowed then None
      else if d.rejectedScope == "user" || d.rejectedScope == "ip" || d.rejectedScope == "room" then
        Some(RateLimited(d.rejectedScope, d.rejectedScope + " limit exceeded", d.retryAfter))
      else Some(LimiterFailed(RL.InvalidResult))
  }

  /** The configuration is usable, Redis answers, and the counters of the sender's user, address and room are all below
      their limits. */
  ghost predicate Admitted(st: Store, now: int, cfg: LimitConfig, s: Sender, fault: RL.Fault) {
    var slot := Base64Url.Encode(s.room);
    && cfg.Usable() && fault == RL.Healthy
    && Get(st, "lim:{" + slot + "}:user:" + s.user, now) < cfg.userCount
    && Get(st, "lim:{" + slot + "}:ip:" + s.ip, now) < cfg.ipCount
    && Get(st, "lim:{" + slot + "}:room", now) < cfg.roomCount
  }

  /** A request passes if and only if it is admitted. Otherwise the refusal names the first of the three counters that
      has reached its limit; an unusable configuration names the first rule that is wrong, and a fault is passed on. */
  ghost predicate Answer(st: Store, now: int, cfg: LimitConfig, s: Sender, fault: RL.Fault, refusal: Option<Refusal>) {
    var slot := Base64Url.Encode(s.room);
    var user := Get(st, "lim:{" + slot + "}:user:" + s.user, now);
    var ip := Get(st, "lim:{" + slot + "}:ip:" + s.ip, now);
    && (refusal.None? <==> Admitted(st, now, cfg, s, fault))
    && (cfg.Usable() && fault == RL.Healthy && refusal.Some? ==>
          && refusal.value.RateLimited? && refusal.value.reason == refusal.value.scope + " limit exceeded"
          && refusal.value.scope ==
               if user >= cfg.userCount then "user" else if ip >= cfg.ipCount then "ip" else "room")
    && (cfg.Usable() && fault != RL.Healthy ==> refusal == Some(LimiterFailed(RL.RedisFailure)))
    && (!cfg.Usable() ==> refusal == Some(LimiterFailed(RL.InvalidRules(Some(
          if cfg.userCount <= 0 || cfg.userWindow < 1000000 then "user"
          else if cfg.ipCount <= 0 || cfg.ipWindow < 1000000 then "ip" else "room")))))
  }

  lemma AnswerMeans(st: Store, now: int, cfg: LimitConfig, s: Sender, fault: RL.Fault)
    ensures Answer(st, now, cfg, s, fault, ToRefusal(RL.AllowResult(st, now, RulesFor(cfg, s), fault)))
  {
    var rules := RulesFor(cfg, s);
    RL.AllowMeans(st, now, rules, fault);
    ThreeRules(cfg, s);
    hide RL.AllowResult, RulesFor, Base64Url.Encode, Get;
    ProperIs(rules[0]);
    ProperIs(rules[1]);
    ProperIs(rules[2]);
    VerdictOfThree(st, now, rules, fault, RL.AllowResult(st, now, rules, fault));
    hide RL.Verdict, RL.Proper;
  }

  lemma ThreeRules(cfg: LimitConfig, s: Sender)
    ensures
      var slot := Base64Url.Encode(s.room);
      RulesFor(cfg, s) ==
        [RL.Rule("user", "lim:{" + slot + "}:user:" + s.user, cfg.userCount, cfg.userWindow),
         RL.Rule("ip", "lim:{" + slot + "}:ip:" + s.ip, cfg.ipCount, cfg.ipWindow),
         RL.Rule("room", "lim:{" + slot + "}:room", cfg.roomCount, cfg.roomWindow)]
  {
    KeyTexts(s);
    hide KeyFor, Base64Url.Encode;
  }

  lemma ProperIs(r: RL.Rule)
    ensures r.scope != [] && r.key != [] ==> (RL.Proper(r) <==> r.limit > 0 && r.window >= 1000000)
  {
  }

  /** The verdict of the limiter, for three rules. */
  lemma VerdictOfThree(
    st: Store, now: int, rules: seq<RL.Rule>, fault: RL.Fault, r: Result<RL.Decision, RL.Error>)
    requires |rules| == 3 && RL.Verdict(st, now, rules, fault, r)
    ensures
      var proper := RL.Proper(rules[0]) && RL.Proper(rules[1]) && RL.Proper(rules[2]);
      var full := seq(3, i requires 0 <= i < 3 => Get(st, rules[i].key, now) >= rules[i].limit);
      && (r.Ok? <==> proper && fault == RL.Healthy)
      && (r.Ok? && r.value.allowed <==> proper && fault == RL.Healthy && !full[0] && !full[1] && !full[2])
      && (r.Ok? && !r.value.allowed ==>
            r.value.rejectedScope == rules[if full[0] then 0 else if full[1] then 1 else 2].scope)
      && (proper && fault != RL.Healthy ==> r == Err(RL.RedisFailure))
      && (!proper ==> r == Err(RL.InvalidRules(Some(
            rules[if !RL.Proper(rules[0]) then 0 else if !RL.Proper(rules[1]) then 1 else 2].scope))))
  {
    hide RL.Proper, Get;
    assert (forall j :: 0 <= j < |rules| ==> RL.Proper(rules[j]))
      <==> RL.Proper(rules[0]) && RL.Proper(rules[1]) && RL.Proper(rules[2]);
  }

  lemma KeyTexts(s: Sender)
    ensures KeyFor(s.Charged(User)) == "lim:{" + Base64Url.Encode(s.room) + "}:user:" + s.user
    ensures KeyFor(s.Charged(IP)) == "lim:{" + Base64Url.Encode(s.room) + "}:ip:" + s.ip
    ensures KeyFor(s.Charged(Room)) == "lim:{" + Base64Url.Encode(s.room) + "}:room"
  {
    var slot := Base64Url.Encode(s.room);
    assert "lim:{" + slot + ("}:user:" + s.user) == "lim:{" + slot + "}:user:" + s.user;
    assert "lim:{" + slot + ("}:ip:" + s.ip) == "lim:{" + slot + "}:ip:" + s.ip;
  }

  method CheckLimit(redis: Redis, cfg: LimitConfig, s: Sender, fault: RL.Fault) returns (refusal: Option<Refusal>)
    modifies redis`store, redis`calls
    ensures Answer(old(redis.store), redis.now, cfg, s, fault, refusal)
    ensures refusal == ToRefusal(RL.AllowResult(old(redis.store), redis.now, RulesFor(cfg, s), fault))
    ensures
      var ran := RL.ValidRules(RulesFor(cfg, s)) && fault != RL.Unreachable;
      && redis.store == (if ran then StoreAfter(old(redis.store), redis.now, RL.ArgsOf(RulesFor(cfg, s)))
                         else old(redis.store))
      && redis.calls == old(redis.calls) + (if ran then [CallFor(cfg, Sent(redis.now, s))] else [])
    ensures old(redis.Traced()) ==> redis.Traced()
  {
    AnswerMeans(redis.store, redis.now, cfg, s, fault);
    hide Answer;
    var r := RL.Allow(redis, RulesFor(cfg, s), fault);
    refusal := ToRefusal(r);
  }

  // ---------- one request ----------

  /** The rules of a request pass validation exactly when the configuration is usable, whoever sends it; they then
      meet what the script needs: positive quotas and three different keys. */
  lemma RulesWellFormed(cfg: LimitConfig, s: Sender)
    ensures RL.ValidRules(RulesFor(cfg, s)) <==> cfg.Usable()
    ensures cfg.Usable() ==> WellFormed(RL.ArgsOf(RulesFor(cfg, s)))
  {
    var rules := RulesFor(cfg, s);
    assert rules[0] == RuleFor(cfg, s, User) && rules[1] == RuleFor(cfg, s, IP) && rules[2] == RuleFor(cfg, s, Room);
    KeysSeparate(s.Charged(User), s.Charged(IP));
    KeysSeparate(s.Charged(User), s.Charged(Room));
    KeysSeparate(s.Charged(IP), s.Charged(Room));
    assert RL.ValidRule(rules[0]) <==> cfg.userCount > 0 && cfg.userWindow >= 1000000;
    assert RL.ValidRule(rules[1]) <==> cfg.ipCount > 0 && cfg.ipWindow >= 1000000;
    assert RL.ValidRule(rules[2]) <==> cfg.roomCount > 0 && cfg.roomWindow >= 1000000;
    if RL.ValidRules(rules) {
      assert forall i :: 0 <= i < |rules| ==> RL.ValidRule(rules[i]);
    }
  }

  // ---------- whole runs of requests ----------

  datatype Sent = Sent(at: int, sender: Sender)

  function CallFor(cfg: LimitConfig, m: Sent): Call { Call(m.at, RL.ArgsOf(RulesFor(cfg, m.sender))) }

  function CallsFor(cfg: LimitConfig, run: seq<Sent>): seq<Call> {
    seq(|run|, i requires 0 <= i < |run| => CallFor(cfg, run[i]))
  }

  ghost predicate InOrder(run: seq<Sent>) {
    forall i, j :: 0 <= i < j < |run| ==> run[i].at <= run[j].at
  }

  /** Whether the limiter lets a request pass after an earlier run of requests. */
  predicate Passes(cfg: LimitConfig, earlier: seq<Sent>, m: Sent) {
    Accepts(After(CallsFor(cfg, earlier)), m.at, RL.ArgsOf(RulesFor(cfg, m.sender)))
  }

  /** The times of the requests that passed and are charged to the owner. */
  function PassedTimes(cfg: LimitConfig, run: seq<Sent>, owner: Owner): seq<int> {
    if run == [] then []
    else
      var front, last := run[..|run| - 1], run[|run| - 1];
      PassedTimes(cfg, front, owner) +
      if last.sender.Charged(owner.scope) == owner && Passes(cfg, front, last) then [last.at] else []
  }

  /** A request names an owner's key exactly when it is charged to that owner, and then with the scope's quota. */
  lemma NamesCharged(cfg: LimitConfig, s: Sender, owner: Owner)
    requires owner.Proper()
    ensures Names(RL.ArgsOf(RulesFor(cfg, s)), KeyFor(owner)) <==> s.Charged(owner.scope) == owner
    ensures ArgsUse(RL.ArgsOf(RulesFor(cfg, s)), KeyFor(owner),
                    cfg.Count(owner.scope), RL.Milliseconds(cfg.Window(owner.scope)))
  {
    hide RL.ArgsOf, RL.ArgOf, RulesFor, RuleFor, KeyFor;
    var args := RL.ArgsOf(RulesFor(cfg, s));
    ArgsAre(cfg, s);
    RuleOf(cfg, s, User, owner);
    RuleOf(cfg, s, IP, owner);
    RuleOf(cfg, s, Room, owner);
    assert args[0].key == KeyFor(owner) || args[1].key == KeyFor(owner) || args[2].key == KeyFor(owner)
      <==> s.Charged(owner.scope) == owner;
  }

  lemma ArgsAre(cfg: LimitConfig, s: Sender)
    ensures RL.ArgsOf(RulesFor(cfg, s))
         == [RL.ArgOf(RuleFor(cfg, s, User)), RL.ArgOf(RuleFor(cfg, s, IP)), RL.ArgOf(RuleFor(cfg, s, Room))]
  {
  }

  lemma RuleOf(cfg: LimitConfig, s: Sender, scope: Scope, owner: Owner)
    requires owner.Proper()
    ensures
      var a := RL.ArgOf(RuleFor(cfg, s, scope));
      && (a.key == KeyFor(owner) <==> scope == owner.scope && s.Charged(owner.scope) == owner)
      && a.limit == cfg.Count(scope) && a.window == RL.Milliseconds(cfg.Window(scope))
  {
    KeysSeparate(s.Charged(scope), owner);
  }

  lemma {:induction false} PassedIsLog(cfg: LimitConfig, run: seq<Sent>, owner: Owner)
    requires owner.Proper()
    ensures PassedTimes(cfg, run, owner) == Log(CallsFor(cfg, run), KeyFor(owner))
  {
    if run != [] {
      var front, last := run[..|run| - 1], run[|run| - 1];
      PassedIsLog(cfg, front, owner);
      NamesCharged(cfg, last.sender, owner);
      hide RulesFor, RL.ArgsOf, KeyFor, Accepts, Names, ArgsUse, After;
      assert CallsFor(cfg, run)[..|run| - 1] == CallsFor(cfg, front);
    }
  }

  lemma RunsAreRuns(cfg: LimitConfig, run: seq<Sent>, owner: Owner)
    requires cfg.Usable() && InOrder(run) && owner.Proper()
    ensures Run(CallsFor(cfg, run))
    ensures Uses(CallsFor(cfg, run), KeyFor(owner),
                 cfg.Count(owner.scope), RL.Milliseconds(cfg.Window(owner.scope)))
  {
    forall i | 0 <= i < |run|
      ensures WellFormed(CallsFor(cfg, run)[i].args)
      ensures ArgsUse(CallsFor(cfg, run)[i].args, KeyFor(owner),
                      cfg.Count(owner.scope), RL.Milliseconds(cfg.Window(owner.scope)))
    {
      RulesWellFormed(cfg, run[i].sender);
      NamesCharged(cfg, run[i].sender, owner);
    }
  }

  lemma UsableQuota(cfg: LimitConfig, scope: Scope)
    requires cfg.Usable()
    ensures cfg.Count(scope) > 0 && RL.Milliseconds(cfg.Window(scope)) > 0
  {
  }

  // ---------- what senders can count on, in the words of the configuration ----------

  /** The requests of a run that pass at times in [lo, hi). */
  ghost function PassedIn(cfg: LimitConfig, run: seq<Sent>, lo: int, hi: int): set<nat> {
    set i | 0 <= i < |run| && lo <= run[i].at < hi && Passes(cfg, run[..i], run[i])
  }

  ghost function ByUser(run: seq<Sent>, which: set<nat>, room: Bytes, user: Bytes): set<nat> {
    set i | i in which && i < |run| && run[i].sender.room == room && run[i].sender.user == user
  }

  ghost function ByAddress(run: seq<Sent>, which: set<nat>, room: Bytes, ip: Bytes): set<nat> {
    set i | i in which && i < |run| && run[i].sender.room == room && run[i].sender.ip == ip
  }

  ghost function InRoom(run: seq<Sent>, which: set<nat>, room: Bytes): set<nat> {
    set i | i in which && i < |run| && run[i].sender.room == room
  }

  /** In every run of requests by any senders, in any n of their windows: at most (n + 1) * userCount - 1 requests pass
      of one user in a room, (n + 1) * ipCount - 1 from one address in a room, and (n + 1) * roomCount - 1 in a room. */
  lemma QuotaHolds(cfg: LimitConfig, run: seq<Sent>, room: Bytes, user: Bytes, ip: Bytes, lo: int, n: nat)
    requires cfg.Usable() && InOrder(run)
    ensures
      var passed := PassedIn(cfg, run, lo, lo + n * (cfg.userWindow / 1000000));
      |ByUser(run, passed, room, user)| <= (n + 1) * cfg.userCount - 1
    ensures
      var passed := PassedIn(cfg, run, lo, lo + n * (cfg.ipWindow / 1000000));
      |ByAddress(run, passed, room, ip)| <= (n + 1) * cfg.ipCount - 1
    ensures
      var passed := PassedIn(cfg, run, lo, lo + n * (cfg.roomWindow / 1000000));
      |InRoom(run, passed, room)| <= (n + 1) * cfg.roomCount - 1
  {
    hide *;
    OwnerQuota(cfg, run, Owner(room, User, user), lo, n);
    OwnerQuota(cfg, run, Owner(room, IP, ip), lo, n);
    OwnerQuota(cfg, run, Owner(room, Room, []), lo, n);
    QuotaOf(cfg, Owner(room, User, user));
    QuotaOf(cfg, Owner(room, IP, ip));
    QuotaOf(cfg, Owner(room, Room, []));
    ChargedAre(cfg, run, lo, lo + n * (cfg.userWindow / 1000000), Owner(room, User, user));
    ChargedAre(cfg, run, lo, lo + n * (cfg.ipWindow / 1000000), Owner(room, IP, ip));
    ChargedAre(cfg, run, lo, lo + n * (cfg.roomWindow / 1000000), Owner(room, Room, []));
  }

  lemma QuotaOf(cfg: LimitConfig, owner: Owner)
    requires cfg.Usable()
    ensures
      cfg.Count(owner.scope) ==
        match owner.scope case User => cfg.userCount case IP => cfg.ipCount case Room => cfg.roomCount
    ensures
      RL.Milliseconds(cfg.Window(owner.scope)) ==
        match owner.scope
        case User => cfg.userWindow / 1000000 case IP => cfg.ipWindow / 1000000 case Room => cfg.roomWindow / 1000000
    ensures owner.identity == [] ==> owner.Proper()
    ensures !owner.scope.Room? ==> owner.Proper()
  {
  }

  /** The requests of the run that pass at times in [lo, hi) and are charged to the owner. */
  ghost function ChargedIn(cfg: LimitConfig, run: seq<Sent>, lo: int, hi: int, owner: Owner): set<nat> {
    set i | i in PassedIn(cfg, run, lo, hi) && i < |run| && run[i].sender.Charged(owner.scope) == owner
  }

  lemma ChargedAre(cfg: LimitConfig, run: seq<Sent>, lo: int, hi: int, owner: Owner)
    requires owner.scope.Room? ==> owner.identity == []
    ensures
      ChargedIn(cfg, run, lo, hi, owner) ==
        match owner.scope
        case User => ByUser(run, PassedIn(cfg, run, lo, hi), owner.room, owner.identity)
        case IP => ByAddress(run, PassedIn(cfg, run, lo, hi), owner.room, owner.identity)
        case Room => InRoom(run, PassedIn(cfg, run, lo, hi), owner.room)
  {
    hide PassedIn;
  }

  lemma {:induction false} ChargedCount(cfg: LimitConfig, run: seq<Sent>, lo: int, hi: int, owner: Owner)
    ensures |ChargedIn(cfg, run, lo, hi, owner)| == CountIn(PassedTimes(cfg, run, owner), lo, hi)
  {
    hide Passes;
    if run == [] {
      assert ChargedIn(cfg, run, lo, hi, owner) == {};
    } else {
      var k := |run| - 1;
      var front, last := run[..k], run[k];
      ChargedCount(cfg, front, lo, hi, owner);
      ChargedLast(cfg, run, lo, hi, owner);
      var counts := last.sender.Charged(owner.scope) == owner && Passes(cfg, front, last);
      CountAppend(PassedTimes(cfg, front, owner), if counts then [last.at] else [], lo, hi);
    }
  }

  lemma ChargedLast(cfg: LimitConfig, run: seq<Sent>, lo: int, hi: int, owner: Owner)
    requires run != []
    ensures
      var k := |run| - 1;
      var counts := run[k].sender.Charged(owner.scope) == owner && Passes(cfg, run[..k], run[k]);
      && ChargedIn(cfg, run, lo, hi, owner) ==
           ChargedIn(cfg, run[..k], lo, hi, owner) + (if counts && lo <= run[k].at < hi then {k} else {})
      && k !in ChargedIn(cfg, run[..k], lo, hi, owner)
  {
    hide Passes;
    var k := |run| - 1;
    assert forall i :: 0 <= i < k ==> run[..k][..i] == run[..i] && run[..k][i] == run[i];
  }

  lemma OwnerQuota(cfg: LimitConfig, run: seq<Sent>, owner: Owner, lo: int, n: nat)
    requires cfg.Usable() && InOrder(run) && (owner.scope.Room? ==> owner.identity == [])
    ensures |ChargedIn(cfg, run, lo, lo + n * RL.Milliseconds(cfg.Window(owner.scope)), owner)|
         <= (n + 1) * cfg.Count(owner.scope) - 1
  {
    hide *;
    UsableQuota(cfg, owner.scope);
    QuotaOf(cfg, owner);
    PassedIsLog(cfg, run, owner);
    RunsAreRuns(cfg, run, owner);
    ChargedCount(cfg, run, lo, lo + n * RL.Milliseconds(cfg.Window(owner.scope)), owner);
    SlidingBound(CallsFor(cfg, run), KeyFor(owner),
                 cfg.Count(owner.scope), RL.Milliseconds(cfg.Window(owner.scope)), lo, n);
  }

  /** In every run a refusal is a rate-limit error with a reason. With scope "user" it means that in the user's
      window in the room, which began at start with a passed request and is still open, exactly userCount requests
      of the user in the room have passed; the waiting time is what is left of this window. Scopes "ip" and "room"
      mean the same of the address in the room and of the room. */
  lemma {:induction false} RefusalIsExplained(cfg: LimitConfig, earlier: seq<Sent>, m: Sent)
    returns (start: int, window: int)
    requires cfg.Usable() && cfg.Durations() && InOrder(earlier + [m])
    requires !Passes(cfg, earlier, m)
    ensures
      var st := After(CallsFor(cfg, earlier));
      var refusal := ToRefusal(RL.AllowResult(st, m.at, RulesFor(cfg, m.sender), RL.Healthy));
      var room, passed := m.sender.room, PassedIn(cfg, earlier, start, start + window);
      && refusal.Some? && refusal.value.RateLimited?
      && refusal.value.retryAfter == (start + window - m.at) * 1000000 > 0 && start <= m.at
      && match refusal.value.scope
         case "user" =>
           && window == cfg.userWindow / 1000000
           && UsedUp(earlier, ByUser(earlier, passed, room, m.sender.user), start, cfg.userCount)
         case "ip" =>
           && window == cfg.ipWindow / 1000000
           && UsedUp(earlier, ByAddress(earlier, passed, room, m.sender.ip), start, cfg.ipCount)
         case "room" =>
           && window == cfg.roomWindow / 1000000
           && UsedUp(earlier, InRoom(earlier, passed, room), start, cfg.roomCount)
         case _ => false
  {
    hide *;
    var calls := CallsFor(cfg, earlier);
    PrefixInOrder(earlier, m);
    TtlsWithinWindows(cfg, earlier, m);
    PassesMeans(cfg, earlier, m);
    var scope := RefusedBy(cfg, After(calls), m.at, m.sender);
    var owner := m.sender.Charged(scope);
    ChargedScope(m.sender, scope);
    start, window := FullOwner(cfg, earlier, m.at, owner);
    QuotaOf(cfg, owner);
    ChargedAre(cfg, earlier, start, start + window, owner);
    UsedUpIs(earlier, ChargedIn(cfg, earlier, start, start + window, owner), start, cfg.Count(scope));
  }

  /** Exactly count requests, one of them at the start. */
  ghost predicate UsedUp(run: seq<Sent>, which: set<nat>, start: int, count: int) {
    |which| == count && exists i :: i in which && OpensAt(run, i, start)
  }

  lemma UsedUpIs(run: seq<Sent>, which: set<nat>, start: int, count: int)
    ensures UsedUp(run, which, start, count)
       <==> |which| == count && exists i :: i in which && OpensAt(run, i, start)
  {
  }

  lemma ChargedScope(s: Sender, scope: Scope)
    ensures
      var owner := s.Charged(scope);
      && owner.scope == scope && owner.room == s.room
      && owner.identity == (match scope case User => s.user case IP => s.ip case Room => [])
      && ScopeName(scope) == (match scope case User => "user" case IP => "ip" case Room => "room")
  {
  }

  lemma PrefixInOrder(earlier: seq<Sent>, m: Sent)
    requires InOrder(earlier + [m])
    ensures InOrder(earlier) && (earlier != [] ==> earlier[|earlier| - 1].at <= m.at)
  {
    var run := earlier + [m];
    assert forall k :: 0 <= k < |earlier| ==> earlier[k] == run[k];
    assert run[|earlier|] == m;
  }

  lemma PassesMeans(cfg: LimitConfig, earlier: seq<Sent>, m: Sent)
    ensures Passes(cfg, earlier, m)
       <==> Accepts(After(CallsFor(cfg, earlier)), m.at, RL.ArgsOf(RulesFor(cfg, m.sender)))
  {
  }

  /** The refusal that one request meets, given deadlines within their windows. */
  lemma RefusedBy(cfg: LimitConfig, st: Store, now: int, s: Sender) returns (scope: Scope)
    requires cfg.Usable() && cfg.Durations() && !Accepts(st, now, RL.ArgsOf(RulesFor(cfg, s)))
    requires
      var rules := RulesFor(cfg, s);
      forall i :: 0 <= i < |rules| ==> Pttl(st, rules[i].key, now) <= RL.Milliseconds(rules[i].window)
    ensures
      var refusal := ToRefusal(RL.AllowResult(st, now, RulesFor(cfg, s), RL.Healthy));
      && refusal.Some? && refusal.value.RateLimited?
      && refusal.value.scope == ScopeName(scope)
      && 0 < refusal.value.retryAfter <= cfg.Window(scope)
      && Get(st, KeyFor(s.Charged(scope)), now) >= cfg.Count(scope)
      && (Pttl(st, KeyFor(s.Charged(scope)), now) >= 0 ==>
            refusal.value.retryAfter == Pttl(st, KeyFor(s.Charged(scope)), now) * 1000000)
  {
    var rules := RulesFor(cfg, s);
    var args := RL.ArgsOf(rules);
    var i := FirstFull(st, now, args, 0);
    scope := if i == 0 then User else if i == 1 then IP else Room;
    RulesWellFormed(cfg, s);
    assert rules[i] == RuleFor(cfg, s, scope) && args[i] == RL.ArgOf(rules[i]);
    assert forall k :: 0 <= k < |rules| ==> exists sc :: rules[k] == RuleFor(cfg, s, sc);
    hide RulesFor, RuleFor, KeyFor, RL.ArgsOf, Accepts;
    RL.RepliesDecode(st, now, rules);
    RL.RetryAfterWithinWindow(st, now, rules);
  }

  lemma {:induction false} FullOwner(cfg: LimitConfig, earlier: seq<Sent>, now: int, owner: Owner)
    returns (start: int, window: int)
    requires cfg.Usable() && InOrder(earlier) && (earlier != [] ==> earlier[|earlier| - 1].at <= now)
    requires owner.scope.Room? ==> owner.identity == []
    requires Get(After(CallsFor(cfg, earlier)), KeyFor(owner), now) >= cfg.Count(owner.scope)
    ensures window == RL.Milliseconds(cfg.Window(owner.scope)) && start <= now
    ensures |ChargedIn(cfg, earlier, start, start + window, owner)| == cfg.Count(owner.scope)
    ensures exists i :: i in ChargedIn(cfg, earlier, start, start + window, owner) && OpensAt(earlier, i, start)
    ensures Pttl(After(CallsFor(cfg, earlier)), KeyFor(owner), now) == start + window - now > 0
  {
    CallTimes(cfg, earlier);
    hide *;
    UsableQuota(cfg, owner.scope);
    QuotaOf(cfg, owner);
    PassedIsLog(cfg, earlier, owner);
    RunsAreRuns(cfg, earlier, owner);
    window := RL.Milliseconds(cfg.Window(owner.scope));
    start := FullSince(CallsFor(cfg, earlier), now, KeyFor(owner), cfg.Count(owner.scope), window);
    ChargedCount(cfg, earlier, start, start + window, owner);
    ChargedCount(cfg, earlier, start, start + 1, owner);
    OpenerIsCharged(cfg, earlier, start, window, owner);
  }

  ghost predicate OpensAt(run: seq<Sent>, i: nat, start: int) { i < |run| && run[i].at == start }

  lemma OpenerIsCharged(cfg: LimitConfig, run: seq<Sent>, start: int, window: int, owner: Owner)
    requires |ChargedIn(cfg, run, start, start + 1, owner)| > 0 && window > 0
    ensures exists i :: i in ChargedIn(cfg, run, start, start + window, owner) && OpensAt(run, i, start)
  {
    hide Passes;
    var i :| i in ChargedIn(cfg, run, start, start + 1, owner);
    assert i in ChargedIn(cfg, run, start, start + window, owner) && OpensAt(run, i, start);
  }

  lemma CallTimes(cfg: LimitConfig, run: seq<Sent>)
    ensures |CallsFor(cfg, run)| == |run|
    ensures forall i :: 0 <= i < |run| ==> CallsFor(cfg, run)[i].at == run[i].at
  {
  }

  lemma {:induction false} TtlWithinWindow(cfg: LimitConfig, run: seq<Sent>, now: int, owner: Owner)
    requires cfg.Usable() && InOrder(run) && owner.Proper() && (run != [] ==> run[|run| - 1].at <= now)
    ensures Pttl(After(CallsFor(cfg, run)), KeyFor(owner), now) <= RL.Milliseconds(cfg.Window(owner.scope))
  {
    CallTimes(cfg, run);
    hide *;
    var limit, window := cfg.Count(owner.scope), RL.Milliseconds(cfg.Window(owner.scope));
    UsableQuota(cfg, owner.scope);
    RunsAreRuns(cfg, run, owner);
    KeyAlways(CallsFor(cfg, run), now, KeyFor(owner), limit, window);
    AgreesMeans(After(CallsFor(cfg, run)), now, KeyFor(owner),
                HistoryOf(CallsFor(cfg, run), KeyFor(owner), window), limit, window);
  }

  lemma {:induction false} TtlsWithinWindows(cfg: LimitConfig, earlier: seq<Sent>, m: Sent)
    requires cfg.Usable() && InOrder(earlier) && (earlier != [] ==> earlier[|earlier| - 1].at <= m.at)
    ensures
      var st, rules := After(CallsFor(cfg, earlier)), RulesFor(cfg, m.sender);
      forall i :: 0 <= i < |rules| ==> Pttl(st, rules[i].key, m.at) <= RL.Milliseconds(rules[i].window)
  {
    var calls := CallsFor(cfg, earlier);
    forall scope: Scope
      ensures Pttl(After(calls), KeyFor(m.sender.Charged(scope)), m.at) <= RL.Milliseconds(cfg.Window(scope))
    {
      TtlWithinWindow(cfg, earlier, m.at, m.sender.Charged(scope));
    }
    assert RulesFor(cfg, m.sender)[0] == RuleFor(cfg, m.sender, User);
    assert RulesFor(cfg, m.sender)[1] == RuleFor(cfg, m.sender, IP);
    assert RulesFor(cfg, m.sender)[2] == RuleFor(cfg, m.sender, Room);
  }
}
