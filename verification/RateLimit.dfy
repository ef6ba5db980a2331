/**
 * The fixed-window request counter and the ladder of delays after failures, over a store of
 * counters with a time to live. The store's commands are atomic; a caller's sequence of them is
 * not, and may die between two of them. Times are milliseconds.
 */
module RateLimit {
  import opened Options

  const DELAY_LADDER := [0, 1, 4, 16]

  datatype Counter = Counter(count: nat, expireAt: Option<int>)

  datatype Decision = Decision(allowed: bool, retryAfter: int)

  type Counters = map<string, Counter>

  predicate IsAlive(c: Option<Counter>, now: int) {
    c.Some? && (c.value.expireAt.None? || now < c.value.expireAt.value)
  }

  function Lookup(counters: Counters, key: string): Option<Counter> {
    if key in counters then Some(counters[key]) else None
  }

  /** INCR: an expired or missing key starts anew and has no time to live yet. */
  function Incremented(c: Option<Counter>, now: int): Counter {
    if IsAlive(c, now) then c.value.(count := c.value.count + 1) else Counter(1, None)
  }

  function HitKey(scope: string, key: string): string {
    "rl:" + scope + ":" + key
  }

  function FailKey(scope: string, key: string): string {
    "rl:" + scope + ":fail:" + key
  }

  lemma NoColonWithin(scope: string, rest: string)
    requires ':' !in scope
    ensures forall n :: 0 <= n < |scope| ==> (scope + ":" + rest)[n] != ':'
    ensures (scope + ":" + rest)[|scope|] == ':'
  {
  }

  lemma FirstColon(scope: string, rest: string, scope': string, rest': string)
    requires ':' !in scope && ':' !in scope' && scope + ":" + rest == scope' + ":" + rest'
    ensures scope == scope' && rest == rest'
  {
    var s, s' := scope + ":" + rest, scope' + ":" + rest';
    NoColonWithin(scope, rest);
    NoColonWithin(scope', rest');
    assert |scope| == |scope'|;
    assert scope == s[..|scope|] && scope' == s'[..|scope'|];
    assert rest == s[|scope| + 1..] && rest' == s'[|scope'| + 1..];
  }

  /**
   * Every scope and key have counters of their own: requests are counted together exactly when they
   * agree in both, failures likewise, and a request counts as a failure of the same scope only
   * under a key that spells the failure's.
   */
  lemma CountersApart(scope: string, key: string, scope': string, key': string)
    requires ':' !in scope && ':' !in scope'
    ensures HitKey(scope, key) == HitKey(scope', key') <==> scope == scope' && key == key'
    ensures FailKey(scope, key) == FailKey(scope', key') <==> scope == scope' && key == key'
    ensures HitKey(scope, key) == FailKey(scope', key') <==> scope == scope' && key == "fail:" + key'
  {
    Unprefixed(scope, key);
    Unprefixed(scope', key');
    if HitKey(scope, key) == HitKey(scope', key') { FirstColon(scope, key, scope', key'); }
    if FailKey(scope, key) == FailKey(scope', key') {
      FirstColon(scope, "fail:" + key, scope', "fail:" + key');
      assert ("fail:" + key)[5..] == key && ("fail:" + key')[5..] == key';
    }
    if HitKey(scope, key) == FailKey(scope', key') { FirstColon(scope, key, scope', "fail:" + key'); }
    if scope == scope' && key == "fail:" + key' {
      assert HitKey(scope, key)[3..] == FailKey(scope', key')[3..];
    }
  }

  lemma Unprefixed(scope: string, key: string)
    ensures HitKey(scope, key)[3..] == scope + ":" + key && HitKey(scope, key)[..3] == "rl:"
    ensures FailKey(scope, key)[3..] == scope + ":" + ("fail:" + key) && FailKey(scope, key)[..3] == "rl:"
  {
    assert scope + ":fail:" + key == scope + ":" + ("fail:" + key);
  }

  class Redis {
    var counters: Counters

    ghost predicate Valid() reads this {
      forall key :: key in counters ==> counters[key].count > 0
    }

    constructor ()
      ensures Valid() && counters == map[]
    {
      counters := map[];
    }

    method Incr(key: string, now: int) returns (count: nat)
      requires Valid()
      modifies this
      ensures Valid()
      ensures counters == old(counters)[key := Incremented(Lookup(old(counters), key), now)]
      ensures count == counters[key].count
    {
      var c := Incremented(if key in counters then Some(counters[key]) else None, now);
      counters := counters[key := c];
      count := c.count;
    }

    method Expire(key: string, now: int, window: int)
      requires Valid()
      modifies this
      ensures Valid()
      ensures counters == if IsAlive(Lookup(old(counters), key), now)
                          then old(counters)[key := old(counters)[key].(expireAt := Some(now + window))]
                          else old(counters)
    {
      if key in counters && (counters[key].expireAt.None? || now < counters[key].expireAt.value) {
        counters := counters[key := counters[key].(expireAt := Some(now + window))];
      }
    }

    method Delete(key: string)
      requires Valid()
      modifies this
      ensures Valid()
      ensures counters == old(counters) - {key}
    {
      counters := counters - {key};
    }

    /** One request; `dies` says that the caller is cut off before it sets the time to live. */
    method Hit(scope: string, key: string, limit: nat, window: int, now: int, expireNow: int, ttl: int, dies: bool)
      returns (decision: Option<Decision>)
      requires now <= expireNow
      requires Valid()
      modifies this
      ensures Valid()
      ensures counters == old(counters)[HitKey(scope, key) := AfterHit(Lookup(old(counters), HitKey(scope, key)),
          window, now, expireNow, dies)]
      ensures var count := Incremented(Lookup(old(counters), HitKey(scope, key)), now).count;
              decision == if dies && count == 1 then None
                          else Some(Decision(count <= limit, if count <= limit then 0 else if ttl < 1 then 1 else ttl))
    {
      var full := HitKey(scope, key);
      var current := Incr(full, now);
      if current == 1 {
        if dies { return None; }
        Expire(full, expireNow, window);
      }
      if current <= limit { return Some(Decision(true, 0)); }
      return Some(Decision(false, if ttl < 1 then 1 else ttl));
    }

    method FailureDelay(scope: string, key: string, window: int, now: int, expireNow: int, dies: bool)
      returns (delay: Option<int>)
      requires Valid()
      modifies this
      ensures Valid()
      ensures counters == old(counters)[FailKey(scope, key) := AfterHit(Lookup(old(counters), FailKey(scope, key)),
          window, now, expireNow, dies)]
      ensures delay == if dies && counters[FailKey(scope, key)].count == 1 then None
                       else Some(DelayAfter(counters[FailKey(scope, key)].count))
    {
      var full := FailKey(scope, key);
      var count := Incr(full, now);
      if count == 1 {
        if dies { return None; }
        Expire(full, expireNow, window);
      }
      var index := if count - 1 < |DELAY_LADDER| - 1 then count - 1 else |DELAY_LADDER| - 1;
      delay := Some(DELAY_LADDER[index]);
    }

    method ClearFailures(scope: string, key: string)
      requires Valid()
      modifies this
      ensures Valid()
      ensures counters == old(counters) - {FailKey(scope, key)}
    {
      Delete(FailKey(scope, key));
    }
  }

  function AfterHit(c: Option<Counter>, window: int, now: int, expireNow: int, dies: bool): (r: Counter)
    ensures r.count > 0
  {
    var n := Incremented(c, now);
    if n.count == 1 && !dies then n.(expireAt := Some(expireNow + window)) else n
  }

  function DelayAfter(count: nat): int
    requires count > 0
  {
    if count <= |DELAY_LADDER| then DELAY_LADDER[count - 1] else DELAY_LADDER[|DELAY_LADDER| - 1]
  }

  // ── Every interleaving of callers on one key ─────────────────────────────

  /** A caller's INCR, and the EXPIRE of the caller that got 1, which may come later, with other
      callers' INCRs in between, or never. */
  datatype Event = Incr(at: int) | Expire(at: int)

  /** A decided hit and the life of the counter it fell into. */
  datatype Entry = Entry(at: int, allowed: bool, life: nat)

  /** `births` are the times the counter's lives began. */
  datatype State = State(counter: Option<Counter>, births: seq<int>, log: seq<Entry>, last: int)

  datatype Rule = Rule(limit: nat, window: nat)

  predicate Fits(s: State, e: Event) {
    s.last <= e.at && (e.Expire? ==> s.counter.Some? && s.counter.value.expireAt.None?)
  }

  function Step(s: State, e: Event, rule: Rule): State
    requires Fits(s, e)
  {
    match e
    case Expire(at) => s.(counter := Some(s.counter.value.(expireAt := Some(at + rule.window))), last := at)
    case Incr(at) =>
      var n := Incremented(s.counter, at);
      var births := if IsAlive(s.counter, at) then s.births else s.births + [at];
      State(Some(n), births, s.log + [Entry(at, n.count <= rule.limit, if births == [] then 0 else |births| - 1)], at)
  }

  predicate IsHistory(history: seq<Event>, start: int, rule: Rule)
    decreases |history|, 0
  {
    history == [] ||
    (var before := history[..|history| - 1];
     IsHistory(before, start, rule) && Fits(Replay(before, start, rule), history[|history| - 1]))
  }

  function Replay(history: seq<Event>, start: int, rule: Rule): State
    requires IsHistory(history, start, rule)
    decreases |history|, 1
  {
    if history == [] then State(None, [], [], start)
    else Step(Replay(history[..|history| - 1], start, rule), history[|history| - 1], rule)
  }

  function AllowedOf(log: seq<Entry>, life: nat): nat {
    if log == [] then 0
    else AllowedOf(log[..|log| - 1], life) + if log[|log| - 1].allowed && log[|log| - 1].life == life then 1 else 0
  }

  function AllowedIn(log: seq<Entry>, from: int, to: int): nat {
    if log == [] then 0
    else
      var last := log[|log| - 1];
      AllowedIn(log[..|log| - 1], from, to) + if last.allowed && from <= last.at < to then 1 else 0
  }

  function Min(a: nat, b: nat): nat {
    if a < b then a else b
  }

  /** A life lasts a whole window at least, however late its time to live is set. */
  ghost predicate LivesLast(s: State, rule: Rule) {
    && (forall m :: 0 <= m < |s.births| - 1 ==> s.births[m] + rule.window <= s.births[m + 1])
    && (forall m :: 0 <= m < |s.births| ==> s.births[m] <= s.last)
    && (s.counter.None? <==> s.births == [])
    && (s.counter.Some? && s.counter.value.expireAt.Some? ==>
          s.births[|s.births| - 1] + rule.window <= s.counter.value.expireAt.value)
  }

  ghost predicate LogFits(s: State) {
    forall k :: 0 <= k < |s.log| ==>
      && s.log[k].life < |s.births| && s.births[s.log[k].life] <= s.log[k].at <= s.last
      && (s.log[k].life + 1 < |s.births| ==> s.log[k].at <= s.births[s.log[k].life + 1])
  }

  ghost predicate CountsFit(s: State, rule: Rule) {
    && (forall life: nat :: AllowedOf(s.log, life) <= rule.limit)
    && (forall life: nat :: life >= |s.births| ==> AllowedOf(s.log, life) == 0)
    && (s.counter.Some? && s.births != [] ==>
        AllowedOf(s.log, |s.births| - 1) == Min(s.counter.value.count, rule.limit))
  }

  ghost predicate Inv(s: State, rule: Rule) {
    LivesLast(s, rule) && LogFits(s) && CountsFit(s, rule)
  }

  lemma AllowedOfAppend(log: seq<Entry>, entry: Entry, life: nat)
    ensures AllowedOf(log + [entry], life)
         == AllowedOf(log, life) + if entry.allowed && entry.life == life then 1 else 0
  {
    assert (log + [entry])[..|log|] == log;
  }

  lemma ExpireKeepsInv(s: State, at: int, rule: Rule)
    requires Inv(s, rule) && Fits(s, Expire(at))
    ensures Inv(Step(s, Expire(at), rule), rule)
  {
    assert Step(s, Expire(at), rule).log == s.log;
  }

  lemma IncrKeepsLives(s: State, at: int, rule: Rule)
    requires Inv(s, rule) && Fits(s, Incr(at))
    ensures LivesLast(Step(s, Incr(at), rule), rule)
  {
    hide CountsFit, LogFits;
  }

  lemma IncrKeepsLog(s: State, at: int, rule: Rule)
    requires Inv(s, rule) && Fits(s, Incr(at))
    ensures LogFits(Step(s, Incr(at), rule))
  {
    hide CountsFit;
    var s' := Step(s, Incr(at), rule);
    forall k | 0 <= k < |s.log|
      ensures s'.births[s.log[k].life] == s.births[s.log[k].life]
    {}
  }

  lemma IncrKeepsCounts(s: State, at: int, rule: Rule)
    requires Inv(s, rule) && Fits(s, Incr(at))
    ensures CountsFit(Step(s, Incr(at), rule), rule)
  {
    var s' := Step(s, Incr(at), rule);
    var entry := s'.log[|s.log|];
    assert s'.log == s.log + [entry];
    forall life: nat
      ensures AllowedOf(s'.log, life) == AllowedOf(s.log, life) + if entry.allowed && entry.life == life then 1 else 0
    {
      AllowedOfAppend(s.log, entry, life);
    }
  }

  lemma StepKeepsInv(s: State, e: Event, rule: Rule)
    requires Inv(s, rule) && Fits(s, e)
    ensures Inv(Step(s, e, rule), rule)
  {
    match e {
      case Expire(at) => ExpireKeepsInv(s, at, rule);
      case Incr(at) => IncrKeepsLives(s, at, rule); IncrKeepsLog(s, at, rule); IncrKeepsCounts(s, at, rule);
    }
  }

  lemma {:induction false} HistoryKeepsInv(history: seq<Event>, start: int, rule: Rule)
    requires IsHistory(history, start, rule)
    ensures Inv(Replay(history, start, rule), rule)
  {
    if history != [] {
      HistoryKeepsInv(history[..|history| - 1], start, rule);
      StepKeepsInv(Replay(history[..|history| - 1], start, rule), history[|history| - 1], rule);
    }
  }

  /** Births spread: two lives on, a whole window has passed since the end of the first. */
  lemma {:induction false} LivesApart(s: State, rule: Rule, m: nat, n: nat)
    requires Inv(s, rule) && m < n < |s.births|
    ensures s.births[m] + rule.window <= s.births[n]
  {
    if m + 1 < n { LivesApart(s, rule, m, n - 1); }
  }

  /** Entries of one window that belong to two neighbouring lives are limited by both. */
  lemma {:induction false} TwoLives(log: seq<Entry>, from: int, to: int, m: nat)
    requires forall k :: 0 <= k < |log| && from <= log[k].at < to ==> log[k].life == m || log[k].life == m + 1
    ensures AllowedIn(log, from, to) <= AllowedOf(log, m) + AllowedOf(log, m + 1)
  {
    if log != [] { TwoLives(log[..|log| - 1], from, to, m); }
  }

  /**
   * The limit, over every interleaving of callers, quick, slow or cut off: at most `limit`
   * requests are allowed in one life of the counter, and at most twice the limit in any interval
   * as long as the window.
   */
  lemma AtMostTwiceTheLimit(history: seq<Event>, start: int, rule: Rule, from: int, life: nat)
    requires IsHistory(history, start, rule)
    ensures AllowedOf(Replay(history, start, rule).log, life) <= rule.limit
    ensures AllowedIn(Replay(history, start, rule).log, from, from + rule.window) <= 2 * rule.limit
  {
    HistoryKeepsInv(history, start, rule);
    WindowIsLimited(Replay(history, start, rule), rule, from);
  }

  lemma WindowIsLimited(s: State, rule: Rule, from: int)
    requires Inv(s, rule)
    ensures AllowedIn(s.log, from, from + rule.window) <= 2 * rule.limit
  {
    var m := FirstLifeIn(s, rule, from, |s.log|);
    TwoLives(s.log, from, from + rule.window, m);
  }

  /** All entries of a window lie in the first entry's life or the next one. */
  lemma FirstLifeIn(s: State, rule: Rule, from: int, n: nat) returns (m: nat)
    requires Inv(s, rule) && n <= |s.log|
    ensures forall k :: 0 <= k < n && from <= s.log[k].at < from + rule.window ==>
        s.log[k].life == m || s.log[k].life == m + 1
  {
    hide CountsFit, AllowedOf;
    m := |s.births|;
    var j := 0;
    while j < n
      invariant j <= n
      invariant forall k :: 0 <= k < j && from <= s.log[k].at < from + rule.window ==> m <= s.log[k].life
      invariant m < |s.births| ==>
          exists k :: 0 <= k < j && from <= s.log[k].at < from + rule.window && s.log[k].life == m
    {
      if from <= s.log[j].at < from + rule.window && s.log[j].life < m { m := s.log[j].life; }
      j := j + 1;
    }
    if m < |s.births| {
      var f :| 0 <= f < n && from <= s.log[f].at < from + rule.window && s.log[f].life == m;
      forall k | 0 <= k < n && from <= s.log[k].at < from + rule.window
        ensures s.log[k].life == m || s.log[k].life == m + 1
      {
        if s.log[k].life > m + 1 { LivesApart(s, rule, m + 1, s.log[k].life); }
      }
    }
  }

  /** The events of one uninterrupted caller, or of one that dies before its EXPIRE. */
  function EventsOfHit(c: Option<Counter>, now: int, expireNow: int, dies: bool): seq<Event> {
    if Incremented(c, now).count == 1 && !dies then [Incr(now), Expire(expireNow)] else [Incr(now)]
  }

  /** A call of `hit` that nobody interrupts is these events: the counter it leaves and its
      decision are theirs. */
  lemma HitIsItsEvents(s: State, now: int, expireNow: int, dies: bool, rule: Rule)
    requires s.last <= now <= expireNow && (s.counter.Some? ==> s.counter.value.count > 0)
    ensures var first := Step(s, Incr(now), rule);
            var events := EventsOfHit(s.counter, now, expireNow, dies);
            && (|events| == 2 ==> Fits(first, events[1]))
            && (if |events| == 2 then Step(first, events[1], rule) else first).counter
               == Some(AfterHit(s.counter, rule.window, now, expireNow, dies))
            && first.log[|s.log|].allowed == (Incremented(s.counter, now).count <= rule.limit)
  {
  }

  // ── When the limit fades ─────────────────────────────────────────────────

  /** Whether a hit at a later time is allowed. */
  predicate AllowedAt(c: Option<Counter>, at: int, rule: Rule) {
    Incremented(c, at).count <= rule.limit
  }

  /** An EXPIRE has followed the last birth of the counter. */
  predicate TtlSetSinceBirth(history: seq<Event>, start: int, rule: Rule)
    requires IsHistory(history, start, rule)
  {
    history != [] &&
    (var before, e := history[..|history| - 1], history[|history| - 1];
     e.Expire? || (IsAlive(Replay(before, start, rule).counter, e.at) && TtlSetSinceBirth(before, start, rule)))
  }

  lemma {:induction false} TtlIsToldByEvents(history: seq<Event>, start: int, rule: Rule)
    requires IsHistory(history, start, rule)
    ensures var c := Replay(history, start, rule).counter;
            (c.Some? && c.value.expireAt.Some?) <==> TtlSetSinceBirth(history, start, rule)
  {
    if history != [] { TtlIsToldByEvents(history[..|history| - 1], start, rule); }
  }

  /**
   * After any history, a key that has reached its limit is allowed again at some later time if
   * and only if an EXPIRE has followed its counter's last birth: when the caller that created the
   * counter died before it, the key is refused for ever, against the promise that the limit fades
   * with time. With it, the key is allowed exactly from the end of the time to live on.
   */
  lemma FadesIffTtlSet(history: seq<Event>, start: int, rule: Rule, c: Counter)
    requires IsHistory(history, start, rule) && Replay(history, start, rule).counter == Some(c)
    requires 0 < rule.limit <= c.count
    ensures (exists at :: Replay(history, start, rule).last <= at && AllowedAt(Some(c), at, rule))
            <==> TtlSetSinceBirth(history, start, rule)
    ensures c.expireAt.Some? ==> forall at :: AllowedAt(Some(c), at, rule) <==> c.expireAt.value <= at
  {
    TtlIsToldByEvents(history, start, rule);
    if c.expireAt.Some? {
      var last := Replay(history, start, rule).last;
      var at := if last < c.expireAt.value then c.expireAt.value else last;
      assert AllowedAt(Some(c), at, rule);
    }
  }

  /** Hits at these times by callers of which the first dies before its EXPIRE. */
  function HitsOnly(times: seq<int>): seq<Event> {
    seq(|times|, k requires 0 <= k < |times| => Incr(times[k]))
  }

  /** The run that reaches a stuck key: whatever the limit, hits without an EXPIRE count up for
      ever in one life, and from the limit on none is allowed at any time. */
  lemma {:induction false} StuckKeyRefusesForEver(times: seq<int>, start: int, rule: Rule)
    requires times != [] && start <= times[0] && forall j, k :: 0 <= j < k < |times| ==> times[j] <= times[k]
    ensures IsHistory(HitsOnly(times), start, rule)
    ensures Replay(HitsOnly(times), start, rule).counter == Some(Counter(|times|, None))
    ensures Replay(HitsOnly(times), start, rule).last == times[|times| - 1]
    ensures |times| >= rule.limit ==> forall at :: !AllowedAt(Some(Counter(|times|, None)), at, rule)
  {
    var n := |times| - 1;
    var hits := HitsOnly(times);
    assert hits[..n] == HitsOnly(times[..n]);
    if n == 0 {
      assert IsHistory(hits[..0], start, rule) && Replay(hits[..0], start, rule) == State(None, [], [], start);
    } else {
      StuckKeyRefusesForEver(times[..n], start, rule);
    }
  }

  // ── Delays ───────────────────────────────────────────────────────────────

  /** The table after failures of one key, each by a caller that lives to set the time to live. */
  function Failing(counters: Counters, full: string, times: seq<int>, window: int): Counters {
    if times == [] then counters
    else
      var at := times[|times| - 1];
      var before := Failing(counters, full, times[..|times| - 1], window);
      before[full := AfterHit(Lookup(before, full), window, at, at, false)]
  }

  /** The delays of consecutive failures within one window: 0, 1, 4 and then 16 seconds each, when
      the key had no living counter. */
  lemma {:induction false} DelaysClimb(counters: Counters, full: string, times: seq<int>, window: int)
    requires times != [] && forall k :: 0 <= k < |times| ==> times[0] <= times[k] < times[0] + window
    requires !IsAlive(Lookup(counters, full), times[0])
    ensures var after := Failing(counters, full, times, window);
            && full in after && after[full] == Counter(|times|, Some(times[0] + window))
            && DelayAfter(|times|)
               == if |times| == 1 then 0 else if |times| == 2 then 1 else if |times| == 3 then 4 else 16
  {
    var front := times[..|times| - 1];
    if |times| == 1 {
      assert Failing(counters, full, front, window) == counters;
    } else {
      DelaysClimb(counters, full, front, window);
    }
  }

  /** Otherwise the count runs on, or the old counter expires on the way. */
  lemma {:induction false} DelaysRunOn(counters: Counters, full: string, times: seq<int>, window: int)
    requires times != [] && IsAlive(Lookup(counters, full), times[0]) && counters[full].count > 0
    ensures var after := Failing(counters, full, times, window);
            full in after && (after[full].count == counters[full].count + |times| || after[full].count < |times|)
  {
    var front := times[..|times| - 1];
    if |times| == 1 {
      assert Failing(counters, full, front, window) == counters;
    } else {
      DelaysRunOn(counters, full, front, window);
    }
  }

  lemma {:induction false} OthersKept(counters: Counters, full: string, times: seq<int>, window: int)
    ensures Failing(counters, full, times, window) - {full} == counters - {full}
  {
    if times != [] { OthersKept(counters, full, times[..|times| - 1], window); }
  }

  /**
   * The ladder starts over, with as many steps counted as there are failures, exactly when the key
   * had no living counter at the first of them. After `ClearFailures` it has none, whatever it
   * counted before; no other key is touched by the failures.
   */
  lemma LadderStartsOverIff(counters: Counters, full: string, times: seq<int>, window: int)
    requires times != [] && forall k :: 0 <= k < |times| ==> times[0] <= times[k] < times[0] + window
    requires full in counters ==> counters[full].count > 0
    ensures var after := Failing(counters, full, times, window);
            && full in after && after - {full} == counters - {full}
            && (after[full].count == |times| <==> !IsAlive(Lookup(counters, full), times[0]))
    ensures var cleared := Failing(counters - {full}, full, times, window);
            && full in cleared && cleared[full].count == |times|
            && cleared - {full} == counters - {full}
  {
    OthersKept(counters, full, times, window);
    OthersKept(counters - {full}, full, times, window);
    assert counters - {full} - {full} == counters - {full};
    DelaysClimb(counters - {full}, full, times, window);
    if IsAlive(Lookup(counters, full), times[0]) {
      DelaysRunOn(counters, full, times, window);
    } else {
      DelaysClimb(counters, full, times, window);
    }
  }
}
