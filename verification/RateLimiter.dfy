/**
 The token bucket in front of the worker endpoints: a bounded map of buckets refilled lazily,
 on the call that reads them, with the oldest bucket evicted when the map is full.
 */
module RateLimiter {
  import opened Common

  datatype Operation = Claim | Heartbeat | ResultOp

  datatype Rule = Rule(burst: real, refillPerSecond: real)

  datatype Rules = Rules(claim: Rule, heartbeat: Rule, result: Rule) {
    function For(op: Operation): Rule
    {
      match op case Claim => claim case Heartbeat => heartbeat case ResultOp => result
    }
  }

  const DEFAULT_RULES := Rules(Rule(6.0, 1.0), Rule(20.0, 2.0), Rule(10.0, 0.5))

  datatype Key = Key(credential: string, operation: Operation)

  function OperationName(op: Operation): string
  {
    match op case Claim => "claim" case Heartbeat => "heartbeat" case ResultOp => "result"
  }

  /** The text that keys the map in the source. */
  function KeyText(k: Key): string { k.credential + ":" + OperationName(k.operation) }

  lemma KeyTextIsInjective(a: Key, b: Key)
    requires KeyText(a) == KeyText(b)
    ensures a == b
  {
    var (s, t) := (KeyText(a), KeyText(b));
    assert s[|s| - 1] == OperationName(a.operation)[|OperationName(a.operation)| - 1];
    assert t[|t| - 1] == OperationName(b.operation)[|OperationName(b.operation)| - 1];
    assert s[|s| - 2] == OperationName(a.operation)[|OperationName(a.operation)| - 2];
    assert t[|t| - 2] == OperationName(b.operation)[|OperationName(b.operation)| - 2];
    assert a.credential == s[..|s| - 1 - |OperationName(a.operation)|];
    assert b.credential == t[..|t| - 1 - |OperationName(b.operation)|];
  }

  datatype Bucket = Bucket(tokens: real, lastRefillMs: int)

  /** The map with its insertion order, oldest first. */
  datatype Limiter = Limiter(buckets: map<Key, Bucket>, order: seq<Key>)

  datatype Decision = Decision(allowed: bool, retryAfterSeconds: int)

  function Members(order: seq<Key>): set<Key> { set k | k in order }

  predicate Valid(s: Limiter)
  {
    && Distinct(s.order) && Members(s.order) == s.buckets.Keys && |s.order| == |s.buckets|
    && (forall k | k in s.buckets :: 0.0 <= s.buckets[k].tokens)
  }

  function Seconds(fromMs: int, toMs: int): real { (toMs - fromMs) as real / 1000.0 }

  /** The tokens a bucket holds at `nowMs`, seen as filling continuously. */
  function Level(rule: Rule, b: Bucket, nowMs: int): real
  {
    MinReal(rule.burst, b.tokens + MaxReal(0.0, Seconds(b.lastRefillMs, nowMs)) * rule.refillPerSecond)
  }

  function Ceil(x: real): int { -((-x).Floor) }

  function RetryAfter(rule: Rule, tokens: real): int
    requires rule.refillPerSecond > 0.0
  {
    Max(1, Ceil((1.0 - tokens) / rule.refillPerSecond))
  }

  /** The map with room for a new key. */
  function Evicted(s: Limiter, maxBuckets: int): (t: Limiter)
    requires Valid(s)
    ensures Valid(t)
  {
    if |s.buckets| < maxBuckets || |s.order| == 0 then s
    else
      assert Members(s.order[1..]) == s.buckets.Keys - {s.order[0]};
      assert s.order[0] in Members(s.order);
      Limiter(s.buckets - {s.order[0]}, s.order[1..])
  }

  lemma AppendedIsDistinct(order: seq<Key>, k: Key)
    requires Distinct(order) && k !in Members(order)
    ensures Distinct(order + [k]) && Members(order + [k]) == Members(order) + {k}
  {
    forall i | 0 <= i < |order| ensures order[i] != k { assert order[i] in Members(order); }
  }

  lemma InsertedKeys(buckets: map<Key, Bucket>, k: Key, b: Bucket)
    requires k !in buckets
    ensures buckets[k := b].Keys == buckets.Keys + {k} && |buckets[k := b]| == |buckets| + 1
  {
    assert buckets[k := b].Keys == buckets.Keys + {k};
    assert |buckets[k := b]| == |buckets[k := b].Keys|;
  }

  lemma AppendedIsValid(s: Limiter, k: Key, b: Bucket)
    requires Valid(s) && k !in s.buckets && b.tokens >= 0.0
    ensures Valid(Limiter(s.buckets[k := b], s.order + [k]))
  {
    AppendedIsDistinct(s.order, k);
    InsertedKeys(s.buckets, k, b);
  }

  /** The map with a bucket for `k`, a full one if it had none. */
  function Opened(s: Limiter, k: Key, rule: Rule, nowMs: int, maxBuckets: int): (t: Limiter)
    requires Valid(s) && rule.burst >= 0.0
    ensures Valid(t) && k in t.buckets
  {
    if k in s.buckets then s
    else
      var room := Evicted(s, maxBuckets);
      AppendedIsValid(room, k, Bucket(rule.burst, nowMs));
      Limiter(room.buckets[k := Bucket(rule.burst, nowMs)], room.order + [k])
  }

  predicate Sound(rules: Rules)
  {
    forall op: Operation :: rules.For(op).burst >= 0.0 && rules.For(op).refillPerSecond > 0.0
  }

  /** `check`. */
  function Checked(s: Limiter, rules: Rules, maxBuckets: int, k: Key, nowMs: int): (t: (Limiter, Decision))
    requires Valid(s) && Sound(rules)
    ensures Valid(t.0)
  {
    var rule := rules.For(k.operation);
    var ready := Opened(s, k, rule, nowMs, maxBuckets);
    var level := Level(rule, ready.buckets[k], nowMs);
    assert level >= 0.0 by { ProductNonNegative(MaxReal(0.0, Seconds(ready.buckets[k].lastRefillMs, nowMs)), rule.refillPerSecond); }
    if level >= 1.0 then
      (ready.(buckets := ready.buckets[k := Bucket(level - 1.0, nowMs)]), Decision(true, 0))
    else
      (ready.(buckets := ready.buckets[k := Bucket(level, nowMs)]), Decision(false, RetryAfter(rule, level)))
  }

  lemma ProductNonNegative(a: real, b: real)
    requires a >= 0.0 && b >= 0.0
    ensures a * b >= 0.0
  {
  }

  // ---- The map's bound -----------------------------------------------------------------------

  /** The map never outgrows its bound, which below one still leaves room for one bucket. */
  lemma CheckKeepsBound(s: Limiter, rules: Rules, maxBuckets: int, k: Key, nowMs: int)
    requires Valid(s) && Sound(rules) && |s.buckets| <= Max(1, maxBuckets)
    ensures |Checked(s, rules, maxBuckets, k, nowMs).0.buckets| <= Max(1, maxBuckets)
    ensures |Checked(s, rules, maxBuckets, k, nowMs).0.buckets| >= 1
  {
    var t := Checked(s, rules, maxBuckets, k, nowMs).0;
    assert |t.order| == |t.buckets|;
  }

  // ---- Runs of calls under a clock that never goes back -----------------------------------------

  datatype Call = Call(key: Key, nowMs: int)

  predicate Monotone(calls: seq<Call>, fromMs: int)
  {
    calls != [] ==> fromMs <= calls[0].nowMs && Monotone(calls[1..], calls[0].nowMs)
  }

  function LastMs(calls: seq<Call>, fromMs: int): int { if calls == [] then fromMs else calls[|calls| - 1].nowMs }

  predicate RefilledBy(s: Limiter, nowMs: int) { forall k | k in s.buckets :: s.buckets[k].lastRefillMs <= nowMs }

  function After(s: Limiter, rules: Rules, maxBuckets: int, calls: seq<Call>): (t: Limiter)
    requires Valid(s) && Sound(rules)
    ensures Valid(t)
    decreases |calls|
  {
    if calls == [] then s
    else After(Checked(s, rules, maxBuckets, calls[0].key, calls[0].nowMs).0, rules, maxBuckets, calls[1..])
  }

  /** What `k` could spend at `nowMs`: its bucket's level, or a full bucket if it has none. */
  function Credit(s: Limiter, rules: Rules, k: Key, nowMs: int): real
  {
    if k in s.buckets then Level(rules.For(k.operation), s.buckets[k], nowMs) else rules.For(k.operation).burst
  }

  predicate Evicts(s: Limiter, maxBuckets: int, called: Key, k: Key)
  {
    called !in s.buckets && |s.buckets| >= maxBuckets && |s.order| > 0 && s.order[0] == k
  }

  function Grants(s: Limiter, rules: Rules, maxBuckets: int, calls: seq<Call>, k: Key): nat
    requires Valid(s) && Sound(rules)
    decreases |calls|
  {
    if calls == [] then 0
    else
      var (t, d) := Checked(s, rules, maxBuckets, calls[0].key, calls[0].nowMs);
      (if calls[0].key == k && d.allowed then 1 else 0) + Grants(t, rules, maxBuckets, calls[1..], k)
  }

  function Evictions(s: Limiter, rules: Rules, maxBuckets: int, calls: seq<Call>, k: Key): nat
    requires Valid(s) && Sound(rules)
    decreases |calls|
  {
    if calls == [] then 0
    else
      (if Evicts(s, maxBuckets, calls[0].key, k) then 1 else 0)
      + Evictions(Checked(s, rules, maxBuckets, calls[0].key, calls[0].nowMs).0, rules, maxBuckets, calls[1..], k)
  }

  lemma SecondsScale(fromMs: int, midMs: int, toMs: int, rate: real)
    requires fromMs <= midMs <= toMs && rate > 0.0
    ensures Seconds(fromMs, toMs) * rate == Seconds(fromMs, midMs) * rate + Seconds(midMs, toMs) * rate
    ensures Seconds(fromMs, midMs) * rate >= 0.0 && Seconds(midMs, toMs) * rate >= 0.0
  {
    assert Seconds(fromMs, toMs) == Seconds(fromMs, midMs) + Seconds(midMs, toMs);
    ProductNonNegative(Seconds(fromMs, midMs), rate);
    ProductNonNegative(Seconds(midMs, toMs), rate);
  }

  /** The lazily refilled bucket is the continuous one: its level later is its level now plus what flowed in. */
  lemma LevelFlows(rule: Rule, b: Bucket, fromMs: int, toMs: int)
    requires b.lastRefillMs <= fromMs <= toMs && rule.refillPerSecond > 0.0
    ensures Level(rule, b, toMs) == MinReal(rule.burst, Level(rule, b, fromMs) + Seconds(fromMs, toMs) * rule.refillPerSecond)
  {
    SecondsScale(b.lastRefillMs, fromMs, toMs, rule.refillPerSecond);
    assert Seconds(b.lastRefillMs, fromMs) >= 0.0 && Seconds(b.lastRefillMs, toMs) >= 0.0;
  }

  lemma CreditFlows(s: Limiter, rules: Rules, k: Key, fromMs: int, toMs: int)
    requires Valid(s) && Sound(rules) && RefilledBy(s, fromMs) && fromMs <= toMs
    ensures var rule := rules.For(k.operation);
            && Credit(s, rules, k, toMs) == MinReal(rule.burst, Credit(s, rules, k, fromMs) + Seconds(fromMs, toMs) * rule.refillPerSecond)
            && 0.0 <= Credit(s, rules, k, fromMs) <= Credit(s, rules, k, toMs) <= rule.burst
  {
    var rule := rules.For(k.operation);
    ProductNonNegative(Seconds(fromMs, toMs), rule.refillPerSecond);
    if k in s.buckets {
      LevelFlows(rule, s.buckets[k], fromMs, toMs);
      ProductNonNegative(Seconds(s.buckets[k].lastRefillMs, fromMs), rule.refillPerSecond);
    }
  }

  lemma OpeningKeeps(s: Limiter, called: Key, rule: Rule, nowMs: int, maxBuckets: int, k: Key)
    requires Valid(s) && rule.burst >= 0.0 && k != called
    ensures var t := Opened(s, called, rule, nowMs, maxBuckets);
            && (k in t.buckets <==> k in s.buckets && !Evicts(s, maxBuckets, called, k))
            && (k in t.buckets ==> t.buckets[k] == s.buckets[k])
  {
  }

  /** A bucket just written holds what was written. */
  lemma LevelAtOnce(rule: Rule, tokens: real, nowMs: int)
    requires tokens <= rule.burst
    ensures Level(rule, Bucket(tokens, nowMs), nowMs) == tokens
  {
    assert Seconds(nowMs, nowMs) == 0.0;
    assert MaxReal(0.0, Seconds(nowMs, nowMs)) * rule.refillPerSecond == 0.0;
  }

  lemma OpeningHasCredit(s: Limiter, rules: Rules, maxBuckets: int, k: Key, nowMs: int)
    requires Valid(s) && Sound(rules)
    ensures Level(rules.For(k.operation), Opened(s, k, rules.For(k.operation), nowMs, maxBuckets).buckets[k], nowMs) == Credit(s, rules, k, nowMs)
  {
    LevelAtOnce(rules.For(k.operation), rules.For(k.operation).burst, nowMs);
  }

  lemma CheckedBucket(s: Limiter, rules: Rules, maxBuckets: int, k: Key, nowMs: int)
    requires Valid(s) && Sound(rules)
    ensures var (t, d) := Checked(s, rules, maxBuckets, k, nowMs);
            var level := Level(rules.For(k.operation), Opened(s, k, rules.For(k.operation), nowMs, maxBuckets).buckets[k], nowMs);
            && (d.allowed <==> level >= 1.0)
            && k in t.buckets && t.buckets[k] == Bucket(level - (if d.allowed then 1.0 else 0.0), nowMs)
  {
  }

  lemma OwnCallSpends(s: Limiter, rules: Rules, maxBuckets: int, k: Key, nowMs: int)
    requires Valid(s) && Sound(rules)
    ensures var (t, d) := Checked(s, rules, maxBuckets, k, nowMs);
            && (d.allowed <==> Credit(s, rules, k, nowMs) >= 1.0)
            && k in t.buckets && t.buckets[k].lastRefillMs == nowMs
            && Credit(t, rules, k, nowMs) == Credit(s, rules, k, nowMs) - (if d.allowed then 1.0 else 0.0)
  {
    CheckedBucket(s, rules, maxBuckets, k, nowMs);
    OpeningHasCredit(s, rules, maxBuckets, k, nowMs);
    var t := Checked(s, rules, maxBuckets, k, nowMs).0;
    LevelAtOnce(rules.For(k.operation), t.buckets[k].tokens, nowMs);
  }

  /** One call spends one token if it is granted; only an eviction gives any back. */
  lemma CallSpends(s: Limiter, rules: Rules, maxBuckets: int, called: Key, nowMs: int, k: Key)
    requires Valid(s) && Sound(rules) && RefilledBy(s, nowMs)
    ensures var (t, d) := Checked(s, rules, maxBuckets, called, nowMs);
            && (called == k ==> (d.allowed <==> Credit(s, rules, k, nowMs) >= 1.0))
            && Credit(t, rules, k, nowMs) ==
                 if Evicts(s, maxBuckets, called, k) then rules.For(k.operation).burst
                 else Credit(s, rules, k, nowMs) - (if called == k && d.allowed then 1.0 else 0.0)
  {
    OwnCallSpends(s, rules, maxBuckets, called, nowMs);
    if called != k { OpeningKeeps(s, called, rules.For(called.operation), nowMs, maxBuckets, k); }
  }

  lemma CallRefills(s: Limiter, rules: Rules, maxBuckets: int, called: Key, nowMs: int)
    requires Valid(s) && Sound(rules) && RefilledBy(s, nowMs)
    ensures RefilledBy(Checked(s, rules, maxBuckets, called, nowMs).0, nowMs)
  {
    var t := Checked(s, rules, maxBuckets, called, nowMs).0;
    forall k | k in t.buckets && k != called ensures t.buckets[k].lastRefillMs <= nowMs {
      OpeningKeeps(s, called, rules.For(called.operation), nowMs, maxBuckets, k);
    }
    OwnCallSpends(s, rules, maxBuckets, called, nowMs);
  }

  // ---- Traffic ----------------------------------------------------------------------------------

  lemma LastMsOfRest(calls: seq<Call>, fromMs: int)
    requires calls != []
    ensures LastMs(calls, fromMs) == LastMs(calls[1..], calls[0].nowMs)
  {
  }

  lemma {:induction false} MonotoneEnds(calls: seq<Call>, fromMs: int)
    requires Monotone(calls, fromMs)
    ensures fromMs <= LastMs(calls, fromMs)
    decreases |calls|
  {
    if calls != [] {
      MonotoneEnds(calls[1..], calls[0].nowMs);
      LastMsOfRest(calls, fromMs);
    }
  }

  /** `n` times `x`, by repeated addition. */
  function Times(n: nat, x: real): real { if n == 0 then 0.0 else x + Times(n - 1, x) }

  lemma {:induction false} TimesIsProduct(n: nat, x: real)
    ensures Times(n, x) == n as real * x
  {
    if n > 0 {
      TimesIsProduct(n - 1, x);
      assert n as real * x == (n - 1) as real * x + 1.0 * x;
    }
  }

  lemma TimesStep(m: nat, more: bool, n: nat, x: real)
    requires m == (if more then 1 else 0) + n
    ensures Times(m, x) == (if more then x else 0.0) + Times(n, x)
  {
  }

  /** What evictions of `k` give back: a full bucket each. */
  function Back(s: Limiter, rules: Rules, maxBuckets: int, calls: seq<Call>, k: Key): real
    requires Valid(s) && Sound(rules)
  {
    Times(Evictions(s, rules, maxBuckets, calls, k), rules.For(k.operation).burst)
  }

  lemma {:induction false} BackStep(s: Limiter, rules: Rules, maxBuckets: int, calls: seq<Call>, k: Key)
    requires Valid(s) && Sound(rules) && calls != []
    ensures var t := Checked(s, rules, maxBuckets, calls[0].key, calls[0].nowMs).0;
            Back(s, rules, maxBuckets, calls, k)
            == (if Evicts(s, maxBuckets, calls[0].key, k) then rules.For(k.operation).burst else 0.0) + Back(t, rules, maxBuckets, calls[1..], k)
  {
    EvictionsStep(s, rules, maxBuckets, calls, k);
    var n := Evictions(Checked(s, rules, maxBuckets, calls[0].key, calls[0].nowMs).0, rules, maxBuckets, calls[1..], k);
    TimesStep(Evictions(s, rules, maxBuckets, calls, k), Evicts(s, maxBuckets, calls[0].key, k), n, rules.For(k.operation).burst);
  }

  lemma EvictionsStep(s: Limiter, rules: Rules, maxBuckets: int, calls: seq<Call>, k: Key)
    requires Valid(s) && Sound(rules) && calls != []
    ensures Evictions(s, rules, maxBuckets, calls, k)
            == (if Evicts(s, maxBuckets, calls[0].key, k) then 1 else 0)
               + Evictions(Checked(s, rules, maxBuckets, calls[0].key, calls[0].nowMs).0, rules, maxBuckets, calls[1..], k)
  {
  }

  /** The books of one call and the rest of the run; `back` and `flows` are what evictions and time bring. */
  lemma BooksAdd(before: real, atCall: real, after: real, end: real, granted: real, rest: real, evicted: bool, burst: real,
                 backRest: real, flow: real, flowRest: real)
    requires 0.0 <= before <= atCall <= before + flow && 0.0 <= burst
    requires after == if evicted then burst else atCall - granted
    requires evicted ==> granted == 0.0
    requires rest + end <= after + backRest + flowRest
    ensures granted + rest + end <= before + ((if evicted then burst else 0.0) + backRest) + (flow + flowRest)
  {
  }

  /** What is granted, plus what is left, never exceeds what was there, what flowed in and what evictions gave back. */
  lemma {:induction false} GrantsAreBounded(s: Limiter, rules: Rules, maxBuckets: int, calls: seq<Call>, k: Key, fromMs: int, toMs: int)
    requires Valid(s) && Sound(rules) && RefilledBy(s, fromMs) && Monotone(calls, fromMs) && LastMs(calls, fromMs) <= toMs
    ensures Grants(s, rules, maxBuckets, calls, k) as real + Credit(After(s, rules, maxBuckets, calls), rules, k, toMs)
            <= Credit(s, rules, k, fromMs) + Back(s, rules, maxBuckets, calls, k) + Flow(rules, k, fromMs, toMs)
    decreases |calls|
  {
    MonotoneEnds(calls, fromMs);
    if calls == [] {
      CreditGrows(s, rules, k, fromMs, toMs);
    } else {
      var (called, nowMs) := (calls[0].key, calls[0].nowMs);
      var (t, d) := Checked(s, rules, maxBuckets, called, nowMs);
      LastMsOfRest(calls, fromMs);
      MonotoneEnds(calls[1..], nowMs);
      CreditGrows(s, rules, k, fromMs, nowMs);
      CallSpends(s, rules, maxBuckets, called, nowMs, k);
      CallRefills(s, rules, maxBuckets, called, nowMs);
      GrantsAreBounded(t, rules, maxBuckets, calls[1..], k, nowMs, toMs);
      FlowAdds(rules, k, fromMs, nowMs, toMs);
      BackStep(s, rules, maxBuckets, calls, k);
      BooksAdd(Credit(s, rules, k, fromMs), Credit(s, rules, k, nowMs), Credit(t, rules, k, nowMs),
               Credit(After(s, rules, maxBuckets, calls), rules, k, toMs), if called == k && d.allowed then 1.0 else 0.0,
               Grants(t, rules, maxBuckets, calls[1..], k) as real, Evicts(s, maxBuckets, called, k), rules.For(k.operation).burst,
               Back(t, rules, maxBuckets, calls[1..], k), Flow(rules, k, fromMs, nowMs), Flow(rules, k, nowMs, toMs));
    }
  }

  /** The tokens that flow into a bucket of `k` in a window. */
  function Flow(rules: Rules, k: Key, fromMs: int, toMs: int): real { Seconds(fromMs, toMs) * rules.For(k.operation).refillPerSecond }

  lemma FlowAdds(rules: Rules, k: Key, fromMs: int, midMs: int, toMs: int)
    requires Sound(rules) && fromMs <= midMs <= toMs
    ensures Flow(rules, k, fromMs, toMs) == Flow(rules, k, fromMs, midMs) + Flow(rules, k, midMs, toMs)
  {
    SecondsScale(fromMs, midMs, toMs, rules.For(k.operation).refillPerSecond);
  }

  lemma CreditGrows(s: Limiter, rules: Rules, k: Key, fromMs: int, toMs: int)
    requires Valid(s) && Sound(rules) && RefilledBy(s, fromMs) && fromMs <= toMs
    ensures 0.0 <= Credit(s, rules, k, fromMs) <= Credit(s, rules, k, toMs) <= Credit(s, rules, k, fromMs) + Flow(rules, k, fromMs, toMs)
    ensures Credit(s, rules, k, toMs) <= rules.For(k.operation).burst
  {
    CreditFlows(s, rules, k, fromMs, toMs);
    ProductNonNegative(Seconds(fromMs, toMs), rules.For(k.operation).refillPerSecond);
  }

  lemma {:induction false} GrantsWithinBursts(s: Limiter, rules: Rules, maxBuckets: int, calls: seq<Call>, k: Key, fromMs: int)
    requires Valid(s) && Sound(rules) && RefilledBy(s, fromMs) && Monotone(calls, fromMs)
    ensures Grants(s, rules, maxBuckets, calls, k) as real
            <= rules.For(k.operation).burst + Back(s, rules, maxBuckets, calls, k) + Flow(rules, k, fromMs, LastMs(calls, fromMs))
  {
    var toMs := LastMs(calls, fromMs);
    MonotoneEnds(calls, fromMs);
    GrantsAreBounded(s, rules, maxBuckets, calls, k, fromMs, toMs);
    CreditGrows(s, rules, k, fromMs, fromMs);
    AfterRefills(s, rules, maxBuckets, calls, fromMs);
    CreditGrows(After(s, rules, maxBuckets, calls), rules, k, toMs, toMs);
  }

  /** The same as products. */
  lemma {:induction false} BurstsAdd(granted: real, burst: real, evictions: nat, flow: real)
    requires granted <= burst + Times(evictions, burst) + flow
    ensures granted <= burst * (1 + evictions) as real + flow
  {
    TimesIsProduct(evictions, burst);
    assert burst * (1 + evictions) as real == burst + evictions as real * burst;
  }

  /** In any window of T seconds a key is granted at most `burst` times (1 + its evictions) plus `refillPerSecond` times T. */
  lemma {:induction false} TrafficBound(s: Limiter, rules: Rules, maxBuckets: int, calls: seq<Call>, k: Key, fromMs: int)
    requires Valid(s) && Sound(rules) && RefilledBy(s, fromMs) && Monotone(calls, fromMs)
    ensures var (rule, evictions) := (rules.For(k.operation), Evictions(s, rules, maxBuckets, calls, k));
            Grants(s, rules, maxBuckets, calls, k) as real
            <= rule.burst * (1 + evictions) as real + (LastMs(calls, fromMs) - fromMs) as real / 1000.0 * rule.refillPerSecond
  {
    hide *;
    GrantsWithinBursts(s, rules, maxBuckets, calls, k, fromMs);
    BackIs(s, rules, maxBuckets, calls, k, fromMs);
    BurstsAdd(Grants(s, rules, maxBuckets, calls, k) as real, rules.For(k.operation).burst, Evictions(s, rules, maxBuckets, calls, k),
              Flow(rules, k, fromMs, LastMs(calls, fromMs)));
  }

  lemma {:induction false} BackIs(s: Limiter, rules: Rules, maxBuckets: int, calls: seq<Call>, k: Key, fromMs: int)
    requires Valid(s) && Sound(rules)
    ensures Back(s, rules, maxBuckets, calls, k) == Times(Evictions(s, rules, maxBuckets, calls, k), rules.For(k.operation).burst)
    ensures Flow(rules, k, fromMs, LastMs(calls, fromMs))
            == (LastMs(calls, fromMs) - fromMs) as real / 1000.0 * rules.For(k.operation).refillPerSecond
  {
    hide Evictions, Checked, Valid, Sound, Times;
  }

  lemma {:induction false} AfterRefills(s: Limiter, rules: Rules, maxBuckets: int, calls: seq<Call>, fromMs: int)
    requires Valid(s) && Sound(rules) && RefilledBy(s, fromMs) && Monotone(calls, fromMs)
    ensures RefilledBy(After(s, rules, maxBuckets, calls), LastMs(calls, fromMs))
    decreases |calls|
  {
    if calls != [] {
      LastMsOfRest(calls, fromMs);
      CallRefills(s, rules, maxBuckets, calls[0].key, calls[0].nowMs);
      AfterRefills(Checked(s, rules, maxBuckets, calls[0].key, calls[0].nowMs).0, rules, maxBuckets, calls[1..], calls[0].nowMs);
    }
  }

  // ---- Refused calls -----------------------------------------------------------------------------

  function Decisions(s: Limiter, rules: Rules, maxBuckets: int, calls: seq<Call>): seq<Decision>
    requires Valid(s) && Sound(rules)
    decreases |calls|
  {
    if calls == [] then []
    else
      var (t, d) := Checked(s, rules, maxBuckets, calls[0].key, calls[0].nowMs);
      [d] + Decisions(t, rules, maxBuckets, calls[1..])
  }

  predicate SameLevel(s: Limiter, t: Limiter, rules: Rules, nowMs: int, k: Key)
    requires k in s.buckets && k in t.buckets
  {
    Level(rules.For(k.operation), s.buckets[k], nowMs) == Level(rules.For(k.operation), t.buckets[k], nowMs)
  }

  /** No later call can tell the two limiters apart. */
  predicate Same(s: Limiter, t: Limiter, rules: Rules, nowMs: int)
  {
    && s.order == t.order && s.buckets.Keys == t.buckets.Keys
    && RefilledBy(s, nowMs) && RefilledBy(t, nowMs)
    && (forall k | k in s.buckets && k in t.buckets :: SameLevel(s, t, rules, nowMs, k))
  }

  lemma SameKeysSameSize(s: Limiter, t: Limiter)
    requires s.buckets.Keys == t.buckets.Keys
    ensures |s.buckets| == |t.buckets|
  {
    assert |s.buckets| == |s.buckets.Keys| && |t.buckets| == |t.buckets.Keys|;
  }

  lemma SameAges(s: Limiter, t: Limiter, rules: Rules, fromMs: int, toMs: int)
    requires Sound(rules) && Same(s, t, rules, fromMs) && fromMs <= toMs
    ensures Same(s, t, rules, toMs)
  {
    hide Level;
    forall k | k in s.buckets && k in t.buckets ensures SameLevel(s, t, rules, toMs, k) {
      assert SameLevel(s, t, rules, fromMs, k);
      LevelFlows(rules.For(k.operation), s.buckets[k], fromMs, toMs);
      LevelFlows(rules.For(k.operation), t.buckets[k], fromMs, toMs);
    }
  }

  lemma SameOpens(s: Limiter, t: Limiter, rules: Rules, maxBuckets: int, called: Key, nowMs: int)
    requires Valid(s) && Valid(t) && Sound(rules) && Same(s, t, rules, nowMs)
    ensures var rule := rules.For(called.operation);
            Opened(s, called, rule, nowMs, maxBuckets).order == Opened(t, called, rule, nowMs, maxBuckets).order
    ensures forall k :: Evicts(s, maxBuckets, called, k) <==> Evicts(t, maxBuckets, called, k)
    ensures Credit(s, rules, called, nowMs) == Credit(t, rules, called, nowMs)
  {
    SameKeysSameSize(s, t);
    if called in s.buckets { assert SameLevel(s, t, rules, nowMs, called); }
  }

  lemma SameDecision(s: Limiter, t: Limiter, rules: Rules, maxBuckets: int, called: Key, nowMs: int)
    requires Valid(s) && Valid(t) && Sound(rules) && Same(s, t, rules, nowMs)
    ensures var (a, b) := (Checked(s, rules, maxBuckets, called, nowMs), Checked(t, rules, maxBuckets, called, nowMs));
            && a.1 == b.1 && a.0.order == b.0.order
            && called in a.0.buckets && called in b.0.buckets && a.0.buckets[called] == b.0.buckets[called]
  {
    SameOpens(s, t, rules, maxBuckets, called, nowMs);
    OpeningHasCredit(s, rules, maxBuckets, called, nowMs);
    OpeningHasCredit(t, rules, maxBuckets, called, nowMs);
    CheckedBucket(s, rules, maxBuckets, called, nowMs);
    CheckedBucket(t, rules, maxBuckets, called, nowMs);
  }

  lemma CheckKeepsOthers(s: Limiter, rules: Rules, maxBuckets: int, called: Key, nowMs: int, k: Key)
    requires Valid(s) && Sound(rules) && k != called
    ensures var t := Checked(s, rules, maxBuckets, called, nowMs).0;
            && (k in t.buckets <==> k in s.buckets && !Evicts(s, maxBuckets, called, k))
            && (k in t.buckets ==> t.buckets[k] == s.buckets[k])
  {
    OpeningKeeps(s, called, rules.For(called.operation), nowMs, maxBuckets, k);
  }

  lemma SameElsewhere(s: Limiter, t: Limiter, rules: Rules, maxBuckets: int, called: Key, nowMs: int, k: Key)
    requires Valid(s) && Valid(t) && Sound(rules) && Same(s, t, rules, nowMs) && k != called
    ensures var (a, b) := (Checked(s, rules, maxBuckets, called, nowMs).0, Checked(t, rules, maxBuckets, called, nowMs).0);
            && (k in a.buckets <==> k in b.buckets)
            && (k in a.buckets ==> SameLevel(a, b, rules, nowMs, k))
  {
    SameOpens(s, t, rules, maxBuckets, called, nowMs);
    CheckKeepsOthers(s, rules, maxBuckets, called, nowMs, k);
    CheckKeepsOthers(t, rules, maxBuckets, called, nowMs, k);
    if k in s.buckets { assert SameLevel(s, t, rules, nowMs, k); }
  }

  /** Two limiters that agree decide alike and go on agreeing. */
  lemma SameStays(s: Limiter, t: Limiter, rules: Rules, maxBuckets: int, called: Key, nowMs: int)
    requires Valid(s) && Valid(t) && Sound(rules) && Same(s, t, rules, nowMs)
    ensures Checked(s, rules, maxBuckets, called, nowMs).1 == Checked(t, rules, maxBuckets, called, nowMs).1
    ensures Same(Checked(s, rules, maxBuckets, called, nowMs).0, Checked(t, rules, maxBuckets, called, nowMs).0, rules, nowMs)
  {
    var (a, b) := (Checked(s, rules, maxBuckets, called, nowMs).0, Checked(t, rules, maxBuckets, called, nowMs).0);
    SameDecision(s, t, rules, maxBuckets, called, nowMs);
    CallRefills(s, rules, maxBuckets, called, nowMs);
    CallRefills(t, rules, maxBuckets, called, nowMs);
    forall k ensures (k in a.buckets <==> k in b.buckets) && (k in a.buckets ==> SameLevel(a, b, rules, nowMs, k)) {
      if k != called { SameElsewhere(s, t, rules, maxBuckets, called, nowMs, k); }
    }
  }

  lemma {:induction false} SameDecisions(s: Limiter, t: Limiter, rules: Rules, maxBuckets: int, calls: seq<Call>, fromMs: int)
    requires Valid(s) && Valid(t) && Sound(rules) && Same(s, t, rules, fromMs) && Monotone(calls, fromMs)
    ensures Decisions(s, rules, maxBuckets, calls) == Decisions(t, rules, maxBuckets, calls)
    decreases |calls|
  {
    if calls != [] {
      SameAges(s, t, rules, fromMs, calls[0].nowMs);
      SameStays(s, t, rules, maxBuckets, calls[0].key, calls[0].nowMs);
      SameDecisions(Checked(s, rules, maxBuckets, calls[0].key, calls[0].nowMs).0,
                    Checked(t, rules, maxBuckets, calls[0].key, calls[0].nowMs).0, rules, maxBuckets, calls[1..], calls[0].nowMs);
    }
  }

  /** A refused call leaves every level as it was: refilling early or late comes to the same. */
  lemma RefusalKeepsLevels(s: Limiter, rules: Rules, maxBuckets: int, k: Key, nowMs: int)
    requires Valid(s) && Sound(rules) && RefilledBy(s, nowMs) && rules.For(k.operation).burst >= 1.0
    requires !Checked(s, rules, maxBuckets, k, nowMs).1.allowed
    ensures k in s.buckets && Same(s, Checked(s, rules, maxBuckets, k, nowMs).0, rules, nowMs)
  {
    var t := Checked(s, rules, maxBuckets, k, nowMs).0;
    OwnCallSpends(s, rules, maxBuckets, k, nowMs);
    CallRefills(s, rules, maxBuckets, k, nowMs);
    assert k in s.buckets;
    assert t.buckets.Keys == s.buckets.Keys;
    assert SameLevel(s, t, rules, nowMs, k);
  }

  /** Refused calls are invisible: whatever is asked later is decided as if they had not been made. */
  lemma RefusedCallsAreInvisible(s: Limiter, rules: Rules, maxBuckets: int, k: Key, nowMs: int, calls: seq<Call>)
    requires Valid(s) && Sound(rules) && RefilledBy(s, nowMs) && rules.For(k.operation).burst >= 1.0
    requires !Checked(s, rules, maxBuckets, k, nowMs).1.allowed && Monotone(calls, nowMs)
    ensures Decisions(Checked(s, rules, maxBuckets, k, nowMs).0, rules, maxBuckets, calls) == Decisions(s, rules, maxBuckets, calls)
  {
    RefusalKeepsLevels(s, rules, maxBuckets, k, nowMs);
    SameDecisions(s, Checked(s, rules, maxBuckets, k, nowMs).0, rules, maxBuckets, calls, nowMs);
  }

  // ---- Retry-After ---------------------------------------------------------------------------------

  lemma CreditIsMin(s: Limiter, rules: Rules, k: Key, fromMs: int, toMs: int)
    requires Valid(s) && Sound(rules) && RefilledBy(s, fromMs) && fromMs <= toMs
    ensures Credit(s, rules, k, toMs) == MinReal(rules.For(k.operation).burst, Credit(s, rules, k, fromMs) + Flow(rules, k, fromMs, toMs))
  {
    CreditFlows(s, rules, k, fromMs, toMs);
  }

  lemma FlowIsPositive(rules: Rules, k: Key, fromMs: int, toMs: int)
    requires Sound(rules) && fromMs <= toMs
    ensures Flow(rules, k, fromMs, toMs) >= 0.0
  {
    ProductNonNegative(Seconds(fromMs, toMs), rules.For(k.operation).refillPerSecond);
  }

  /** The credit of `k` over the wait for one call and the call itself, when it grants `k` nothing. */
  lemma AccruesUntilCall(s: Limiter, rules: Rules, maxBuckets: int, called: Key, k: Key, fromMs: int, nowMs: int)
    requires Valid(s) && Sound(rules) && RefilledBy(s, fromMs) && fromMs <= nowMs
    requires called == k ==> !Checked(s, rules, maxBuckets, called, nowMs).1.allowed
    ensures var (after, burst) := (Credit(Checked(s, rules, maxBuckets, called, nowMs).0, rules, k, nowMs), rules.For(k.operation).burst);
            after == burst || after == MinReal(burst, Credit(s, rules, k, fromMs) + Flow(rules, k, fromMs, nowMs))
  {
    CreditIsMin(s, rules, k, fromMs, nowMs);
    CallSpends(s, rules, maxBuckets, called, nowMs, k);
  }

  lemma MinChain(burst: real, c: real, after: real, end: real, flow: real, flowRest: real)
    requires (after == burst || after == MinReal(burst, c + flow)) && 0.0 <= flowRest
    requires end >= MinReal(burst, after + flowRest)
    ensures end >= MinReal(burst, c + (flow + flowRest))
  {
  }

  /** Without a grant the credit only grows, evictions included. */
  lemma {:induction false} CreditAccrues(s: Limiter, rules: Rules, maxBuckets: int, calls: seq<Call>, k: Key, fromMs: int, toMs: int)
    requires Valid(s) && Sound(rules) && RefilledBy(s, fromMs) && Monotone(calls, fromMs) && LastMs(calls, fromMs) <= toMs
    requires Grants(s, rules, maxBuckets, calls, k) == 0
    ensures Credit(After(s, rules, maxBuckets, calls), rules, k, toMs)
            >= MinReal(rules.For(k.operation).burst, Credit(s, rules, k, fromMs) + Flow(rules, k, fromMs, toMs))
    decreases |calls|, 1
  {
    MonotoneEnds(calls, fromMs);
    if calls == [] {
      CreditIsMin(s, rules, k, fromMs, toMs);
    } else {
      CreditAccruesRest(s, rules, maxBuckets, calls, k, fromMs, toMs);
      var (called, nowMs) := (calls[0].key, calls[0].nowMs);
      AccruesUntilCall(s, rules, maxBuckets, called, k, fromMs, nowMs);
      FlowAdds(rules, k, fromMs, nowMs, toMs);
      FlowIsPositive(rules, k, nowMs, toMs);
      MinChain(rules.For(k.operation).burst, Credit(s, rules, k, fromMs),
               Credit(Checked(s, rules, maxBuckets, called, nowMs).0, rules, k, nowMs),
               Credit(After(s, rules, maxBuckets, calls), rules, k, toMs), Flow(rules, k, fromMs, nowMs), Flow(rules, k, nowMs, toMs));
    }
  }

  lemma {:induction false} CreditAccruesRest(s: Limiter, rules: Rules, maxBuckets: int, calls: seq<Call>, k: Key, fromMs: int, toMs: int)
    requires Valid(s) && Sound(rules) && RefilledBy(s, fromMs) && Monotone(calls, fromMs) && LastMs(calls, fromMs) <= toMs
    requires Grants(s, rules, maxBuckets, calls, k) == 0 && calls != []
    ensures var (called, nowMs) := (calls[0].key, calls[0].nowMs);
            var (t, d) := Checked(s, rules, maxBuckets, called, nowMs);
            && (called == k ==> !d.allowed) && nowMs <= toMs
            && Credit(After(s, rules, maxBuckets, calls), rules, k, toMs)
               >= MinReal(rules.For(k.operation).burst, Credit(t, rules, k, nowMs) + Flow(rules, k, nowMs, toMs))
    decreases |calls|, 0
  {
    var (called, nowMs) := (calls[0].key, calls[0].nowMs);
    LastMsOfRest(calls, fromMs);
    MonotoneEnds(calls[1..], nowMs);
    RefilledLater(s, fromMs, nowMs);
    CallRefills(s, rules, maxBuckets, called, nowMs);
    CreditAccrues(Checked(s, rules, maxBuckets, called, nowMs).0, rules, maxBuckets, calls[1..], k, nowMs, toMs);
  }

  lemma RefilledLater(s: Limiter, fromMs: int, toMs: int)
    requires RefilledBy(s, fromMs) && fromMs <= toMs
    ensures RefilledBy(s, toMs)
  {
  }

  lemma WaitCovers(missing: real, rate: real, seconds: real)
    requires rate > 0.0 && missing / rate <= seconds
    ensures missing <= seconds * rate
  {
    assert missing == (missing / rate) * rate;
    ProductNonNegative(seconds - missing / rate, rate);
  }

  lemma CeilCovers(x: real)
    ensures x <= Ceil(x) as real < x + 1.0
  {
  }

  lemma WaitEnds(rules: Rules, k: Key, credit: real, nowMs: int, laterMs: int)
    requires Sound(rules) && nowMs + 1000 * RetryAfter(rules.For(k.operation), credit) <= laterMs
    ensures credit + Flow(rules, k, nowMs, laterMs) >= 1.0
  {
    var rule := rules.For(k.operation);
    var missing := 1.0 - credit;
    CeilCovers(missing / rule.refillPerSecond);
    assert Seconds(nowMs, laterMs) >= RetryAfter(rule, credit) as real;
    WaitCovers(missing, rule.refillPerSecond, Seconds(nowMs, laterMs));
  }

  lemma RefusalTells(s: Limiter, rules: Rules, maxBuckets: int, k: Key, nowMs: int)
    requires Valid(s) && Sound(rules) && RefilledBy(s, nowMs)
    ensures var (t, d) := Checked(s, rules, maxBuckets, k, nowMs);
            !d.allowed ==> Credit(t, rules, k, nowMs) == Credit(s, rules, k, nowMs) < 1.0
                           && d.retryAfterSeconds == RetryAfter(rules.For(k.operation), Credit(s, rules, k, nowMs))
  {
    OpeningHasCredit(s, rules, maxBuckets, k, nowMs);
    OwnCallSpends(s, rules, maxBuckets, k, nowMs);
  }

  lemma CreditSuffices(s: Limiter, rules: Rules, maxBuckets: int, k: Key, credit: real, nowMs: int, laterMs: int)
    requires Valid(s) && Sound(rules) && rules.For(k.operation).burst >= 1.0
    requires Credit(s, rules, k, laterMs) >= MinReal(rules.For(k.operation).burst, credit + Flow(rules, k, nowMs, laterMs))
    requires nowMs + 1000 * RetryAfter(rules.For(k.operation), credit) <= laterMs
    ensures Checked(s, rules, maxBuckets, k, laterMs).1.allowed
  {
    WaitEnds(rules, k, credit, nowMs, laterMs);
    OwnCallSpends(s, rules, maxBuckets, k, laterMs);
  }

  /** A call at or after the promised Retry-After, with no grant in between, is always allowed. */
  lemma RetryAfterIsHonest(s: Limiter, rules: Rules, maxBuckets: int, k: Key, nowMs: int, calls: seq<Call>, laterMs: int)
    requires Valid(s) && Sound(rules) && RefilledBy(s, nowMs) && rules.For(k.operation).burst >= 1.0
    requires var (t, d) := Checked(s, rules, maxBuckets, k, nowMs);
             && !d.allowed && Monotone(calls, nowMs) && LastMs(calls, nowMs) <= laterMs && nowMs + 1000 * d.retryAfterSeconds <= laterMs
             && Grants(t, rules, maxBuckets, calls, k) == 0
    ensures Checked(After(Checked(s, rules, maxBuckets, k, nowMs).0, rules, maxBuckets, calls), rules, maxBuckets, k, laterMs).1.allowed
  {
    var t := Checked(s, rules, maxBuckets, k, nowMs).0;
    RefusalTells(s, rules, maxBuckets, k, nowMs);
    CallRefills(s, rules, maxBuckets, k, nowMs);
    CreditAccrues(t, rules, maxBuckets, calls, k, nowMs, laterMs);
    CreditSuffices(After(t, rules, maxBuckets, calls), rules, maxBuckets, k, Credit(s, rules, k, nowMs), nowMs, laterMs);
  }

  /** So many whole seconds are less than what is missing takes to flow in. */
  lemma WaitFallsShort(missing: real, rate: real, seconds: real)
    requires rate > 0.0 && seconds < missing / rate
    ensures seconds * rate < missing
  {
    assert missing == (missing / rate) * rate;
    ProductPositive(missing / rate - seconds, rate);
  }

  lemma ProductPositive(a: real, b: real)
    requires a > 0.0 && b > 0.0
    ensures a * b > 0.0
  {
  }

  lemma WaitIsNeeded(rules: Rules, k: Key, credit: real, nowMs: int)
    requires Sound(rules) && credit < 1.0
    ensures var toMs := nowMs + 1000 * (RetryAfter(rules.For(k.operation), credit) - 1);
            nowMs <= toMs && credit + Flow(rules, k, nowMs, toMs) < 1.0
  {
    var rule := rules.For(k.operation);
    var (missing, wait) := (1.0 - credit, RetryAfter(rule, credit));
    var toMs := nowMs + 1000 * (wait - 1);
    CeilCovers(missing / rule.refillPerSecond);
    assert Seconds(nowMs, toMs) == (wait - 1) as real;
    if wait == 1 {
      assert Seconds(nowMs, toMs) * rule.refillPerSecond == 0.0;
    } else {
      WaitFallsShort(missing, rule.refillPerSecond, Seconds(nowMs, toMs));
    }
  }

  /** No whole second of a promised Retry-After is too much: until the last one begins, and unless it is evicted, the key is granted nothing. */
  lemma RetryAfterIsNeeded(s: Limiter, rules: Rules, maxBuckets: int, k: Key, nowMs: int, calls: seq<Call>)
    requires Valid(s) && Sound(rules) && RefilledBy(s, nowMs)
    requires var (t, d) := Checked(s, rules, maxBuckets, k, nowMs);
             && !d.allowed && Monotone(calls, nowMs) && LastMs(calls, nowMs) <= nowMs + 1000 * (d.retryAfterSeconds - 1)
             && Evictions(t, rules, maxBuckets, calls, k) == 0
    ensures Grants(Checked(s, rules, maxBuckets, k, nowMs).0, rules, maxBuckets, calls, k) == 0
  {
    hide Checked, Valid, Sound, Monotone, LastMs, RefilledBy, Credit, Flow, RetryAfter, Grants, Evictions, After;
    var (t, d) := Checked(s, rules, maxBuckets, k, nowMs);
    var toMs := nowMs + 1000 * (d.retryAfterSeconds - 1);
    RefusalTells(s, rules, maxBuckets, k, nowMs);
    CallRefills(s, rules, maxBuckets, k, nowMs);
    WaitIsNeeded(rules, k, Credit(s, rules, k, nowMs), nowMs);
    GrantsAreBounded(t, rules, maxBuckets, calls, k, nowMs, toMs);
    CreditIsNotNegative(After(t, rules, maxBuckets, calls), rules, maxBuckets, k, toMs);
  }

  lemma CreditIsNotNegative(s: Limiter, rules: Rules, maxBuckets: int, k: Key, nowMs: int)
    requires Valid(s) && Sound(rules)
    ensures Credit(s, rules, k, nowMs) >= 0.0
  {
    if k in s.buckets { ProductNonNegative(MaxReal(0.0, Seconds(s.buckets[k].lastRefillMs, nowMs)), rules.For(k.operation).refillPerSecond); }
  }

  /** So many calls of one key at one instant. */
  function Volley(k: Key, n: nat, nowMs: int): seq<Call> { seq(n, _ => Call(k, nowMs)) }

  lemma VolleyStep(s: Limiter, rules: Rules, maxBuckets: int, k: Key, n: nat, nowMs: int)
    requires Valid(s) && Sound(rules) && n > 0
    ensures var ((t, d), calls, rest) := (Checked(s, rules, maxBuckets, k, nowMs), Volley(k, n, nowMs), Volley(k, n - 1, nowMs));
            && Grants(s, rules, maxBuckets, calls, k) == (if d.allowed then 1 else 0) + Grants(t, rules, maxBuckets, rest, k)
            && After(s, rules, maxBuckets, calls) == After(t, rules, maxBuckets, rest)
  {
    hide Checked, Valid, Sound;
    assert Volley(k, n, nowMs)[1..] == Volley(k, n - 1, nowMs);
    assert Volley(k, n, nowMs)[0] == Call(k, nowMs);
  }

  lemma NoVolley(s: Limiter, rules: Rules, maxBuckets: int, k: Key, nowMs: int)
    requires Valid(s) && Sound(rules)
    ensures Grants(s, rules, maxBuckets, Volley(k, 0, nowMs), k) == 0 && After(s, rules, maxBuckets, Volley(k, 0, nowMs)) == s
  {
    assert Volley(k, 0, nowMs) == [];
  }

  lemma {:induction false} VolleyIsGranted(s: Limiter, rules: Rules, maxBuckets: int, k: Key, n: nat, nowMs: int, credit: nat)
    requires Valid(s) && Sound(rules) && Credit(s, rules, k, nowMs) == credit as real
    ensures Grants(s, rules, maxBuckets, Volley(k, n, nowMs), k) == if n < credit then n else credit
    ensures n >= credit ==> Credit(After(s, rules, maxBuckets, Volley(k, n, nowMs)), rules, k, nowMs) == 0.0
    decreases n
  {
    hide Credit, Checked, Valid, Sound, Grants, After, Volley;
    if n == 0 {
      NoVolley(s, rules, maxBuckets, k, nowMs);
    } else {
      OwnCallSpends(s, rules, maxBuckets, k, nowMs);
      VolleyStep(s, rules, maxBuckets, k, n, nowMs);
      VolleyIsGranted(Checked(s, rules, maxBuckets, k, nowMs).0, rules, maxBuckets, k, n - 1, nowMs, if credit > 0 then credit - 1 else 0);
    }
  }

  /** What a credential may do at once by default: six claims, twenty heartbeats, ten results; then it waits one second, one, and two. */
  lemma DefaultBursts(k: Key, n: nat, nowMs: int, maxBuckets: int)
    ensures var (calls, burst) := (Volley(k, n, nowMs), match k.operation { case Claim => 6 case Heartbeat => 20 case ResultOp => 10 });
            var start := Limiter(map[], []);
            && Valid(start) && Sound(DEFAULT_RULES)
            && Grants(start, DEFAULT_RULES, maxBuckets, calls, k) == (if n < burst then n else burst)
            && (n >= burst ==>
                  Checked(After(start, DEFAULT_RULES, maxBuckets, calls), DEFAULT_RULES, maxBuckets, k, nowMs).1
                  == Decision(false, if k.operation.ResultOp? then 2 else 1))
  {
    var (start, burst) := (Limiter(map[], []), match k.operation { case Claim => 6 case Heartbeat => 20 case ResultOp => 10 });
    assert Members([]) == {};
    VolleyIsGranted(start, DEFAULT_RULES, maxBuckets, k, n, nowMs, burst);
    if n >= burst { EmptyIsRefused(After(start, DEFAULT_RULES, maxBuckets, Volley(k, n, nowMs)), maxBuckets, k, nowMs); }
  }

  lemma EmptyIsRefused(s: Limiter, maxBuckets: int, k: Key, nowMs: int)
    requires Valid(s) && Credit(s, DEFAULT_RULES, k, nowMs) == 0.0
    ensures Sound(DEFAULT_RULES)
    ensures Checked(s, DEFAULT_RULES, maxBuckets, k, nowMs).1 == Decision(false, if k.operation.ResultOp? then 2 else 1)
  {
    OpeningHasCredit(s, DEFAULT_RULES, maxBuckets, k, nowMs);
    match k.operation { case Claim => case Heartbeat => case ResultOp => }
  }

  /** A limiter whose one bucket was emptied at second `t`. */
  function Emptied(k: Key, atMs: int): (s: Limiter)
    ensures Valid(s)
  {
    assert Members([k]) == {k};
    Limiter(map[k := Bucket(0.0, atMs)], [k])
  }

  lemma EmptiedCall(k: Key, atMs: int, nowMs: int)
    requires k.operation == Claim
    ensures nowMs <= atMs ==> Checked(Emptied(k, atMs), DEFAULT_RULES, 10, k, nowMs) == (Emptied(k, nowMs), Decision(false, 1))
    ensures atMs + 10000 <= nowMs ==> Checked(Emptied(k, atMs), DEFAULT_RULES, 10, k, nowMs).1.allowed
  {
    var s := Emptied(k, atMs);
    CheckedBucket(s, DEFAULT_RULES, 10, k, nowMs);
    if nowMs <= atMs {
      assert Level(DEFAULT_RULES.claim, Bucket(0.0, atMs), nowMs) == 0.0;
      assert s.buckets[k := Bucket(0.0, nowMs)] == map[k := Bucket(0.0, nowMs)];
    }
  }

  /** The bucket a refused call leaves. */
  function Refused(rule: Rule, b: Bucket, nowMs: int): Bucket { Bucket(Level(rule, b, nowMs), nowMs) }

  lemma RefusedInOrder(rule: Rule, b: Bucket, nowMs: int, laterMs: int)
    requires rule.refillPerSecond > 0.0 && b.lastRefillMs <= nowMs <= laterMs
    ensures Level(rule, Refused(rule, b, nowMs), laterMs) == Level(rule, b, laterMs)
  {
    LevelFlows(rule, b, nowMs, laterMs);
    LevelAtOnce(rule, Level(rule, b, nowMs), nowMs);
    LevelFlows(rule, Refused(rule, b, nowMs), nowMs, laterMs);
  }

  lemma FullStaysFull(rule: Rule, b: Bucket, nowMs: int)
    requires rule.refillPerSecond > 0.0 && b.tokens >= rule.burst
    ensures Level(rule, b, nowMs) == rule.burst
  {
    ProductNonNegative(MaxReal(0.0, Seconds(b.lastRefillMs, nowMs)), rule.refillPerSecond);
  }

  /** What a refused call with an earlier time gives away: a millisecond later the bucket has filled, although it should not have. */
  lemma RefusedOutOfOrder(rule: Rule, b: Bucket, nowMs: int)
    requires rule.refillPerSecond > 0.0 && nowMs < b.lastRefillMs && b.tokens < rule.burst
    ensures Level(rule, Refused(rule, b, nowMs), nowMs + 1) > Level(rule, b, nowMs + 1)
  {
    assert MaxReal(0.0, Seconds(b.lastRefillMs, nowMs)) == MaxReal(0.0, Seconds(b.lastRefillMs, nowMs + 1)) == 0.0;
    assert Seconds(nowMs, nowMs + 1) == 0.001;
  }

  /** A refused call leaves every later level of its bucket as it was exactly when its clock had not gone back or the bucket was full. */
  lemma RefusalInvisibleIff(rule: Rule, b: Bucket, nowMs: int)
    requires rule.refillPerSecond > 0.0
    ensures (forall laterMs | laterMs >= nowMs :: Level(rule, Refused(rule, b, nowMs), laterMs) == Level(rule, b, laterMs))
            <==> b.lastRefillMs <= nowMs || b.tokens >= rule.burst
  {
    if b.lastRefillMs <= nowMs {
      forall laterMs | laterMs >= nowMs ensures Level(rule, Refused(rule, b, nowMs), laterMs) == Level(rule, b, laterMs) {
        RefusedInOrder(rule, b, nowMs, laterMs);
      }
    } else if b.tokens >= rule.burst {
      FullStaysFull(rule, b, nowMs);
      forall laterMs | laterMs >= nowMs ensures Level(rule, Refused(rule, b, nowMs), laterMs) == Level(rule, b, laterMs) {
        FullStaysFull(rule, b, laterMs);
        FullStaysFull(rule, Refused(rule, b, nowMs), laterMs);
      }
    } else {
      RefusedOutOfOrder(rule, b, nowMs);
    }
  }

  /** The refinement needs the clock: one call with an earlier time makes the same seconds refill the bucket twice. */
  lemma ClockGoingBackGrants(k: Key)
    requires k.operation == Claim
    ensures var back := Checked(Emptied(k, 10000), DEFAULT_RULES, 10, k, 0);
            && !back.1.allowed
            && !Checked(Emptied(k, 10000), DEFAULT_RULES, 10, k, 10000).1.allowed
            && Checked(back.0, DEFAULT_RULES, 10, k, 10000).1.allowed
  {
    EmptiedCall(k, 10000, 0);
    EmptiedCall(k, 10000, 10000);
    EmptiedCall(k, 0, 10000);
  }

  // ---- The class -------------------------------------------------------------------------------------

  /** `RateLimiter`, with the map's insertion order as a field of its own. */
  class TokenBuckets {
    const rules: Rules
    const maxBuckets: int
    var buckets: map<Key, Bucket>
    var order: seq<Key>

    ghost function Value(): Limiter
      reads this
    {
      Limiter(buckets, order)
    }

    constructor (rules: Rules, maxBuckets: int)
      ensures this.rules == rules && this.maxBuckets == maxBuckets && Value() == Limiter(map[], [])
    {
      this.rules, this.maxBuckets, buckets, order := rules, maxBuckets, map[], [];
    }

    method DropOldest()
      requires Valid(Value())
      modifies this
      ensures Value() == Evicted(old(Value()), maxBuckets)
    {
      if |buckets| >= maxBuckets && order != [] {
        buckets := buckets - {order[0]};
        order := order[1..];
      }
    }

    /** The bucket of `k`, created full if there is none. */
    method Open(k: Key, nowMs: int)
      requires Valid(Value()) && Sound(rules)
      modifies this
      ensures Value() == Opened(old(Value()), k, rules.For(k.operation), nowMs, maxBuckets)
    {
      if k !in buckets {
        DropOldest();
        buckets := buckets[k := Bucket(rules.For(k.operation).burst, nowMs)];
        order := order + [k];
      }
    }

    /** Refill on read. */
    method Refill(k: Key, nowMs: int)
      requires k in buckets
      modifies `buckets
      ensures buckets == old(buckets)[k := Bucket(Level(rules.For(k.operation), old(buckets[k]), nowMs), nowMs)]
    {
      var rule := rules.For(k.operation);
      var elapsed := MaxReal(0.0, Seconds(buckets[k].lastRefillMs, nowMs));
      buckets := buckets[k := buckets[k].(tokens := MinReal(rule.burst, buckets[k].tokens + elapsed * rule.refillPerSecond))];
      buckets := buckets[k := buckets[k].(lastRefillMs := nowMs)];
    }

    method Check(k: Key, nowMs: int) returns (d: Decision)
      requires Valid(Value()) && Sound(rules)
      modifies this
      ensures (Value(), d) == Checked(old(Value()), rules, maxBuckets, k, nowMs)
    {
      Open(k, nowMs);
      Refill(k, nowMs);
      if buckets[k].tokens < 1.0 { return Decision(false, RetryAfter(rules.For(k.operation), buckets[k].tokens)); }
      ghost var spent := Bucket(buckets[k].tokens - 1.0, nowMs);
      assert buckets[k := spent] == Opened(old(Value()), k, rules.For(k.operation), nowMs, maxBuckets).buckets[k := spent];
      buckets := buckets[k := buckets[k].(tokens := buckets[k].tokens - 1.0)];
      return Decision(true, 0);
    }
  }
}
