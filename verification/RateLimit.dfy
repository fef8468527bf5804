/** The per-key rate limiter with lazy eviction (internal/edge/ratelimit.go),
    against an unbounded table of token buckets that forgets nothing. */
module RateLimit {
  import opened Options

  /** Times and durations are whole nanoseconds; rate is in tokens per nanosecond. */
  datatype Config = Config(rate: real, burst: nat, idleTTL: int)

  // ----- The library's token bucket -----

  datatype Bucket = Bucket(tokens: real, last: int)

  function NewBucket(c: Config, t: int): Bucket { Bucket(c.burst as real, t) }

  /** What accrues in d nanoseconds: rate * d, and nothing if the clock stepped back. */
  function Refill(rate: real, d: int): real
    decreases if d < 0 then 0 else d
  {
    if d <= 0 then 0.0 else Refill(rate, d - 1) + rate
  }

  /** The tokens in the bucket at time t: refilled, capped at burst. */
  function Level(c: Config, b: Bucket, t: int): real {
    var tokens := b.tokens + Refill(c.rate, t - b.last);
    if tokens > c.burst as real then c.burst as real else tokens
  }

  /** A refused request leaves the bucket as it was. */
  function Take(c: Config, b: Bucket, t: int): (Bucket, bool) {
    if Level(c, b, t) >= 1.0 then (Bucket(Level(c, b, t) - 1.0, t), true) else (b, false)
  }

  lemma {:induction false} RefillIsProduct(rate: real, d: nat)
    ensures Refill(rate, d) == rate * d as real
  {
    if d > 0 {
      RefillIsProduct(rate, d - 1);
      var x := (d - 1) as real;
      assert d as real == x + 1.0;
      OneMore(rate, x);
      assert Refill(rate, d) == rate * x + rate;
      assert rate * d as real == rate * (x + 1.0);
    }
  }

  lemma OneMore(a: real, x: real)
    ensures a * (x + 1.0) == a * x + a
  {
  }

  lemma {:induction false} RefillGrows(rate: real, d: int, e: int)
    requires rate >= 0.0 && d <= e
    ensures 0.0 <= Refill(rate, d) <= Refill(rate, e)
    decreases e - d, if d < 0 then 0 else d
  {
    if d < e {
      RefillGrows(rate, d, e - 1);
    } else if d > 0 {
      RefillGrows(rate, d - 1, d - 1);
    }
  }

  lemma {:induction false} RefillAdds(rate: real, d: nat, e: nat)
    ensures Refill(rate, d + e) == Refill(rate, d) + Refill(rate, e)
  {
    if e > 0 { RefillAdds(rate, d, e - 1); }
  }

  // ----- The limiter -----

  datatype Entry = Entry(bucket: Bucket, lastSeen: int)

  /** lastSweep is None before the first sweep: the zero time is always long past. */
  datatype Limiter = Limiter(entries: map<string, Entry>, lastSweep: Option<int>)

  const EMPTY := Limiter(map[], None)

  function Kept(c: Config, entries: map<string, Entry>, now: int): map<string, Entry> {
    map k | k in entries && now - entries[k].lastSeen <= c.idleTTL :: entries[k]
  }

  function Swept(c: Config, l: Limiter, now: int): Limiter {
    if l.lastSweep.Some? && now - l.lastSweep.value < c.idleTTL then l
    else Limiter(Kept(c, l.entries, now), Some(now))
  }

  /** One call: now is the limiter's clock read, then_ the bucket's own, a little later. */
  datatype Call = Call(key: string, now: int, then_: int)

  function Allowed(c: Config, l: Limiter, call: Call): (Limiter, bool) {
    var s := Swept(c, l, call.now);
    var b := if call.key in s.entries then s.entries[call.key].bucket else NewBucket(c, call.then_);
    var (b', ok) := Take(c, b, call.then_);
    (s.(entries := s.entries[call.key := Entry(b', call.now)]), ok)
  }

  class IPLimiter {
    const config: Config
    var entries: map<string, Entry>
    var lastSweep: Option<int>

    function State(): Limiter
      reads this
    {
      Limiter(entries, lastSweep)
    }

    constructor (rate: real, burst: nat, idleTTL: int)
      ensures config == Config(rate, burst, idleTTL) && State() == EMPTY
    {
      config := Config(rate, burst, idleTTL);
      entries, lastSweep := map[], None;
    }

    method SweepLocked(now: int)
      modifies this
      ensures State() == Swept(config, old(State()), now)
    {
      if lastSweep.Some? && now - lastSweep.value < config.idleTTL { return; }
      lastSweep := Some(now);
      ghost var before := entries;
      var todo := entries.Keys;
      while todo != {}
        invariant todo <= before.Keys && lastSweep == Some(now)
        invariant forall k :: k in entries <==>
          k in before && (k in todo || now - before[k].lastSeen <= config.idleTTL)
        invariant forall k :: k in entries ==> entries[k] == before[k]
        decreases |todo|
      {
        var k :| k in todo;
        todo := todo - {k};
        if now - entries[k].lastSeen > config.idleTTL {
          entries := entries - {k};
        }
      }
      assert entries == Kept(config, before, now);
    }

    method Allow(key: string, now: int, then_: int) returns (ok: bool)
      modifies this
      ensures (State(), ok) == Allowed(config, old(State()), Call(key, now, then_))
    {
      SweepLocked(now);
      ghost var swept := entries;
      if key !in entries {
        entries := entries[key := Entry(NewBucket(config, then_), now)];
      }
      var e := entries[key];
      var (bucket, allowed) := Take(config, e.bucket, then_);
      entries := entries[key := Entry(bucket, now)];
      assert entries == swept[key := Entry(bucket, now)];
      return allowed;
    }
  }

  // ----- Runs, and the reference -----

  function Answers(c: Config, l: Limiter, calls: seq<Call>): seq<bool>
    decreases |calls|
  {
    if calls == [] then [] else
      var (l', ok) := Allowed(c, l, calls[0]);
      [ok] + Answers(c, l', calls[1..])
  }

  type Buckets = map<string, Bucket>

  function BucketOf(c: Config, m: Buckets, key: string, t: int): Bucket {
    if key in m then m[key] else NewBucket(c, t)
  }

  function RefStep(c: Config, m: Buckets, call: Call): (Buckets, bool) {
    var (b, ok) := Take(c, BucketOf(c, m, call.key, call.then_), call.then_);
    (m[call.key := b], ok)
  }

  function RefRun(c: Config, m: Buckets, calls: seq<Call>): Buckets
    decreases |calls|
  {
    if calls == [] then m else RefRun(c, RefStep(c, m, calls[0]).0, calls[1..])
  }

  function RefAnswers(c: Config, m: Buckets, calls: seq<Call>): seq<bool>
    decreases |calls|
  {
    if calls == [] then [] else
      var (m', ok) := RefStep(c, m, calls[0]);
      [ok] + RefAnswers(c, m', calls[1..])
  }

  /** The clock is monotone from t on, and the two reads of one call are at most gap apart. */
  predicate Timely(t: int, calls: seq<Call>, gap: nat)
    decreases |calls|
  {
    calls == [] || (t <= calls[0].now <= calls[0].then_ <= calls[0].now + gap && Timely(calls[0].then_, calls[1..], gap))
  }

  // ----- When keys are forgotten -----

  /** One call, key by key: who is forgotten, and that nothing else is touched. */
  lemma CallForgets(c: Config, l: Limiter, call: Call, k: string)
    ensures var l' := Allowed(c, l, call).0;
      var due := l.lastSweep.None? || call.now - l.lastSweep.value >= c.idleTTL;
      && l'.lastSweep == (if due then Some(call.now) else l.lastSweep)
      && call.key in l'.entries && l'.entries[call.key].lastSeen == call.now
      && (k != call.key ==>
            && (k in l'.entries <==> k in l.entries && !(due && call.now - l.entries[k].lastSeen > c.idleTTL))
            && (k in l'.entries ==> l'.entries[k] == l.entries[k]))
  {
  }

  function After(c: Config, l: Limiter, calls: seq<Call>): Limiter
    decreases |calls|
  {
    if calls == [] then l else After(c, Allowed(c, l, calls[0]).0, calls[1..])
  }

  /** When the sweeps of a run were made. */
  function SweepTimes(c: Config, l: Limiter, calls: seq<Call>): seq<int>
    decreases |calls|
  {
    if calls == [] then [] else
      var l' := Allowed(c, l, calls[0]).0;
      (if l'.lastSweep != l.lastSweep then [calls[0].now] else []) + SweepTimes(c, l', calls[1..])
  }

  /** at lists times no two of which, nor any and last, are less than ttl apart. */
  predicate Apart(last: Option<int>, at: seq<int>, ttl: int) {
    && (forall i, j :: 0 <= i < j < |at| ==> at[j] - at[i] >= ttl)
    && (last.Some? ==> forall i :: 0 <= i < |at| ==> at[i] - last.value >= ttl)
  }

  lemma ApartJoins(last: Option<int>, first: int, rest: seq<int>, ttl: int)
    requires ttl >= 0 && Apart(Some(first), rest, ttl) && (last.Some? ==> first - last.value >= ttl)
    ensures Apart(last, [first] + rest, ttl)
  {
    var at := [first] + rest;
    forall j | 0 < j < |at| ensures at[j] - first >= ttl { assert at[j] == rest[j - 1]; }
    forall i, j | 0 <= i < j < |at| ensures at[j] - at[i] >= ttl {
      if i > 0 { assert rest[j - 1] - rest[i - 1] >= ttl; }
    }
  }

  /** Whatever the clock does, no two sweeps are less than idleTTL apart. */
  lemma {:induction false} SweepsAreApart(c: Config, l: Limiter, calls: seq<Call>)
    requires c.idleTTL >= 0
    ensures Apart(l.lastSweep, SweepTimes(c, l, calls), c.idleTTL)
    decreases |calls|
  {
    if calls != [] {
      var l' := Allowed(c, l, calls[0]).0;
      CallForgets(c, l, calls[0], "");
      SweepsAreApart(c, l', calls[1..]);
      if l'.lastSweep != l.lastSweep {
        ApartJoins(l.lastSweep, calls[0].now, SweepTimes(c, l', calls[1..]), c.idleTTL);
      }
    }
  }

  /** At time t the last sweep lies less than idleTTL back, or has just been made, and it
      left no key that had been idle for longer. */
  ghost predicate RecentOnly(c: Config, l: Limiter, t: int) {
    && l.lastSweep.Some? && l.lastSweep.value <= t && (t - l.lastSweep.value < c.idleTTL || t == l.lastSweep.value)
    && forall k :: k in l.entries ==> l.lastSweep.value - l.entries[k].lastSeen <= c.idleTTL
  }

  lemma CallKeepsRecent(c: Config, l: Limiter, call: Call, t: int)
    requires c.idleTTL >= 0 && t <= call.now && (l == EMPTY || RecentOnly(c, l, t))
    ensures RecentOnly(c, Allowed(c, l, call).0, call.now)
  {
    var l' := Allowed(c, l, call).0;
    CallForgets(c, l, call, "");
    forall k | k in l'.entries ensures l'.lastSweep.value - l'.entries[k].lastSeen <= c.idleTTL {
      CallForgets(c, l, call, k);
    }
  }

  lemma {:induction false} CallsKeepRecent(c: Config, l: Limiter, calls: seq<Call>, t: int, gap: nat)
    requires c.idleTTL >= 0 && Timely(t, calls, gap) && calls != [] && (l == EMPTY || RecentOnly(c, l, t))
    ensures RecentOnly(c, After(c, l, calls), calls[|calls| - 1].now)
    decreases |calls|
  {
    var l' := Allowed(c, l, calls[0]).0;
    CallKeepsRecent(c, l, calls[0], t);
    if |calls| > 1 {
      CallsKeepRecent(c, l', calls[1..], calls[0].now, gap);
    }
  }

  /** What bounds the memory: a key that is still held was seen within the last two idleTTLs. */
  lemma OnlyRecentKeysAreHeld(c: Config, calls: seq<Call>, t: int, gap: nat, k: string)
    requires c.idleTTL >= 0 && Timely(t, calls, gap) && calls != []
    ensures var l := After(c, EMPTY, calls);
      k in l.entries ==> calls[|calls| - 1].now - l.entries[k].lastSeen <= 2 * c.idleTTL
  {
    CallsKeepRecent(c, EMPTY, calls, t, gap);
  }

  // ----- Forgetting is unobservable -----

  predicate FullBy(c: Config, b: Bucket, t: int) {
    b.tokens + Refill(c.rate, t - b.last) >= c.burst as real
  }

  predicate Sound(c: Config, b: Bucket, t: int) {
    0.0 <= b.tokens <= c.burst as real && b.last <= t
  }

  predicate Alike(c: Config, a: Bucket, b: Bucket, t: int) {
    a == b || (FullBy(c, a, t) && FullBy(c, b, t))
  }

  lemma FullStays(c: Config, b: Bucket, t: int, u: int)
    requires c.rate >= 0.0 && t <= u && FullBy(c, b, t)
    ensures FullBy(c, b, u)
  {
    RefillGrows(c.rate, t - b.last, u - b.last);
  }

  function Later(a: int, b: int): int { if a < b then b else a }

  /** The first time at which a key last seen at lastSeen can be forgotten and its bucket asked. */
  function Evictable(c: Config, b: Bucket, lastSeen: int): int {
    Later(b.last, lastSeen + c.idleTTL + 1)
  }

  /** What a key's entry and its reference bucket have in common at time t. */
  ghost predicate KeyMatches(c: Config, l: Limiter, m: Buckets, t: int, k: string) {
    && (k in m ==> Sound(c, m[k], t))
    && (k in l.entries ==>
          && k in m && Alike(c, l.entries[k].bucket, m[k], t)
          && l.entries[k].lastSeen <= t && FullBy(c, m[k], Evictable(c, m[k], l.entries[k].lastSeen)))
    && (k in m && k !in l.entries ==> FullBy(c, m[k], t))
  }

  ghost predicate Matches(c: Config, l: Limiter, m: Buckets, t: int) {
    forall k :: KeyMatches(c, l, m, t, k)
  }

  /** An entry is evicted no sooner than a nanosecond past idleTTL after its last call, whose
      bucket was asked up to gap later. By then every bucket must be full again: one that was
      full and gave a token, and one that was down to what accrued in the gap, or to the one
      token it gave. */
  predicate RefillsBeforeEviction(c: Config, gap: nat) {
    && c.rate >= 0.0
    && (c.burst == 0
        || (Refill(c.rate, c.idleTTL + 1 - gap) >= 1.0
            && Refill(c.rate, c.idleTTL + 1) - AtMostOne(Refill(c.rate, gap)) >= c.burst as real))
  }

  function AtMostOne(x: real): real { if x > 1.0 then 1.0 else x }

  lemma TimePasses(c: Config, l: Limiter, m: Buckets, t: int, u: int, k: string)
    requires c.rate >= 0.0 && t <= u && KeyMatches(c, l, m, t, k)
    ensures KeyMatches(c, l, m, u, k)
  {
    if k in m && FullBy(c, m[k], t) { FullStays(c, m[k], t, u); }
    if k in l.entries && FullBy(c, l.entries[k].bucket, t) { FullStays(c, l.entries[k].bucket, t, u); }
  }

  lemma SweepKeepsMatch(c: Config, l: Limiter, m: Buckets, now: int, k: string)
    requires c.rate >= 0.0 && KeyMatches(c, l, m, now, k)
    ensures KeyMatches(c, Swept(c, l, now), m, now, k)
  {
    if k in l.entries && now - l.entries[k].lastSeen > c.idleTTL {
      FullStays(c, m[k], Evictable(c, m[k], l.entries[k].lastSeen), now);
    }
  }

  /** A bucket that gives a token is full again before its key can be forgotten. */
  lemma GrantRefills(c: Config, b: Bucket, now: int, then_: int, gap: nat)
    requires RefillsBeforeEviction(c, gap) && now <= then_ <= now + gap
    requires b == NewBucket(c, then_) || Sound(c, b, now)
    requires Level(c, b, then_) >= 1.0
    ensures var b' := Bucket(Level(c, b, then_) - 1.0, then_);
      FullBy(c, b', Evictable(c, b', now))
  {
    var d := then_ - now;
    RefillGrows(c.rate, 0, then_ - b.last);
    var e := c.idleTTL + 1 - d;
    RefillGrows(c.rate, c.idleTTL + 1 - gap, e);
    RefillGrows(c.rate, d, gap);
    RefillAdds(c.rate, d, e);
    if b.last <= now { RefillGrows(c.rate, d, then_ - b.last); }
  }

  lemma TakeKeepsSound(c: Config, b: Bucket, t: int)
    requires c.rate >= 0.0 && Sound(c, b, t)
    ensures Sound(c, Take(c, b, t).0, t)
    ensures Take(c, b, t).0.last == if Take(c, b, t).1 then t else b.last
  {
    RefillGrows(c.rate, t - b.last, t - b.last);
  }

  lemma TakeAlike(c: Config, a: Bucket, b: Bucket, t: int)
    requires Alike(c, a, b, t)
    ensures Take(c, a, t).1 == Take(c, b, t).1 && Alike(c, Take(c, a, t).0, Take(c, b, t).0, t)
  {
  }

  lemma CallKeepsMatch(c: Config, l: Limiter, m: Buckets, t: int, gap: nat, call: Call)
    requires RefillsBeforeEviction(c, gap) && Matches(c, l, m, t) && Timely(t, [call], gap)
    ensures var (l', ok) := Allowed(c, l, call);
      var (m', ok') := RefStep(c, m, call);
      ok == ok' && Matches(c, l', m', call.then_)
  {
    var s := Swept(c, l, call.now);
    forall k ensures KeyMatches(c, s, m, call.then_, k) && KeyMatches(c, s, m, call.now, k) {
      TimePasses(c, l, m, t, call.now, k);
      SweepKeepsMatch(c, l, m, call.now, k);
      TimePasses(c, s, m, call.now, call.then_, k);
    }
    assert KeyMatches(c, s, m, call.then_, call.key) && KeyMatches(c, s, m, call.now, call.key);
    CalledKeyMatches(c, s, m, gap, call);
    var l', m' := Allowed(c, l, call).0, RefStep(c, m, call).0;
    forall k ensures KeyMatches(c, l', m', call.then_, k) {
      assert KeyMatches(c, s, m, call.then_, k);
    }
  }

  /** The key that is called, once the sweep is done. */
  lemma CalledKeyMatches(c: Config, s: Limiter, m: Buckets, gap: nat, call: Call)
    requires RefillsBeforeEviction(c, gap) && call.now <= call.then_ <= call.now + gap
    requires KeyMatches(c, s, m, call.now, call.key) && KeyMatches(c, s, m, call.then_, call.key)
    ensures var a := if call.key in s.entries then s.entries[call.key].bucket else NewBucket(c, call.then_);
      var (a', ok) := Take(c, a, call.then_);
      var (m', ok') := RefStep(c, m, call);
      ok == ok' && KeyMatches(c, s.(entries := s.entries[call.key := Entry(a', call.now)]), m', call.then_, call.key)
  {
    var a := if call.key in s.entries then s.entries[call.key].bucket else NewBucket(c, call.then_);
    var b := BucketOf(c, m, call.key, call.then_);
    TakeKeepsSound(c, b, call.then_);
    TakeAlike(c, a, b, call.then_);
    if Take(c, b, call.then_).1 {
      GrantRefills(c, b, call.now, call.then_, gap);
    } else {
      RefusalRefills(c, s, m, call);
    }
  }

  /** A bucket that is refused a token is left as it was, and full no later. */
  lemma RefusalRefills(c: Config, s: Limiter, m: Buckets, call: Call)
    requires c.rate >= 0.0 && call.now <= call.then_ && KeyMatches(c, s, m, call.now, call.key)
    requires var b := BucketOf(c, m, call.key, call.then_); Level(c, b, call.then_) < 1.0
    ensures var b := BucketOf(c, m, call.key, call.then_); FullBy(c, b, Evictable(c, b, call.now))
  {
    var b := BucketOf(c, m, call.key, call.then_);
    var u := Evictable(c, b, call.now);
    RefillGrows(c.rate, 0, u - b.last);
    if call.key in s.entries {
      FullStays(c, b, Evictable(c, b, s.entries[call.key].lastSeen), u);
    } else if call.key in m {
      FullStays(c, b, call.now, call.then_);
    }
  }

  lemma {:induction false} AnswersAgree(c: Config, l: Limiter, m: Buckets, t: int, gap: nat, calls: seq<Call>)
    requires RefillsBeforeEviction(c, gap) && Matches(c, l, m, t) && Timely(t, calls, gap)
    ensures Answers(c, l, calls) == RefAnswers(c, m, calls)
    decreases |calls|
  {
    if calls != [] {
      CallKeepsMatch(c, l, m, t, gap, calls[0]);
      AnswersAgree(c, Allowed(c, l, calls[0]).0, RefStep(c, m, calls[0]).0, calls[0].then_, gap, calls[1..]);
    }
  }

  /** On every sequence of calls, sweeping and forgetting give the answers of never forgetting. */
  lemma ForgettingIsUnobservable(c: Config, t: int, gap: nat, calls: seq<Call>)
    requires RefillsBeforeEviction(c, gap) && Timely(t, calls, gap)
    ensures Answers(c, EMPTY, calls) == RefAnswers(c, map[], calls)
  {
    AnswersAgree(c, EMPTY, map[], t, gap, calls);
  }

  // ----- How many calls a key gets -----

  /** How many of a key's calls were allowed, as a number of tokens. */
  function Granted(calls: seq<Call>, answers: seq<bool>, key: string): real
    requires |calls| == |answers|
  {
    if calls == [] then 0.0
    else (if calls[0].key == key && answers[0] then 1.0 else 0.0) + Granted(calls[1..], answers[1..], key)
  }

  lemma {:induction false} RefAnswersLength(c: Config, m: Buckets, calls: seq<Call>)
    ensures |RefAnswers(c, m, calls)| == |calls|
    decreases |calls|
  {
    if calls != [] { RefAnswersLength(c, RefStep(c, m, calls[0]).0, calls[1..]); }
  }

  function End(t: int, calls: seq<Call>): int {
    if calls == [] then t else calls[|calls| - 1].then_
  }

  lemma LevelGrows(c: Config, b: Bucket, t: int, u: int)
    requires c.rate >= 0.0 && b.last <= t <= u
    ensures Level(c, b, t) <= Level(c, b, u) <= Level(c, b, t) + Refill(c.rate, u - t)
  {
    RefillAdds(c.rate, t - b.last, u - t);
    RefillGrows(c.rate, u - t, u - t);
  }

  ghost predicate AllSound(c: Config, m: Buckets, t: int) {
    forall k :: k in m ==> Sound(c, m[k], t)
  }

  /** The buckets' clock does not run backwards from t on. */
  predicate Ordered(t: int, calls: seq<Call>)
    decreases |calls|
  {
    calls == [] || (t <= calls[0].then_ && Ordered(calls[0].then_, calls[1..]))
  }

  function LevelOf(c: Config, m: Buckets, key: string, t: int): real {
    if key in m then Level(c, m[key], t) else c.burst as real
  }

  /** A grant is paid for by the token it takes out of its key's bucket. */
  lemma StepPaysForGrant(c: Config, m: Buckets, call: Call, key: string, t: int)
    requires c.rate >= 0.0 && AllSound(c, m, t) && t <= call.then_
    ensures var (m', ok) := RefStep(c, m, call);
      && AllSound(c, m', call.then_)
      && (if ok && call.key == key then 1.0 else 0.0) + LevelOf(c, m', key, call.then_)
           <= LevelOf(c, m, key, t) + Refill(c.rate, call.then_ - t)
  {
    TakeKeepsSound(c, BucketOf(c, m, call.key, call.then_), call.then_);
    RefillGrows(c.rate, 0, call.then_ - t);
    if key in m { LevelGrows(c, m[key], t, call.then_); }
  }

  lemma {:induction false} GrantsArePaidFor(c: Config, m: Buckets, calls: seq<Call>, key: string, t: int)
    requires c.rate >= 0.0 && AllSound(c, m, t) && Ordered(t, calls)
    ensures |RefAnswers(c, m, calls)| == |calls| && t <= End(t, calls)
    ensures Granted(calls, RefAnswers(c, m, calls), key) <= LevelOf(c, m, key, t) + Refill(c.rate, End(t, calls) - t)
    decreases |calls|
  {
    if calls == [] {
      LevelIsNatural(c, m, key, t);
    } else {
      var (m', ok) := RefStep(c, m, calls[0]);
      var u, rest := calls[0].then_, calls[1..];
      StepPaysForGrant(c, m, calls[0], key, t);
      GrantsArePaidFor(c, m', rest, key, u);
      assert End(u, rest) == End(t, calls);
      RefillAdds(c.rate, u - t, End(u, rest) - u);
      assert RefAnswers(c, m, calls)[1..] == RefAnswers(c, m', rest);
    }
  }

  lemma LevelIsNatural(c: Config, m: Buckets, key: string, t: int)
    requires c.rate >= 0.0 && AllSound(c, m, t)
    ensures 0.0 <= LevelOf(c, m, key, t)
  {
    if key in m { RefillGrows(c.rate, 0, t - m[key].last); }
  }

  lemma {:induction false} RefSplit(c: Config, m: Buckets, before: seq<Call>, window: seq<Call>)
    ensures RefAnswers(c, m, before + window) == RefAnswers(c, m, before) + RefAnswers(c, RefRun(c, m, before), window)
    decreases |before|
  {
    if before == [] {
      assert before + window == window;
    } else {
      assert (before + window)[1..] == before[1..] + window;
      RefSplit(c, RefStep(c, m, before[0]).0, before[1..], window);
    }
  }

  lemma {:induction false} RunKeepsSound(c: Config, m: Buckets, t: int, before: seq<Call>, window: seq<Call>)
    requires c.rate >= 0.0 && AllSound(c, m, t) && Ordered(t, before + window)
    ensures AllSound(c, RefRun(c, m, before), End(t, before)) && Ordered(End(t, before), window)
    decreases |before|
  {
    if before == [] {
      assert before + window == window;
    } else {
      assert (before + window)[1..] == before[1..] + window;
      StepPaysForGrant(c, m, before[0], before[0].key, t);
      RunKeepsSound(c, RefStep(c, m, before[0]).0, before[0].then_, before[1..], window);
    }
  }

  lemma {:induction false} TimelyIsOrdered(t: int, calls: seq<Call>, gap: nat)
    requires Timely(t, calls, gap)
    ensures Ordered(t, calls)
    decreases |calls|
  {
    if calls != [] { TimelyIsOrdered(calls[0].then_, calls[1..], gap); }
  }

  lemma WindowPaidFor(c: Config, m: Buckets, t: int, window: seq<Call>, key: string)
    requires c.rate >= 0.0 && AllSound(c, m, t) && Ordered(t, window) && window != []
    ensures |RefAnswers(c, m, window)| == |window| && window[0].then_ <= window[|window| - 1].then_
    ensures Granted(window, RefAnswers(c, m, window), key)
         <= c.burst as real + Refill(c.rate, window[|window| - 1].then_ - window[0].then_)
  {
    var u := window[0].then_;
    assert AllSound(c, m, u) && Ordered(u, window);
    GrantsArePaidFor(c, m, window, key, u);
  }

  /** In every window of every run, no key is allowed more than burst calls and what
      the rate makes of the window's length, evictions and re-creations included. */
  lemma GrantsAreBounded(c: Config, t: int, gap: nat, before: seq<Call>, window: seq<Call>, key: string)
    requires RefillsBeforeEviction(c, gap) && Timely(t, before + window, gap) && window != []
    ensures var answers := Answers(c, EMPTY, before + window);
      && |answers| == |before| + |window|
      && Granted(window, answers[|before|..], key)
           <= c.burst as real + Refill(c.rate, window[|window| - 1].then_ - window[0].then_)
  {
    ForgettingIsUnobservable(c, t, gap, before + window);
    TimelyIsOrdered(t, before + window, gap);
    RefSplit(c, map[], before, window);
    RunKeepsSound(c, map[], t, before, window);
    RefAnswersLength(c, map[], before);
    WindowPaidFor(c, RefRun(c, map[], before), End(t, before), window, key);
    assert Answers(c, EMPTY, before + window)[|before|..] == RefAnswers(c, RefRun(c, map[], before), window);
  }

  // ----- Keys are independent -----

  function Only(calls: seq<Call>, key: string): seq<Call> {
    if calls == [] then [] else (if calls[0].key == key then [calls[0]] else []) + Only(calls[1..], key)
  }

  function AnswersTo(calls: seq<Call>, answers: seq<bool>, key: string): seq<bool>
    requires |calls| == |answers|
  {
    if calls == [] then []
    else (if calls[0].key == key then [answers[0]] else []) + AnswersTo(calls[1..], answers[1..], key)
  }

  lemma {:induction false} OnlyTimely(s: int, t: int, calls: seq<Call>, gap: nat, key: string)
    requires s <= t && Timely(t, calls, gap)
    ensures Timely(s, Only(calls, key), gap)
    decreases |calls|
  {
    if calls != [] {
      var u := calls[0].then_;
      if calls[0].key == key {
        OnlyTimely(u, u, calls[1..], gap, key);
        assert Only(calls, key)[1..] == Only(calls[1..], key);
      } else {
        OnlyTimely(s, u, calls[1..], gap, key);
        assert Only(calls, key) == Only(calls[1..], key);
      }
    }
  }

  lemma {:induction false} RefKeysIndependent(c: Config, m: Buckets, n: Buckets, calls: seq<Call>, key: string)
    requires key in m <==> key in n
    requires key in m ==> m[key] == n[key]
    ensures |RefAnswers(c, m, calls)| == |calls|
    ensures AnswersTo(calls, RefAnswers(c, m, calls), key) == RefAnswers(c, n, Only(calls, key))
    decreases |calls|
  {
    RefAnswersLength(c, m, calls);
    if calls != [] {
      var (m', ok) := RefStep(c, m, calls[0]);
      assert RefAnswers(c, m, calls)[1..] == RefAnswers(c, m', calls[1..]);
      if calls[0].key == key {
        RefKeysIndependent(c, m', RefStep(c, n, calls[0]).0, calls[1..], key);
        assert Only(calls, key)[1..] == Only(calls[1..], key);
      } else {
        RefKeysIndependent(c, m', n, calls[1..], key);
        assert Only(calls, key) == Only(calls[1..], key);
      }
    }
  }

  /** A key gets the answers it would get if it were alone: no other key's traffic shows. */
  lemma KeysAreIndependent(c: Config, t: int, gap: nat, calls: seq<Call>, key: string)
    requires RefillsBeforeEviction(c, gap) && Timely(t, calls, gap)
    ensures |Answers(c, EMPTY, calls)| == |calls|
    ensures AnswersTo(calls, Answers(c, EMPTY, calls), key) == Answers(c, EMPTY, Only(calls, key))
  {
    ForgettingIsUnobservable(c, t, gap, calls);
    OnlyTimely(t, t, calls, gap, key);
    ForgettingIsUnobservable(c, t, gap, Only(calls, key));
    RefKeysIndependent(c, map[], map[], calls, key);
  }

  // ----- The premise is exact -----

  function Run(c: Config, l: Limiter, calls: seq<Call>): Limiter
    decreases |calls|
  {
    if calls == [] then l else Run(c, Allowed(c, l, calls[0]).0, calls[1..])
  }

  lemma {:induction false} AnswersSplit(c: Config, l: Limiter, a: seq<Call>, b: seq<Call>)
    ensures Answers(c, l, a + b) == Answers(c, l, a) + Answers(c, Run(c, l, a), b)
    decreases |a|
  {
    if a == [] {
      assert a + b == b;
    } else {
      assert (a + b)[1..] == a[1..] + b;
      AnswersSplit(c, Allowed(c, l, a[0]).0, a[1..], b);
    }
  }

  /** n calls at one instant. */
  function Burst(key: string, t: int, n: nat): seq<Call> {
    if n == 0 then [] else [Call(key, t, t)] + Burst(key, t, n - 1)
  }

  function Trues(n: nat): seq<bool> {
    if n == 0 then [] else [true] + Trues(n - 1)
  }

  ghost predicate JustUsed(c: Config, l: Limiter, key: string, t: int, left: nat) {
    && key in l.entries && l.entries[key].lastSeen == t && l.lastSweep == Some(t)
    && l.entries[key].bucket == Bucket(left as real, t) && left <= c.burst
  }

  lemma {:induction false} SpendBurst(c: Config, l: Limiter, key: string, t: int, n: nat)
    requires c.idleTTL >= 0 && JustUsed(c, l, key, t, n)
    ensures Answers(c, l, Burst(key, t, n)) == Trues(n)
    ensures JustUsed(c, Run(c, l, Burst(key, t, n)), key, t, 0)
    decreases n
  {
    if n > 0 {
      var call := Call(key, t, t);
      assert Burst(key, t, n)[1..] == Burst(key, t, n - 1);
      assert Swept(c, l, t).entries[key] == l.entries[key];
      assert JustUsed(c, Allowed(c, l, call).0, key, t, n - 1);
      SpendBurst(c, Allowed(c, l, call).0, key, t, n - 1);
    }
  }

  /** A key the limiter does not know, or is about to forget, gets a whole burst. */
  lemma FreshBurst(c: Config, l: Limiter, key: string, t: int)
    requires c.idleTTL >= 0 && c.burst > 0
    requires Swept(c, l, t).lastSweep == Some(t) && key !in Swept(c, l, t).entries
    ensures Answers(c, l, Burst(key, t, c.burst)) == Trues(c.burst)
    ensures JustUsed(c, Run(c, l, Burst(key, t, c.burst)), key, t, 0)
  {
    var call := Call(key, t, t);
    assert Burst(key, t, c.burst)[1..] == Burst(key, t, c.burst - 1);
    assert JustUsed(c, Allowed(c, l, call).0, key, t, c.burst - 1);
    SpendBurst(c, Allowed(c, l, call).0, key, t, c.burst - 1);
  }

  lemma {:induction false} BurstFacts(key: string, t: int, n: nat, u: int, gap: nat)
    requires u <= t && gap >= 0
    ensures |Burst(key, t, n)| == n && Timely(u, Burst(key, t, n), gap)
    ensures forall i :: 0 <= i < n ==> Burst(key, t, n)[i] == Call(key, t, t)
    decreases n
  {
    if n > 0 {
      BurstFacts(key, t, n - 1, t, gap);
      assert Burst(key, t, n)[1..] == Burst(key, t, n - 1);
    }
  }

  lemma {:induction false} TimelyJoin(t: int, a: seq<Call>, b: seq<Call>, gap: nat)
    requires Timely(t, a, gap) && Timely(End(t, a), b, gap)
    ensures Timely(t, a + b, gap)
    decreases |a|
  {
    if a == [] {
      assert a + b == b;
    } else {
      assert (a + b)[1..] == a[1..] + b;
      TimelyJoin(a[0].then_, a[1..], b, gap);
    }
  }

  lemma {:induction false} AllGranted(calls: seq<Call>, answers: seq<bool>, key: string)
    requires |calls| == |answers|
    requires forall i :: 0 <= i < |calls| ==> calls[i].key == key && answers[i]
    ensures Granted(calls, answers, key) == |calls| as real
  {
    if calls != [] { AllGranted(calls[1..], answers[1..], key); }
  }

  lemma {:induction false} TruesFacts(n: nat)
    ensures |Trues(n)| == n && forall i :: 0 <= i < n ==> Trues(n)[i]
  {
    if n > 0 { TruesFacts(n - 1); }
  }

  predicate AllOf(calls: seq<Call>, key: string) {
    forall i :: 0 <= i < |calls| ==> calls[i].key == key
  }

  ghost predicate SeenAt(c: Config, l: Limiter, key: string, now: int) {
    key in l.entries && l.entries[key].lastSeen == now && l.lastSweep.Some? && l.lastSweep.value <= now
  }

  lemma {:induction false} LastCallSeen(c: Config, l: Limiter, t: int, calls: seq<Call>, gap: nat, key: string)
    requires calls != [] && AllOf(calls, key) && Timely(t, calls, gap)
    requires l == EMPTY || (l.lastSweep.Some? && l.lastSweep.value <= t)
    ensures SeenAt(c, Run(c, l, calls), key, calls[|calls| - 1].now)
    decreases |calls|
  {
    var l' := Allowed(c, l, calls[0]).0;
    assert SeenAt(c, l', key, calls[0].now);
    if |calls| > 1 {
      LastCallSeen(c, l', calls[0].then_, calls[1..], gap, key);
    } else {
      assert calls[1..] == [];
    }
  }

  /** If after some calls of a key its bucket would not be full at the first time at which the
      key can be forgotten, a burst at that time shows whether it was. */
  lemma LateBurstShows(c: Config, gap: nat, calls: seq<Call>, key: string, u: int)
    requires c.rate >= 0.0 && c.idleTTL >= 0 && c.burst > 0
    requires calls != [] && AllOf(calls, key) && Timely(0, calls, gap)
    requires u == Later(End(0, calls), calls[|calls| - 1].now + c.idleTTL + 1)
    requires LevelOf(c, RefRun(c, map[], calls), key, u) < c.burst as real
    ensures var all := calls + Burst(key, u, c.burst);
      Timely(0, all, gap) && Answers(c, EMPTY, all) != RefAnswers(c, map[], all)
  {
    var b := Burst(key, u, c.burst);
    var all := calls + b;
    BurstFacts(key, u, c.burst, End(0, calls), gap);
    TimelyJoin(0, calls, b, gap);
    LastCallSeen(c, EMPTY, 0, calls, gap, key);
    FreshBurst(c, Run(c, EMPTY, calls), key, u);
    AnswersSplit(c, EMPTY, calls, b);
    RefSplit(c, map[], calls, b);
    RefAnswersLength(c, map[], calls);
    AnswersLength(c, EMPTY, calls);
    if Answers(c, EMPTY, all) == RefAnswers(c, map[], all) {
      assert RefAnswers(c, RefRun(c, map[], calls), b) == RefAnswers(c, map[], all)[|calls|..];
      assert Trues(c.burst) == Answers(c, EMPTY, all)[|calls|..];
      BurstIsTooMuch(c, gap, calls, key, u);
      assert false;
    }
  }

  lemma {:induction false} AnswersLength(c: Config, l: Limiter, calls: seq<Call>)
    ensures |Answers(c, l, calls)| == |calls|
    decreases |calls|
  {
    if calls != [] { AnswersLength(c, Allowed(c, l, calls[0]).0, calls[1..]); }
  }

  lemma {:induction false} EndOfBurst(key: string, u: int, n: nat)
    requires n > 0
    ensures End(u, Burst(key, u, n)) == u
  {
    BurstFacts(key, u, n, u, 0);
  }

  lemma BurstIsTooMuch(c: Config, gap: nat, calls: seq<Call>, key: string, u: int)
    requires c.rate >= 0.0 && c.burst > 0 && Timely(0, calls, gap) && End(0, calls) <= u
    requires LevelOf(c, RefRun(c, map[], calls), key, u) < c.burst as real
    ensures RefAnswers(c, RefRun(c, map[], calls), Burst(key, u, c.burst)) != Trues(c.burst)
  {
    var m, b := RefRun(c, map[], calls), Burst(key, u, c.burst);
    TimelyIsOrdered(0, calls, gap);
    assert calls + [] == calls;
    RunKeepsSound(c, map[], 0, calls, []);
    BurstFacts(key, u, c.burst, u, 0);
    TimelyIsOrdered(u, b, 0);
    EndOfBurst(key, u, c.burst);
    GrantsArePaidFor(c, m, b, key, u);
    TruesFacts(c.burst);
    if RefAnswers(c, m, b) == Trues(c.burst) {
      AllGranted(b, RefAnswers(c, m, b), key);
      assert false;
    }
  }

  // The calls that leave a bucket as low as it can be when its key can be forgotten.

  ghost predicate RefHolds(c: Config, m: Buckets, key: string, tokens: real, last: int) {
    key in m && m[key] == Bucket(tokens, last)
  }

  lemma {:induction false} RefSpends(c: Config, m: Buckets, key: string, t: int, n: nat, left: nat)
    requires RefHolds(c, m, key, (left + n) as real, t) && left + n <= c.burst
    ensures RefHolds(c, RefRun(c, m, Burst(key, t, n)), key, left as real, t)
    decreases n
  {
    if n > 0 {
      assert Burst(key, t, n)[1..] == Burst(key, t, n - 1);
      RefSpends(c, RefStep(c, m, Call(key, t, t)).0, key, t, n - 1, left);
    }
  }

  /** A whole burst empties the bucket. */
  lemma RefEmptied(c: Config, key: string)
    requires c.burst > 0
    ensures RefHolds(c, RefRun(c, map[], Burst(key, 0, c.burst)), key, 0.0, 0)
  {
    assert Burst(key, 0, c.burst)[1..] == Burst(key, 0, c.burst - 1);
    RefSpends(c, RefStep(c, map[], Call(key, 0, 0)).0, key, 0, c.burst - 1, 0);
  }

  lemma {:induction false} RefRunJoins(c: Config, m: Buckets, a: seq<Call>, b: seq<Call>)
    ensures RefRun(c, m, a + b) == RefRun(c, RefRun(c, m, a), b)
    decreases |a|
  {
    if a == [] {
      assert a + b == b;
    } else {
      assert (a + b)[1..] == a[1..] + b;
      RefRunJoins(c, RefStep(c, m, a[0]).0, a[1..], b);
    }
  }

  lemma RefOne(c: Config, m: Buckets, call: Call)
    ensures RefRun(c, m, [call]) == RefStep(c, m, call).0
  {
    assert [call][1..] == [];
  }

  /** First case: not even the one token is back that a full bucket gave at the end of the gap. */
  lemma FirstCallShows(c: Config, gap: nat, key: string) returns (all: seq<Call>)
    requires c.rate >= 0.0 && c.idleTTL >= 0 && c.burst > 0 && Refill(c.rate, c.idleTTL + 1 - gap) < 1.0
    ensures Timely(0, all, gap) && Answers(c, EMPTY, all) != RefAnswers(c, map[], all)
  {
    var calls := [Call(key, 0, gap)];
    var u := Later(gap, c.idleTTL + 1);
    RefOne(c, map[], calls[0]);
    assert Refill(c.rate, u - gap) < 1.0;
    LateBurstShows(c, gap, calls, key, u);
    all := calls + Burst(key, u, c.burst);
  }

  /** Second case: a token that was not there yet at the beginning of the gap was given at its end. */
  lemma LongGapShows(c: Config, gap: nat, key: string) returns (all: seq<Call>)
    requires c.rate >= 0.0 && c.idleTTL >= 0 && c.burst > 0
    requires Refill(c.rate, c.idleTTL + 1 - gap) >= 1.0
    requires Refill(c.rate, gap) >= 1.0 && Refill(c.rate, c.idleTTL + 1) - 1.0 < c.burst as real
    ensures Timely(0, all, gap) && Answers(c, EMPTY, all) != RefAnswers(c, map[], all)
  {
    var burst, last := Burst(key, 0, c.burst), Call(key, 0, gap);
    var calls := burst + [last];
    var u := c.idleTTL + 1;
    BurstFacts(key, 0, c.burst, 0, gap);
    EndOfBurst(key, 0, c.burst);
    TimelyJoin(0, burst, [last], gap);
    RefEmptied(c, key);
    RefRunJoins(c, map[], burst, [last]);
    RefOne(c, RefRun(c, map[], burst), last);
    RefillAdds(c.rate, gap, u - gap);
    LateBurstShows(c, gap, calls, key, u);
    all := calls + Burst(key, u, c.burst);
  }

  /** One call at every nanosecond from i up to n. */
  function Ticks(key: string, i: int, n: nat): (calls: seq<Call>)
    ensures |calls| == n && forall j :: 0 <= j < n ==> calls[j] == Call(key, i + j, i + j)
    decreases n
  {
    if n == 0 then [] else [Call(key, i, i)] + Ticks(key, i + 1, n - 1)
  }

  lemma {:induction false} TicksTimely(key: string, i: int, n: nat, t: int, gap: nat)
    requires t <= i
    ensures Timely(t, Ticks(key, i, n), gap)
    decreases n
  {
    if n > 0 {
      TicksTimely(key, i + 1, n - 1, i, gap);
      assert Ticks(key, i, n)[1..] == Ticks(key, i + 1, n - 1);
    }
  }

  /** The bucket holds a fraction of a token: what has accrued since time 0 less the n given. */
  ghost predicate Dripping(c: Config, m: Buckets, key: string, i: int, n: nat) {
    && key in m && 0.0 <= m[key].tokens && 0 <= m[key].last <= i
    && m[key].tokens + Refill(c.rate, i - m[key].last) == Refill(c.rate, i) - n as real
    && Refill(c.rate, i) - (n as real) < 1.0
  }

  lemma TickDrips(c: Config, m: Buckets, key: string, i: nat, n: nat) returns (n': nat)
    requires 0.0 <= c.rate < 1.0 && c.burst >= 2 && Dripping(c, m, key, i, n)
    ensures Dripping(c, RefStep(c, m, Call(key, i + 1, i + 1)).0, key, i + 1, n')
  {
    var b := m[key];
    RefillAdds(c.rate, i, 1);
    RefillAdds(c.rate, i - b.last, 1);
    assert Refill(c.rate, 1) == c.rate;
    n' := if Level(c, b, i + 1) >= 1.0 then n + 1 else n;
  }

  lemma {:induction false} TicksDrip(c: Config, m: Buckets, key: string, i: nat, k: nat, n: nat) returns (n': nat)
    requires 0.0 <= c.rate < 1.0 && c.burst >= 2 && Dripping(c, m, key, i, n)
    ensures Dripping(c, RefRun(c, m, Ticks(key, i + 1, k)), key, i + k, n')
    decreases k
  {
    if k == 0 {
      n' := n;
    } else {
      var n1 := TickDrips(c, m, key, i, n);
      assert Ticks(key, i + 1, k)[1..] == Ticks(key, i + 2, k - 1);
      n' := TicksDrip(c, RefStep(c, m, Call(key, i + 1, i + 1)).0, key, i + 1, k - 1, n1);
    }
  }

  lemma {:induction false} WholeTokens(rate: real, p: nat, q: nat, k: nat)
    requires Refill(rate, q) == p as real
    ensures Refill(rate, q * k) == (p * k) as real
  {
    if k > 0 {
      WholeTokens(rate, p, q, k - 1);
      assert q * k == q * (k - 1) + q && p * k == p * (k - 1) + p;
      RefillAdds(rate, q * (k - 1), q);
    }
  }

  /** A call whose gap ends when whole tokens have accrued takes the last fraction. */
  lemma {:induction false} LastDrop(c: Config, m: Buckets, key: string, gap: nat, at: nat, whole: nat, n: nat)
    requires 0.0 <= c.rate && c.burst >= 2 && 0.0 < Refill(c.rate, gap) < 1.0
    requires Dripping(c, m, key, at, n) && Refill(c.rate, at + gap) == whole as real
    ensures RefHolds(c, RefStep(c, m, Call(key, at, at + gap)).0, key, 0.0, at + gap)
  {
    var b := m[key];
    RefillAdds(c.rate, at, gap);
    RefillAdds(c.rate, at - b.last, gap);
    RefillGrows(c.rate, 0, at - b.last);
    assert whole as real - n as real == b.tokens + Refill(c.rate, at - b.last) + Refill(c.rate, gap);
    assert 0.0 < (whole - n) as real < 2.0;
    assert whole - n == 1;
  }

  /** Third case: a bucket that gave its last drop at the end of the gap. */
  lemma LastDropShows(c: Config, gap: nat, key: string, at: nat, whole: nat) returns (all: seq<Call>)
    requires c.rate >= 0.0 && c.idleTTL >= 0 && c.burst >= 2 && Refill(c.rate, at + gap) == whole as real
    requires 0.0 < Refill(c.rate, gap) < 1.0 && gap <= c.idleTTL
    requires Refill(c.rate, c.idleTTL + 1 - gap) < c.burst as real
    ensures Timely(0, all, gap) && Answers(c, EMPTY, all) != RefAnswers(c, map[], all)
  {
    var before, last := Burst(key, 0, c.burst) + Ticks(key, 1, at), Call(key, at, at + gap);
    var m := RefRun(c, map[], before);
    DripsUpTo(c, key, gap, at);
    var n :| Dripping(c, m, key, at, n);
    LastDrop(c, m, key, gap, at, whole, n);
    RefRunJoins(c, map[], before, [last]);
    RefOne(c, m, last);
    BurstsAndTicks(key, c.burst, at, gap);
    LateBurstShows(c, gap, before + [last], key, at + c.idleTTL + 1);
    all := before + [last] + Burst(key, at + c.idleTTL + 1, c.burst);
  }

  lemma DripsUpTo(c: Config, key: string, gap: nat, at: nat)
    requires c.rate >= 0.0 && c.burst >= 2 && gap > 0 && Refill(c.rate, gap) < 1.0
    ensures exists n :: Dripping(c, RefRun(c, map[], Burst(key, 0, c.burst) + Ticks(key, 1, at)), key, at, n)
  {
    RefillGrows(c.rate, 1, gap);
    assert Refill(c.rate, 1) == c.rate;
    RefEmptied(c, key);
    RefRunJoins(c, map[], Burst(key, 0, c.burst), Ticks(key, 1, at));
    var m := RefRun(c, map[], Burst(key, 0, c.burst));
    assert Dripping(c, m, key, 0, 0);
    var n := TicksDrip(c, m, key, 0, at, 0);
  }

  lemma BurstsAndTicks(key: string, n: nat, at: nat, gap: nat)
    requires n > 0
    ensures var calls := Burst(key, 0, n) + Ticks(key, 1, at) + [Call(key, at, at + gap)];
      AllOf(calls, key) && Timely(0, calls, gap)
  {
    var burst, ticks, last := Burst(key, 0, n), Ticks(key, 1, at), Call(key, at, at + gap);
    BurstFacts(key, 0, n, 0, gap);
    EndOfBurst(key, 0, n);
    TicksTimely(key, 1, at, 0, gap);
    TimelyJoin(0, burst, ticks, gap);
    assert End(0, burst + ticks) <= at;
    TimelyJoin(0, burst + ticks, [last], gap);
  }

  /** With the two clock reads of a call taken as one, an empty bucket is enough. */
  lemma EmptiedShows(c: Config, gap: nat, key: string) returns (all: seq<Call>)
    requires c.rate >= 0.0 && c.idleTTL >= 0 && c.burst > 0 && Refill(c.rate, c.idleTTL + 1) < c.burst as real
    ensures Timely(0, all, gap) && Answers(c, EMPTY, all) != RefAnswers(c, map[], all)
  {
    var calls, u := Burst(key, 0, c.burst), c.idleTTL + 1;
    BurstFacts(key, 0, c.burst, 0, gap);
    EndOfBurst(key, 0, c.burst);
    RefEmptied(c, key);
    LateBurstShows(c, gap, calls, key, u);
    all := calls + Burst(key, u, c.burst);
  }

  /** Otherwise forgetting shows. The rate is p tokens in q nanoseconds. */
  lemma TooShortShows(c: Config, gap: nat, key: string, p: nat, q: nat) returns (all: seq<Call>)
    requires c.rate >= 0.0 && c.idleTTL >= 0 && q > 0 && Refill(c.rate, q) == p as real
    requires !RefillsBeforeEviction(c, gap)
    ensures Timely(0, all, gap) && Answers(c, EMPTY, all) != RefAnswers(c, map[], all)
  {
    RefillGrows(c.rate, 0, gap);
    if Refill(c.rate, c.idleTTL + 1 - gap) < 1.0 {
      all := FirstCallShows(c, gap, key);
    } else if Refill(c.rate, c.idleTTL + 1) < c.burst as real {
      all := EmptiedShows(c, gap, key);
    } else if Refill(c.rate, gap) >= 1.0 {
      all := LongGapShows(c, gap, key);
    } else {
      RefillAdds(c.rate, gap, c.idleTTL + 1 - gap);
      WholeTokens(c.rate, p, q, gap);
      assert q * gap >= gap;
      all := LastDropShows(c, gap, key, q * gap - gap, p * gap);
    }
  }

  /** Whatever the gap between the two clock reads of a call may be: forgetting is unobservable
      exactly if every bucket is full again before its key can be forgotten. The rate, like
      every float, is a fraction. */
  lemma UnobservableIff(c: Config, gap: nat, p: nat, q: nat)
    requires c.rate >= 0.0 && c.idleTTL >= 0 && q > 0 && Refill(c.rate, q) == p as real
    ensures (forall calls :: Timely(0, calls, gap) ==> Answers(c, EMPTY, calls) == RefAnswers(c, map[], calls))
        <==> RefillsBeforeEviction(c, gap)
  {
    if RefillsBeforeEviction(c, gap) {
      forall calls | Timely(0, calls, gap) ensures Answers(c, EMPTY, calls) == RefAnswers(c, map[], calls) {
        ForgettingIsUnobservable(c, 0, gap, calls);
      }
    } else {
      var calls := TooShortShows(c, gap, "", p, q);
    }
  }

  /** In the terms of the configuration: rate * (idleTTL - gap) >= burst is enough, which for
      clock reads taken as one is rate * idleTTL >= burst. */
  lemma RateTimesTTL(c: Config, gap: nat)
    requires c.rate >= 0.0 && gap <= c.idleTTL && c.rate * (c.idleTTL - gap) as real >= c.burst as real
    ensures RefillsBeforeEviction(c, gap)
  {
    var left := c.idleTTL - gap;
    RefillIsProduct(c.rate, left);
    assert Refill(c.rate, left) >= c.burst as real;
    RefillGrows(c.rate, left, left + 1);
    assert Refill(c.rate, c.idleTTL + 1 - gap) >= c.burst as real;
    RefillAdds(c.rate, gap, left + 1);
    assert gap + (left + 1) == c.idleTTL + 1;
    assert Refill(c.rate, c.idleTTL + 1) == Refill(c.rate, gap) + Refill(c.rate, left + 1);
    AtMostItself(Refill(c.rate, gap));
  }

  lemma AtMostItself(x: real)
    ensures AtMostOne(x) <= x
  {
  }

  // ----- The limiters that are built -----

  const NANOS_PER_SECOND: int := 1_000_000_000

  const IDLE_TTL: int := 300 * NANOS_PER_SECOND

  function PerSecond(rps: real, burst: nat): Config {
    Config(rps / 1_000_000_000.0, burst, IDLE_TTL)
  }

  /** In one second as many tokens accrue as the rate says, and idle means five minutes. */
  lemma SecondOfTokens(rps: real, burst: nat)
    ensures var c := PerSecond(rps, burst);
      Refill(c.rate, 1_000_000_000) == rps && c.burst == burst && c.idleTTL == 300_000_000_000
  {
    RefillIsProduct(PerSecond(rps, burst).rate, 1_000_000_000);
  }

  /** With the default rates every limiter that is built meets the premise, even if the
      two clock reads of a call lie a whole second apart. */
  lemma DefaultsQualify()
    ensures RefillsBeforeEviction(PerSecond(20.0, 40), NANOS_PER_SECOND)
    ensures RefillsBeforeEviction(PerSecond(10.0, 30), NANOS_PER_SECOND)
    ensures RefillsBeforeEviction(PerSecond(10.0 / 60.0, 3), NANOS_PER_SECOND)
    ensures RefillsBeforeEviction(PerSecond(5.0 / 60.0, 5), NANOS_PER_SECOND)
  {
    RateTimesTTL(PerSecond(20.0, 40), NANOS_PER_SECOND);
    RateTimesTTL(PerSecond(10.0, 30), NANOS_PER_SECOND);
    RateTimesTTL(PerSecond(10.0 / 60.0, 3), NANOS_PER_SECOND);
    RateTimesTTL(PerSecond(5.0 / 60.0, 5), NANOS_PER_SECOND);
  }
}
