/** Token buckets: the in-process one, which reads its clock twice, and the Redis one,
    whose key expires. Tokens, seconds and rates are reals. */
module Buckets {
  import opened Results

  datatype Bucket = Bucket(tokens: real, seen: real)

  function Min(a: real, b: real): real { if a <= b then a else b }

  function Above0(a: real): real { if a >= 0.0 then a else 0.0 }

  function Ceil(x: real): int { -((-x).Floor) }

  /** One call: `now` is read before the lock, `read` while refilling under it. */
  datatype Call = Call(now: real, read: real)

  /** What a length of time is worth at so many tokens a second. */
  function At(rate: real): real -> real { (seconds: real) => seconds * rate }

  /** What the bucket holds once refilled at `read`, before anything is taken. */
  function Refilled(b: Option<Bucket>, worth: real -> real, burst: nat, c: Call): real {
    var held := if b.None? then Bucket(burst as real, c.now) else b.value;
    Min(held.tokens + worth(Above0(c.read - held.seen)), burst as real)
  }

  function Granted(b: Option<Bucket>, worth: real -> real, burst: nat, c: Call): bool {
    Refilled(b, worth, burst, c) >= 1.0
  }

  /** The bucket after a call; `seen` is the reading from before the lock. */
  function Called(b: Option<Bucket>, worth: real -> real, burst: nat, c: Call): Bucket {
    var tokens := Refilled(b, worth, burst, c);
    Bucket(if tokens >= 1.0 then tokens - 1.0 else tokens, c.now)
  }

  /** Zero for a token, or the milliseconds until there will be one. */
  function Wait(b: Option<Bucket>, rate: real, burst: nat, c: Call): (wait: nat)
    requires rate > 0.0
    ensures wait == 0 <==> Granted(b, At(rate), burst, c)
  {
    var tokens := Refilled(b, At(rate), burst, c);
    if tokens >= 1.0 then 0
    else
      PositiveShare(1.0 - tokens, rate);
      Ceil((1.0 - tokens) / rate * 1000.0)
  }

  lemma PositiveShare(x: real, rate: real)
    requires x > 0.0 && rate > 0.0
    ensures x / rate * 1000.0 > 0.0
  {
  }

  function Run(b: Option<Bucket>, worth: real -> real, burst: nat, calls: seq<Call>): Option<Bucket>
    decreases |calls|
  {
    if calls == [] then b
    else Some(Called(Run(b, worth, burst, calls[..|calls| - 1]), worth, burst, calls[|calls| - 1]))
  }

  /** How many of a run's calls were granted a token. */
  function Grants(b: Option<Bucket>, worth: real -> real, burst: nat, calls: seq<Call>): nat
    decreases |calls|
  {
    if calls == [] then 0
    else
      var before := calls[..|calls| - 1];
      Grants(b, worth, burst, before)
      + if Granted(Run(b, worth, burst, before), worth, burst, calls[|calls| - 1]) then 1 else 0
  }

  /** What a run of calls is credited with: the worth of the time from each call's `now` to
      the next one's `read`. */
  function Credit(calls: seq<Call>, worth: real -> real): real
    decreases |calls|
  {
    if |calls| < 2 then 0.0
    else Credit(calls[..|calls| - 1], worth) + worth(Above0(calls[|calls| - 1].read - calls[|calls| - 2].now))
  }

  ghost predicate InRange(b: Option<Bucket>, burst: nat) {
    b.Some? ==> 0.0 <= b.value.tokens <= burst as real
  }

  ghost predicate NeverCosts(worth: real -> real) {
    forall d :: d >= 0.0 ==> worth(d) >= 0.0
  }

  lemma {:induction false} RunStaysInRange(b: Option<Bucket>, worth: real -> real, burst: nat, calls: seq<Call>)
    requires NeverCosts(worth) && InRange(b, burst)
    ensures InRange(Run(b, worth, burst, calls), burst)
    ensures calls != [] ==> var r := Run(b, worth, burst, calls); r.Some? && r.value.seen == calls[|calls| - 1].now
    decreases |calls|
  {
    if calls != [] {
      RunStaysInRange(b, worth, burst, calls[..|calls| - 1]);
    }
  }

  lemma {:induction false} GrantsPlusTokens(b: Option<Bucket>, worth: real -> real, burst: nat, calls: seq<Call>)
    requires NeverCosts(worth) && InRange(b, burst) && calls != []
    ensures Grants(b, worth, burst, calls) as real + Run(b, worth, burst, calls).value.tokens
            <= burst as real + Credit(calls, worth)
    decreases |calls|
  {
    var before := calls[..|calls| - 1];
    if before == [] {
      assert Grants(b, worth, burst, before) == 0 && Credit(calls, worth) == 0.0;
    } else {
      GrantsPlusTokens(b, worth, burst, before);
      RunStaysInRange(b, worth, burst, before);
      assert before[|before| - 1] == calls[|calls| - 2];
    }
  }

  /** Over any window of any run, however the two clock readings fall, at most `burst` plus the
      credited time's worth of tokens is granted. */
  lemma WindowBound(worth: real -> real, burst: nat, calls: seq<Call>, from: nat)
    requires NeverCosts(worth) && from < |calls|
    ensures Grants(Run(None, worth, burst, calls[..from]), worth, burst, calls[from..]) as real
            <= burst as real + Credit(calls[from..], worth)
  {
    var b, window := Run(None, worth, burst, calls[..from]), calls[from..];
    RunStaysInRange(None, worth, burst, calls[..from]);
    GrantsPlusTokens(b, worth, burst, window);
    RunStaysInRange(b, worth, burst, window);
  }

  /** Time is worth the same however it is cut up. */
  ghost predicate Steady(worth: real -> real) {
    NeverCosts(worth) && forall a, b :: Adds(worth, a, b)
  }

  predicate Adds(worth: real -> real, a: real, b: real) {
    worth(a) + worth(b) == worth(a + b)
  }

  lemma RatesAreSteady(rate: real)
    requires rate > 0.0
    ensures Steady(At(rate))
  {
    forall d | d >= 0.0 ensures At(rate)(d) >= 0.0 {}
    forall a, b ensures Adds(At(rate), a, b) {}
  }

  // ------------------------------------------------ two readings of the clock

  /** Callers take the lock one after the other, each having read the clock before it. */
  ghost predicate LockOrder(calls: seq<Call>) {
    && (forall i :: 0 <= i < |calls| ==> calls[i].now <= calls[i].read)
    && (forall i, j :: 0 <= i < j < |calls| ==> calls[i].read <= calls[j].read)
  }

  /** How long the callers waited between their two readings, all together. */
  function Waits(calls: seq<Call>): real
    decreases |calls|
  {
    if calls == [] then 0.0
    else var last := calls[|calls| - 1]; Waits(calls[..|calls| - 1]) + (last.read - last.now)
  }

  /** The same, of all the callers but the first and the last. */
  function InnerWaits(calls: seq<Call>): real {
    if |calls| < 2 then 0.0 else Waits(calls[1..|calls| - 1])
  }

  /** From the first caller's first reading to the last one's second. */
  function Elapsed(calls: seq<Call>): real
    requires calls != []
  {
    calls[|calls| - 1].read - calls[0].now
  }

  lemma {:induction false} WaitsAreNotNegative(calls: seq<Call>)
    requires LockOrder(calls)
    ensures Waits(calls) >= 0.0
    decreases |calls|
  {
    if calls != [] {
      WaitsAreNotNegative(calls[..|calls| - 1]);
    }
  }

  lemma {:induction false} NobodyWaited(calls: seq<Call>)
    requires forall i :: 0 <= i < |calls| ==> calls[i].now == calls[i].read
    ensures Waits(calls) == 0.0
    decreases |calls|
  {
    if calls != [] {
      NobodyWaited(calls[..|calls| - 1]);
    }
  }

  lemma InnerWaitsOneMore(calls: seq<Call>)
    requires |calls| >= 3
    ensures var prev := calls[|calls| - 2];
            InnerWaits(calls) == InnerWaits(calls[..|calls| - 1]) + (prev.read - prev.now)
  {
    var n := |calls| - 1;
    var inner := calls[1..n];
    assert inner[..|inner| - 1] == calls[..n][1..n - 1];
  }

  lemma AddsUp(worth: real -> real, a: real, b: real)
    requires Steady(worth)
    ensures worth(a) + worth(b) == worth(a + b)
  {
    assert Adds(worth, a, b);
  }

  /** What a run is credited with is the time it took and, over again, the time its inner callers
      waited for the lock: each of those is counted by the call that waits and by the next one. */
  lemma {:induction false} CreditIsTimeAndWaits(calls: seq<Call>, worth: real -> real)
    requires Steady(worth) && LockOrder(calls) && |calls| >= 2
    ensures Credit(calls, worth) == worth(Elapsed(calls) + InnerWaits(calls))
    decreases |calls|
  {
    var n := |calls| - 1;
    var prev, last := calls[n - 1], calls[n];
    assert prev.now <= prev.read <= last.read;
    if n == 1 {
      assert Credit(calls[..1], worth) == 0.0 && calls[1..1] == [];
    } else {
      CreditIsTimeAndWaits(calls[..n], worth);
      InnerWaitsOneMore(calls);
      AddsUp(worth, Elapsed(calls[..n]) + InnerWaits(calls[..n]), last.read - prev.now);
      assert Elapsed(calls[..n]) + InnerWaits(calls[..n]) + (last.read - prev.now)
             == Elapsed(calls) + InnerWaits(calls);
    }
  }

  lemma CreditIsAtMost(calls: seq<Call>, worth: real -> real)
    requires Steady(worth) && LockOrder(calls) && calls != []
    ensures Credit(calls, worth) <= worth(Elapsed(calls) + InnerWaits(calls))
  {
    if |calls| >= 2 { CreditIsTimeAndWaits(calls, worth); }
  }

  /** From whatever a bucket holds: no calls are granted more than the burst, what their time is worth,
      and what the inner callers' waits for the lock are worth. */
  lemma GrantsAreWithin(b: Option<Bucket>, worth: real -> real, burst: nat, calls: seq<Call>)
    requires Steady(worth) && InRange(b, burst) && LockOrder(calls) && calls != []
    ensures Grants(b, worth, burst, calls) as real <= burst as real + worth(Elapsed(calls) + InnerWaits(calls))
  {
    GrantsPlusTokens(b, worth, burst, calls);
    RunStaysInRange(b, worth, burst, calls);
    CreditIsAtMost(calls, worth);
  }

  lemma LockOrderOfWindow(calls: seq<Call>, from: nat)
    requires LockOrder(calls) && from <= |calls|
    ensures LockOrder(calls[from..])
  {
    var window := calls[from..];
    forall i, j | 0 <= i < j < |window| ensures window[i].read <= window[j].read {
      assert window[i] == calls[from + i] && window[j] == calls[from + j];
    }
  }

  /** At a rate: no window of any run of calls, whoever waited for the lock and for how long, is granted
      more tokens than burst + rate * T and the inner callers' waits at that rate. */
  lemma AtMostBurstPlusRateAndWaits(rate: real, burst: nat, calls: seq<Call>, from: nat)
    requires rate > 0.0 && from < |calls| && LockOrder(calls)
    ensures var window := calls[from..];
            Grants(Run(None, At(rate), burst, calls[..from]), At(rate), burst, window) as real
            <= burst as real + At(rate)(Elapsed(window) + InnerWaits(window))
  {
    RatesAreSteady(rate);
    LockOrderOfWindow(calls, from);
    WindowIsWithin(At(rate), burst, calls, from);
  }

  lemma WindowIsWithin(worth: real -> real, burst: nat, calls: seq<Call>, from: nat)
    requires Steady(worth) && from < |calls| && LockOrder(calls[from..])
    ensures var window := calls[from..];
            Grants(Run(None, worth, burst, calls[..from]), worth, burst, window) as real
            <= burst as real + worth(Elapsed(window) + InnerWaits(window))
  {
    RunStaysInRange(None, worth, burst, calls[..from]);
    GrantsAreWithin(Run(None, worth, burst, calls[..from]), worth, burst, calls[from..]);
  }

  lemma WithNoWaits(calls: seq<Call>, from: nat)
    requires from < |calls| && forall i :: 0 <= i < |calls| ==> calls[i].now == calls[i].read
    ensures Elapsed(calls[from..]) + InnerWaits(calls[from..]) == calls[|calls| - 1].now - calls[from].now
  {
    var window := calls[from..];
    if |window| >= 2 { NobodyWaited(window[1..|window| - 1]); }
  }

  /** With one clock reading a call: no window of any run of calls is granted more tokens than burst and
      what its length is worth, burst + rate * T. */
  lemma AtMostBurstPlusRate(rate: real, burst: nat, calls: seq<Call>, from: nat)
    requires rate > 0.0 && from < |calls| && LockOrder(calls)
    requires forall i :: 0 <= i < |calls| ==> calls[i].now == calls[i].read
    ensures Grants(Run(None, At(rate), burst, calls[..from]), At(rate), burst, calls[from..]) as real
            <= burst as real + At(rate)(calls[|calls| - 1].now - calls[from].now)
  {
    WithNoWaits(calls, from);
    AtMostBurstPlusRateAndWaits(rate, burst, calls, from);
  }

  lemma {:induction false} CreditGrows(calls: seq<Call>, worth: real -> real, k: nat)
    requires NeverCosts(worth) && k <= |calls|
    ensures Credit(calls[..k], worth) <= Credit(calls, worth)
    decreases |calls|
  {
    var n := |calls| - 1;
    if k <= n {
      CreditGrows(calls[..n], worth, k);
      assert calls[..n][..k] == calls[..k];
    } else {
      assert calls[..k] == calls;
    }
  }

  lemma CreditSoFar(calls: seq<Call>, worth: real -> real, k: nat)
    requires NeverCosts(worth) && k <= |calls|
    ensures 0.0 <= Credit(calls[..k], worth) <= Credit(calls, worth)
    ensures k == |calls| ==> Credit(calls[..k], worth) == Credit(calls, worth)
  {
    CreditGrows(calls, worth, k);
    CreditGrows(calls[..k], worth, 0);
    if k == |calls| { assert calls[..k] == calls; }
  }

  /** Every call was granted, and the bucket never so full that a refill was cut short. */
  ghost predicate AllGranted(calls: seq<Call>, worth: real -> real, burst: nat)
    requires calls != []
  {
    && Grants(None, worth, burst, calls) == |calls|
    && Run(None, worth, burst, calls)
       == Some(Bucket((burst - |calls|) as real + Credit(calls, worth), calls[|calls| - 1].now))
  }

  /** As many calls as a bucket is deep and one more, over a stretch credited with just that one. */
  lemma {:induction false} EachIsGranted(calls: seq<Call>, worth: real -> real, k: nat)
    requires NeverCosts(worth) && |calls| >= 2 && Credit(calls, worth) == 1.0 && 1 <= k <= |calls|
    ensures AllGranted(calls[..k], worth, |calls| - 1)
    decreases k
  {
    var before, c := calls[..k - 1], calls[k - 1];
    CreditSoFar(calls, worth, k);
    assert calls[..k] == before + [c];
    if k == 1 {
      FirstIsGranted(c, worth, |calls| - 1);
      assert before + [c] == [c];
    } else {
      EachIsGranted(calls, worth, k - 1);
      NextIsGranted(before, c, worth, |calls| - 1);
    }
  }

  lemma FirstIsGranted(c: Call, worth: real -> real, burst: nat)
    requires NeverCosts(worth) && burst >= 1
    ensures AllGranted([c], worth, burst)
  {
    assert [c][..0] == [];
    assert worth(Above0(c.read - c.now)) >= 0.0;
  }

  lemma NextIsGranted(before: seq<Call>, c: Call, worth: real -> real, burst: nat)
    requires before != [] && AllGranted(before, worth, burst)
    requires 1.0 <= (burst - |before|) as real + Credit(before + [c], worth) <= burst as real
    ensures AllGranted(before + [c], worth, burst)
  {
    assert (before + [c])[..|before|] == before;
  }

  lemma InverseIsOne(x: real)
    requires x > 0.0
    ensures At(1.0 / x)(x) == 1.0 && 1.0 / x > 0.0
  {
  }

  /** The bound cannot be improved: whenever and in whatever order the clock was read, for some depth
      and rate a fresh bucket grants all it allows. */
  lemma TheBoundIsAttained(calls: seq<Call>)
    requires LockOrder(calls) && |calls| >= 2 && Elapsed(calls) + InnerWaits(calls) > 0.0
    ensures var burst, rate := |calls| - 1, 1.0 / (Elapsed(calls) + InnerWaits(calls));
            && Grants(None, At(rate), burst, calls) == |calls|
            && At(rate)(Elapsed(calls) + InnerWaits(calls)) == 1.0
  {
    var rate := 1.0 / (Elapsed(calls) + InnerWaits(calls));
    InverseIsOne(Elapsed(calls) + InnerWaits(calls));
    RatesAreSteady(rate);
    CreditIsTimeAndWaits(calls, At(rate));
    EachIsGranted(calls, At(rate), |calls|);
    assert calls[..|calls|] == calls;
  }

  /** What is promised of a rate limit, of these calls on a fresh bucket. */
  ghost predicate WithinBurstPlusRate(calls: seq<Call>, rate: real, burst: nat)
    requires calls != []
  {
    Grants(None, At(rate), burst, calls) as real <= burst as real + At(rate)(Elapsed(calls))
  }

  /** Calls keep to burst + rate * T at every rate and depth if and only if none of the inner callers
      waited for the lock after reading the clock. */
  lemma BurstPlusRateIff(calls: seq<Call>)
    requires LockOrder(calls) && calls != []
    ensures (forall rate, burst :: rate > 0.0 ==> WithinBurstPlusRate(calls, rate, burst)) <==> InnerWaits(calls) == 0.0
  {
    InnerWaitsAreNotNegative(calls);
    if InnerWaits(calls) == 0.0 {
      forall rate: real, burst: nat | rate > 0.0 ensures WithinBurstPlusRate(calls, rate, burst) {
        RatesAreSteady(rate);
        GrantsAreWithin(None, At(rate), burst, calls);
      }
    } else {
      var all := Elapsed(calls) + InnerWaits(calls);
      assert calls[0].now <= calls[0].read <= calls[|calls| - 1].read;
      TheBoundIsAttained(calls);
      InverseIsOne(all);
      LessIsWorthLess(1.0 / all, Elapsed(calls), all);
      assert !WithinBurstPlusRate(calls, 1.0 / all, |calls| - 1);
    }
  }

  lemma LessIsWorthLess(rate: real, a: real, b: real)
    requires rate > 0.0 && a < b
    ensures At(rate)(a) < At(rate)(b)
  {
  }

  lemma InnerWaitsAreNotNegative(calls: seq<Call>)
    requires LockOrder(calls)
    ensures InnerWaits(calls) >= 0.0
  {
    if |calls| >= 2 { WaitsAreNotNegative(calls[1..|calls| - 1]); }
  }

  lemma CeilBounds(x: real)
    ensures (Ceil(x) - 1) as real < x <= Ceil(x) as real
  {
  }

  lemma Scale(d: real, t: real, rate: real)
    requires rate > 0.0
    ensures t + d * rate >= 1.0 <==> d >= (1.0 - t) / rate
  {
    assert (1.0 - t) / rate * rate == 1.0 - t;
    if d >= (1.0 - t) / rate {
      assert d * rate >= (1.0 - t) / rate * rate;
    } else {
      assert d * rate < (1.0 - t) / rate * rate;
    }
  }

  /** The wait a refusal names is the right one, to the millisecond: with nobody else calling,
      a call that refills that long after is granted and one that refills a whole millisecond
      sooner is not. The one exception is a bucket with no depth, which never grants. */
  lemma WaitIsExact(b: Option<Bucket>, rate: real, burst: nat, c: Call, later: Call)
    requires rate > 0.0 && InRange(b, burst) && Wait(b, rate, burst, c) > 0 && later.read >= c.now
    ensures var b', wait := Called(b, At(rate), burst, c), Wait(b, rate, burst, c);
            && (later.read - c.now >= wait as real / 1000.0 ==>
               (Wait(Some(b'), rate, burst, later) == 0 <==> burst >= 1))
            && (later.read - c.now <= (wait - 1) as real / 1000.0 ==> Wait(Some(b'), rate, burst, later) > 0)
  {
    var b' := Called(b, At(rate), burst, c);
    var short := (1.0 - b'.tokens) / rate;
    CeilBounds(short * 1000.0);
    Scale(later.read - c.now, b'.tokens, rate);
  }

  // -------------------------------------------------------------------- Redis

  /** The Redis key: milliseconds, and an expiry set afresh by every call. */
  datatype Key = Key(tokens: real, seen: int, expiresAt: int)

  function Ttl(rate: real, burst: nat): int
    requires rate > 0.0
  {
    Ceil(burst as real * 1000.0 / rate) + 1000
  }

  /** The script: refill, take or refuse, write back, set the expiry. */
  function Script(key: Option<Key>, rate: real, burst: nat, now: int): (r: (Key, int))
    requires rate > 0.0
  {
    var held := if key.None? then Key(burst as real, now, now) else key.value;
    var tokens := Min(burst as real, held.tokens + Above0((now - held.seen) as real) * rate / 1000.0);
    var expiresAt := now + Ttl(rate, burst);
    if tokens >= 1.0 then (Key(tokens - 1.0, now, expiresAt), 0)
    else (Key(tokens, now, expiresAt), Ceil((1.0 - tokens) * 1000.0 / rate))
  }

  /** A call, and whether the server had dropped the key by then, which it may once the key
      has expired and not before. */
  datatype RedisCall = RedisCall(now: int, dropped: bool)

  function Expiring(rate: real, burst: nat, calls: seq<RedisCall>): Option<Key>
    requires rate > 0.0
    decreases |calls|
  {
    if calls == [] then None
    else
      var last := calls[|calls| - 1];
      var key := Expiring(rate, burst, calls[..|calls| - 1]);
      Some(Script(if last.dropped then None else key, rate, burst, last.now).0)
  }

  function Everlasting(rate: real, burst: nat, calls: seq<RedisCall>): Option<Key>
    requires rate > 0.0
    decreases |calls|
  {
    if calls == [] then None
    else Some(Script(Everlasting(rate, burst, calls[..|calls| - 1]), rate, burst, calls[|calls| - 1].now).0)
  }

  /** No key goes before its time. */
  ghost predicate DropsAreExpiries(rate: real, burst: nat, calls: seq<RedisCall>)
    requires rate > 0.0
  {
    forall i :: 0 <= i < |calls| && calls[i].dropped ==>
      var key := Expiring(rate, burst, calls[..i]); key.Some? ==> calls[i].now >= key.value.expiresAt
  }

  /** After the expiry's time even an empty bucket has refilled. */
  lemma RefilledByThen(idle: real, rate: real, full: real)
    requires rate > 0.0 && idle >= full * 1000.0 / rate
    ensures idle * rate / 1000.0 >= full
  {
    var t := full * 1000.0 / rate;
    assert t * rate == full * 1000.0;
    assert (idle - t) * rate >= 0.0;
  }

  lemma ExpiredMeansFull(key: Key, rate: real, burst: nat, now: int)
    requires rate > 0.0 && 0.0 <= key.tokens
    requires key.expiresAt == key.seen + Ttl(rate, burst) && now >= key.expiresAt
    ensures Script(Some(key), rate, burst, now) == Script(None, rate, burst, now)
  {
    var idle, full := (now - key.seen) as real, burst as real;
    CeilBounds(full * 1000.0 / rate);
    assert full * 1000.0 / rate >= 0.0;
    RefilledByThen(idle, rate, full);
    assert Above0(idle) == idle;
    assert Min(full, key.tokens + Above0(idle) * rate / 1000.0) == full;
    assert Min(full, full + Above0(0.0) * rate / 1000.0) == full;
  }

  /** The expiry is invisible: after any calls, dropped keys and all, the key holds what a key
      that never expired would hold, and the next call is answered the same. */
  lemma {:induction false} ExpiryChangesNoAnswer(rate: real, burst: nat, calls: seq<RedisCall>)
    requires rate > 0.0 && DropsAreExpiries(rate, burst, calls)
    ensures Expiring(rate, burst, calls) == Everlasting(rate, burst, calls)
    ensures calls != [] ==> var last, key := calls[|calls| - 1], Expiring(rate, burst, calls[..|calls| - 1]);
              Script(if last.dropped then None else key, rate, burst, last.now)
              == Script(Everlasting(rate, burst, calls[..|calls| - 1]), rate, burst, last.now)
    ensures var k := Expiring(rate, burst, calls);
            k.Some? ==> 0.0 <= k.value.tokens && k.value.expiresAt == k.value.seen + Ttl(rate, burst)
    decreases |calls|
  {
    if calls != [] {
      var before, last := calls[..|calls| - 1], calls[|calls| - 1];
      forall i | 0 <= i < |before| ensures before[..i] == calls[..i] {}
      ExpiryChangesNoAnswer(rate, burst, before);
      var key := Expiring(rate, burst, before);
      if last.dropped && key.Some? {
        ExpiredMeansFull(key.value, rate, burst, last.now);
      }
      ScriptKeepsTokens(if last.dropped then None else key, rate, burst, last.now);
    }
  }

  lemma ScriptKeepsTokens(key: Option<Key>, rate: real, burst: nat, now: int)
    requires rate > 0.0 && (key.Some? ==> 0.0 <= key.value.tokens)
    ensures 0.0 <= Script(key, rate, burst, now).0.tokens
  {
    if key.Some? {
      assert Above0((now - key.value.seen) as real) * rate / 1000.0 >= 0.0;
    }
  }

  /** The same calls as the in-process bucket sees them, with milliseconds as its unit. */
  function AsCalls(calls: seq<RedisCall>): (r: seq<Call>)
    ensures |r| == |calls|
  {
    seq(|calls|, i requires 0 <= i < |calls| => Call(calls[i].now as real, calls[i].now as real))
  }

  lemma SameWorth(d: real, rate: real)
    ensures d * rate / 1000.0 == At(rate / 1000.0)(d)
  {
  }

  lemma ScriptIsACall(key: Option<Key>, b: Option<Bucket>, rate: real, burst: nat, now: int)
    requires rate > 0.0 && key.Some? == b.Some?
    requires key.Some? ==> key.value.tokens == b.value.tokens && key.value.seen as real == b.value.seen
    ensures var (key', wait) := Script(key, rate, burst, now);
            var c := Call(now as real, now as real);
            && key'.tokens == Called(b, At(rate / 1000.0), burst, c).tokens && key'.seen == now
            && (wait == 0 <==> Granted(b, At(rate / 1000.0), burst, c))
  {
    var seen := if key.None? then now else key.value.seen;
    SameWorth(Above0((now - seen) as real), rate);
    var tokens := Min(burst as real, (if key.None? then burst as real else key.value.tokens)
                                     + Above0((now - seen) as real) * rate / 1000.0);
    if tokens < 1.0 { RedisWaitIsPositive(tokens, rate); }
  }

  lemma RedisWaitIsPositive(tokens: real, rate: real)
    requires rate > 0.0 && tokens < 1.0
    ensures Ceil((1.0 - tokens) * 1000.0 / rate) > 0
  {
    assert (1.0 - tokens) * 1000.0 / rate > 0.0;
  }

  /** The script with an expiring key grants exactly when the in-process bucket would, call by
      call, so the window bound is the same bound. */
  lemma {:induction false} RedisGrantsAlike(rate: real, burst: nat, calls: seq<RedisCall>)
    requires rate > 0.0 && DropsAreExpiries(rate, burst, calls)
    ensures var key, b := Expiring(rate, burst, calls), Run(None, At(rate / 1000.0), burst, AsCalls(calls));
            && key.Some? == b.Some?
            && (key.Some? ==> key.value.tokens == b.value.tokens && key.value.seen as real == b.value.seen)
    ensures calls != [] ==> var last, before := calls[|calls| - 1], calls[..|calls| - 1];
              (Script(if last.dropped then None else Expiring(rate, burst, before), rate, burst, last.now).1 == 0
               <==> Granted(Run(None, At(rate / 1000.0), burst, AsCalls(before)), At(rate / 1000.0), burst,
                            Call(last.now as real, last.now as real)))
    decreases |calls|
  {
    if calls != [] {
      var before, last := calls[..|calls| - 1], calls[|calls| - 1];
      forall i | 0 <= i < |before| ensures before[..i] == calls[..i] {}
      RedisGrantsAlike(rate, burst, before);
      assert AsCalls(calls)[..|calls| - 1] == AsCalls(before);
      ExpiryChangesNoAnswer(rate, burst, calls);
      ExpiryChangesNoAnswer(rate, burst, before);
      ScriptIsACall(Everlasting(rate, burst, before), Run(None, At(rate / 1000.0), burst, AsCalls(before)), rate,
        burst, last.now);
    }
  }
}
