/** How long a failed job waits for its next attempt, and how much of that Redis can express. */
module Backoff {
  import opened Redis

  /** "none", "fixed", and everything else. */
  datatype Policy = Never | Fixed | Exponential

  function Pow2(n: nat): nat { if n == 0 then 1 else 2 * Pow2(n - 1) }

  /** The whole window in milliseconds: a second, doubled up to six times. */
  function Window(policy: Policy, attempt: nat): nat {
    match policy
    case Never => 0
    case Fixed => 1000
    case Exponential => 1000 * Pow2(Min(Less(attempt, 1), 6))
  }

  const WORD := 0x1_0000_0000_0000_0000
  const FNV_OFFSET := 0xcbf2_9ce4_8422_2325
  const FNV_PRIME := 0x0000_0100_0000_01b3

  type U64 = x: int | 0 <= x < WORD

  type Byte = x: int | 0 <= x < 256

  /** Exclusive or of the lowest `n` bits. */
  function XorLow(a: nat, b: nat, n: nat): (x: nat)
    ensures x < Pow2(n)
  {
    if n == 0 then 0 else 2 * XorLow(a / 2, b / 2, n - 1) + if a % 2 != b % 2 then 1 else 0
  }

  /** A byte changes the lowest eight bits only. */
  function Xor(a: U64, b: Byte): U64 {
    assert Pow2(8) == 256;
    a / 256 * 256 + XorLow(a % 256, b, 8)
  }

  /** One round of FNV-1a; the multiplication wraps. */
  function Mixed(hash: U64, b: Byte): U64 { Xor(hash, b) * FNV_PRIME % WORD }

  function Hash(seed: seq<Byte>): U64 {
    if seed == [] then FNV_OFFSET else Mixed(Hash(seed[..|seed| - 1]), seed[|seed| - 1])
  }

  const TWO_TO_53 := 0x20_0000_0000_0000

  /** The top 53 bits, as a fraction of one. */
  function Fraction(hash: U64): real {
    (hash / 2048) as real / TWO_TO_53 as real
  }

  /** A place in the top half of a window. */
  function PlaceIn(window: nat, hash: U64): real {
    window as real * (0.5 + Fraction(hash) * 0.5)
  }

  /** The place is fixed by the job's own id. */
  function Delay(policy: Policy, attempt: nat, seed: seq<Byte>): real {
    PlaceIn(Window(policy, attempt), Hash(seed))
  }

  method HashOf(seed: seq<Byte>) returns (hash: U64)
    ensures hash == Hash(seed)
  {
    hash := FNV_OFFSET;
    var i := 0;
    while i < |seed|
      invariant i <= |seed|
      invariant hash == Hash(seed[..i])
    {
      assert seed[..i + 1][..i] == seed[..i];
      hash := Mixed(hash, seed[i]);
      i := i + 1;
    }
    assert seed[..|seed|] == seed;
  }

  method BackoffFor(policy: Policy, attempt: nat, seed: seq<Byte>) returns (delay: real)
    ensures delay == Delay(policy, attempt, seed)
  {
    if policy.Never? {
      return 0.0;
    }
    var hash := HashOf(seed);
    return PlaceIn(Window(policy, attempt), hash);
  }

  lemma FractionIsBelowOne(hash: U64)
    ensures 0.0 <= Fraction(hash) < 1.0
  {
    Below(hash / 2048, TWO_TO_53);
  }

  lemma Below(a: nat, b: nat)
    requires a < b
    ensures 0.0 <= a as real / b as real < 1.0
  {
  }

  lemma ShareOf(full: real, f: real)
    requires full > 0.0 && 0.0 <= f < 1.0
    ensures full / 2.0 <= full * (0.5 + f * 0.5) < full
  {
    assert full * (0.5 + f * 0.5) == full * 0.5 + full * f * 0.5;
    assert full * f >= 0.0 && full * (1.0 - f) > 0.0;
  }

  lemma PlaceIsInTheTopHalf(window: nat, hash: U64)
    ensures window == 0 <==> PlaceIn(window, hash) == 0.0
    ensures window > 0 ==> window as real / 2.0 <= PlaceIn(window, hash) < window as real
  {
    FractionIsBelowOne(hash);
    if window > 0 { ShareOf(window as real, Fraction(hash)); }
  }

  /** Never less than half the window and never all of it; no wait at all only where none is asked for. */
  lemma DelayIsInTheTopHalf(policy: Policy, attempt: nat, seed: seq<Byte>)
    ensures policy.Never? <==> Delay(policy, attempt, seed) == 0.0
    ensures !policy.Never? ==>
            Window(policy, attempt) as real / 2.0 <= Delay(policy, attempt, seed) < Window(policy, attempt) as real
  {
    PlaceIsInTheTopHalf(Window(policy, attempt), Hash(seed));
    PowIsPositive(Min(Less(attempt, 1), 6));
  }

  lemma PowIsPositive(n: nat)
    ensures Pow2(n) > 0
  {
  }

  lemma {:induction false} PowGrows(a: nat, b: nat)
    requires a < b
    ensures 2 * Pow2(a) <= Pow2(b)
  {
    PowIsPositive(b - 1);
    if a + 1 < b { PowGrows(a, b - 1); }
  }

  /** Each window ends where the next one's top half begins, so up to the seventh attempt a later one
      waits longer than an earlier one did, whatever the ids. */
  lemma LaterAttemptsWaitLonger(a: nat, b: nat, seedA: seq<Byte>, seedB: seq<Byte>)
    requires 1 <= a < b <= 7
    ensures Delay(Exponential, a, seedA) < Delay(Exponential, b, seedB)
  {
    DelayIsInTheTopHalf(Exponential, a, seedA);
    DelayIsInTheTopHalf(Exponential, b, seedB);
    PowGrows(a - 1, b - 1);
  }

  lemma WindowIsASecondAtLeast(policy: Policy, attempt: nat)
    ensures if policy.Never? then Window(policy, attempt) == 0 else Window(policy, attempt) >= 1000
  {
    PowIsPositive(Min(Less(attempt, 1), 6));
  }

  lemma WindowIsCapped(policy: Policy, attempt: nat)
    ensures Window(policy, attempt) <= 64_000
    ensures policy.Exponential? && attempt >= 7 ==> Window(policy, attempt) == 64_000
  {
    var n := Min(Less(attempt, 1), 6);
    assert Pow2(6) == 64;
    if n < 6 { PowGrows(n, 6); }
  }

  /** A requeue with this delay is waited out in full: overdue from the delay's end, and no sooner. */
  ghost predicate WaitedOut(delayMs: nat, timeoutMs: nat, graceMs: nat) {
    forall waited: nat :: OverdueAfter(delayMs, timeoutMs, graceMs, waited) <==> waited >= delayMs
  }

  predicate OverdueAfter(delayMs: nat, timeoutMs: nat, graceMs: nat, waited: nat) {
    Overdue(IdleAfterRequeue(timeoutMs, graceMs, delayMs) + waited, timeoutMs, graceMs)
  }

  lemma WaitedOutIff(delayMs: nat, timeoutMs: nat, graceMs: nat)
    ensures WaitedOut(delayMs, timeoutMs, graceMs) <==> delayMs <= timeoutMs + graceMs
  {
    forall waited: nat
      ensures OverdueAfter(delayMs, timeoutMs, graceMs, waited) <==> waited >= Min(delayMs, timeoutMs + graceMs)
    {
      BackoffIsTheDelayCapped(timeoutMs, graceMs, delayMs, waited);
    }
    assert OverdueAfter(delayMs, timeoutMs, graceMs, timeoutMs + graceMs) || delayMs <= timeoutMs + graceMs;
  }

  /** Redis waits a backoff out in full if and only if its whole milliseconds fit the job's timeout and
      the grace. So the cap on the window is enough from a deadline of 64 seconds, and not below 32,
      where every backoff from the seventh attempt on is cut short. */
  lemma RedisWaitsTheBackoffOutIff(policy: Policy, attempt: nat, seed: seq<Byte>, timeoutMs: nat, graceMs: nat)
    ensures var delayMs := Delay(policy, attempt, seed).Floor;
            && 0 <= delayMs
            && (WaitedOut(delayMs, timeoutMs, graceMs) <==> delayMs <= timeoutMs + graceMs)
            && (timeoutMs + graceMs >= 64_000 ==> WaitedOut(delayMs, timeoutMs, graceMs))
            && (policy.Exponential? && attempt >= 7 && timeoutMs + graceMs < 32_000 ==>
                  !WaitedOut(delayMs, timeoutMs, graceMs))
  {
    DelayIsInTheTopHalf(policy, attempt, seed);
    WindowIsCapped(policy, attempt);
    WaitedOutIff(Delay(policy, attempt, seed).Floor, timeoutMs, graceMs);
  }
}
