/** A rate-limited task in a batch run: every child's fill loop takes a token from the one bucket
    before it dispatches a job of the task, and hands the job back with the wait the bucket names
    when there is none. A fill loop reads the clock, waits for the bucket's lock, and reads it again;
    so however many children there are, and whatever they do, no window sees more of the task's jobs
    dispatched than its burst, its rate, and the time they kept each other waiting allow. */
module BatchRates {
  import opened Results
  import opened Chains
  import opened S = Supervision
  import opened ChildRuns
  import opened B = Batch
  import U = Buckets
  import MemoryQueue
  import Msgpack

  /** The limited task: tokens a second, and how many the bucket holds. */
  datatype Limit = Limit(name: string, rate: real, burst: nat)

  /** A batch and the task's bucket; the calls made on it, in the order they took the lock; what the
      fill loops waiting for it read before; how many of the task's jobs were cleared, and how many
      dispatched. */
  datatype Paced = Paced(
    batch: Batch, bucket: Option<U.Bucket>, calls: seq<U.Call>, early: map<nat, real>, cleared: nat, dispatched: nat)

  /** `Reads` is a fill loop reading the clock before it waits for the lock; one that does not wait
      reads the same twice. `AtCap` is a job that gets its token and is then handed back for want of a
      slot. */
  datatype Turn = Happens(h: Happening) | Reads(i: nat) | AtCap(i: nat, delayMs: nat)

  predicate Governs(limit: Limit, job: Job) { job.job.name == limit.name }

  function Seconds(b: Batch): real { b.now as real / 1000.0 }

  /** Whether child i's fill loop has come to asking for a token. */
  predicate Asking(b: Batch, i: nat, r: Registry, limit: Limit) {
    && i < |b.children|
    && var c := b.children[i];
       && c.mode.Serving? && c.hand.Some? && !c.hand.value.cleared
       && Governs(limit, c.hand.value.job) && !PastExpiry(c.hand.value.job, r, b.now)
  }

  function CallOf(s: Paced, i: nat): U.Call {
    U.Call(if i in s.early then s.early[i] else Seconds(s.batch), Seconds(s.batch))
  }

  /** With a token the fill loop goes on to `granted`; without one the job goes back to wait. */
  function Ask(s: Paced, i: nat, granted: S.Event, r: Registry, limit: Limit): Paced
    requires limit.rate > 0.0
  {
    var c := CallOf(s, i);
    var wait := U.Wait(s.bucket, limit.rate, limit.burst, c);
    Paced(B.Step(s.batch, On(i, if wait == 0 then granted else Limited(wait)), r),
          Some(U.Called(s.bucket, U.At(limit.rate), limit.burst, c)), s.calls + [c], s.early - {i},
          s.cleared + One(wait == 0 && granted.Clear?), s.dispatched)
  }

  /** Whether a step sends a job of the task to a child. */
  predicate Dispatches(b: Batch, b': Batch, h: Happening, limit: Limit) {
    && h.On? && h.event.Dispatch? && h.i < |b.children| && h.i < |b'.children|
    && b.children[h.i].hand.Some? && Governs(limit, b.children[h.i].hand.value.job)
    && b'.children[h.i].hand.None?
  }

  function Step(s: Paced, t: Turn, r: Registry, limit: Limit): Paced
    requires limit.rate > 0.0
  {
    match t
    case Reads(i) => if Asking(s.batch, i, r, limit) then s.(early := s.early[i := Seconds(s.batch)]) else s
    case AtCap(i, delayMs) => if Asking(s.batch, i, r, limit) then Ask(s, i, Limited(delayMs), r, limit) else s
    case Happens(h) =>
      if h.On? && h.event.Clear? && Asking(s.batch, h.i, r, limit) then Ask(s, h.i, S.Event.Clear, r, limit)
      else
        var b' := B.Step(s.batch, h, r);
        s.(batch := b', dispatched := s.dispatched + One(Dispatches(s.batch, b', h, limit)))
  }

  function Run(jobs: seq<NewJob>, now0: nat, turns: seq<Turn>, r: Registry, limit: Limit): Paced
    requires limit.rate > 0.0
    decreases |turns|
  {
    if turns == [] then Paced(Start(jobs, now0), None, [], map[], 0, 0)
    else Step(Run(jobs, now0, turns[..|turns| - 1], r, limit), turns[|turns| - 1], r, limit)
  }

  // ------------------------------------------------------- a job needs a token

  function HasCleared(c: Child, limit: Limit): nat {
    One(c.hand.Some? && c.hand.value.cleared && Governs(limit, c.hand.value.job))
  }

  function ClearedOf(limit: Limit): Child -> nat { (c: Child) => HasCleared(c, limit) }

  /** How many children have a job of the task in hand, cleared and not yet dispatched. */
  function ReadyToGo(b: Batch, limit: Limit): nat { Sum(b.children, ClearedOf(limit)) }

  /** Clearing a job is the only thing that makes one ready to go, and dispatching takes one that is. */
  lemma ChildClears(c: Child, e: S.Event, cfg: Cfg, limit: Limit)
    ensures var c' := S.Step(c, e, cfg).0;
            var clears := e.Clear? && c.mode.Serving? && c.hand.Some? && !c.hand.value.cleared
              && Governs(limit, c.hand.value.job);
            var goes := e.Dispatch? && c.hand.Some? && c'.hand.None? && Governs(limit, c.hand.value.job);
            HasCleared(c', limit) + One(goes) <= HasCleared(c, limit) + One(clears)
  {
  }

  lemma OnClears(b: Batch, i: nat, e: S.Event, r: Registry, limit: Limit)
    ensures var b' := B.Step(b, On(i, e), r);
            ReadyToGo(b', limit) + One(Dispatches(b, b', On(i, e), limit))
            <= ReadyToGo(b, limit) + One(e.Clear? && Asking(b, i, r, limit))
  {
    if i < |b.children| && Allowed(b.children[i], e, r, b.now) {
      OnlyItMoves(b, i, e, r);
      ChildClears(b.children[i], e, r.child, limit);
      SumUpdated(b.children, i, S.Step(b.children[i], e, r.child).0, ClearedOf(limit));
    }
  }

  lemma OnlyItMoves(b: Batch, i: nat, e: S.Event, r: Registry)
    requires i < |b.children| && Allowed(b.children[i], e, r, b.now)
    ensures B.Step(b, On(i, e), r).children == b.children[i := S.Step(b.children[i], e, r.child).0]
  {
  }

  lemma TryClaimClears(b: Batch, i: nat, r: Registry, limit: Limit)
    requires i < |b.children| && Asks(b.children[i])
    ensures ReadyToGo(TryClaimStep(b, i, r), limit) <= ReadyToGo(b, limit)
  {
    var d := MemoryQueue.Claim(b.queue, b.now).1;
    if d.Some? {
      var e := S.Event.Claim(Adopt(d.value));
      ChildClears(b.children[i], e, r.child, limit);
      SumUpdated(b.children, i, S.Step(b.children[i], e, r.child).0, ClearedOf(limit));
    }
  }

  lemma HappensClears(b: Batch, h: Happening, r: Registry, limit: Limit)
    ensures var b' := B.Step(b, h, r);
            ReadyToGo(b', limit) + One(Dispatches(b, b', h, limit))
            <= ReadyToGo(b, limit) + One(h.On? && h.event.Clear? && Asking(b, h.i, r, limit))
  {
    match h
    case Spawn => SumOneMore(b.children, FRESH, ClearedOf(limit));
    case Pass(ms) =>
    case TryClaim(i) => if i < |b.children| && Asks(b.children[i]) { TryClaimClears(b, i, r, limit); }
    case On(i, e) => OnClears(b, i, e, r, limit);
  }

  lemma StepSpendsClears(s: Paced, t: Turn, r: Registry, limit: Limit)
    requires limit.rate > 0.0
    ensures var s' := Step(s, t, r, limit);
            ReadyToGo(s'.batch, limit) + s'.dispatched + s.cleared
              <= ReadyToGo(s.batch, limit) + s.dispatched + s'.cleared
  {
    match t
    case Reads(_) =>
    case AtCap(i, delayMs) => AskSpendsClears(s, i, Limited(delayMs), r, limit);
    case Happens(h) =>
      HappensClears(s.batch, h, r, limit);
      if h.On? { AskSpendsClears(s, h.i, h.event, r, limit); }
  }

  lemma AskSpendsClears(s: Paced, i: nat, granted: S.Event, r: Registry, limit: Limit)
    requires limit.rate > 0.0
    ensures var s' := Ask(s, i, granted, r, limit);
            !granted.Dispatch? ==>
              ReadyToGo(s'.batch, limit) + s'.dispatched + s.cleared
                <= ReadyToGo(s.batch, limit) + s.dispatched + s'.cleared
  {
    var wait := U.Wait(s.bucket, limit.rate, limit.burst, CallOf(s, i));
    OnClears(s.batch, i, granted, r, limit);
    OnClears(s.batch, i, Limited(wait), r, limit);
  }

  /** A child has one job in hand at most. */
  lemma ReadyToGoIsAtMostTheChildren(b: Batch, limit: Limit)
    ensures ReadyToGo(b, limit) <= |b.children|
  {
    OneEach(b.children, limit);
  }

  lemma {:induction false} OneEach(children: seq<Child>, limit: Limit)
    ensures Sum(children, ClearedOf(limit)) <= |children|
    decreases |children|
  {
    if children != [] {
      OneEach(children[..|children| - 1], limit);
    }
  }

  // --------------------------------------------------- what the bucket allows

  /** The bucket is what the calls made of it, they took the lock in order, and no reading is ahead of
      the clock. */
  ghost predicate InOrder(s: Paced, burst: nat) {
    && U.InRange(s.bucket, burst) && U.LockOrder(s.calls)
    && (s.calls != [] ==> s.calls[|s.calls| - 1].read <= Seconds(s.batch))
    && (forall i :: i in s.early ==> s.early[i] <= Seconds(s.batch))
  }

  /** A step takes no call to the bucket, or one, and clears a job only when that is granted. */
  ghost predicate OneCallAtMost(s: Paced, s': Paced, worth: real -> real, burst: nat) {
    && Seconds(s'.batch) >= Seconds(s.batch)
    && if s'.calls == s.calls then s'.bucket == s.bucket && s'.cleared == s.cleared
       else
         && |s'.calls| == |s.calls| + 1 && s.calls <= s'.calls
         && var c := s'.calls[|s.calls|];
            && c.read == Seconds(s.batch)
            && s'.bucket == Some(U.Called(s.bucket, worth, burst, c))
            && s'.cleared <= s.cleared + One(U.Granted(s.bucket, worth, burst, c))
  }

  lemma StepKeepsTime(b: Batch, h: Happening, r: Registry)
    ensures Seconds(B.Step(b, h, r)) >= Seconds(b) && (h.On? ==> B.Step(b, h, r).now == b.now)
  {
  }

  lemma AskCallsOnce(s: Paced, i: nat, granted: S.Event, r: Registry, limit: Limit)
    requires limit.rate > 0.0
    ensures OneCallAtMost(s, Ask(s, i, granted, r, limit), U.At(limit.rate), limit.burst)
  {
    var wait := U.Wait(s.bucket, limit.rate, limit.burst, CallOf(s, i));
    StepKeepsTime(s.batch, On(i, if wait == 0 then granted else Limited(wait)), r);
  }

  lemma StepCallsOnce(s: Paced, t: Turn, r: Registry, limit: Limit)
    requires limit.rate > 0.0
    ensures OneCallAtMost(s, Step(s, t, r, limit), U.At(limit.rate), limit.burst)
  {
    match t
    case Reads(_) =>
    case AtCap(i, delayMs) => AskCallsOnce(s, i, Limited(delayMs), r, limit);
    case Happens(h) =>
      StepKeepsTime(s.batch, h, r);
      if h.On? { AskCallsOnce(s, h.i, h.event, r, limit); }
  }

  /** The new reading is no later than the clock, and the older readings no later than it. */
  lemma CallKeepsOrder(s: Paced, s': Paced, worth: real -> real, burst: nat)
    requires U.NeverCosts(worth) && InOrder(s, burst) && OneCallAtMost(s, s', worth, burst)
    requires s'.calls != s.calls ==> s'.calls[|s.calls|].now <= Seconds(s.batch)
    requires forall i :: i in s'.early ==> s'.early[i] <= Seconds(s'.batch)
    ensures InOrder(s', burst)
  {
    if s'.calls != s.calls {
      var c := s'.calls[|s.calls|];
      U.RunStaysInRange(s.bucket, worth, burst, [c]);
      assert [c][..0] == [];
      assert s'.calls == s.calls + [c];
    }
  }

  lemma StepKeepsOrder(s: Paced, t: Turn, r: Registry, limit: Limit)
    requires limit.rate > 0.0 && InOrder(s, limit.burst)
    ensures InOrder(Step(s, t, r, limit), limit.burst)
  {
    StepCallsOnce(s, t, r, limit);
    U.RatesAreSteady(limit.rate);
    CallKeepsOrder(s, Step(s, t, r, limit), U.At(limit.rate), limit.burst);
  }

  /** What a stretch of a run did to the bucket: its calls took it from what it was to what it is, and
      no more jobs were cleared than they were granted. */
  ghost predicate Paces(s: Paced, s': Paced, worth: real -> real, burst: nat) {
    && Seconds(s'.batch) >= Seconds(s.batch) && s.calls <= s'.calls
    && var window := s'.calls[|s.calls|..];
       && s'.bucket == U.Run(s.bucket, worth, burst, window)
       && s'.cleared <= s.cleared + U.Grants(s.bucket, worth, burst, window)
       && (forall k :: 0 <= k < |window| ==> window[k].read >= Seconds(s.batch))
  }

  lemma PacesItself(s: Paced, worth: real -> real, burst: nat)
    ensures Paces(s, s, worth, burst)
  {
    assert s.calls[|s.calls|..] == [];
  }

  lemma PacesOneMore(s: Paced, m: Paced, s': Paced, worth: real -> real, burst: nat)
    requires Paces(s, m, worth, burst) && OneCallAtMost(m, s', worth, burst)
    ensures Paces(s, s', worth, burst)
  {
    var window, window' := m.calls[|s.calls|..], s'.calls[|s.calls|..];
    if s'.calls != m.calls {
      assert window' == window + [s'.calls[|m.calls|]];
      assert window'[..|window|] == window;
    }
  }

  // -------------------------------------------------------------- main results

  lemma {:induction false} InOrderAlways(jobs: seq<NewJob>, now0: nat, turns: seq<Turn>, r: Registry, limit: Limit)
    requires limit.rate > 0.0
    ensures InOrder(Run(jobs, now0, turns, r, limit), limit.burst)
    decreases |turns|
  {
    if turns != [] {
      InOrderAlways(jobs, now0, turns[..|turns| - 1], r, limit);
      StepKeepsOrder(Run(jobs, now0, turns[..|turns| - 1], r, limit), turns[|turns| - 1], r, limit);
    }
  }

  lemma {:induction false} PaceOver(jobs: seq<NewJob>, now0: nat, k: nat, turns: seq<Turn>, r: Registry, limit: Limit)
    requires limit.rate > 0.0 && k <= |turns|
    ensures Paces(Run(jobs, now0, turns[..k], r, limit), Run(jobs, now0, turns, r, limit), U.At(limit.rate),
            limit.burst)
    decreases |turns|
  {
    if k == |turns| {
      assert turns[..k] == turns;
      PacesItself(Run(jobs, now0, turns, r, limit), U.At(limit.rate), limit.burst);
    } else {
      var before := turns[..|turns| - 1];
      var s, m := Run(jobs, now0, turns[..k], r, limit), Run(jobs, now0, before, r, limit);
      assert before[..k] == turns[..k];
      PaceOver(jobs, now0, k, before, r, limit);
      StepCallsOnce(m, turns[|turns| - 1], r, limit);
      PacesOneMore(s, m, Run(jobs, now0, turns, r, limit), U.At(limit.rate), limit.burst);
    }
  }

  lemma {:induction false} ClearsAreSpentOver(jobs: seq<NewJob>, now0: nat, k: nat, turns: seq<Turn>, r: Registry,
        limit: Limit)
    requires limit.rate > 0.0 && k <= |turns|
    ensures var s, s' := Run(jobs, now0, turns[..k], r, limit), Run(jobs, now0, turns, r, limit);
            ReadyToGo(s'.batch, limit) + s'.dispatched + s.cleared
              <= ReadyToGo(s.batch, limit) + s.dispatched + s'.cleared
    decreases |turns|
  {
    if k == |turns| {
      assert turns[..k] == turns;
    } else {
      var before := turns[..|turns| - 1];
      assert before[..k] == turns[..k];
      ClearsAreSpentOver(jobs, now0, k, before, r, limit);
      StepSpendsClears(Run(jobs, now0, before, r, limit), turns[|turns| - 1], r, limit);
    }
  }

  /** How long fill loops waited for the lock, of what counts: the first of the stretch before it began,
      and all but the first and the last. */
  function Waited(s: Paced, s': Paced): real
    requires |s.calls| <= |s'.calls|
  {
    var window := s'.calls[|s.calls|..];
    if window == [] then 0.0 else U.Above0(Seconds(s.batch) - window[0].now) + U.InnerWaits(window)
  }

  /** burst + rate * T, for the time between two moments, and the waits at that rate. */
  function Allowance(s: Paced, s': Paced, limit: Limit): real
    requires |s.calls| <= |s'.calls|
  {
    limit.burst as real + U.At(limit.rate)(Seconds(s'.batch) - Seconds(s.batch) + Waited(s, s'))
  }

  predicate ClearsWithin(s: Paced, s': Paced, limit: Limit) {
    |s.calls| <= |s'.calls| && (s'.cleared - s.cleared) as real <= Allowance(s, s', limit)
  }

  predicate DispatchesWithin(s: Paced, s': Paced, limit: Limit) {
    && |s.calls| <= |s'.calls|
    && (s'.dispatched - s.dispatched) as real <= Allowance(s, s', limit) + ReadyToGo(s.batch, limit) as real
  }

  lemma MoreIsWorthMore(rate: real, a: real, b: real)
    requires rate > 0.0 && a <= b
    ensures U.At(rate)(a) <= U.At(rate)(b)
  {
    if a < b { U.LessIsWorthLess(rate, a, b); }
  }

  /** The first call's reading to the last one's is the stretch itself, and what the first had waited. */
  lemma StretchOfCalls(s: Paced, s': Paced, burst: nat)
    requires InOrder(s', burst) && s.calls <= s'.calls && s.calls != s'.calls && Seconds(s'.batch) >= Seconds(s.batch)
    ensures var window := s'.calls[|s.calls|..];
            U.Elapsed(window) + U.InnerWaits(window) <= Seconds(s'.batch) - Seconds(s.batch) + Waited(s, s')
  {
  }

  lemma GrantsWithin(s: Paced, s': Paced, worth: real -> real, burst: nat)
    requires U.Steady(worth) && InOrder(s, burst) && InOrder(s', burst) && Paces(s, s', worth, burst)
    ensures var window := s'.calls[|s.calls|..];
            (s'.cleared - s.cleared) as real
            <= burst as real + if window == [] then 0.0 else worth(U.Elapsed(window) + U.InnerWaits(window))
  {
    var window := s'.calls[|s.calls|..];
    U.LockOrderOfWindow(s'.calls, |s.calls|);
    if window != [] { U.GrantsAreWithin(s.bucket, worth, burst, window); }
  }

  lemma WithinBurst(s: Paced, s': Paced, limit: Limit)
    requires limit.rate > 0.0 && InOrder(s, limit.burst) && InOrder(s', limit.burst)
    requires Paces(s, s', U.At(limit.rate), limit.burst)
    ensures ClearsWithin(s, s', limit)
  {
    var window := s'.calls[|s.calls|..];
    var stretch := Seconds(s'.batch) - Seconds(s.batch) + Waited(s, s');
    U.RatesAreSteady(limit.rate);
    GrantsWithin(s, s', U.At(limit.rate), limit.burst);
    if window == [] {
      MoreIsWorthMore(limit.rate, 0.0, stretch);
    } else {
      StretchOfCalls(s, s', limit.burst);
      MoreIsWorthMore(limit.rate, U.Elapsed(window) + U.InnerWaits(window), stretch);
    }
  }

  /** In any stretch of any run, with any number of children and any frames from them, the jobs of the
      task cleared for dispatch number at most its burst and what its rate is worth over the stretch and
      over the time fill loops waited for the lock with the clock already read. */
  lemma AtMostBurstPlusRateAndWaits(jobs: seq<NewJob>, now0: nat, k: nat, turns: seq<Turn>, r: Registry, limit: Limit)
    requires limit.rate > 0.0 && k <= |turns|
    ensures ClearsWithin(Run(jobs, now0, turns[..k], r, limit), Run(jobs, now0, turns, r, limit), limit)
  {
    PaceOver(jobs, now0, k, turns, r, limit);
    InOrderAlways(jobs, now0, turns[..k], r, limit);
    InOrderAlways(jobs, now0, turns, r, limit);
    WithinBurst(Run(jobs, now0, turns[..k], r, limit), Run(jobs, now0, turns, r, limit), limit);
  }

  /** And those dispatched in it number no more than that and the ones a child already had in hand,
      cleared, when it began: one for a child at most. */
  lemma DispatchesAreWithinTheRate(jobs: seq<NewJob>, now0: nat, k: nat, turns: seq<Turn>, r: Registry, limit: Limit)
    requires limit.rate > 0.0 && k <= |turns|
    ensures var s := Run(jobs, now0, turns[..k], r, limit);
            DispatchesWithin(s, Run(jobs, now0, turns, r, limit), limit)
              && ReadyToGo(s.batch, limit) <= |s.batch.children|
  {
    ClearsAreSpentOver(jobs, now0, k, turns, r, limit);
    AtMostBurstPlusRateAndWaits(jobs, now0, k, turns, r, limit);
    ReadyToGoIsAtMostTheChildren(Run(jobs, now0, turns[..k], r, limit).batch, limit);
  }

  // ------------------------------------------------------ with nobody waiting

  /** Every call so far read the clock once. */
  ghost predicate OneReading(s: Paced) {
    s.early == map[] && forall k :: 0 <= k < |s.calls| ==> s.calls[k].now == s.calls[k].read
  }

  lemma {:induction false} OneReadingAlways(jobs: seq<NewJob>, now0: nat, turns: seq<Turn>, r: Registry, limit: Limit)
    requires limit.rate > 0.0 && forall k :: 0 <= k < |turns| ==> !turns[k].Reads?
    ensures OneReading(Run(jobs, now0, turns, r, limit))
    decreases |turns|
  {
    if turns != [] {
      OneReadingAlways(jobs, now0, turns[..|turns| - 1], r, limit);
    }
  }

  lemma NothingWaited(s: Paced, s': Paced, worth: real -> real, burst: nat)
    requires OneReading(s') && Paces(s, s', worth, burst)
    ensures Waited(s, s') == 0.0
  {
    var window := s'.calls[|s.calls|..];
    if |window| >= 2 { U.NobodyWaited(window[1..|window| - 1]); }
    if window != [] { assert window[0] == s'.calls[|s.calls|]; }
  }

  predicate ClearsWithinRate(s: Paced, s': Paced, limit: Limit) {
    (s'.cleared - s.cleared) as real <= limit.burst as real + U.At(limit.rate)(Seconds(s'.batch) - Seconds(s.batch))
  }

  /** When no fill loop waits between its readings that is burst + rate * T. */
  lemma AtMostBurstPlusRate(jobs: seq<NewJob>, now0: nat, k: nat, turns: seq<Turn>, r: Registry, limit: Limit)
    requires limit.rate > 0.0 && k <= |turns| && forall j :: 0 <= j < |turns| ==> !turns[j].Reads?
    ensures ClearsWithinRate(Run(jobs, now0, turns[..k], r, limit), Run(jobs, now0, turns, r, limit), limit)
  {
    var s, s' := Run(jobs, now0, turns[..k], r, limit), Run(jobs, now0, turns, r, limit);
    PaceOver(jobs, now0, k, turns, r, limit);
    OneReadingAlways(jobs, now0, turns, r, limit);
    NothingWaited(s, s', U.At(limit.rate), limit.burst);
    AtMostBurstPlusRateAndWaits(jobs, now0, k, turns, r, limit);
    NoWaitsNoMore(s, s', limit);
  }

  lemma NoWaitsNoMore(s: Paced, s': Paced, limit: Limit)
    requires ClearsWithin(s, s', limit) && Waited(s, s') == 0.0
    ensures ClearsWithinRate(s, s', limit)
  {
    var t := Seconds(s'.batch) - Seconds(s.batch);
    assert t + Waited(s, s') == t;
  }

  // ------------------------------------------- the cleared ones have to be added

  lemma NextTurn(jobs: seq<NewJob>, turns: seq<Turn>, s: Paced, t: Turn, s': Paced, r: Registry, limit: Limit)
    requires limit.rate > 0.0 && Run(jobs, 0, turns, r, limit) == s && Step(s, t, r, limit) == s'
    ensures Run(jobs, 0, turns + [t], r, limit) == s'
  {
    assert (turns + [t])[..|turns|] == turns;
  }

  /** One child over two jobs, at a moment of the witness below. */
  function Scene(c: Child, q: MemoryQueue.Queue, now: nat, bucket: Option<U.Bucket>, calls: seq<U.Call>,
        cleared: nat, dispatched: nat): Paced {
    Paced(Batch(q, [c], map[], 2, false, now), bucket, calls, map[], cleared, dispatched)
  }

  /** The queue with so many of the two jobs claimed. */
  function Left(a: NewJob, b: NewJob, claimed: nat): MemoryQueue.Queue {
    MemoryQueue.Queue(
      if claimed == 0 then [MemoryQueue.Ticket(0, None), MemoryQueue.Ticket(1, None)]
      else if claimed == 1 then [MemoryQueue.Ticket(1, None)] else [],
      map[0 := MemoryQueue.Record.Record(a, if claimed == 0 then 0 else 1, 0),
          1 := MemoryQueue.Record.Record(b, if claimed < 2 then 0 else 1, 0)],
      2)
  }

  lemma BeginsWithBoth(a: NewJob, b: NewJob)
    ensures Submitted([a, b], 0) == Left(a, b, 0)
  {
    assert [a, b][..1] == [a] && [a][..0] == [];
    assert Submitted([a], 0) == MemoryQueue.Push(MemoryQueue.EMPTY, a, 0, 0);
    assert Submitted([a, b], 0) == MemoryQueue.Push(Submitted([a], 0), b, 0, 0);
  }

  lemma ClaimsNext(a: NewJob, b: NewJob, claimed: nat, now: nat)
    requires claimed < 2
    ensures MemoryQueue.Claim(Left(a, b, claimed), now)
            == (Left(a, b, claimed + 1),
                Some(MemoryQueue.Delivery(claimed, MemoryQueue.Record.Record(if claimed == 0 then a else b, 1, 0))))
  {
    var q := Left(a, b, claimed);
    assert MemoryQueue.FirstDue(q.ready, now) == 0 && q.ready[0].id == claimed;
    assert MemoryQueue.Remove(q.ready, 0) == Left(a, b, claimed + 1).ready;
    var record := q.jobs[claimed].(attempts := q.jobs[claimed].attempts + 1);
    assert q.jobs[claimed := record] == Left(a, b, claimed + 1).jobs;
  }

  lemma SpawnsOne(a: NewJob, b: NewJob, r: Registry, limit: Limit) returns (turns: seq<Turn>)
    requires limit.rate > 0.0
    ensures Run([a, b], 0, turns, r, limit) == Scene(FRESH, Left(a, b, 0), 0, None, [], 0, 0)
  {
    BeginsWithBoth(a, b);
    NextTurn([a, b], [], Paced(Start([a, b], 0), None, [], map[], 0, 0), Happens(Spawn),
             Scene(FRESH, Left(a, b, 0), 0, None, [], 0, 0), r, limit);
    turns := [] + [Happens(Spawn)];
  }

  lemma Offers(c: Child, q: MemoryQueue.Queue, r: Registry, limit: Limit)
    requires limit.rate > 0.0 && c.mode.Serving? && c.hand.None?
    ensures Step(Scene(c, q, 0, None, [], 0, 0), Happens(On(0, READY)), r, limit)
            == Scene(c.(free := c.free + 1), q, 0, None, [], 0, 0)
  {
    assert S.Read([Msgpack.Str("Ready")]) == IsReady;
    assert S.Step(c, READY, r.child) == (c.(free := c.free + 1), None);
  }

  const READY := S.Event.Frame(Some([Msgpack.Str("Ready")]), false)

  lemma OffersTwo(a: NewJob, b: NewJob, r: Registry, limit: Limit) returns (turns: seq<Turn>)
    requires limit.rate > 0.0
    ensures Run([a, b], 0, turns, r, limit) == Scene(FRESH.(free := 2), Left(a, b, 0), 0, None, [], 0, 0)
  {
    var before := SpawnsOne(a, b, r, limit);
    var one := FRESH.(free := 1);
    Offers(FRESH, Left(a, b, 0), r, limit);
    Offers(one, Left(a, b, 0), r, limit);
    NextTurn([a, b], before, Scene(FRESH, Left(a, b, 0), 0, None, [], 0, 0), Happens(On(0, READY)),
             Scene(one, Left(a, b, 0), 0, None, [], 0, 0), r, limit);
    NextTurn([a, b], before + [Happens(On(0, READY))],
      Scene(one, Left(a, b, 0), 0, None, [], 0, 0), Happens(On(0, READY)),
             Scene(FRESH.(free := 2), Left(a, b, 0), 0, None, [], 0, 0), r, limit);
    turns := before + [Happens(On(0, READY))] + [Happens(On(0, READY))];
  }

  /** The claimed job, as its child has it. */
  function ClaimedJob(a: NewJob, b: NewJob, claimed: nat): Job {
    Job(claimed, 1, 0, if claimed == 0 then a else b)
  }

  lemma Claims(c: Child, a: NewJob, b: NewJob, claimed: nat, s: Paced, r: Registry, limit: Limit)
    requires limit.rate > 0.0 && claimed < 2 && Asks(c) && Held(c, claimed) == 0
    requires s == Scene(c, Left(a, b, claimed), s.batch.now, s.bucket, s.calls, s.cleared, s.dispatched)
    ensures Step(s, Happens(TryClaim(0)), r, limit)
            == Scene(c.(hand := Some(Hand(ClaimedJob(a, b, claimed), false))), Left(a, b, claimed + 1), s.batch.now,
                     s.bucket, s.calls, s.cleared, s.dispatched)
  {
    ClaimsNext(a, b, claimed, s.batch.now);
    var d := MemoryQueue.Delivery(claimed, MemoryQueue.Record.Record(if claimed == 0 then a else b, 1, 0));
    assert Adopt(d) == ClaimedJob(a, b, claimed);
    TakesOn(c, ClaimedJob(a, b, claimed), r.child);
  }

  lemma TakesOn(c: Child, job: Job, cfg: Cfg)
    requires Asks(c) && Held(c, job.taskId) == 0
    ensures S.Step(c, S.Event.Claim(job), cfg).0 == c.(hand := Some(Hand(job, false)))
  {
  }

  /** With a bucket of one that has refilled, or was never touched, a job is cleared. */
  lemma Clears(c: Child, q: MemoryQueue.Queue, s: Paced, r: Registry, limit: Limit)
    requires limit.rate > 0.0 && limit.burst == 1 && c.mode.Serving? && c.hand.Some? && !c.hand.value.cleared
    requires Governs(limit, c.hand.value.job) && c.hand.value.job.readyMs == 0
    requires s == Scene(c, q, s.batch.now, s.bucket, s.calls, s.cleared, s.dispatched)
    requires s.bucket.Some? ==>
               s.bucket.value == U.Bucket(0.0, 0.0) && U.At(limit.rate)(Seconds(s.batch)) >= 1.0
    ensures Step(s, Happens(On(0, S.Event.Clear)), r, limit)
            == Scene(c.(hand := Some(c.hand.value.(cleared := true))), q, s.batch.now,
                     Some(U.Bucket(0.0, Seconds(s.batch))), s.calls + [U.Call(Seconds(s.batch), Seconds(s.batch))],
                     s.cleared + 1, s.dispatched)
  {
    var call := U.Call(Seconds(s.batch), Seconds(s.batch));
    assert U.At(limit.rate)(U.Above0(call.read - call.now)) == 0.0;
    assert U.Refilled(s.bucket, U.At(limit.rate), 1, call) == 1.0;
    assert S.Step(c, S.Event.Clear, r.child) == (c.(hand := Some(c.hand.value.(cleared := true))), None);
    assert s.early - {0} == map[];
  }

  lemma Goes(c: Child, q: MemoryQueue.Queue, s: Paced, r: Registry, limit: Limit)
    requires limit.rate > 0.0 && c.mode.Serving? && c.hand.Some? && c.hand.value.cleared && c.free > 0
    requires Governs(limit, c.hand.value.job)
    requires s == Scene(c, q, s.batch.now, s.bucket, s.calls, s.cleared, s.dispatched)
    ensures var job := c.hand.value.job;
            Step(s, Happens(On(0, S.Event.Dispatch)), r, limit)
            == Scene(c.(hand := None, inflight := c.inflight[job.taskId := job], free := c.free - 1), q, s.batch.now,
                     s.bucket, s.calls, s.cleared, s.dispatched + 1)
  {
  }

  /** One job cleared at the start, and the clock run on until the bucket has refilled. */
  lemma ClearedAndRefilled(a: NewJob, b: NewJob, r: Registry, limit: Limit, ms: nat) returns (turns: seq<Turn>)
    requires limit.rate > 0.0 && limit.burst == 1 && a.name == limit.name
    ensures Run([a, b], 0, turns, r, limit)
            == Scene(FRESH.(free := 2, hand := Some(Hand(ClaimedJob(a, b, 0), true))), Left(a, b, 1), ms,
                     Some(U.Bucket(0.0, 0.0)), [U.Call(0.0, 0.0)], 1, 0)
  {
    var before := OffersTwo(a, b, r, limit);
    var free, hand := FRESH.(free := 2), Hand(ClaimedJob(a, b, 0), false);
    var offered := Scene(free, Left(a, b, 0), 0, None, [], 0, 0);
    var claimed := Scene(free.(hand := Some(hand)), Left(a, b, 1), 0, None, [], 0, 0);
    Claims(free, a, b, 0, offered, r, limit);
    NextTurn([a, b], before, offered, Happens(TryClaim(0)), claimed, r, limit);
    Clears(free.(hand := Some(hand)), Left(a, b, 1), claimed, r, limit);
    var cleared := Step(claimed, Happens(On(0, S.Event.Clear)), r, limit);
    NextTurn([a, b], before + [Happens(TryClaim(0))], claimed, Happens(On(0, S.Event.Clear)), cleared, r, limit);
    turns := before + [Happens(TryClaim(0))] + [Happens(On(0, S.Event.Clear))];
    NextTurn([a, b], turns, cleared, Happens(Pass(ms)), cleared.(batch := cleared.batch.(now := ms)), r, limit);
    turns := turns + [Happens(Pass(ms))];
  }

  /** The first job goes, and the second is claimed, cleared on the refilled token and goes too. */
  lemma BothGo(a: NewJob, b: NewJob, s: Paced, r: Registry, limit: Limit) returns (ts: seq<Turn>, s': Paced)
    requires limit.rate > 0.0 && limit.burst == 1 && a.name == limit.name && b.name == limit.name
    requires U.At(limit.rate)(Seconds(s.batch)) >= 1.0
    requires s == Scene(FRESH.(free := 2, hand := Some(Hand(ClaimedJob(a, b, 0), true))), Left(a, b, 1), s.batch.now,
                        Some(U.Bucket(0.0, 0.0)), [U.Call(0.0, 0.0)], 1, 0)
    ensures Onward(s, ts, r, limit) == s' && OverBy(s, s', limit, 1)
  {
    var one := FRESH.(free := 1, inflight := map[0 := ClaimedJob(a, b, 0)]);
    var hand := Hand(ClaimedJob(a, b, 1), false);
    Goes(s.batch.children[0], Left(a, b, 1), s, r, limit);
    var s1 := Step(s, Happens(On(0, S.Event.Dispatch)), r, limit);
    Claims(one, a, b, 1, s1, r, limit);
    var s2 := Step(s1, Happens(TryClaim(0)), r, limit);
    Clears(one.(hand := Some(hand)), Left(a, b, 2), s2, r, limit);
    var s3 := Step(s2, Happens(On(0, S.Event.Clear)), r, limit);
    Goes(one.(hand := Some(hand.(cleared := true))), Left(a, b, 2), s3, r, limit);
    s' := Step(s3, Happens(On(0, S.Event.Dispatch)), r, limit);
    OneTurnOn(s, [], s, Happens(On(0, S.Event.Dispatch)), s1, r, limit);
    ts := [] + [Happens(On(0, S.Event.Dispatch))];
    OneTurnOn(s, ts, s1, Happens(TryClaim(0)), s2, r, limit);
    ts := ts + [Happens(TryClaim(0))];
    OneTurnOn(s, ts, s2, Happens(On(0, S.Event.Clear)), s3, r, limit);
    ts := ts + [Happens(On(0, S.Event.Clear))];
    OneTurnOn(s, ts, s3, Happens(On(0, S.Event.Dispatch)), s', r, limit);
    ts := ts + [Happens(On(0, S.Event.Dispatch))];
    IsOver(s, s', limit, s.batch.children[0]);
  }

  lemma IsOver(s: Paced, s': Paced, limit: Limit, c: Child)
    requires limit.burst == 1 && s.batch.children == [c] && HasCleared(c, limit) == 1
    requires s'.batch.now == s.batch.now && s'.dispatched == s.dispatched + 2
    requires s'.calls == s.calls + [U.Call(Seconds(s.batch), Seconds(s.batch))]
    ensures OverBy(s, s', limit, 1)
  {
    assert s'.calls[|s.calls|..] == [U.Call(Seconds(s.batch), Seconds(s.batch))];
    SumOneMore([], c, ClearedOf(limit));
    assert [] + [c] == [c];
  }

  /** In no time and with no wait, more were dispatched than the burst, by as many as were ready to go. */
  predicate OverBy(s: Paced, s': Paced, limit: Limit, n: nat) {
    && s'.batch.now == s.batch.now && |s.calls| <= |s'.calls| && Waited(s, s') == 0.0
    && ReadyToGo(s.batch, limit) == n && s'.dispatched == s.dispatched + limit.burst + n
  }

  function Onward(s: Paced, ts: seq<Turn>, r: Registry, limit: Limit): Paced
    requires limit.rate > 0.0
    decreases |ts|
  {
    if ts == [] then s else Step(Onward(s, ts[..|ts| - 1], r, limit), ts[|ts| - 1], r, limit)
  }

  lemma OneTurnOn(s: Paced, ts: seq<Turn>, m: Paced, t: Turn, m': Paced, r: Registry, limit: Limit)
    requires limit.rate > 0.0 && Onward(s, ts, r, limit) == m && Step(m, t, r, limit) == m'
    ensures Onward(s, ts + [t], r, limit) == m'
  {
    assert (ts + [t])[..|ts|] == ts;
  }

  lemma {:induction false} RunsOnward(jobs: seq<NewJob>, turns: seq<Turn>, ts: seq<Turn>, r: Registry, limit: Limit)
    requires limit.rate > 0.0
    ensures Run(jobs, 0, turns + ts, r, limit) == Onward(Run(jobs, 0, turns, r, limit), ts, r, limit)
    decreases |ts|
  {
    if ts == [] {
      assert turns + ts == turns;
    } else {
      RunsOnward(jobs, turns, ts[..|ts| - 1], r, limit);
      assert (turns + ts)[..|turns + ts| - 1] == turns + ts[..|ts| - 1];
    }
  }

  lemma ARefillComes(rate: real) returns (ms: nat)
    requires rate > 0.0
    ensures U.At(rate)(ms as real / 1000.0) >= 1.0
  {
    var t := 1.0 / rate;
    U.CeilBounds(t * 1000.0);
    ms := U.Ceil(t * 1000.0);
    MoreIsWorthMore(rate, t, ms as real / 1000.0);
    assert U.At(rate)(t) == 1.0;
  }

  /** They do: at any rate a run comes to dispatch two jobs of a task with a burst of one in no time at
      all and with no wait for the lock, having had one of them cleared. */
  lemma TheClearedOnesAdd(a: NewJob, b: NewJob, r: Registry, limit: Limit) returns (turns: seq<Turn>, k: nat)
    requires limit.rate > 0.0 && limit.burst == 1 && a.name == limit.name && b.name == limit.name
    ensures k <= |turns| && OverBy(Run([a, b], 0, turns[..k], r, limit), Run([a, b], 0, turns, r, limit), limit, 1)
  {
    var ms := ARefillComes(limit.rate);
    var before := ClearedAndRefilled(a, b, r, limit, ms);
    var ts, s' := BothGo(a, b, Run([a, b], 0, before, r, limit), r, limit);
    RunsOnward([a, b], before, ts, r, limit);
    turns, k := before + ts, |before|;
    assert turns[..k] == before;
  }
}
