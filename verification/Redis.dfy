/** The Redis broker's own arithmetic: when the sweep may take an entry, how a backoff is written
    into an idle clock, and the buffer of entries a worker owns and has not handed out. */
module Redis {
  import opened Results

  const UNSET := 0xFFFF_FFFF_FFFF_FFFF

  function Less(a: nat, b: nat): nat { if a >= b then a - b else 0 }

  function Min(a: nat, b: nat): nat { if a <= b then a else b }

  function Max(a: nat, b: nat): nat { if a >= b then a else b }

  // ------------------------------------------------------- backoff and the sweep

  /** What a requeue sets the idle clock to: wound back from the deadline by the delay, and one past. */
  function IdleAfterRequeue(timeoutMs: nat, graceMs: nat, delayMs: nat): nat {
    Less(timeoutMs + graceMs, delayMs) + 1
  }

  /** The least idle time the sweep asks the server for; none before anything was ever read. */
  function Floor(minTimeoutMs: nat, graceMs: nat): Option<nat> {
    if minTimeoutMs == UNSET then None else Some(Min(minTimeoutMs + graceMs, UNSET))
  }

  /** Whether the server lists an entry to a sweep that asks from a floor. */
  predicate Listed(idle: nat, minTimeoutMs: nat, graceMs: nat) {
    Floor(minTimeoutMs, graceMs).Some? && idle >= Floor(minTimeoutMs, graceMs).value
  }

  /** Whether a sweep finds an entry overdue: idle for longer than its own timeout and the grace. */
  predicate Overdue(idle: nat, timeoutMs: nat, graceMs: nat) {
    idle > timeoutMs + graceMs
  }

  /** Whether the server lets a sweep take it. */
  predicate Gate(idle: nat, timeoutMs: nat, graceMs: nat) {
    idle >= timeoutMs + graceMs
  }

  /** An entry requeued with a delay is overdue from exactly that many milliseconds later, or its
      whole deadline if that is less: a backoff is capped at one deadline, and never cut short. */
  lemma BackoffIsTheDelayCapped(timeoutMs: nat, graceMs: nat, delayMs: nat, waited: nat)
    ensures Overdue(IdleAfterRequeue(timeoutMs, graceMs, delayMs) + waited, timeoutMs, graceMs)
            <==> waited >= Min(delayMs, timeoutMs + graceMs)
  {
  }

  /** The floor hides no overdue entry exactly when the shortest timeout this worker has seen is no
      more than a millisecond above the entry's own. */
  lemma FloorHidesNothingOverdueIff(timeoutMs: nat, graceMs: nat, minTimeoutMs: nat)
    requires minTimeoutMs < UNSET && timeoutMs + graceMs + 1 < UNSET
    ensures (forall idle: nat :: Overdue(idle, timeoutMs, graceMs) ==> Listed(idle, minTimeoutMs, graceMs))
            <==> minTimeoutMs <= timeoutMs + 1
  {
    var first := timeoutMs + graceMs + 1;
    assert Overdue(first, timeoutMs, graceMs);
    assert Listed(first, minTimeoutMs, graceMs) <==> minTimeoutMs <= timeoutMs + 1;
  }

  /** So a requeued entry whose timeout this worker knows is first listed and overdue together. */
  lemma RequeuedIsSweptOnTime(timeoutMs: nat, graceMs: nat, delayMs: nat, minTimeoutMs: nat, waited: nat)
    requires minTimeoutMs <= timeoutMs && timeoutMs + graceMs + 1 < UNSET
    ensures var idle := IdleAfterRequeue(timeoutMs, graceMs, delayMs) + waited;
            Listed(idle, minTimeoutMs, graceMs) && Overdue(idle, timeoutMs, graceMs)
            <==> waited >= Min(delayMs, timeoutMs + graceMs)
  {
    BackoffIsTheDelayCapped(timeoutMs, graceMs, delayMs, waited);
    FloorHidesNothingOverdueIff(timeoutMs, graceMs, minTimeoutMs);
  }

  /** Before the sweep has said what its grace is, a requeue counts none: the entry then waits the
      grace on top of its delay. */
  lemma UnrecordedGraceIsAdded(timeoutMs: nat, graceMs: nat, delayMs: nat, waited: nat)
    ensures Overdue(IdleAfterRequeue(timeoutMs, 0, delayMs) + waited, timeoutMs, graceMs)
            <==> waited >= graceMs + Min(delayMs, timeoutMs)
  {
  }

  // ---------------------------------------------------------------- the buffer

  /** An entry this worker owns: when it was told so, and the time it may wait before being handed
      out. `stamp` tells one claim of an entry from another. */
  datatype Held = Held(entry: nat, stamp: nat, since: nat, deadline: nat)

  /** An entry as a read or a sweep delivers it. */
  datatype Entry = Entry(id: nat, stamp: nat, timeoutMs: nat)

  /** It may wait for its own timeout, and for a moment even if that is nothing. */
  function Taken(e: Entry, now: nat): Held { Held(e.id, e.stamp, now, Max(e.timeoutMs, 1)) }

  function TakenAll(entries: seq<Entry>, now: nat): seq<Held> {
    seq(|entries|, i requires 0 <= i < |entries| => Taken(entries[i], now))
  }

  predicate InTime(h: Held, now: nat) {
    Less(now, h.since) < h.deadline
  }

  /** How many of the first entries have outwaited their time. */
  function Outwaited(buffer: seq<Held>, now: nat): (k: nat)
    ensures k <= |buffer|
    ensures forall j :: 0 <= j < k ==> !InTime(buffer[j], now)
    ensures k < |buffer| ==> InTime(buffer[k], now)
  {
    if buffer == [] || InTime(buffer[0], now) then 0
    else
      var rest := Outwaited(buffer[1..], now);
      assert forall j :: 0 < j < 1 + rest ==> buffer[j] == buffer[1..][j - 1];
      1 + rest
  }

  function Halved(prefetch: nat, times: nat): nat {
    if times == 0 then prefetch else Max(Halved(prefetch, times - 1) / 2, 1)
  }

  /** One worker's claim path. */
  class RedisWorker {
    var claimed: seq<Held>
    var prefetch: nat
    var prefetchCap: nat
    var minTimeoutMs: nat

    predicate Valid()
      reads this
    {
      1 <= prefetch <= Max(prefetchCap, 1)
    }

    constructor (cap: nat)
      ensures Valid() && claimed == [] && prefetch == 1 && prefetchCap == cap && minTimeoutMs == UNSET
    {
      claimed, prefetch, prefetchCap, minTimeoutMs := [], 1, cap, UNSET;
    }

    /** Hand out the first buffered entry with time left. Those that have outwaited it are dropped,
        to be swept up by whoever is free, and each halves the next batch. */
    method PopInTime(now: nat) returns (d: Option<Held>)
      requires Valid()
      modifies this`claimed, this`prefetch
      ensures Valid()
      ensures var k := Outwaited(old(claimed), now);
              && prefetch == Halved(old(prefetch), k)
              && (if k < |old(claimed)| then d == Some(old(claimed)[k]) && claimed == old(claimed)[k + 1..]
                  else d == None && claimed == [])
    {
      d := None;
      ghost var gone := 0;
      while claimed != []
        invariant Valid() && d == None
        invariant gone <= |old(claimed)| && claimed == old(claimed)[gone..]
        invariant Outwaited(old(claimed), now) == gone + Outwaited(claimed, now)
        invariant prefetch == Halved(old(prefetch), gone)
        decreases |claimed|
      {
        var head := claimed[0];
        claimed := claimed[1..];
        if InTime(head, now) {
          return Some(head);
        }
        prefetch := Max(prefetch / 2, 1);
        gone := gone + 1;
      }
    }

    /** What a read returns all belongs to this worker now: one is handed out, the rest are kept, and
        the next batch is twice as large, up to the cap. */
    method TakeBatch(read: seq<Entry>, now: nat) returns (d: Option<Held>)
      requires Valid() && claimed == []
      modifies this`claimed, this`prefetch, this`minTimeoutMs
      ensures Valid()
      ensures if read == [] then d == None && claimed == [] && prefetch == old(prefetch)
              else d == Some(Taken(read[0], now)) && claimed == TakenAll(read[1..], now)
                   && prefetch == Min(2 * old(prefetch), Max(prefetchCap, 1))
      ensures minTimeoutMs <= old(minTimeoutMs)
      ensures forall i :: 0 <= i < |read| && read[i].timeoutMs > 0 ==> minTimeoutMs <= read[i].timeoutMs
    {
      d := None;
      var i := 0;
      while i < |read|
        invariant i <= |read|
        invariant if i == 0 then d == None && claimed == []
                  else d == Some(Taken(read[0], now)) && claimed == TakenAll(read[1..i], now)
        invariant minTimeoutMs <= old(minTimeoutMs)
        invariant forall j :: 0 <= j < i && read[j].timeoutMs > 0 ==> minTimeoutMs <= read[j].timeoutMs
        invariant prefetch == old(prefetch)
      {
        if read[i].timeoutMs > 0 { minTimeoutMs := Min(minTimeoutMs, read[i].timeoutMs); }
        if d == None { d := Some(Taken(read[0], now)); } else { claimed := claimed + [Taken(read[i], now)]; }
        i := i + 1;
      }
      if d != None {
        assert read[1..|read|] == read[1..];
        prefetch := Min(2 * prefetch, Max(prefetchCap, 1));
      }
    }

    /** One claim: what is already owned goes out first, and only an empty buffer asks the server. */
    method ClaimNext(read: seq<Entry>, now: nat) returns (d: Option<Held>)
      requires Valid()
      modifies this`claimed, this`prefetch, this`minTimeoutMs
      ensures Valid()
      ensures var k := Outwaited(old(claimed), now);
              if k < |old(claimed)| then d == Some(old(claimed)[k]) && claimed == old(claimed)[k + 1..]
              else if read == [] then d == None && claimed == []
              else d == Some(Taken(read[0], now)) && claimed == TakenAll(read[1..], now)
      ensures d.Some? ==> InTime(d.value, now)
    {
      d := PopInTime(now);
      if d == None {
        d := TakeBatch(read, now);
      }
    }
  }
}
