/** In-process coordination: rate buckets, expiring concurrency slots and cron ticks. */
module Coordination {
  import opened Results
  import opened Buckets

  /** Who holds a task's slots, and until when, in seconds. */
  type Holders = map<string, real>

  function Live(held: Holders, now: real): Holders {
    map k | k in held && held[k] > now :: held[k]
  }

  function Max(a: nat, b: nat): nat { if a >= b then a else b }

  /** Prune, count, and add if there is room. A key that already holds a slot is no exception. */
  function Acquire(held: Holders, key: string, cap: nat, leaseMs: nat, now: real): (Holders, bool) {
    var live := Live(held, now);
    if |live| >= cap then (live, false)
    else (live[key := now + Max(leaseMs, 1) as real / 1000.0], true)
  }

  function Release(held: Holders, key: string): Holders {
    held - {key}
  }

  class LocalCoordination {
    var ticks: set<(string, int)>
    var buckets: map<string, Bucket>
    var slots: map<string, Holders>

    constructor ()
      ensures ticks == {} && buckets == map[] && slots == map[]
    {
      ticks, buckets, slots := {}, map[], map[];
    }

    function BucketOf(task: string): Option<Bucket>
      reads this
    {
      if task in buckets then Some(buckets[task]) else None
    }

    function HoldersOf(task: string): Holders
      reads this
    {
      if task in slots then slots[task] else map[]
    }

    method TakeToken(task: string, rate: real, burst: nat, now: real, read: real) returns (wait: nat)
      requires rate > 0.0
      modifies this
      ensures wait == Wait(old(BucketOf(task)), rate, burst, Call(now, read))
      ensures buckets == old(buckets)[task := Called(old(BucketOf(task)), At(rate), burst, Call(now, read))]
      ensures slots == old(slots) && ticks == old(ticks)
    {
      if task !in buckets {
        buckets := buckets[task := Bucket(burst as real, now)];
      }
      var held := buckets[task];
      var tokens := Min(held.tokens + At(rate)(Above0(read - held.seen)), burst as real);
      if tokens >= 1.0 {
        tokens := tokens - 1.0;
        wait := 0;
      } else {
        PositiveShare(1.0 - tokens, rate);
        wait := Ceil((1.0 - tokens) / rate * 1000.0);
      }
      buckets := buckets[task := Bucket(tokens, now)];
    }

    method AcquireSlot(task: string, jobId: string, cap: nat, leaseMs: nat, now: real) returns (taken: bool)
      modifies this
      ensures var (held, ok) := Acquire(old(HoldersOf(task)), jobId, cap, leaseMs, now);
              taken == ok && slots == old(slots)[task := held]
      ensures buckets == old(buckets) && ticks == old(ticks)
    {
      if task !in slots {
        slots := slots[task := map[]];
      }
      var held := Live(slots[task], now);
      slots := slots[task := held];
      if |held| >= cap {
        return false;
      }
      slots := slots[task := held[jobId := now + Max(leaseMs, 1) as real / 1000.0]];
      return true;
    }

    method ReleaseSlot(task: string, jobId: string)
      modifies this
      ensures HoldersOf(task) == Release(old(HoldersOf(task)), jobId)
      ensures forall other :: other != task ==> HoldersOf(other) == old(HoldersOf(other))
      ensures buckets == old(buckets) && ticks == old(ticks)
    {
      if task in slots {
        slots := slots[task := slots[task] - {jobId}];
      }
    }

    /** True for the first caller of a minute, and for no later one. */
    method ClaimTick(name: string, minute: int) returns (won: bool)
      modifies this
      ensures won <==> (name, minute) !in old(ticks)
      ensures ticks == old(ticks) + {(name, minute)} && buckets == old(buckets) && slots == old(slots)
    {
      won := (name, minute) !in ticks;
      ticks := ticks + {(name, minute)};
    }
  }

  lemma SubsetIsSmaller(a: set<string>, b: set<string>)
    requires a <= b
    ensures |a| <= |b|
  {
    assert b == a + (b - a);
  }
}
