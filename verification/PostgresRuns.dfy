/** Many workers and operators over one pair of tables, in any interleaving of their statements:
    late settlements are fenced off, leases overlap only by consent, and no job is lost. */
module PostgresRuns {
  import opened Results
  import opened Chains
  import opened P = Postgres

  /** A claim that was made: its receipt, from when, until when the row was hidden for it, and
      whether its holder has handed the row back. */
  datatype Lease = Lease(receipt: Receipt, from: nat, until: nat, returned: bool)

  /** The tables, the time, and what has happened: the claims in order, and the ids that were
      acked, trimmed, purged, or replayed under another id. */
  datatype World = World(
    t: Tables, now: nat, leases: seq<Lease>,
    acked: set<nat>, trimmed: set<nat>, purged: set<nat>, replayed: set<nat>)

  /** One statement each. Receipts may be any; the rows a claim may pick and a trim may drop, and
      the order a replay goes in, are the database's choice. */
  datatype Event =
    | Pass(ms: nat)
    | Pushing(job: NewJob, delayMs: nat)
    | Claiming(queues: seq<string>, graceMs: nat, locked: set<nat>, picked: nat)
    | Acking(r: Receipt)
    | Requeueing(r: Receipt, delayMs: nat)
    | Burying(r: Receipt, error: string, traceback: string)
    | Trimming(row: nat, keep: nat, dropped: set<nat>)
    | Replaying(queue: string, ids: seq<string>, order: seq<nat>)
    | Purging(queue: string, ids: seq<string>)

  /** Whoever gives a row back: the lease whose receipt was used. */
  function Returned(leases: seq<Lease>, r: Receipt): (marked: seq<Lease>)
    ensures |marked| == |leases|
    ensures forall i :: 0 <= i < |leases| ==>
            marked[i] == if leases[i].receipt == r then leases[i].(returned := true) else leases[i]
  {
    seq(|leases|, i requires 0 <= i < |leases| =>
      if leases[i].receipt == r then leases[i].(returned := true) else leases[i])
  }

  function LeaseOf(t: Tables, id: nat, graceMs: nat, now: nat): Lease
    requires id in t.jobs
  {
    Lease(Receipt(id, t.jobs[id].runLease + 1), now, now + t.jobs[id].job.timeoutMs + graceMs, false)
  }

  /** Whether the database would do this; otherwise nothing happens. */
  ghost predicate Happens(w: World, e: Event) {
    match e
    case Claiming(queues, _, locked, picked) => Picks(w.t, queues, locked, w.now, Some(picked))
    case Trimming(row, keep, dropped) => keep > 0 && TrimsAfter(w.t, row, keep, dropped)
    case Replaying(queue, ids, order) => Lists(order, Selected(w.t, queue, ids))
    case _ => true
  }

  ghost function Step(w: World, e: Event): World {
    if !Happens(w, e) then w
    else
      match e
      case Pass(ms) => w.(now := w.now + ms)
      case Pushing(job, delayMs) => w.(t := Push(w.t, job, delayMs, w.now))
      case Claiming(queues, graceMs, _, id) =>
        w.(t := Claim(w.t, id, graceMs, w.now), leases := w.leases + [LeaseOf(w.t, id, graceMs, w.now)])
      case Acking(r) => w.(t := Ack(w.t, r), acked := w.acked + if Effective(w.t, r) then {r.row} else {})
      case Requeueing(r, delayMs) =>
        w.(t := Requeue(w.t, r, delayMs, w.now),
          leases := if Effective(w.t, r) then Returned(w.leases, r) else w.leases)
      case Burying(r, error, traceback) => w.(t := Bury(w.t, r, error, traceback, w.now))
      case Trimming(_, _, dropped) => w.(t := Purge(w.t, dropped), trimmed := w.trimmed + dropped)
      case Replaying(queue, ids, order) =>
        w.(t := Replay(w.t, order, w.now), replayed := w.replayed + Selected(w.t, queue, ids))
      case Purging(queue, ids) =>
        w.(t := Purge(w.t, Selected(w.t, queue, ids)), purged := w.purged + Selected(w.t, queue, ids))
  }

  const BEGINNING := World(EMPTY, 0, [], {}, {}, {}, {})

  ghost function Run(events: seq<Event>): World
    decreases |events|
  {
    if events == [] then BEGINNING else Step(Run(events[..|events| - 1]), events[|events| - 1])
  }

  function One(b: bool): nat { if b then 1 else 0 }

  // ------------------------------------------------- every job is somewhere, once

  function Fates(w: World, id: nat): nat {
    One(id in w.t.jobs) + One(id in w.t.dead) + One(id in w.acked) + One(id in w.trimmed) + One(id in w.purged)
      + One(id in w.replayed)
  }

  ghost predicate OneFateEach(w: World) {
    forall id: nat :: Fates(w, id) == One(id < w.t.nextId)
  }

  lemma RowsAreBelow(w: World)
    requires OneFateEach(w)
    ensures forall id :: id in w.t.jobs ==> id < w.t.nextId
    ensures forall id :: id in w.t.jobs ==> id !in w.t.dead
  {
    forall id | id in w.t.jobs ensures id < w.t.nextId && id !in w.t.dead {
      assert Fates(w, id) == One(id < w.t.nextId);
    }
  }

  lemma StepKeepsFates(w: World, e: Event)
    requires OneFateEach(w)
    ensures OneFateEach(Step(w, e))
  {
    var w' := Step(w, e);
    RowsAreBelow(w);
    if e.Replaying? && Happens(w, e) { ReplayMovesEachOnce(w.t, e.order, w.now); }
    forall id: nat ensures Fates(w', id) == One(id < w'.t.nextId) {
      assert Fates(w, id) == One(id < w.t.nextId);
    }
  }

  lemma {:induction false} FatesAlways(events: seq<Event>)
    ensures OneFateEach(Run(events))
    decreases |events|
  {
    if events == [] {
      forall id: nat ensures Fates(BEGINNING, id) == 0 {}
    } else {
      FatesAlways(events[..|events| - 1]);
      StepKeepsFates(Run(events[..|events| - 1]), events[|events| - 1]);
    }
  }

  // ------------------------------------------------------------------ fencing

  /** The retry count and the fence move together, and fresh rows start at nothing. */
  ghost predicate Counted(w: World) {
    forall id :: id in w.t.jobs ==> w.t.jobs[id].attempt == w.t.jobs[id].runLease
  }

  /** Lease numbers only go up, row by row, and the row carries the last. */
  ghost predicate Rising(w: World) {
    && (forall i :: 0 <= i < |w.leases| ==> w.leases[i].receipt.row < w.t.nextId)
    && (forall i :: 0 <= i < |w.leases| && w.leases[i].receipt.row in w.t.jobs ==>
          w.leases[i].receipt.runLease <= w.t.jobs[w.leases[i].receipt.row].runLease)
    && (forall i, j :: 0 <= i < j < |w.leases| && w.leases[i].receipt.row == w.leases[j].receipt.row ==>
          w.leases[i].receipt.runLease < w.leases[j].receipt.runLease)
  }

  /** A row whose holder has not handed it back is hidden for as long as it was claimed. */
  ghost predicate Hidden(w: World) {
    forall i :: 0 <= i < |w.leases| && Effective(w.t, w.leases[i].receipt) && !w.leases[i].returned ==>
      w.t.jobs[w.leases[i].receipt.row].leaseUntil == Some(w.leases[i].until)
  }

  predicate Next(a: Lease, b: Lease) {
    a.receipt.row == b.receipt.row && b.receipt.runLease == a.receipt.runLease + 1
  }

  /** One lease on a row begins after the one before it has run out, unless that was handed back. */
  ghost predicate Apart(w: World) {
    forall i, j :: 0 <= i < |w.leases| && 0 <= j < |w.leases| && Next(w.leases[i], w.leases[j]) ==>
      w.leases[i].returned || w.leases[i].until < w.leases[j].from
  }

  ghost predicate Fenced(w: World) {
    Counted(w) && Rising(w) && Hidden(w) && Apart(w)
  }

  /** What a claim does: the row's numbers go up together, it is hidden again, and a lease is noted. */
  predicate Claims(w: World, w': World, id: nat, l: Lease) {
    && id in w.t.jobs && id < w.t.nextId && w'.t.nextId == w.t.nextId
    && var row := w.t.jobs[id];
       && (row.leaseUntil.None? || row.leaseUntil.value < w.now)
       && l.receipt == Receipt(id, row.runLease + 1) && l.from == w.now && !l.returned
       && w'.t.jobs == w.t.jobs[id :=
          row.(leaseUntil := Some(l.until), attempt := row.attempt + 1, runLease := row.runLease + 1)]
       && w'.leases == w.leases + [l]
  }

  lemma ClaimingClaims(w: World, e: Event)
    requires OneFateEach(w) && e.Claiming? && Happens(w, e)
    ensures Claims(w, Step(w, e), e.picked, LeaseOf(w.t, e.picked, e.graceMs, w.now))
  {
    RowsAreBelow(w);
  }

  lemma ClaimKeepsRising(w: World, w': World, id: nat, l: Lease)
    requires Claims(w, w', id, l) && Rising(w)
    ensures Rising(w')
  {
  }

  lemma ClaimKeepsHidden(w: World, w': World, id: nat, l: Lease)
    requires Claims(w, w', id, l) && Rising(w) && Hidden(w)
    ensures Hidden(w')
  {
  }

  /** The lease before it, if it was not handed back, has hidden the row until it ran out. */
  lemma ClaimComesAfter(w: World, w': World, id: nat, l: Lease, i: nat)
    requires Claims(w, w', id, l) && Hidden(w) && i < |w.leases| && Next(w.leases[i], l)
    ensures w.leases[i].returned || w.leases[i].until < l.from
  {
    assert Effective(w.t, w.leases[i].receipt);
  }

  lemma ClaimKeepsApart(w: World, w': World, id: nat, l: Lease)
    requires Claims(w, w', id, l) && Rising(w) && Hidden(w) && Apart(w)
    ensures Apart(w')
  {
    var n := |w.leases|;
    forall i, j | 0 <= i <= n && 0 <= j <= n && Next(w'.leases[i], w'.leases[j])
      ensures w'.leases[i].returned || w'.leases[i].until < w'.leases[j].from
    {
      assert i < n;
      if j == n { ClaimComesAfter(w, w', id, l, i); }
    }
  }

  lemma ClaimKeepsFenced(w: World, e: Event)
    requires OneFateEach(w) && Fenced(w) && e.Claiming? && Happens(w, e)
    ensures Fenced(Step(w, e))
  {
    var w', l := Step(w, e), LeaseOf(w.t, e.picked, e.graceMs, w.now);
    ClaimingClaims(w, e);
    ClaimKeepsRising(w, w', e.picked, l);
    ClaimKeepsHidden(w, w', e.picked, l);
    ClaimKeepsApart(w, w', e.picked, l);
  }

  lemma RequeueKeepsFenced(w: World, e: Event)
    requires Fenced(w) && e.Requeueing?
    ensures Fenced(Step(w, e))
  {
  }

  /** Rows may go, and rows may come under ids no lease was ever on; none changes. */
  ghost predicate OnlyComeAndGo(w: World, w': World) {
    && w'.leases == w.leases && w'.t.nextId >= w.t.nextId
    && forall id :: id in w'.t.jobs ==>
         if id in w.t.jobs then w'.t.jobs[id] == w.t.jobs[id]
         else id >= w.t.nextId && w'.t.jobs[id].attempt == 0 && w'.t.jobs[id].runLease == 0
  }

  lemma ComingAndGoingKeepFenced(w: World, w': World)
    requires OnlyComeAndGo(w, w') && Fenced(w)
    ensures Fenced(w')
  {
  }

  lemma ReplayingOnlyBrings(w: World, e: Event)
    requires OneFateEach(w) && e.Replaying?
    ensures OnlyComeAndGo(w, Step(w, e))
  {
    RowsAreBelow(w);
    if Happens(w, e) {
      ReplayMovesEachOnce(w.t, e.order, w.now);
      RevivedAreBlank(w.t, e.order, w.now);
    }
  }

  lemma OtherwiseKeepsFenced(w: World, e: Event)
    requires OneFateEach(w) && Fenced(w) && !e.Claiming? && !e.Requeueing?
    ensures Fenced(Step(w, e))
  {
    RowsAreBelow(w);
    if e.Replaying? { ReplayingOnlyBrings(w, e); }
    ComingAndGoingKeepFenced(w, Step(w, e));
  }

  lemma RevivedAreBlank(t: Tables, order: seq<nat>, now: nat)
    requires forall k :: 0 <= k < |order| ==> order[k] in t.dead
    requires forall id :: id in t.jobs ==> id < t.nextId
    ensures var t' := Replay(t, order, now);
            forall id :: id in t'.jobs && id !in t.jobs ==> t'.jobs[id].attempt == 0 && t'.jobs[id].runLease == 0
  {
    ReplayMovesEachOnce(t, order, now);
    var t' := Replay(t, order, now);
    forall id | id in t'.jobs && id !in t.jobs ensures t'.jobs[id].attempt == 0 && t'.jobs[id].runLease == 0 {
      assert t'.jobs[t.nextId + (id - t.nextId)] == Revived(t.dead[order[id - t.nextId]], now);
    }
  }

  lemma {:induction false} FencedAlways(events: seq<Event>)
    ensures Fenced(Run(events))
    decreases |events|
  {
    if events != [] {
      var w, e := Run(events[..|events| - 1]), events[|events| - 1];
      FencedAlways(events[..|events| - 1]);
      FatesAlways(events[..|events| - 1]);
      if e.Claiming? {
        if Happens(w, e) { ClaimKeepsFenced(w, e); }
      } else if e.Requeueing? {
        RequeueKeepsFenced(w, e);
      } else {
        OtherwiseKeepsFenced(w, e);
      }
    }
  }

  // ------------------------------------------------------------- main results

  /** Of all the receipts ever handed out for a row, at most one can still take effect: the last. */
  lemma AtMostOneReceiptTakesEffect(events: seq<Event>, i: nat, j: nat)
    requires var w := Run(events); i < |w.leases| && j < |w.leases| && Effective(w.t, w.leases[i].receipt)
    requires Run(events).leases[i].receipt.row == Run(events).leases[j].receipt.row
    ensures j <= i && (j < i ==> !Effective(Run(events).t, Run(events).leases[j].receipt))
  {
    FencedAlways(events);
  }

  /** One worker's lease on a row begins only after the previous one has run out, unless the worker
      that held it gave the row back. */
  lemma LeasesOverlapOnlyByConsent(events: seq<Event>, i: nat, j: nat)
    requires var w := Run(events); i < |w.leases| && j < |w.leases| && Next(w.leases[i], w.leases[j])
    ensures var w := Run(events); w.leases[i].returned || w.leases[i].until < w.leases[j].from
  {
    FencedAlways(events);
  }

  /** The policy that counts attempts and the fence that checks receipts never disagree. */
  lemma AttemptIsTheFence(events: seq<Event>, id: nat)
    requires id in Run(events).t.jobs
    ensures Run(events).t.jobs[id].attempt == Run(events).t.jobs[id].runLease
  {
    FencedAlways(events);
  }

  /** Beyond taking effect: the row is gone for good, or has been claimed again since. */
  ghost predicate Stale(w: World, r: Receipt) {
    r.row < w.t.nextId && (r.row in w.t.jobs ==> r.runLease < w.t.jobs[r.row].runLease)
  }

  lemma StepKeepsStale(w: World, e: Event, r: Receipt)
    requires OneFateEach(w) && Stale(w, r)
    ensures Stale(Step(w, e), r)
  {
    RowsAreBelow(w);
    if e.Replaying? && Happens(w, e) { ReplayMovesEachOnce(w.t, e.order, w.now); }
  }

  lemma {:induction false} StaleForGood(events: seq<Event>, k: nat, r: Receipt)
    requires k <= |events| && Stale(Run(events[..k]), r)
    ensures Stale(Run(events), r)
    decreases |events|
  {
    if k == |events| {
      assert events[..k] == events;
    } else {
      var before := events[..|events| - 1];
      assert before[..k] == events[..k];
      StaleForGood(before, k, r);
      FatesAlways(before);
      StepKeepsStale(Run(before), events[|events| - 1], r);
    }
  }

  /** A receipt that was handed out and can no longer take effect never will again: whenever its
      holder comes back to ack, requeue or bury, no job row changes and nothing is buried. */
  lemma ALateSettlementChangesNothing(events: seq<Event>, k: nat, i: nat, delayMs: nat, error: string,
        traceback: string)
    requires k <= |events| && i < |Run(events[..k]).leases|
    requires !Effective(Run(events[..k]).t, Run(events[..k]).leases[i].receipt)
    ensures var w, r := Run(events), Run(events[..k]).leases[i].receipt;
            && Step(w, Acking(r)).t == w.t
            && Step(w, Requeueing(r, delayMs)).t == w.t
            && Step(w, Burying(r, error, traceback)).t == w.t
  {
    FencedAlways(events[..k]);
    StaleForGood(events, k, Run(events[..k]).leases[i].receipt);
  }

  /** A dead letter never finds its id taken, so a burial never drops the job. */
  lemma BurialNeverConflicts(events: seq<Event>, r: Receipt, error: string, traceback: string)
    requires Effective(Run(events).t, r)
    ensures var t, now := Run(events).t, Run(events).now;
            && r.row !in t.dead
            && Bury(t, r, error, traceback, now).dead == t.dead[r.row := Buried(t.jobs[r.row], error, traceback, now)]
  {
    FatesAlways(events);
    RowsAreBelow(Run(events));
  }

  /** Every id ever given to a job is in exactly one place: live, dead, acked, trimmed, purged, or
      replayed under another id. Nothing is both live and dead, and no id comes round again. */
  lemma EveryJobHasOneFate(events: seq<Event>, id: nat)
    ensures var w := Run(events); Fates(w, id) == One(id < w.t.nextId)
  {
    FatesAlways(events);
    assert Fates(Run(events), id) == One(id < Run(events).t.nextId);
  }

  predicate Tidies(e: Event) { e.Trimming? || e.Replaying? || e.Purging? }

  lemma {:induction false} UntidiedIsEmpty(events: seq<Event>)
    requires forall i :: 0 <= i < |events| ==> !Tidies(events[i])
    ensures var w := Run(events); w.trimmed == {} && w.purged == {} && w.replayed == {}
    decreases |events|
  {
    if events != [] {
      UntidiedIsEmpty(events[..|events| - 1]);
    }
  }

  /** With no cap on the dead letters and no operator at work, every pushed job is live, acked or
      dead. */
  lemma PushedIsLiveAckedOrDead(events: seq<Event>, id: nat)
    requires forall i :: 0 <= i < |events| ==> !Tidies(events[i])
    requires id < Run(events).t.nextId
    ensures var w := Run(events); One(id in w.t.jobs) + One(id in w.acked) + One(id in w.t.dead) == 1
  {
    EveryJobHasOneFate(events, id);
    UntidiedIsEmpty(events);
  }

  /** A trim that still finds the letter it is for leaves at most `keep` in that letter's queue, the
      newest; one that does not leaves the dead letters alone. */
  lemma TrimLeavesAtMostKeep(w: World, row: nat, keep: nat, dropped: set<nat>)
    requires Happens(w, Trimming(row, keep, dropped))
    ensures var dead' := Step(w, Trimming(row, keep, dropped)).t.dead;
            if row in w.t.dead then
              var queue := w.t.dead[row].queue;
              && |InQueue(dead', queue)| <= keep
              && (forall a, b :: a in dropped && b in InQueue(dead', queue) ==>
                 w.t.dead[a].diedAt <= w.t.dead[b].diedAt)
              && (forall id :: id in w.t.dead && w.t.dead[id].queue != queue ==> id in dead')
            else dead' == w.t.dead
  {
    var dead' := Step(w, Trimming(row, keep, dropped)).t.dead;
    if row in w.t.dead {
      assert InQueue(dead', w.t.dead[row].queue) == InQueue(w.t.dead, w.t.dead[row].queue) - dropped;
    } else {
      assert dead' == w.t.dead;
    }
  }

  ghost function UntrimmedAfter(untrimmed: set<nat>, w: World, e: Event): set<nat> {
    if e.Burying? && Effective(w.t, e.r) then untrimmed + {e.r.row}
    else if e.Trimming? && Happens(w, e) then untrimmed - {e.row}
    else untrimmed
  }

  /** Letters whose burial's own trim, the second of its two statements, has not come yet. */
  ghost function Untrimmed(events: seq<Event>): set<nat>
    decreases |events|
  {
    if events == [] then {}
    else UntrimmedAfter(Untrimmed(events[..|events| - 1]), Run(events[..|events| - 1]), events[|events| - 1])
  }

  ghost predicate TrimTo(events: seq<Event>, cap: nat) {
    forall k :: 0 <= k < |events| && events[k].Trimming? ==> events[k].keep <= cap
  }

  lemma NoMore(a: set<nat>, b: set<nat>, n: nat)
    requires a <= b && |b| <= n
    ensures |a| <= n
  {
    assert b == a + (b - a);
  }

  lemma BuryingAddsItsOwn(w: World, e: Event, queue: string)
    requires e.Burying?
    ensures InQueue(Step(w, e).t.dead, queue)
            <= InQueue(w.t.dead, queue) + if Effective(w.t, e.r) then {e.r.row} else {}
  {
  }

  /** Only a burial adds a letter, and only its own. */
  lemma OthersAddNone(w: World, e: Event, queue: string)
    requires OneFateEach(w) && !e.Burying?
    ensures InQueue(Step(w, e).t.dead, queue) <= InQueue(w.t.dead, queue)
  {
    RowsAreBelow(w);
    if e.Replaying? && Happens(w, e) { ReplayMovesEachOnce(w.t, e.order, w.now); }
  }

  /** A trim of that queue brings it down to the cap; one of another queue, or that no longer finds its
      letter, has no letter of this queue to its name. */
  lemma TrimmingKeepsCap(w: World, e: Event, untrimmed: set<nat>, cap: nat, queue: string)
    requires e.Trimming? && Happens(w, e) && e.keep <= cap && |InQueue(w.t.dead, queue) - untrimmed| <= cap
    ensures |InQueue(Step(w, e).t.dead, queue) - (untrimmed - {e.row})| <= cap
  {
    var all, left := InQueue(w.t.dead, queue), InQueue(Step(w, e).t.dead, queue);
    if e.row in w.t.dead && w.t.dead[e.row].queue == queue {
      TrimLeavesAtMostKeep(w, e.row, e.keep, e.dropped);
      NoMore(left - (untrimmed - {e.row}), left, cap);
    } else {
      assert e.row !in all && left <= all;
      NoMore(left - (untrimmed - {e.row}), all - untrimmed, cap);
    }
  }

  lemma StepKeepsCap(w: World, e: Event, untrimmed: set<nat>, cap: nat, queue: string)
    requires OneFateEach(w) && |InQueue(w.t.dead, queue) - untrimmed| <= cap && (e.Trimming? ==> e.keep <= cap)
    ensures |InQueue(Step(w, e).t.dead, queue) - UntrimmedAfter(untrimmed, w, e)| <= cap
  {
    if e.Trimming? && Happens(w, e) {
      TrimmingKeepsCap(w, e, untrimmed, cap, queue);
    } else {
      if e.Burying? { BuryingAddsItsOwn(w, e, queue); } else { OthersAddNone(w, e, queue); }
      NoMore(InQueue(Step(w, e).t.dead, queue) - UntrimmedAfter(untrimmed, w, e),
        InQueue(w.t.dead, queue) - untrimmed, cap);
    }
  }

  /** With a cap on the dead letters, whatever else comes between a burial and its trim, each queue
      keeps at most that many of those whose trims have come: so once every burial has had its trim,
      no queue has more dead letters than the cap. */
  lemma {:induction false} EachQueueKeepsToTheCap(events: seq<Event>, cap: nat, queue: string)
    requires TrimTo(events, cap)
    ensures |InQueue(Run(events).t.dead, queue) - Untrimmed(events)| <= cap
    decreases |events|
  {
    if events == [] {
      assert InQueue(BEGINNING.t.dead, queue) == {};
    } else {
      var before := events[..|events| - 1];
      EachQueueKeepsToTheCap(before, cap, queue);
      FatesAlways(before);
      StepKeepsCap(Run(before), events[|events| - 1], Untrimmed(before), cap, queue);
    }
  }

  /** Replaying these letters takes one of them off the dead and makes it the row of a given id. */
  ghost predicate ComesBackAt(t: Tables, order: seq<nat>, now: nat, id: nat, row: nat) {
    && (forall k :: 0 <= k < |order| ==> order[k] in t.dead) && id in t.dead
    && var t' := Replay(t, order, now);
       id !in t'.dead && id !in t'.jobs && row in t'.jobs && t'.jobs[row] == Revived(t.dead[id], now)
  }

  lemma RevivedAt(t: Tables, order: seq<nat>, now: nat, k: nat)
    requires (forall j :: 0 <= j < |order| ==> order[j] in t.dead) && (forall id :: id in t.jobs ==> id < t.nextId)
    requires k < |order| && order[k] !in t.jobs && order[k] < t.nextId
    ensures ComesBackAt(t, order, now, order[k], t.nextId + k)
  {
    ReplayMovesEachOnce(t, order, now);
  }

  lemma DeadIsNotLive(w: World, id: nat)
    requires OneFateEach(w) && id in w.t.dead
    ensures id !in w.t.jobs && id < w.t.nextId
  {
    assert Fates(w, id) == One(id < w.t.nextId);
  }

  /** A letter's only place in an order. */
  ghost predicate OnlyAt(order: seq<nat>, id: nat, k: nat) {
    k < |order| && order[k] == id && forall j :: 0 <= j < |order| && j != k ==> order[j] != id
  }

  /** It is replayed once, at that place, and comes back under the id for it. */
  ghost predicate ReplayedOnce(w: World, order: seq<nat>, id: nat, k: nat) {
    OnlyAt(order, id, k) && ComesBackAt(w.t, order, w.now, id, w.t.nextId + k)
  }

  lemma PlaceOf(order: seq<nat>, ids: set<nat>, id: nat) returns (k: nat)
    requires Lists(order, ids) && id in ids
    ensures OnlyAt(order, id, k)
  {
    k :| 0 <= k < |order| && order[k] == id;
  }

  lemma ListedAreDead(t: Tables, queue: string, ids: seq<string>, order: seq<nat>)
    requires Lists(order, Selected(t, queue, ids))
    ensures forall j :: 0 <= j < |order| ==> order[j] in t.dead
  {
  }

  lemma PutsBackAt(w: World, order: seq<nat>, k: nat)
    requires OneFateEach(w) && (forall j :: 0 <= j < |order| ==> order[j] in w.t.dead) && k < |order|
    ensures ComesBackAt(w.t, order, w.now, order[k], w.t.nextId + k)
  {
    RowsAreBelow(w);
    DeadIsNotLive(w, order[k]);
    RevivedAt(w.t, order, w.now, k);
  }

  lemma ReplayPutsBack(w: World, queue: string, ids: seq<string>, order: seq<nat>, id: nat) returns (k: nat)
    requires OneFateEach(w) && Lists(order, Selected(w.t, queue, ids)) && id in Selected(w.t, queue, ids)
    ensures ReplayedOnce(w, order, id, k)
  {
    k := PlaceOf(order, Selected(w.t, queue, ids), id);
    ListedAreDead(w.t, queue, ids, order);
    PutsBackAt(w, order, k);
  }

  /** In any run, a replay puts each selected letter back exactly once, with its name, arguments and
      queue, no attempt counted, and no chain, metadata or expiry: at the place the order gives it. */
  lemma ReplayedOnceUnderAFreshId(events: seq<Event>, queue: string, ids: seq<string>, order: seq<nat>, id: nat)
    returns (k: nat)
    requires Lists(order, Selected(Run(events).t, queue, ids)) && id in Selected(Run(events).t, queue, ids)
    ensures ReplayedOnce(Run(events), order, id, k)
  {
    FatesAlways(events);
    k := ReplayPutsBack(Run(events), queue, ids, order, id);
  }
}
