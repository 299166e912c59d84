/** What the three brokers have in common, seen from outside: a job that is pushed is handed out, any
    number of times, and finished only by one it was handed to; it never skips a stage, never goes
    back, and is never forgotten. Each broker's runs are runs of this. */
module AtLeastOnce {
  import opened Results
  import opened Chains
  import M = MemoryQueue
  import P = Postgres
  import PR = PostgresRuns
  import RR = RedisRuns

  /** Never handed out yet; handed out and not finished, be it held, lapsed or given back; finished. */
  datatype Fate = Fresh | Out | Finished

  /** Jobs in the order they were pushed. */
  type Jobs = seq<Fate>

  predicate Moves(a: Fate, b: Fate) {
    a == b || (a.Fresh? && b.Out?) || (a.Out? && b.Finished?)
  }

  /** What a step may do: jobs move on by a stage at most, and new ones are fresh. */
  predicate May(q: Jobs, q': Jobs) {
    && |q| <= |q'|
    && (forall id :: 0 <= id < |q| ==> Moves(q[id], q'[id]))
    && (forall id :: |q| <= id < |q'| ==> q'[id].Fresh?)
  }

  /** An account of a run, from an empty broker. */
  predicate Tells(path: seq<Jobs>) {
    path != [] && path[0] == [] && forall k :: 0 < k < |path| ==> May(path[k - 1], path[k])
  }

  /** A job that is finished was handed out before; and a job once pushed is there, and once finished
      finished, ever after. */
  lemma {:induction false} FinishedWasHandedOut(path: seq<Jobs>, n: nat, id: nat)
    requires Tells(path) && n < |path| && id < |path[n]| && path[n][id].Finished?
    ensures exists m :: 0 <= m < n && id < |path[m]| && path[m][id].Out?
    decreases n
  {
    assert n > 0 && May(path[n - 1], path[n]);
    if path[n - 1][id].Finished? {
      FinishedWasHandedOut(path, n - 1, id);
    }
  }

  lemma {:induction false} NeverForgotten(path: seq<Jobs>, m: nat, n: nat, id: nat)
    requires Tells(path) && m <= n < |path| && id < |path[m]|
    ensures id < |path[n]| && (path[m][id].Finished? ==> path[n][id].Finished?)
            && (path[n][id].Fresh? ==> path[m][id].Fresh?)
    decreases n
  {
    if m < n {
      NeverForgotten(path, m, n - 1, id);
      assert May(path[n - 1], path[n]) && Moves(path[n - 1][id], path[n][id]);
    }
  }

  // ---------------------------------------------------------------- in memory

  /** The operations on the in-memory broker, at the times they are made. */
  datatype Call =
    | Pushing(job: NewJob, delayMs: nat, now: nat)
    | Claiming(now: nat)
    | Settling(id: nat)
    | Requeueing(id: nat, delayMs: nat, now: nat)

  function Called(q: M.Queue, c: Call): M.Queue {
    match c
    case Pushing(job, delayMs, now) => M.Push(q, job, delayMs, now)
    case Claiming(now) => M.Claim(q, now).0
    case Settling(id) => M.Settle(q, id)
    case Requeueing(id, delayMs, now) => M.Requeue(q, id, delayMs, now)
  }

  function After(calls: seq<Call>): M.Queue
    decreases |calls|
  {
    if calls == [] then M.EMPTY else Called(After(calls[..|calls| - 1]), calls[|calls| - 1])
  }

  function FateInMemory(q: M.Queue, id: nat): Fate {
    if id !in q.jobs then Finished else if q.jobs[id].attempts == 0 then Fresh else Out
  }

  function InMemory(q: M.Queue): Jobs {
    seq(q.nextId, id requires 0 <= id => FateInMemory(q, id))
  }

  /** Only what has been handed out is settled. */
  predicate SettlesClaimed(q: M.Queue, c: Call) {
    c.Settling? && c.id in q.jobs ==> q.jobs[c.id].attempts > 0
  }

  ghost predicate Numbered(q: M.Queue) {
    forall id :: id in q.jobs ==> id < q.nextId
  }

  lemma CallMoves(q: M.Queue, c: Call)
    requires Numbered(q) && SettlesClaimed(q, c)
    ensures Numbered(Called(q, c)) && May(InMemory(q), InMemory(Called(q, c)))
  {
    var q' := Called(q, c);
    forall id: nat | id < q.nextId ensures Moves(FateInMemory(q, id), FateInMemory(q', id)) {}
  }

  ghost function MemoryTells(calls: seq<Call>): seq<Jobs> {
    seq(|calls| + 1, k requires 0 <= k <= |calls| => InMemory(After(calls[..k])))
  }

  ghost predicate CallsInTurn(calls: seq<Call>) {
    forall k :: 0 <= k < |calls| ==> SettlesClaimed(After(calls[..k]), calls[k])
  }

  lemma NextCall(calls: seq<Call>, k: nat)
    requires k < |calls|
    ensures After(calls[..k + 1]) == Called(After(calls[..k]), calls[k])
  {
    assert calls[..k + 1][..k] == calls[..k];
  }

  lemma {:induction false} MemoryIsNumbered(calls: seq<Call>, k: nat)
    requires k <= |calls| && CallsInTurn(calls)
    ensures Numbered(After(calls[..k]))
    decreases k
  {
    if k > 0 {
      MemoryIsNumbered(calls, k - 1);
      NextCall(calls, k - 1);
      CallMoves(After(calls[..k - 1]), calls[k - 1]);
    }
  }

  lemma MemoryIsAtLeastOnce(calls: seq<Call>)
    requires CallsInTurn(calls)
    ensures Tells(MemoryTells(calls))
  {
    var path := MemoryTells(calls);
    assert calls[..0] == [] && path[0] == [];
    forall k | 0 < k < |path| ensures May(path[k - 1], path[k]) {
      MemoryIsNumbered(calls, k - 1);
      NextCall(calls, k - 1);
      CallMoves(After(calls[..k - 1]), calls[k - 1]);
    }
  }

  // ----------------------------------------------------------------- Postgres

  function FateInTables(t: P.Tables, id: nat): Fate {
    if id !in t.jobs then Finished else if t.jobs[id].attempt == 0 then Fresh else Out
  }

  function InTables(t: P.Tables): Jobs {
    seq(t.nextId, id requires 0 <= id => FateInTables(t, id))
  }

  /** The receipts used were handed out with a claim. */
  ghost predicate Handed(w: PR.World, r: P.Receipt) {
    exists i :: 0 <= i < |w.leases| && w.leases[i].receipt == r
  }

  ghost predicate UsesHanded(w: PR.World, e: PR.Event) {
    e.Acking? || e.Requeueing? || e.Burying? ==> Handed(w, e.r)
  }

  /** A lease has a number, so an effective receipt is of a row that was claimed. */
  ghost predicate LeasesCount(w: PR.World) {
    forall i :: 0 <= i < |w.leases| ==> w.leases[i].receipt.runLease > 0
  }

  lemma StepKeepsLeasesCount(w: PR.World, e: PR.Event)
    requires LeasesCount(w)
    ensures LeasesCount(PR.Step(w, e))
  {
  }

  lemma {:induction false} LeasesAlwaysCount(events: seq<PR.Event>)
    ensures LeasesCount(PR.Run(events))
    decreases |events|
  {
    if events != [] {
      LeasesAlwaysCount(events[..|events| - 1]);
      StepKeepsLeasesCount(PR.Run(events[..|events| - 1]), events[|events| - 1]);
    }
  }

  lemma ReplayingMoves(w: PR.World, e: PR.Event)
    requires PR.OneFateEach(w) && e.Replaying?
    ensures May(InTables(w.t), InTables(PR.Step(w, e).t))
  {
    PR.RowsAreBelow(w);
    if PR.Happens(w, e) {
      P.ReplayMovesEachOnce(w.t, e.order, w.now);
      PR.RevivedAreBlank(w.t, e.order, w.now);
    }
  }

  lemma StatementMoves(w: PR.World, e: PR.Event)
    requires PR.OneFateEach(w) && PR.Fenced(w) && LeasesCount(w) && UsesHanded(w, e)
    ensures May(InTables(w.t), InTables(PR.Step(w, e).t))
  {
    var t, t' := w.t, PR.Step(w, e).t;
    if e.Replaying? {
      ReplayingMoves(w, e);
    } else {
      PR.RowsAreBelow(w);
      forall id: nat | id < t.nextId ensures Moves(FateInTables(t, id), FateInTables(t', id)) {}
    }
  }

  ghost function PostgresTells(events: seq<PR.Event>): seq<Jobs> {
    seq(|events| + 1, k requires 0 <= k <= |events| => InTables(PR.Run(events[..k]).t))
  }

  ghost predicate StatementsInTurn(events: seq<PR.Event>) {
    forall k :: 0 <= k < |events| ==> UsesHanded(PR.Run(events[..k]), events[k])
  }

  /** Over any interleaving of any workers' and operators' statements, as long as receipts are ones that
      were handed out: replays push anew, and the rest move a job on by a stage or leave it. */
  lemma PostgresIsAtLeastOnce(events: seq<PR.Event>)
    requires StatementsInTurn(events)
    ensures Tells(PostgresTells(events))
  {
    var path := PostgresTells(events);
    assert events[..0] == [] && path[0] == [];
    forall k | 0 < k < |path| ensures May(path[k - 1], path[k]) {
      var before := events[..k - 1];
      assert events[..k][..k - 1] == before;
      PR.FatesAlways(before);
      PR.FencedAlways(before);
      LeasesAlwaysCount(before);
      StatementMoves(PR.Run(before), events[k - 1]);
    }
  }

  // -------------------------------------------------------------------- Redis

  function FateInStream(w: RR.World, id: nat): Fate {
    if id in w.settled then Finished else if id in w.pending then Out else Fresh
  }

  function InStream(w: RR.World): Jobs {
    seq(w.nextJob, id requires 0 <= id => FateInStream(w, id))
  }

  lemma CommandMoves(w: RR.World, e: RR.Event, cfg: RR.Cfg, id: nat)
    requires RR.EachInOnePlace(w)
    ensures var w' := RR.Step(w, e, cfg);
            && w.nextJob <= w'.nextJob
            && (if id < w.nextJob then Moves(FateInStream(w, id), FateInStream(w', id))
                else id < w'.nextJob ==> FateInStream(w', id).Fresh?)
  {
    assert RR.Places(w, id) == RR.One(id < w.nextJob);
    if e.Promote? {
      RR.PromotingTouchesNoClaim(w, e.due);
      RR.PromotingKeepsPlaces(w, e.due, id);
    }
    if e.Deliver? && w.undelivered != [] {
      assert RR.Places(w, w.undelivered[0]) == RR.One(w.undelivered[0] < w.nextJob);
    }
  }

  ghost function RedisTells(n: nat, events: seq<RR.Event>, cfg: RR.Cfg): seq<Jobs> {
    seq(|events| + 1, k requires 0 <= k <= |events| => InStream(RR.Run(n, events[..k], cfg)))
  }

  /** Over any interleaving of any supervisors' commands, crashes and late settlements included. */
  lemma RedisIsAtLeastOnce(n: nat, events: seq<RR.Event>, cfg: RR.Cfg)
    ensures Tells(RedisTells(n, events, cfg))
  {
    var path := RedisTells(n, events, cfg);
    assert events[..0] == [] && path[0] == [];
    forall k | 0 < k < |path| ensures May(path[k - 1], path[k]) {
      var before := events[..k - 1];
      assert events[..k][..k - 1] == before;
      RR.PlacesAlways(n, before, cfg);
      JobsMove(RR.Run(n, before, cfg), events[k - 1], cfg);
    }
  }

  lemma JobsMove(w: RR.World, e: RR.Event, cfg: RR.Cfg)
    requires RR.EachInOnePlace(w)
    ensures May(InStream(w), InStream(RR.Step(w, e, cfg)))
  {
    CommandMoves(w, e, cfg, w.nextJob);
    forall id: nat { CommandMoves(w, e, cfg, id); }
  }

  // ---------------------------------------------------- and it is never stuck

  // What is handed out and not finished can be handed out again: the run goes on to where it is. In
  // memory that takes a requeue, since a job is lost with its process; on the other two it takes time,
  // and on Redis the sweep, which has a module of its own.

  /** The row's lease, or its delay, runs out, and whoever comes for its queue while others have the
      rest gets it. */
  lemma ARowIsClaimedAgain(events: seq<PR.Event>, id: nat, graceMs: nat) returns (more: seq<PR.Event>)
    requires id in PR.Run(events).t.jobs
    ensures var w, w' := PR.Run(events), PR.Run(events + more);
            && |w'.leases| == |w.leases| + 1 && w'.leases[..|w.leases|] == w.leases
            && w'.leases[|w.leases|].receipt == P.Receipt(id, w.t.jobs[id].runLease + 1)
            && P.Effective(w'.t, w'.leases[|w.leases|].receipt)
  {
    var w := PR.Run(events);
    var row := w.t.jobs[id];
    var pass := PR.Pass(match row.leaseUntil case Some(t) => t + 1 case None => 0);
    var claim := PR.Claiming([row.job.queue], graceMs, w.t.jobs.Keys - {id}, id);
    more := [pass] + [claim];
    StatementNext(events, pass);
    StatementNext(events + [pass], claim);
    assert events + more == events + [pass] + [claim];
    assert P.Claimable(row, [row.job.queue], PR.Run(events + [pass]).now);
    assert PR.Happens(PR.Run(events + [pass]), claim);
  }

  lemma StatementNext(events: seq<PR.Event>, e: PR.Event)
    ensures PR.Run(events + [e]) == PR.Step(PR.Run(events), e)
  {
    assert (events + [e])[..|events|] == events;
  }
}
