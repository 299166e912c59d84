/** A whole batch run: any number of children over one in-memory broker, in every
    interleaving. Each job is in exactly one place, the total never undercounts what is owed,
    and results end the run exactly when nothing is outstanding. */
module Batch {
  import opened Results
  import opened Chains
  import opened S = Supervision
  import opened ChildRuns
  import opened MemoryQueue

  /** `now` is in milliseconds. Children are never removed from the list: a replacement, like
      every pre-warmed spare, is one more of them. */
  datatype Batch = Batch(
    queue: Queue, children: seq<Child>, results: map<nat, Outcome>,
    total: nat, done: bool, now: nat)

  /** How the tasks are registered: retries, and milliseconds a job may wait, zero for ever. */
  datatype Registry = Registry(child: Cfg, expires: string -> nat)

  datatype Happening =
    | Spawn
    | Pass(ms: nat)
    | TryClaim(i: nat)               // child i's fill loop asks the broker for a job
    | On(i: nat, event: S.Event)

  // ------------------------------------------------------------------- steps

  /** What the sender asked for wins over what the task registered; zero is never. */
  function Expiry(job: NewJob, r: Registry): nat {
    if job.expiresMs > 0 then job.expiresMs else r.expires(job.name)
  }

  predicate PastExpiry(job: Job, r: Registry, now: nat) {
    Expiry(job.job, r) > 0 && job.readyMs > 0 && now > job.readyMs + Expiry(job.job, r)
  }

  function Adopt(d: Delivery): Job {
    Job(d.id, d.record.attempts, d.record.readyMs, d.record.job)
  }

  /** What an effect does to the broker. */
  function Served(q: Queue, effect: Option<Effect>, now: nat): Queue {
    match effect
    case Some(PushNext(next)) => Push(q, next, 0, now)
    case Some(Ack(item)) => Settle(q, item.job.taskId)
    case Some(Bury(item)) => Settle(q, item.job.taskId)
    case Some(Retry(item, delayMs)) => Requeue(q, item.job.taskId, delayMs, now)
    case Some(HandBack(job, delayMs)) => Requeue(q, job.taskId, delayMs, now)
    case _ => q
  }

  /** First outcome wins. */
  function Recorded(results: map<nat, Outcome>, id: nat, outcome: Outcome): map<nat, Outcome> {
    if id in results then results else results[id := outcome]
  }

  /** What an effect does to the broker, and to what is shared between the children. */
  function Apply(b: Batch, effect: Option<Effect>): Batch {
    var queue := Served(b.queue, effect, b.now);
    match effect
    case Some(Count) => b.(queue := queue, total := b.total + 1)
    case Some(Record(item)) =>
      var results := Recorded(b.results, item.job.taskId, item.outcome);
      b.(queue := queue, results := results, done := b.done || |results| >= b.total)
    case _ => b.(queue := queue)
  }

  /** Jobs come through the broker only, and one past its expiry is never cleared for
      dispatch or handed back. */
  predicate Allowed(c: Child, e: S.Event, r: Registry, now: nat) {
    !e.Claim? && ((e.Clear? || e.Limited?) && c.hand.Some? && !c.hand.value.cleared ==>
      !PastExpiry(c.hand.value.job, r, now))
  }

  predicate Asks(c: Child) {
    c.mode.Serving? && c.hand.None? && c.free > 0
  }

  function TryClaimStep(b: Batch, i: nat, r: Registry): Batch
    requires i < |b.children|
  {
    var (queue, d) := MemoryQueue.Claim(b.queue, b.now);
    if d.None? then b.(queue := queue)
    else b.(queue := queue,
         children := b.children[i := S.Step(b.children[i], S.Event.Claim(Adopt(d.value)), r.child).0])
  }

  function OnStep(b: Batch, i: nat, e: S.Event, r: Registry): Batch
    requires i < |b.children|
  {
    var (c', effect) := S.Step(b.children[i], e, r.child);
    Apply(b.(children := b.children[i := c']), effect)
  }

  function Step(b: Batch, h: Happening, r: Registry): Batch {
    match h
    case Spawn => b.(children := b.children + [FRESH])
    case Pass(ms) => b.(now := b.now + ms)
    case TryClaim(i) => if i < |b.children| && Asks(b.children[i]) then TryClaimStep(b, i, r) else b
    case On(i, e) => if i < |b.children| && Allowed(b.children[i], e, r, b.now) then OnStep(b, i, e, r) else b
  }

  function Submitted(jobs: seq<NewJob>, now0: nat): Queue
    decreases |jobs|
  {
    if jobs == [] then EMPTY else Push(Submitted(jobs[..|jobs| - 1], now0), jobs[|jobs| - 1], 0, now0)
  }

  /** Everything is submitted at `now0`, in milliseconds since the epoch. */
  function Start(jobs: seq<NewJob>, now0: nat): Batch {
    Batch(Submitted(jobs, now0), [], map[], |jobs|, |jobs| == 0, now0)
  }

  function Run(jobs: seq<NewJob>, now0: nat, events: seq<Happening>, r: Registry): Batch
    decreases |events|
  {
    if events == []
    then Start(jobs, now0)
    else Step(Run(jobs, now0, events[..|events| - 1], r), events[|events| - 1], r)
  }

  // ---------------------------------------------------------------- counting

  function Tickets(ready: seq<Ticket>, id: nat): nat {
    if ready == [] then 0 else Tickets(ready[..|ready| - 1], id) + One(ready[|ready| - 1].id == id)
  }

  function Sum(children: seq<Child>, weight: Child -> nat): nat {
    if children == [] then 0 else Sum(children[..|children| - 1], weight) + weight(children[|children| - 1])
  }

  function HeldOf(id: nat): Child -> nat { (c: Child) => Held(c, id) }

  function RecordingOf(id: nat): Child -> nat { (c: Child) => BeingRecorded(c, id) }

  /** Chain steps that have been added to the total and not yet pushed. */
  function Pushing(c: Child): nat { One(c.settling.Busy? && c.settling.stage.Counted?) }

  /** Deliveries of a job that its children still owe the broker an answer for. */
  function HeldByAll(b: Batch, id: nat): nat { Sum(b.children, HeldOf(id)) }

  /** Outcomes of a job that its children have still to record. */
  function RecordingByAll(b: Batch, id: nat): nat { Sum(b.children, RecordingOf(id)) }

  /** In how many places a job is: waiting in the queue, held by a child's supervisor, settled
      with its outcome on the way to the results, or among the results. */
  function Places(b: Batch, id: nat): nat {
    Tickets(b.queue.ready, id) + HeldByAll(b, id) + RecordingByAll(b, id) + One(id in b.results)
  }

  ghost predicate EachInOnePlace(b: Batch) {
    forall id: nat :: Places(b, id) == One(id < b.queue.nextId)
  }

  ghost predicate LiveJobsAreKept(b: Batch) {
    && (forall id: nat :: Tickets(b.queue.ready, id) + HeldByAll(b, id) > 0 ==> id in b.queue.jobs)
    && (forall id :: id in b.queue.jobs ==> id < b.queue.nextId)
  }

  ghost predicate ChildrenValid(b: Batch) {
    forall i :: 0 <= i < |b.children| ==> Valid(b.children[i])
  }

  ghost predicate Inv(b: Batch) {
    && ChildrenValid(b)
    && EachInOnePlace(b)
    && LiveJobsAreKept(b)
    && b.total == b.queue.nextId + Sum(b.children, Pushing)
    && (b.done <==> |b.results| >= b.total)
  }

  lemma {:induction false} SumUpdated(children: seq<Child>, i: nat, c: Child, weight: Child -> nat)
    requires i < |children|
    ensures Sum(children[i := c], weight) + weight(children[i]) == Sum(children, weight) + weight(c)
    decreases |children|
  {
    var last := |children| - 1;
    if i < last {
      assert children[i := c][..last] == children[..last][i := c];
      SumUpdated(children[..last], i, c, weight);
    } else {
      assert children[i := c][..last] == children[..last];
    }
  }

  lemma SumOneMore(children: seq<Child>, c: Child, weight: Child -> nat)
    ensures Sum(children + [c], weight) == Sum(children, weight) + weight(c)
  {
    assert (children + [c])[..|children|] == children;
  }

  lemma {:induction false} SumAtLeast(children: seq<Child>, i: nat, weight: Child -> nat)
    requires i < |children|
    ensures Sum(children, weight) >= weight(children[i])
    decreases |children|
  {
    var last := |children| - 1;
    if i < last {
      SumAtLeast(children[..last], i, weight);
    }
  }

  lemma TicketsOneMore(ready: seq<Ticket>, t: Ticket, id: nat)
    ensures Tickets(ready + [t], id) == Tickets(ready, id) + One(t.id == id)
  {
    assert (ready + [t])[..|ready|] == ready;
  }

  lemma {:induction false} TicketsWithout(ready: seq<Ticket>, i: nat, id: nat)
    requires i < |ready|
    ensures Tickets(ready, id) == Tickets(Remove(ready, i), id) + One(ready[i].id == id)
    decreases |ready|
  {
    var last := |ready| - 1;
    if i < last {
      TicketsWithout(ready[..last], i, id);
      assert Remove(ready, i)[..last - 1] == Remove(ready[..last], i);
    } else {
      assert Remove(ready, i) == ready[..last];
    }
  }

  // ---------------------------------------------------- a step of one child

  /** Whether an effect puts job `id` back in the queue, ends it with the broker, or records it. */
  function Requeues(effect: Option<Effect>, id: nat): nat {
    match effect
    case Some(Retry(item, _)) => One(item.job.taskId == id)
    case Some(HandBack(job, _)) => One(job.taskId == id)
    case _ => 0
  }

  function Settles(effect: Option<Effect>, id: nat): nat {
    match effect
    case Some(Ack(item)) => One(item.job.taskId == id)
    case Some(Bury(item)) => One(item.job.taskId == id)
    case _ => 0
  }

  function Records(effect: Option<Effect>, id: nat): nat {
    match effect
    case Some(Record(item)) => One(item.job.taskId == id)
    case _ => 0
  }

  lemma RecordingMoves(c: Child, e: S.Event, cfg: Cfg, id: nat)
    ensures var (c', effect) := S.Step(c, e, cfg);
            BeingRecorded(c', id) + Records(effect, id) == BeingRecorded(c, id) + Settles(effect, id)
  {
  }

  /** Counting a step, then pushing it, comes from settling a success; both leave the child
      holding the job. */
  lemma PushingMoves(c: Child, e: S.Event, cfg: Cfg)
    requires Valid(c)
    ensures var (c', effect) := S.Step(c, e, cfg);
            && Pushing(c') + One(effect.Some? && effect.value.PushNext?) == Pushing(c) + One(effect == Some(Count))
            && (effect == Some(Count) ==> c.settling.Busy? && !c.settling.stage.Settled?)
  {
  }

  /** What one child's step does to the numbers about job `id`, all of them. */
  ghost predicate Moves(c: Child, c': Child, effect: Option<Effect>, id: nat) {
    && Held(c', id) + Requeues(effect, id) + Settles(effect, id) == Held(c, id)
    && BeingRecorded(c', id) + Records(effect, id) == BeingRecorded(c, id) + Settles(effect, id)
  }

  lemma StepMoves(c: Child, e: S.Event, cfg: Cfg, id: nat)
    requires Valid(c) && !e.Claim?
    ensures var (c', effect) := S.Step(c, e, cfg); Valid(c') && Moves(c, c', effect, id)
  {
    StepConserves(c, e, cfg, id);
    RecordingMoves(c, e, cfg, id);
  }

  // ----------------------------------------------- the broker under an effect

  function Pushes(effect: Option<Effect>): nat { One(effect.Some? && effect.value.PushNext?) }

  lemma ServedTickets(q: Queue, effect: Option<Effect>, now: nat, id: nat)
    requires forall x :: Requeues(effect, x) > 0 ==> x in q.jobs
    ensures var q' := Served(q, effect, now);
            && q'.nextId == q.nextId + Pushes(effect)
            && Tickets(q'.ready, id)
               == Tickets(q.ready, id) + Requeues(effect, id) + One(Pushes(effect) == 1 && id == q.nextId)
            && (id in q'.jobs
               <==> (id in q.jobs && Settles(effect, id) == 0) || (Pushes(effect) == 1 && id == q.nextId))
  {
    match effect
    case Some(PushNext(next)) => TicketsOneMore(q.ready, Ticket(q.nextId, None), id);
    case Some(Retry(item, delayMs)) =>
      assert Requeues(effect, item.job.taskId) > 0;
      TicketsOneMore(q.ready, Ticket(item.job.taskId, DueAfter(delayMs, now)), id);
    case Some(HandBack(job, delayMs)) =>
      assert Requeues(effect, job.taskId) > 0;
      TicketsOneMore(q.ready, Ticket(job.taskId, DueAfter(delayMs, now)), id);
    case _ =>
  }

  // ------------------------------------------------------------ results and done

  function Below(n: nat): (s: set<nat>)
    ensures |s| == n && forall id: nat :: id in s <==> id < n
  {
    if n == 0 then {} else Below(n - 1) + {n - 1}
  }

  lemma {:induction false} SubsetsAreNoLarger(a: set<nat>, b: set<nat>)
    requires a <= b
    ensures |a| <= |b| && (|a| == |b| ==> a == b)
    decreases |a|
  {
    if a != {} {
      var x :| x in a;
      SubsetsAreNoLarger(a - {x}, b - {x});
      assert a == (a - {x}) + {x} && b == (b - {x}) + {x};
    }
  }

  /** Results are of jobs that exist, so as many as there are jobs is all of them. */
  lemma ResultsFill(results: map<nat, Outcome>, n: nat)
    requires forall id :: id in results ==> id < n
    ensures |results| <= n && (|results| == n <==> forall id: nat :: id < n ==> id in results)
  {
    assert |results| == |results.Keys|;
    SubsetsAreNoLarger(results.Keys, Below(n));
    if forall id: nat :: id < n ==> id in results {
      assert results.Keys == Below(n);
    }
  }

  lemma ResultsAreOfJobs(b: Batch)
    requires EachInOnePlace(b)
    ensures forall id :: id in b.results ==> id < b.queue.nextId
  {
    forall id | id in b.results ensures id < b.queue.nextId {
      assert Places(b, id) >= 1;
    }
  }

  // ------------------------------------------------- every step keeps them all

  lemma OnMovesCounts(b: Batch, i: nat, e: S.Event, r: Registry, id: nat)
    requires i < |b.children| && ChildrenValid(b) && !e.Claim?
    ensures var (c', effect) := S.Step(b.children[i], e, r.child);
            var b' := OnStep(b, i, e, r);
            && HeldByAll(b', id) + Requeues(effect, id) + Settles(effect, id) == HeldByAll(b, id)
            && RecordingByAll(b', id) + Records(effect, id) == RecordingByAll(b, id) + Settles(effect, id)
  {
    var c' := S.Step(b.children[i], e, r.child).0;
    StepMoves(b.children[i], e, r.child, id);
    SumUpdated(b.children, i, c', HeldOf(id));
    SumUpdated(b.children, i, c', RecordingOf(id));
  }

  lemma OnMovesPushing(b: Batch, i: nat, e: S.Event, r: Registry)
    requires i < |b.children| && ChildrenValid(b)
    ensures var (c', effect) := S.Step(b.children[i], e, r.child);
            var b' := OnStep(b, i, e, r);
            Sum(b'.children, Pushing) + Pushes(effect) == Sum(b.children, Pushing) + One(effect == Some(Count))
  {
    PushingMoves(b.children[i], e, r.child);
    SumUpdated(b.children, i, S.Step(b.children[i], e, r.child).0, Pushing);
  }

  /** A job put back is one the broker still has. */
  lemma RequeuedIsLive(b: Batch, i: nat, e: S.Event, r: Registry)
    requires i < |b.children| && ChildrenValid(b) && LiveJobsAreKept(b) && !e.Claim?
    ensures var effect := S.Step(b.children[i], e, r.child).1;
            forall x :: Requeues(effect, x) > 0 ==> x in b.queue.jobs
  {
    var effect := S.Step(b.children[i], e, r.child).1;
    forall x | Requeues(effect, x) > 0 ensures x in b.queue.jobs {
      OnMovesCounts(b, i, e, r, x);
    }
  }

  lemma OnServes(b: Batch, i: nat, e: S.Event, r: Registry, id: nat)
    requires i < |b.children| && ChildrenValid(b) && LiveJobsAreKept(b) && !e.Claim?
    ensures var (c', effect) := S.Step(b.children[i], e, r.child);
            var q, q' := b.queue, OnStep(b, i, e, r).queue;
            && q'.nextId == q.nextId + Pushes(effect)
            && Tickets(q'.ready, id)
               == Tickets(q.ready, id) + Requeues(effect, id) + One(Pushes(effect) == 1 && id == q.nextId)
            && (id in q'.jobs
               <==> (id in q.jobs && Settles(effect, id) == 0) || (Pushes(effect) == 1 && id == q.nextId))
  {
    var effect := S.Step(b.children[i], e, r.child).1;
    RequeuedIsLive(b, i, e, r);
    ServedTickets(b.queue, effect, b.now, id);
  }

  lemma OnKeepsEachInOnePlace(b: Batch, i: nat, e: S.Event, r: Registry, id: nat)
    requires i < |b.children| && ChildrenValid(b) && EachInOnePlace(b) && LiveJobsAreKept(b) && !e.Claim?
    ensures var b' := OnStep(b, i, e, r); Places(b', id) == One(id < b'.queue.nextId)
  {
    var (c', effect) := S.Step(b.children[i], e, r.child);
    var b' := OnStep(b, i, e, r);
    OnMovesCounts(b, i, e, r, id);
    OnServes(b, i, e, r, id);
    assert Places(b, id) == One(id < b.queue.nextId);
    assert One(id in b'.results) == One(id in b.results) + Records(effect, id);
  }

  lemma OnKeepsLiveJobs(b: Batch, i: nat, e: S.Event, r: Registry, id: nat)
    requires i < |b.children| && ChildrenValid(b) && EachInOnePlace(b) && LiveJobsAreKept(b) && !e.Claim?
    ensures var b' := OnStep(b, i, e, r);
            && (Tickets(b'.queue.ready, id) + HeldByAll(b', id) > 0 ==> id in b'.queue.jobs)
            && (id in b'.queue.jobs ==> id < b'.queue.nextId)
  {
    OnMovesCounts(b, i, e, r, id);
    OnServes(b, i, e, r, id);
    assert Places(b, id) == One(id < b.queue.nextId);
  }

  /** A job some child still holds is below the next id and has no result yet. */
  lemma HeldIsOutstanding(b: Batch, i: nat, id: nat)
    requires i < |b.children| && EachInOnePlace(b) && Held(b.children[i], id) > 0
    ensures id < b.queue.nextId && id !in b.results
  {
    SumAtLeast(b.children, i, HeldOf(id));
    assert Places(b, id) == One(id < b.queue.nextId);
  }

  lemma OnKeepsTheCount(b: Batch, i: nat, e: S.Event, r: Registry)
    requires i < |b.children| && Inv(b) && !e.Claim?
    ensures var b' := OnStep(b, i, e, r);
            && b'.total == b'.queue.nextId + Sum(b'.children, Pushing)
            && (b'.done <==> |b'.results| >= b'.total)
  {
    var c := b.children[i];
    var effect := S.Step(c, e, r.child).1;
    OnMovesPushing(b, i, e, r);
    OnServes(b, i, e, r, 0);
    if effect == Some(Count) {
      PushingMoves(c, e, r.child);
      HeldIsOutstanding(b, i, c.settling.item.job.taskId);
      ResultsAreOfJobs(b);
      ResultsFill(b.results, b.queue.nextId);
    }
  }

  lemma OnKeepsInv(b: Batch, i: nat, e: S.Event, r: Registry)
    requires i < |b.children| && Inv(b) && !e.Claim?
    ensures Inv(OnStep(b, i, e, r))
  {
    var b' := OnStep(b, i, e, r);
    OnKeepsValid(b, i, e, r);
    OnKeepsTheCount(b, i, e, r);
    forall id: nat ensures KeptFor(b', id) {
      OnKeepsEachInOnePlace(b, i, e, r, id);
      OnKeepsLiveJobs(b, i, e, r, id);
    }
    KeptForAll(b');
  }

  /** What the invariant says of one id. */
  ghost predicate KeptFor(b: Batch, id: nat) {
    && Places(b, id) == One(id < b.queue.nextId)
    && (Tickets(b.queue.ready, id) + HeldByAll(b, id) > 0 ==> id in b.queue.jobs)
    && (id in b.queue.jobs ==> id < b.queue.nextId)
  }

  lemma KeptForAll(b: Batch)
    requires forall id: nat :: KeptFor(b, id)
    ensures EachInOnePlace(b) && LiveJobsAreKept(b)
  {
    forall id: nat ensures Places(b, id) == One(id < b.queue.nextId) { assert KeptFor(b, id); }
    forall id: nat
      ensures Tickets(b.queue.ready, id) + HeldByAll(b, id) > 0 ==> id in b.queue.jobs
      ensures id in b.queue.jobs ==> id < b.queue.nextId
    {
      assert KeptFor(b, id);
    }
  }

  lemma OnKeepsValid(b: Batch, i: nat, e: S.Event, r: Registry)
    requires i < |b.children| && ChildrenValid(b) && !e.Claim?
    ensures ChildrenValid(OnStep(b, i, e, r))
  {
    StepMoves(b.children[i], e, r.child, 0);
  }

  /** The broker's claim takes out one ticket, for a job it still has. */
  lemma ClaimTakesOneTicket(q: Queue, now: nat, id: nat)
    requires forall x: nat :: Tickets(q.ready, x) > 0 ==> x in q.jobs
    ensures var (q', d) := MemoryQueue.Claim(q, now);
            && q'.nextId == q.nextId && q'.jobs.Keys == q.jobs.Keys
            && Tickets(q.ready, id) == Tickets(q'.ready, id) + One(d.Some? && d.value.id == id)
  {
    var i := FirstDue(q.ready, now);
    if i < |q.ready| {
      TicketsWithout(q.ready, i, id);
      TicketsWithout(q.ready, i, q.ready[i].id);
    }
  }

  lemma ClaimIsAccepted(c: Child, job: Job, cfg: Cfg, id: nat)
    requires Valid(c) && Asks(c) && Held(c, job.taskId) == 0
    ensures var (c', effect) := S.Step(c, S.Event.Claim(job), cfg);
            && Valid(c') && effect == None
            && c'.hand == Some(Hand(job, false)) && c'.settling == c.settling
            && Held(c', id) == Held(c, id) + One(job.taskId == id)
  {
    StepConserves(c, S.Event.Claim(job), cfg, id);
  }

  lemma ClaimedIsNotHeld(b: Batch, i: nat)
    requires i < |b.children| && EachInOnePlace(b) && LiveJobsAreKept(b)
    ensures var d := MemoryQueue.Claim(b.queue, b.now).1;
            d.Some? ==> Held(b.children[i], d.value.id) == 0
  {
    var d := MemoryQueue.Claim(b.queue, b.now).1;
    if d.Some? {
      ClaimTakesOneTicket(b.queue, b.now, d.value.id);
      SumAtLeast(b.children, i, HeldOf(d.value.id));
      assert Places(b, d.value.id) == One(d.value.id < b.queue.nextId);
    }
  }

  /** What a claim does to the sums over the children: one more holds the job handed out. */
  lemma TryClaimMovesCounts(b: Batch, i: nat, r: Registry, id: nat)
    requires i < |b.children| && ChildrenValid(b) && EachInOnePlace(b) && LiveJobsAreKept(b) && Asks(b.children[i])
    ensures var b', d := TryClaimStep(b, i, r), MemoryQueue.Claim(b.queue, b.now).1;
            && HeldByAll(b', id) == HeldByAll(b, id) + One(d.Some? && d.value.id == id)
            && RecordingByAll(b', id) == RecordingByAll(b, id)
            && ChildrenValid(b')
            && Sum(b'.children, Pushing) == Sum(b.children, Pushing)
  {
    var d := MemoryQueue.Claim(b.queue, b.now).1;
    if d.Some? {
      ClaimedIsNotHeld(b, i);
      var c, job := b.children[i], Adopt(d.value);
      ClaimIsAccepted(c, job, r.child, id);
      var c' := S.Step(c, S.Event.Claim(job), r.child).0;
      SumUpdated(b.children, i, c', HeldOf(id));
      SumUpdated(b.children, i, c', RecordingOf(id));
      SumUpdated(b.children, i, c', Pushing);
    }
  }

  lemma TryClaimKeepsPlaces(b: Batch, i: nat, r: Registry, id: nat)
    requires i < |b.children| && ChildrenValid(b) && EachInOnePlace(b) && LiveJobsAreKept(b) && Asks(b.children[i])
    ensures var b' := TryClaimStep(b, i, r);
            && Places(b', id) == Places(b, id)
            && Tickets(b'.queue.ready, id) + HeldByAll(b', id) == Tickets(b.queue.ready, id) + HeldByAll(b, id)
            && ChildrenValid(b')
            && Sum(b'.children, Pushing) == Sum(b.children, Pushing)
  {
    ClaimTakesOneTicket(b.queue, b.now, id);
    TryClaimMovesCounts(b, i, r, id);
  }

  lemma TryClaimKeepsInv(b: Batch, i: nat, r: Registry)
    requires i < |b.children| && Inv(b) && Asks(b.children[i])
    ensures Inv(TryClaimStep(b, i, r))
  {
    var b' := TryClaimStep(b, i, r);
    ClaimTakesOneTicket(b.queue, b.now, 0);
    TryClaimKeepsPlaces(b, i, r, 0);
    forall id: nat ensures Places(b', id) == Places(b, id)
            && Tickets(b'.queue.ready, id) + HeldByAll(b', id) == Tickets(b.queue.ready, id) + HeldByAll(b, id)
    {
      TryClaimKeepsPlaces(b, i, r, id);
    }
  }

  lemma SpawnKeepsPlaces(b: Batch, id: nat)
    ensures var b' := b.(children := b.children + [FRESH]);
            && HeldByAll(b', id) == HeldByAll(b, id) && Places(b', id) == Places(b, id)
            && Sum(b'.children, Pushing) == Sum(b.children, Pushing)
  {
    SumOneMore(b.children, FRESH, Pushing);
    SumOneMore(b.children, FRESH, HeldOf(id));
    SumOneMore(b.children, FRESH, RecordingOf(id));
  }

  lemma SpawnKeepsInv(b: Batch)
    requires Inv(b)
    ensures Inv(b.(children := b.children + [FRESH]))
  {
    var b' := b.(children := b.children + [FRESH]);
    SpawnKeepsPlaces(b, 0);
    forall id: nat ensures Places(b', id) == Places(b, id) && HeldByAll(b', id) == HeldByAll(b, id) {
      SpawnKeepsPlaces(b, id);
    }
  }

  lemma PassKeepsInv(b: Batch, ms: nat)
    requires Inv(b)
    ensures Inv(b.(now := b.now + ms))
  {
    var b' := b.(now := b.now + ms);
    forall id: nat ensures Places(b', id) == Places(b, id) && HeldByAll(b', id) == HeldByAll(b, id) {
    }
  }

  lemma StepKeepsInv(b: Batch, h: Happening, r: Registry)
    requires Inv(b)
    ensures Inv(Step(b, h, r))
  {
    if h.On? { OnHappeningKeepsInv(b, h, r); }
    else if h.TryClaim? && h.i < |b.children| && Asks(b.children[h.i]) { TryClaimKeepsInv(b, h.i, r); }
    else if h.Spawn? { SpawnKeepsInv(b); }
    else if h.Pass? { PassKeepsInv(b, h.ms); }
  }

  lemma OnHappeningKeepsInv(b: Batch, h: Happening, r: Registry)
    requires Inv(b) && h.On?
    ensures Inv(Step(b, h, r))
  {
    if h.i < |b.children| && Allowed(b.children[h.i], h.event, r, b.now) {
      OnKeepsInv(b, h.i, h.event, r);
      assert Step(b, h, r) == OnStep(b, h.i, h.event, r);
    } else {
      assert Step(b, h, r) == b;
    }
  }

  lemma {:induction false} SubmittedOnce(jobs: seq<NewJob>, now0: nat, id: nat)
    ensures var q := Submitted(jobs, now0);
            && q.nextId == |jobs| && Tickets(q.ready, id) == One(id < |jobs|)
            && (id in q.jobs <==> id < |jobs|)
    decreases |jobs|
  {
    if jobs != [] {
      var before := Submitted(jobs[..|jobs| - 1], now0);
      SubmittedOnce(jobs[..|jobs| - 1], now0, id);
      TicketsOneMore(before.ready, Ticket(before.nextId, None), id);
    }
  }

  lemma StartHasInv(jobs: seq<NewJob>, now0: nat)
    ensures Inv(Start(jobs, now0))
  {
    var b := Start(jobs, now0);
    forall id: nat
      ensures Places(b, id) == One(id < b.queue.nextId)
      ensures Tickets(b.queue.ready, id) + HeldByAll(b, id) > 0 ==> id in b.queue.jobs
      ensures id in b.queue.jobs ==> id < b.queue.nextId
    {
      SubmittedOnce(jobs, now0, id);
    }
    SubmittedOnce(jobs, now0, 0);
  }

  lemma {:induction false} InvAlways(jobs: seq<NewJob>, now0: nat, events: seq<Happening>, r: Registry)
    ensures Inv(Run(jobs, now0, events, r))
    decreases |events|
  {
    if events == [] {
      StartHasInv(jobs, now0);
    } else {
      InvAlways(jobs, now0, events[..|events| - 1], r);
      StepKeepsInv(Run(jobs, now0, events[..|events| - 1], r), events[|events| - 1], r);
    }
  }

  // ------------------------------------------------------------- main results

  /** With any number of children, over every interleaving and any frames from any of them: a job
      that exists is in exactly one place, one that does not is in none, and the total counts
      every job and every chain step about to become one. */
  lemma EveryJobIsInOnePlace(jobs: seq<NewJob>, now0: nat, events: seq<Happening>, r: Registry, id: nat)
    ensures var b := Run(jobs, now0, events, r);
            && Places(b, id) == One(id < b.queue.nextId)
            && b.total == b.queue.nextId + Sum(b.children, Pushing)
  {
    InvAlways(jobs, now0, events, r);
    assert Places(Run(jobs, now0, events, r), id) == One(id < Run(jobs, now0, events, r).queue.nextId);
  }

  lemma {:induction false} SumOfNone(children: seq<Child>, weight: Child -> nat)
    ensures Sum(children, weight) == 0 <==> forall i :: 0 <= i < |children| ==> weight(children[i]) == 0
    decreases |children|
  {
    if children != [] {
      SumOfNone(children[..|children| - 1], weight);
      assert children == children[..|children| - 1] + [children[|children| - 1]];
    }
  }

  /** The run is done exactly when every job has its outcome and no child is about to add another:
      results alone end it, neither early nor late. */
  lemma DoneMeansNothingIsOutstanding(jobs: seq<NewJob>, now0: nat, events: seq<Happening>, r: Registry)
    ensures var b := Run(jobs, now0, events, r);
            b.done <==> && (forall id: nat :: id in b.results <==> id < b.queue.nextId)
                        && (forall i :: 0 <= i < |b.children| ==> Pushing(b.children[i]) == 0)
  {
    var b := Run(jobs, now0, events, r);
    InvAlways(jobs, now0, events, r);
    ResultsAreOfJobs(b);
    ResultsFill(b.results, b.queue.nextId);
    SumOfNone(b.children, Pushing);
  }

  /** Once it is done nothing is waiting and no child holds anything. */
  lemma DoneHoldsNothing(jobs: seq<NewJob>, now0: nat, events: seq<Happening>, r: Registry, id: nat)
    requires Run(jobs, now0, events, r).done
    ensures var b := Run(jobs, now0, events, r);
            Tickets(b.queue.ready, id) == 0 && (forall i :: 0 <= i < |b.children| ==> Held(b.children[i], id) == 0)
  {
    var b := Run(jobs, now0, events, r);
    InvAlways(jobs, now0, events, r);
    DoneMeansNothingIsOutstanding(jobs, now0, events, r);
    assert Places(b, id) == One(id < b.queue.nextId);
    forall i | 0 <= i < |b.children| ensures Held(b.children[i], id) == 0 {
      SumAtLeast(b.children, i, HeldOf(id));
    }
  }

  // --------------------------------------------------- when every slot gave up

  const NO_WORKER := Nack("NoWorker", "every child slot gave up")

  /** Every id below the total that had no outcome has this one, and nothing else changed. */
  ghost predicate Filled(results: map<nat, Outcome>, total: nat, filled: map<nat, Outcome>) {
    && (forall id: nat :: id in filled <==> id in results || id < total)
    && (forall id: nat :: id in filled ==> filled[id] == if id in results then results[id] else NO_WORKER)
  }

  ghost predicate Covers(results: map<nat, Outcome>, total: nat) {
    forall id: nat :: id < total ==> id in results
  }

  lemma CoversIsEnough(results: map<nat, Outcome>, total: nat)
    requires Covers(results, total)
    ensures |results| >= total
  {
    SubsetsAreNoLarger(Below(total), results.Keys);
  }

  /** Called when every slot has given up: whatever has no outcome gets one, and that ends the run. */
  method FillNoWorker(results: map<nat, Outcome>, total: nat, done: bool)
    returns (results': map<nat, Outcome>, done': bool)
    ensures done ==> results' == results && done'
    ensures !done ==> Filled(results, total, results') && (done' <==> !Covers(results, total))
  {
    results', done' := results, done;
    if !done {
      var id := 0;
      while id < total
        invariant id <= total
        invariant Filled(results, id, results')
        invariant done' ==> !Covers(results, total)
        invariant Covers(results', total) && !Covers(results, total) ==> done'
      {
        if id !in results' {
          results' := Recorded(results', id, NO_WORKER);
          if Covers(results', total) { CoversIsEnough(results', total); }
          done' := done' || |results'| >= total;
        }
        id := id + 1;
      }
    }
  }

  /** Filling up what a run leaves behind gives each id below the total exactly one outcome, its
      own where it had one. With no chain step between being counted and being pushed, those ids
      are exactly the jobs. */
  lemma FillingLeavesOneOutcomeEach(jobs: seq<NewJob>, now0: nat, events: seq<Happening>, r: Registry,
        filled: map<nat, Outcome>)
    requires Filled(Run(jobs, now0, events, r).results, Run(jobs, now0, events, r).total, filled)
    ensures var b := Run(jobs, now0, events, r);
            && filled.Keys == Below(b.total)
            && (forall id :: id in b.results ==> filled[id] == b.results[id])
            && ((forall i :: 0 <= i < |b.children| ==> Pushing(b.children[i]) == 0) ==>
               filled.Keys == Below(b.queue.nextId))
  {
    var b := Run(jobs, now0, events, r);
    InvAlways(jobs, now0, events, r);
    ResultsAreOfJobs(b);
    SumOfNone(b.children, Pushing);
  }
}
