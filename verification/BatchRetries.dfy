/** How often a job runs: the retry bound and the expiry, over whole batch runs with crashes,
    kills, drains and chain steps. */
module BatchRetries {
  import opened Results
  import Msgpack
  import opened Chains
  import opened S = Supervision
  import opened ChildRuns
  import opened MemoryQueue
  import opened B = Batch

  /** A batch and what it has done so far: the job behind each id, the ids dispatched to a
      child, those handed back or refused without running, and the dead letters. */
  datatype Story = Story(batch: Batch, born: seq<NewJob>, dispatched: seq<nat>, spared: set<nat>, buried: seq<Item>)

  function EffectOf(b: Batch, h: Happening, r: Registry): Option<Effect> {
    if h.On? && h.i < |b.children| && Allowed(b.children[h.i], h.event, r, b.now)
    then S.Step(b.children[h.i], h.event, r.child).1 else None
  }

  /** The job that leaves a child's hand in a step, if one does. */
  function LeftHand(c: Child, c': Child): Option<nat> {
    if c.hand.Some? && c'.hand.None? then Some(c.hand.value.job.taskId) else None
  }

  function NewlyBorn(effect: Option<Effect>): seq<NewJob> {
    match effect case Some(PushNext(next)) => [next] case _ => []
  }

  function NewlyBuried(effect: Option<Effect>): seq<Item> {
    match effect case Some(Bury(item)) => [item] case _ => []
  }

  function Tell(s: Story, h: Happening, r: Registry): Story {
    var b' := B.Step(s.batch, h, r);
    var left := if h.On? && h.i < |s.batch.children| then LeftHand(s.batch.children[h.i], b'.children[h.i]) else None;
    var ran := h.On? && h.event.Dispatch?;
    Story(b',
          s.born + NewlyBorn(EffectOf(s.batch, h, r)),
          s.dispatched + (if left.Some? && ran then [left.value] else []),
          s.spared + (if left.Some? && !ran then {left.value} else {}),
          s.buried + NewlyBuried(EffectOf(s.batch, h, r)))
  }

  function Beginning(jobs: seq<NewJob>, now0: nat): Story {
    Story(Start(jobs, now0), jobs, [], {}, [])
  }

  function Told(jobs: seq<NewJob>, now0: nat, events: seq<Happening>, r: Registry): Story
    decreases |events|
  {
    if events == [] then Beginning(jobs, now0)
    else Tell(Told(jobs, now0, events[..|events| - 1], r), events[|events| - 1], r)
  }

  lemma {:induction false} ToldIsARun(jobs: seq<NewJob>, now0: nat, events: seq<Happening>, r: Registry)
    ensures Told(jobs, now0, events, r).batch == B.Run(jobs, now0, events, r)
    decreases |events|
  {
    if events != [] {
      ToldIsARun(jobs, now0, events[..|events| - 1], r);
    }
  }

  // ------------------------------------- what is held is what the broker recorded

  ghost predicate Agrees(job: Job, q: Queue) {
    job.taskId in q.jobs ==> job == Adopt(Delivery(job.taskId, q.jobs[job.taskId]))
  }

  ghost predicate Faithful(c: Child, q: Queue) {
    && (c.hand.Some? ==> Agrees(c.hand.value.job, q))
    && (forall id :: id in c.inflight ==> Agrees(c.inflight[id], q))
    && (forall k :: 0 <= k < |c.queue| ==> Agrees(c.queue[k].job, q))
    && (c.settling.Busy? && !c.settling.stage.Settled? ==> Agrees(c.settling.item.job, q))
  }

  lemma FaithfulServing(c: Child, body: Option<seq<Msgpack.Value>>, fired: bool, cfg: Cfg, q: Queue)
    requires Valid(c) && Faithful(c, q) && c.mode.Serving? && c.hand.None?
    ensures Faithful(ServeFrame(c, cfg, body, fired), q)
  {
  }

  lemma FaithfulDraining(c: Child, body: Option<seq<Msgpack.Value>>, q: Queue)
    requires Valid(c) && Faithful(c, q) && c.mode.Draining? && c.settling.Idle?
    ensures Faithful(DrainFrame(c, body), q)
  {
  }

  lemma FaithfulHand(c: Child, e: S.Event, cfg: Cfg, q: Queue)
    requires Valid(c) && Faithful(c, q) && ConcernsTheHand(e) && !e.Claim?
    ensures Faithful(S.Step(c, e, cfg).0, q)
  {
  }

  /** Jobs only move about inside a child. */
  lemma FaithfulStep(c: Child, e: S.Event, cfg: Cfg, q: Queue)
    requires Valid(c) && Faithful(c, q) && !e.Claim?
    ensures Faithful(S.Step(c, e, cfg).0, q)
  {
    if ConcernsTheHand(e) { FaithfulHand(c, e, cfg, q); }
    else if e.Frame? {
      if c.mode.Serving? && c.hand.None? { FaithfulServing(c, e.body, e.fired, cfg, q); }
      else if c.mode.Draining? && c.settling.Idle? { FaithfulDraining(c, e.body, q); }
    }
  }

  lemma {:induction false} NotQueued(items: seq<Item>, id: nat)
    requires Queued(items, id) == 0
    ensures forall k :: 0 <= k < |items| ==> items[k].job.taskId != id
    decreases |items|
  {
    if items != [] {
      NotQueued(items[..|items| - 1], id);
      assert items == items[..|items| - 1] + [items[|items| - 1]];
    }
  }

  /** The broker's record of every job but `x` is as it was, or gone. */
  ghost predicate AllButOneKept(q: Queue, q': Queue, x: nat) {
    forall id :: id in q'.jobs && id != x ==> id in q.jobs && q'.jobs[id] == q.jobs[id]
  }

  lemma FaithfulUnder(c: Child, q: Queue, q': Queue, x: nat)
    requires Valid(c) && Faithful(c, q) && Held(c, x) == 0 && AllButOneKept(q, q', x)
    ensures Faithful(c, q')
  {
    NotQueued(c.queue, x);
  }

  ghost predicate AllFaithful(b: Batch) {
    forall i :: 0 <= i < |b.children| ==> Faithful(b.children[i], b.queue)
  }

  lemma HeldByNone(b: Batch, id: nat)
    requires HeldByAll(b, id) == 0
    ensures forall i :: 0 <= i < |b.children| ==> Held(b.children[i], id) == 0
  {
    SumOfNone(b.children, HeldOf(id));
    forall i | 0 <= i < |b.children| ensures Held(b.children[i], id) == 0 {
      assert HeldOf(id)(b.children[i]) == 0;
    }
  }

  lemma ServedKeepsOthers(q: Queue, effect: Option<Effect>, now: nat)
    ensures AllButOneKept(q, Served(q, effect, now), q.nextId)
  {
  }

  lemma NextIdIsNotHeld(b: Batch, i: nat, e: S.Event, r: Registry)
    requires i < |b.children| && ChildrenValid(b) && EachInOnePlace(b) && !e.Claim?
    ensures forall j :: 0 <= j < |b.children| ==> Held(OnStep(b, i, e, r).children[j], b.queue.nextId) == 0
  {
    assert Places(b, b.queue.nextId) == 0;
    OnMovesCounts(b, i, e, r, b.queue.nextId);
    HeldByNone(OnStep(b, i, e, r), b.queue.nextId);
  }

  lemma ChildrenOn(b: Batch, i: nat, e: S.Event, r: Registry)
    requires i < |b.children| && ChildrenValid(b) && AllFaithful(b) && !e.Claim?
    ensures var b' := OnStep(b, i, e, r);
            && |b'.children| == |b.children|
            && (forall j :: 0 <= j < |b.children| ==> Valid(b'.children[j]) && Faithful(b'.children[j], b.queue))
  {
    StepMoves(b.children[i], e, r.child, 0);
    FaithfulStep(b.children[i], e, r.child, b.queue);
  }

  lemma OnKeepsFaithful(b: Batch, i: nat, e: S.Event, r: Registry)
    requires i < |b.children| && Inv(b) && AllFaithful(b) && !e.Claim?
    ensures AllFaithful(OnStep(b, i, e, r))
  {
    var b' := OnStep(b, i, e, r);
    ChildrenOn(b, i, e, r);
    NextIdIsNotHeld(b, i, e, r);
    ServedKeepsOthers(b.queue, S.Step(b.children[i], e, r.child).1, b.now);
    forall j | 0 <= j < |b'.children| ensures Faithful(b'.children[j], b'.queue) {
      FaithfulUnder(b'.children[j], b.queue, b'.queue, b.queue.nextId);
    }
  }

  /** A claim moves only the record of the job it hands out, and hands out that record. */
  lemma ClaimKeepsOthers(q: Queue, now: nat)
    ensures var (q', d) := MemoryQueue.Claim(q, now);
            && (d.Some? ==> AllButOneKept(q, q', d.value.id) && Agrees(Adopt(d.value), q'))
            && (d.None? ==> q'.jobs == q.jobs)
  {
  }

  lemma FaithfulClaim(c: Child, job: Job, cfg: Cfg, q: Queue)
    requires Faithful(c, q) && Agrees(job, q)
    ensures Faithful(S.Step(c, S.Event.Claim(job), cfg).0, q)
  {
  }

  lemma ClaimedIsHeldByNone(b: Batch)
    requires EachInOnePlace(b) && LiveJobsAreKept(b)
    ensures var d := MemoryQueue.Claim(b.queue, b.now).1;
            d.Some? ==> forall j :: 0 <= j < |b.children| ==> Held(b.children[j], d.value.id) == 0
  {
    var d := MemoryQueue.Claim(b.queue, b.now).1;
    if d.Some? {
      ClaimTakesOneTicket(b.queue, b.now, d.value.id);
      assert Places(b, d.value.id) == One(d.value.id < b.queue.nextId);
      HeldByNone(b, d.value.id);
    }
  }

  lemma TryClaimKeepsFaithful(b: Batch, i: nat, r: Registry)
    requires i < |b.children| && Inv(b) && AllFaithful(b)
    ensures AllFaithful(TryClaimStep(b, i, r))
  {
    var (q', d) := MemoryQueue.Claim(b.queue, b.now);
    ClaimKeepsOthers(b.queue, b.now);
    if d.Some? {
      ClaimedIsHeldByNone(b);
      forall j | 0 <= j < |b.children| ensures Faithful(b.children[j], q') {
        FaithfulUnder(b.children[j], b.queue, q', d.value.id);
      }
      FaithfulClaim(b.children[i], Adopt(d.value), r.child, q');
    }
  }

  lemma StepKeepsFaithful(b: Batch, h: Happening, r: Registry)
    requires Inv(b) && AllFaithful(b)
    ensures AllFaithful(B.Step(b, h, r))
  {
    match h
    case Spawn =>
    case Pass(ms) =>
    case TryClaim(i) => if i < |b.children| && Asks(b.children[i]) { TryClaimKeepsFaithful(b, i, r); }
    case On(i, e) => if i < |b.children| && Allowed(b.children[i], e, r, b.now) { OnKeepsFaithful(b, i, e, r); }
  }

  // -------------------------------------------------------- the ledger of a job

  /** One job's numbers: tickets in the queue, claims in hand, whether the broker still has it,
      how often it was claimed and dispatched, and whether a claim of it was ever wasted. */
  datatype Ledger = Ledger(waiting: nat, inHand: nat, live: bool, attempts: nat, dispatched: nat, spared: bool)

  const BLANK := Ledger(0, 0, false, 0, 0, false)

  function InHandOf(id: nat): Child -> nat { (c: Child) => InHand(c, id) }

  function LedgerOf(s: Story, id: nat): Ledger {
    var q := s.batch.queue;
    Ledger(Tickets(q.ready, id), Sum(s.batch.children, InHandOf(id)), id in q.jobs,
           if id in q.jobs then q.jobs[id].attempts else 0, ChildRuns.Count(s.dispatched, id), id in s.spared)
  }

  function RetriesOf(s: Story, id: nat, r: Registry): nat {
    if id < |s.born| then r.child.retries(s.born[id].name) else 0
  }

  /** Retries are granted on the broker's count, which only a claim moves; so a job is never
      dispatched more often than it was claimed, and a job that waits still has a run left. */
  predicate Sound(l: Ledger, retries: nat) {
    && l.waiting + l.inHand <= 1
    && (!l.live ==> l.waiting == 0 && l.inHand == 0)
    && l.dispatched <= retries + 1
    && (l.live ==> l.dispatched + l.inHand <= l.attempts)
    && (l.waiting + l.inHand == 1 ==> l.dispatched <= retries)
    && (l.live && !l.spared ==> l.dispatched + l.inHand == l.attempts)
  }

  /** Everything that can happen to one job in one step. */
  predicate Moved(l: Ledger, l': Ledger, retries: nat) {
    || l' == l
    || (l == BLANK && l' == BLANK.(waiting := 1, live := true))                                       // pushed
    || (l.waiting == 1 && l' == l.(waiting := 0, inHand := l.inHand + 1, attempts := l.attempts + 1)) // claimed
    || (l.inHand == 1 && l' == l.(inHand := 0, waiting := l.waiting + 1, spared := true))             // handed back
    || (l.inHand == 1 && l' == l.(inHand := 0, spared := true))                                       // refused
    || (l.inHand == 1 && l' == l.(inHand := 0, dispatched := l.dispatched + 1))                       // dispatched
    || (l.waiting == 0 && l.inHand == 0 && l.attempts <= retries && l.live && l' == l.(waiting := 1)) // retried
    || (l.waiting == 0 && l.inHand == 0 && l' == l.(live := false, attempts := 0))                    // settled
  }

  lemma MovesKeepSound(l: Ledger, l': Ledger, retries: nat)
    requires Sound(l, retries) && Moved(l, l', retries)
    ensures Sound(l', retries)
  {
  }

  /** A job that is new has nothing to its name, whatever it may be retried. */
  lemma SoundEitherWay(l: Ledger, l': Ledger, retries: nat, retries': nat)
    requires Sound(l, retries) && Moved(l, l', retries) && (l == BLANK || retries' == retries)
    ensures Sound(l', retries')
  {
  }

  // ------------------------------------------------ how a step moves the ledger

  /** What a child's step does to its hand, as far as job `id` goes. */
  function Drops(c: Child, c': Child, id: nat): nat {
    One(c.hand.Some? && c'.hand.None? && c.hand.value.job.taskId == id)
  }

  predicate Puts(effect: Option<Effect>, id: nat) {
    effect.Some? && effect.value.HandBack? && effect.value.job.taskId == id
  }

  predicate Regrants(effect: Option<Effect>, id: nat) {
    effect.Some? && effect.value.Retry? && effect.value.item.job.taskId == id
  }

  predicate MayRetry(c: Child, cfg: Cfg, id: nat) {
    && c.settling.Busy? && !c.settling.stage.Settled?
    && c.settling.item.job.taskId == id
    && c.settling.item.job.attempt <= cfg.retries(c.settling.item.job.job.name)
  }

  /** The hand empties by dispatching, handing back or refusing, and only then; a job goes back
      in the queue from the hand, or from being settled with an attempt to spare. */
  ghost predicate HandMoves(c: Child, c': Child, e: S.Event, effect: Option<Effect>, cfg: Cfg, id: nat) {
    && InHand(c', id) + Drops(c, c', id) == InHand(c, id)
    && (Puts(effect, id) ==> Drops(c, c', id) == 1 && !e.Dispatch?)
    && (Drops(c, c', id) == 1 ==> Settles(effect, id) == 0 && !Regrants(effect, id))
    && (Regrants(effect, id) ==> MayRetry(c, cfg, id))
    && Requeues(effect, id) == One(Puts(effect, id) || Regrants(effect, id))
    && (Drops(c, c', id) == 1 ==> Pushes(effect) == 0)
  }

  lemma StepMovesHand(c: Child, e: S.Event, cfg: Cfg, id: nat)
    requires Valid(c) && !e.Claim?
    ensures var (c', effect) := S.Step(c, e, cfg); HandMoves(c, c', e, effect, cfg, id)
  {
  }

  ghost predicate BornMatches(s: Story) {
    && |s.born| == s.batch.queue.nextId
    && (forall id :: id in s.batch.queue.jobs ==> id < |s.born| && s.batch.queue.jobs[id].job == s.born[id])
  }

  ghost predicate AllSound(s: Story, r: Registry) {
    forall id: nat :: Sound(LedgerOf(s, id), RetriesOf(s, id, r)) && (id >= |s.born| ==> LedgerOf(s, id) == BLANK)
  }

  lemma {:induction false} SumAtMost(children: seq<Child>, a: Child -> nat, b: Child -> nat)
    requires forall i :: 0 <= i < |children| ==> a(children[i]) <= b(children[i])
    ensures Sum(children, a) <= Sum(children, b)
    decreases |children|
  {
    if children != [] {
      SumAtMost(children[..|children| - 1], a, b);
    }
  }

  lemma InHandIsHeld(b: Batch, id: nat)
    ensures Sum(b.children, InHandOf(id)) <= HeldByAll(b, id)
  {
    SumAtMost(b.children, InHandOf(id), HeldOf(id));
  }

  /** Nobody's record of attempts is touched but by a claim. */
  lemma ServedAttempts(q: Queue, effect: Option<Effect>, now: nat, id: nat)
    ensures var q' := Served(q, effect, now);
            && (id in q.jobs && id in q'.jobs && (Pushes(effect) == 0 || id != q.nextId) ==> q'.jobs[id] == q.jobs[id])
            && (Pushes(effect) == 1 && id == q.nextId ==>
                  id in q'.jobs && q'.jobs[id].attempts == 0 && [q'.jobs[id].job] == NewlyBorn(effect))
  {
  }

  // A child's step, as its effect and the child it leaves behind: the lemmas below take these
  // two as they come, so that none of them has to look inside the step.

  /** How a story goes on when child `i` takes a step. */
  ghost predicate GoesOn(s: Story, s': Story, i: nat, ran: bool, c': Child, effect: Option<Effect>) {
    && i < |s.batch.children|
    && s'.batch.children == s.batch.children[i := c']
    && s'.batch.queue == Served(s.batch.queue, effect, s.batch.now)
    && s'.born == s.born + NewlyBorn(effect)
    && var left := LeftHand(s.batch.children[i], c');
       && s'.dispatched == s.dispatched + (if left.Some? && ran then [left.value] else [])
       && s'.spared == s.spared + (if left.Some? && !ran then {left.value} else {})
       && s'.buried == s.buried + NewlyBuried(effect)
  }

  predicate Goes(s: Story, i: nat, e: S.Event, r: Registry) {
    i < |s.batch.children| && Allowed(s.batch.children[i], e, r, s.batch.now)
  }

  lemma TellingOn(s: Story, i: nat, e: S.Event, r: Registry)
    requires Goes(s, i, e, r)
    ensures var (c', effect) := S.Step(s.batch.children[i], e, r.child);
            GoesOn(s, Tell(s, On(i, e), r), i, e.Dispatch?, c', effect)
  {
  }

  lemma HeldUnder(s: Story, s': Story, i: nat, ran: bool, c': Child, effect: Option<Effect>, id: nat)
    requires GoesOn(s, s', i, ran, c', effect) && Moves(s.batch.children[i], c', effect, id)
    ensures HeldByAll(s'.batch, id) + Requeues(effect, id) + Settles(effect, id) == HeldByAll(s.batch, id)
  {
    SumUpdated(s.batch.children, i, c', HeldOf(id));
  }

  /** A child about to requeue or settle a job is its only holder, with the job not in its hand. */
  lemma SoleHolder(s: Story, s': Story, i: nat, ran: bool, c': Child, effect: Option<Effect>, id: nat)
    requires GoesOn(s, s', i, ran, c', effect) && Moves(s.batch.children[i], c', effect, id)
    requires EachInOnePlace(s.batch) && Requeues(effect, id) + Settles(effect, id) > 0
    ensures Tickets(s.batch.queue.ready, id) == 0 && Sum(s'.batch.children, InHandOf(id)) == 0
  {
    HeldUnder(s, s', i, ran, c', effect, id);
    assert Places(s.batch, id) == One(id < s.batch.queue.nextId);
    InHandIsHeld(s'.batch, id);
  }

  lemma QueueNumbers(s: Story, s': Story, i: nat, ran: bool, c': Child, effect: Option<Effect>, id: nat)
    requires GoesOn(s, s', i, ran, c', effect) && |s.born| == s.batch.queue.nextId
    requires forall x :: Requeues(effect, x) > 0 ==> x in s.batch.queue.jobs
    ensures var l, l' := LedgerOf(s, id), LedgerOf(s', id);
            var born := Pushes(effect) == 1 && id == |s.born|;
            && l'.waiting == l.waiting + Requeues(effect, id) + One(born)
            && (l'.live <==> (l.live && Settles(effect, id) == 0) || born)
            && l'.attempts == (if born || !l'.live then 0 else l.attempts)
  {
    ServedTickets(s.batch.queue, effect, s.batch.now, id);
    ServedAttempts(s.batch.queue, effect, s.batch.now, id);
  }

  lemma HandNumbers(s: Story, s': Story, i: nat, ran: bool, c': Child, effect: Option<Effect>, id: nat)
    requires GoesOn(s, s', i, ran, c', effect)
    requires InHand(c', id) + Drops(s.batch.children[i], c', id) == InHand(s.batch.children[i], id)
    ensures var dropped := Drops(s.batch.children[i], c', id) == 1;
            var l, l' := LedgerOf(s, id), LedgerOf(s', id);
            && l'.inHand + One(dropped) == l.inHand
            && l'.dispatched == l.dispatched + One(dropped && ran)
            && (l'.spared <==> l.spared || (dropped && !ran))
  {
    var left := LeftHand(s.batch.children[i], c');
    SumUpdated(s.batch.children, i, c', InHandOf(id));
    CountGrows(s.dispatched, if left.Some? && ran then [left.value] else [], id);
  }

  /** Putting the numbers together: which single thing happened to the job. */
  lemma WhichMove(l: Ledger, l': Ledger, retries: nat, dropped: bool, ran: bool, put: bool, regranted: bool,
        settled: bool, born: bool)
    requires Sound(l, retries)
    requires put ==> dropped && !ran
    requires dropped ==> !settled && !regranted && !born
    requires regranted || settled ==> l.waiting == 0 && l'.inHand == 0 && !born && !(regranted && settled)
    requires regranted ==> l.live && l.attempts <= retries
    requires born ==> l == BLANK
    requires l'.waiting == l.waiting + One(put || regranted) + One(born)
    requires l'.inHand + One(dropped) == l.inHand
    requires l'.live <==> (l.live && !settled) || born
    requires l'.attempts == if born || !l'.live then 0 else l.attempts
    requires !l.live ==> l.attempts == 0
    requires l'.dispatched == l.dispatched + One(dropped && ran)
    requires l'.spared <==> l.spared || (dropped && !ran)
    ensures Moved(l, l', retries)
  {
  }

  lemma EffectsExclude(effect: Option<Effect>, id: nat)
    ensures Requeues(effect, id) + Settles(effect, id) + Pushes(effect) <= 1
  {
  }

  /** Retries go by what the broker counted. */
  lemma RetryHasAnAttempt(s: Story, c: Child, r: Registry, id: nat)
    requires BornMatches(s) && Faithful(c, s.batch.queue) && MayRetry(c, r.child, id) && id in s.batch.queue.jobs
    ensures s.batch.queue.jobs[id].attempts <= RetriesOf(s, id, r)
  {
    assert Agrees(c.settling.item.job, s.batch.queue);
  }

  /** What is known of a child's step for one job, and used below. */
  ghost predicate Lawful(c: Child, c': Child, e: S.Event, effect: Option<Effect>, cfg: Cfg, id: nat) {
    Moves(c, c', effect, id) && HandMoves(c, c', e, effect, cfg, id)
  }

  lemma LedgerGoesOn(s: Story, s': Story, i: nat, e: S.Event, c': Child, effect: Option<Effect>, r: Registry, id: nat)
    requires GoesOn(s, s', i, e.Dispatch?, c', effect) && Lawful(s.batch.children[i], c', e, effect, r.child, id)
    requires EachInOnePlace(s.batch) && BornMatches(s) && Faithful(s.batch.children[i], s.batch.queue)
    requires Sound(LedgerOf(s, id), RetriesOf(s, id, r)) && (id >= |s.born| ==> LedgerOf(s, id) == BLANK)
    requires forall x :: Requeues(effect, x) > 0 ==> x in s.batch.queue.jobs
    ensures Moved(LedgerOf(s, id), LedgerOf(s', id), RetriesOf(s, id, r))
    ensures id >= |s'.born| ==> LedgerOf(s', id) == BLANK
  {
    var c, ran := s.batch.children[i], e.Dispatch?;
    QueueNumbers(s, s', i, ran, c', effect, id);
    HandNumbers(s, s', i, ran, c', effect, id);
    EffectsExclude(effect, id);
    if Requeues(effect, id) + Settles(effect, id) > 0 { SoleHolder(s, s', i, ran, c', effect, id); }
    if Regrants(effect, id) { RetryHasAnAttempt(s, c, r, id); }
    WhichMove(LedgerOf(s, id), LedgerOf(s', id), RetriesOf(s, id, r), Drops(c, c', id) == 1, ran,
              Puts(effect, id), Regrants(effect, id), Settles(effect, id) == 1, Pushes(effect) == 1 && id == |s.born|);
  }

  // ------------------------------------------------------ the invariant is kept

  ghost predicate StoryInv(s: Story, r: Registry) {
    Inv(s.batch) && AllFaithful(s.batch) && BornMatches(s) && AllSound(s, r)
  }

  lemma BornGoesOn(s: Story, s': Story, i: nat, ran: bool, c': Child, effect: Option<Effect>)
    requires GoesOn(s, s', i, ran, c', effect) && BornMatches(s)
    ensures BornMatches(s')
  {
    forall id | id in s'.batch.queue.jobs ensures id < |s'.born| && s'.batch.queue.jobs[id].job == s'.born[id] {
      ServedAttempts(s.batch.queue, effect, s.batch.now, id);
    }
  }

  lemma OnIsLawful(s: Story, i: nat, e: S.Event, r: Registry, id: nat)
    requires Goes(s, i, e, r) && ChildrenValid(s.batch)
    ensures var (c', effect) := S.Step(s.batch.children[i], e, r.child);
            Lawful(s.batch.children[i], c', e, effect, r.child, id)
  {
    StepMoves(s.batch.children[i], e, r.child, id);
    StepMovesHand(s.batch.children[i], e, r.child, id);
  }

  lemma OnKeepsSound(s: Story, i: nat, e: S.Event, r: Registry, id: nat)
    requires StoryInv(s, r) && Goes(s, i, e, r)
    ensures var s' := Tell(s, On(i, e), r);
            && Sound(LedgerOf(s', id), RetriesOf(s', id, r))
            && (id >= |s'.born| ==> LedgerOf(s', id) == BLANK)
  {
    var s' := Tell(s, On(i, e), r);
    var (c', effect) := S.Step(s.batch.children[i], e, r.child);
    TellingOn(s, i, e, r);
    OnIsLawful(s, i, e, r, id);
    RequeuedIsLive(s.batch, i, e, r);
    assert Sound(LedgerOf(s, id), RetriesOf(s, id, r));
    SoundGoesOn(s, s', i, e, c', effect, r, id);
  }

  lemma RetriesStay(s: Story, s': Story, id: nat, r: Registry)
    requires s.born <= s'.born && id < |s.born|
    ensures RetriesOf(s', id, r) == RetriesOf(s, id, r)
  {
  }

  lemma SoundGoesOn(s: Story, s': Story, i: nat, e: S.Event, c': Child, effect: Option<Effect>, r: Registry, id: nat)
    requires GoesOn(s, s', i, e.Dispatch?, c', effect) && Lawful(s.batch.children[i], c', e, effect, r.child, id)
    requires EachInOnePlace(s.batch) && BornMatches(s) && Faithful(s.batch.children[i], s.batch.queue)
    requires Sound(LedgerOf(s, id), RetriesOf(s, id, r)) && (id >= |s.born| ==> LedgerOf(s, id) == BLANK)
    requires forall x :: Requeues(effect, x) > 0 ==> x in s.batch.queue.jobs
    ensures Sound(LedgerOf(s', id), RetriesOf(s', id, r)) && (id >= |s'.born| ==> LedgerOf(s', id) == BLANK)
  {
    LedgerGoesOn(s, s', i, e, c', effect, r, id);
    if id < |s.born| { RetriesStay(s, s', id, r); }
    SoundEitherWay(LedgerOf(s, id), LedgerOf(s', id), RetriesOf(s, id, r), RetriesOf(s', id, r));
  }

  lemma ClaimMovesInHand(b: Batch, i: nat, r: Registry, id: nat)
    requires i < |b.children| && Inv(b) && Asks(b.children[i])
    ensures var d := MemoryQueue.Claim(b.queue, b.now).1;
            Sum(TryClaimStep(b, i, r).children, InHandOf(id))
              == Sum(b.children, InHandOf(id)) + One(d.Some? && d.value.id == id)
  {
    var d := MemoryQueue.Claim(b.queue, b.now).1;
    if d.Some? {
      ClaimedIsNotHeld(b, i);
      ClaimIsAccepted(b.children[i], Adopt(d.value), r.child, id);
      SumUpdated(b.children, i, S.Step(b.children[i], S.Event.Claim(Adopt(d.value)), r.child).0, InHandOf(id));
    }
  }

  lemma ClaimCountsAttempt(q: Queue, now: nat, id: nat)
    ensures var (q', d) := MemoryQueue.Claim(q, now);
            && q'.jobs.Keys == q.jobs.Keys
            && (id in q.jobs ==>
               q'.jobs[id] == q.jobs[id].(attempts := q.jobs[id].attempts + One(d.Some? && d.value.id == id)))
            && (d.Some? && d.value.id == id ==> id in q.jobs)
  {
  }

  function ClaimedOne(l: Ledger, claimed: bool): Ledger {
    if claimed && l.waiting > 0
    then l.(waiting := l.waiting - 1, inHand := l.inHand + 1, attempts := l.attempts + 1)
    else l
  }

  lemma ClaimingMovesQueue(b: Batch, i: nat, r: Registry, id: nat)
    requires Inv(b) && i < |b.children| && Asks(b.children[i])
    ensures var d := MemoryQueue.Claim(b.queue, b.now).1;
            TakenFrom(b.queue, TryClaimStep(b, i, r).queue, id, d.Some? && d.value.id == id)
  {
    ClaimTakesOneTicket(b.queue, b.now, id);
    ClaimCountsAttempt(b.queue, b.now, id);
  }

  predicate TakenFrom(q: Queue, q': Queue, id: nat, claimed: bool) {
    && Tickets(q.ready, id) == Tickets(q'.ready, id) + One(claimed)
    && (id in q'.jobs <==> id in q.jobs) && (claimed ==> id in q.jobs)
    && (id in q.jobs ==> q'.jobs[id].attempts == q.jobs[id].attempts + One(claimed))
  }

  lemma LedgerOfClaimed(s: Story, b': Batch, id: nat, claimed: bool)
    requires TakenFrom(s.batch.queue, b'.queue, id, claimed)
    requires Sum(b'.children, InHandOf(id)) == Sum(s.batch.children, InHandOf(id)) + One(claimed)
    ensures LedgerOf(s.(batch := b'), id) == ClaimedOne(LedgerOf(s, id), claimed)
  {
  }

  lemma TryClaimMovesLedger(s: Story, i: nat, r: Registry, id: nat)
    requires Inv(s.batch) && i < |s.batch.children| && Asks(s.batch.children[i])
    ensures var d := MemoryQueue.Claim(s.batch.queue, s.batch.now).1;
            LedgerOf(s.(batch := TryClaimStep(s.batch, i, r)), id)
              == ClaimedOne(LedgerOf(s, id), d.Some? && d.value.id == id)
  {
    var d := MemoryQueue.Claim(s.batch.queue, s.batch.now).1;
    ClaimingMovesQueue(s.batch, i, r, id);
    ClaimMovesInHand(s.batch, i, r, id);
    LedgerOfClaimed(s, TryClaimStep(s.batch, i, r), id, d.Some? && d.value.id == id);
  }

  lemma TryClaimKeepsSound(s: Story, i: nat, r: Registry, id: nat)
    requires StoryInv(s, r) && i < |s.batch.children| && Asks(s.batch.children[i])
    ensures var s' := s.(batch := TryClaimStep(s.batch, i, r));
            Sound(LedgerOf(s', id), RetriesOf(s', id, r)) && (id >= |s'.born| ==> LedgerOf(s', id) == BLANK)
  {
    var d := MemoryQueue.Claim(s.batch.queue, s.batch.now).1;
    assert Sound(LedgerOf(s, id), RetriesOf(s, id, r));
    TryClaimMovesLedger(s, i, r, id);
    ClaimedMoves(LedgerOf(s, id), RetriesOf(s, id, r), d.Some? && d.value.id == id);
  }

  lemma ClaimedMoves(l: Ledger, retries: nat, claimed: bool)
    requires Sound(l, retries)
    ensures Sound(ClaimedOne(l, claimed), retries)
  {
    if claimed && l.waiting > 0 { MovesKeepSound(l, ClaimedOne(l, claimed), retries); }
  }

  lemma SpawnKeepsLedger(s: Story, id: nat)
    ensures LedgerOf(s.(batch := s.batch.(children := s.batch.children + [FRESH])), id) == LedgerOf(s, id)
  {
    SumOneMore(s.batch.children, FRESH, InHandOf(id));
  }

  lemma OnKeepsStory(s: Story, i: nat, e: S.Event, r: Registry)
    requires StoryInv(s, r) && Goes(s, i, e, r)
    ensures StoryInv(Tell(s, On(i, e), r), r)
  {
    var s' := Tell(s, On(i, e), r);
    TellingOn(s, i, e, r);
    StepKeepsInv(s.batch, On(i, e), r);
    StepKeepsFaithful(s.batch, On(i, e), r);
    BornGoesOn(s, s', i, e.Dispatch?, S.Step(s.batch.children[i], e, r.child).0,
      S.Step(s.batch.children[i], e, r.child).1);
    forall id: nat
      ensures Sound(LedgerOf(s', id), RetriesOf(s', id, r)) && (id >= |s'.born| ==> LedgerOf(s', id) == BLANK) {
      OnKeepsSound(s, i, e, r, id);
    }
  }

  lemma TryClaimKeepsStory(s: Story, i: nat, r: Registry)
    requires StoryInv(s, r) && i < |s.batch.children| && Asks(s.batch.children[i])
    ensures StoryInv(s.(batch := TryClaimStep(s.batch, i, r)), r)
  {
    var s' := s.(batch := TryClaimStep(s.batch, i, r));
    TryClaimKeepsInv(s.batch, i, r);
    TryClaimKeepsFaithful(s.batch, i, r);
    ClaimTakesOneTicket(s.batch.queue, s.batch.now, 0);
    forall id | id in s'.batch.queue.jobs ensures id < |s'.born| && s'.batch.queue.jobs[id].job == s'.born[id] {
      ClaimCountsAttempt(s.batch.queue, s.batch.now, id);
    }
    forall id: nat
      ensures Sound(LedgerOf(s', id), RetriesOf(s', id, r)) && (id >= |s'.born| ==> LedgerOf(s', id) == BLANK) {
      TryClaimKeepsSound(s, i, r, id);
    }
  }

  lemma SpawnKeepsStory(s: Story, r: Registry)
    requires StoryInv(s, r)
    ensures StoryInv(s.(batch := s.batch.(children := s.batch.children + [FRESH])), r)
  {
    var s' := s.(batch := s.batch.(children := s.batch.children + [FRESH]));
    SpawnKeepsInv(s.batch);
    forall id: nat
      ensures Sound(LedgerOf(s', id), RetriesOf(s', id, r)) && (id >= |s'.born| ==> LedgerOf(s', id) == BLANK) {
      SpawnKeepsLedger(s, id);
      assert Sound(LedgerOf(s, id), RetriesOf(s, id, r));
    }
  }

  lemma PassKeepsStory(s: Story, ms: nat, r: Registry)
    requires StoryInv(s, r)
    ensures StoryInv(s.(batch := s.batch.(now := s.batch.now + ms)), r)
  {
    var s' := s.(batch := s.batch.(now := s.batch.now + ms));
    PassKeepsInv(s.batch, ms);
    forall id: nat
      ensures Sound(LedgerOf(s', id), RetriesOf(s', id, r)) && (id >= |s'.born| ==> LedgerOf(s', id) == BLANK) {
      assert Sound(LedgerOf(s, id), RetriesOf(s, id, r));
    }
  }

  lemma NothingIsAdded(s: Story, h: Happening, r: Registry)
    requires !h.On? || !Goes(s, h.i, h.event, r)
    ensures Tell(s, h, r) == s.(batch := B.Step(s.batch, h, r))
  {
  }

  lemma TellKeepsStory(s: Story, h: Happening, r: Registry)
    requires StoryInv(s, r)
    ensures StoryInv(Tell(s, h, r), r)
  {
    if h.On? && Goes(s, h.i, h.event, r) {
      OnKeepsStory(s, h.i, h.event, r);
    } else {
      NothingIsAdded(s, h, r);
      match h
      case Spawn => SpawnKeepsStory(s, r);
      case Pass(ms) => PassKeepsStory(s, ms, r);
      case TryClaim(i) => if i < |s.batch.children| && Asks(s.batch.children[i]) { TryClaimKeepsStory(s, i, r); }
      case On(_, _) =>
    }
  }

  lemma {:induction false} SubmittedRecord(jobs: seq<NewJob>, now0: nat, id: nat)
    requires id < |jobs|
    ensures var q := Submitted(jobs, now0);
            q.nextId == |jobs| && id in q.jobs && q.jobs[id] == MemoryQueue.Record.Record(jobs[id], 0, now0)
    decreases |jobs|
  {
    SubmittedOnce(jobs[..|jobs| - 1], now0, id);
    if id < |jobs| - 1 {
      SubmittedRecord(jobs[..|jobs| - 1], now0, id);
    }
  }

  lemma StoryBegins(jobs: seq<NewJob>, now0: nat, r: Registry)
    ensures StoryInv(Told(jobs, now0, [], r), r)
  {
    StartHasInv(jobs, now0);
    BornAtTheBeginning(jobs, now0);
    SoundAtTheBeginning(jobs, now0, r);
  }

  lemma BornAtTheBeginning(jobs: seq<NewJob>, now0: nat)
    ensures BornMatches(Beginning(jobs, now0))
  {
    SubmittedOnce(jobs, now0, 0);
    forall id: nat { SubmittedOnce(jobs, now0, id); }
    forall id: nat | id < |jobs| { SubmittedRecord(jobs, now0, id); }
  }

  lemma SoundAtTheBeginning(jobs: seq<NewJob>, now0: nat, r: Registry)
    ensures AllSound(Beginning(jobs, now0), r)
  {
    var s := Beginning(jobs, now0);
    forall id: nat
      ensures Sound(LedgerOf(s, id), RetriesOf(s, id, r)) && (id >= |s.born| ==> LedgerOf(s, id) == BLANK) {
      LedgerAtTheBeginning(jobs, now0, id);
    }
  }

  lemma LedgerAtTheBeginning(jobs: seq<NewJob>, now0: nat, id: nat)
    ensures LedgerOf(Beginning(jobs, now0), id) == if id < |jobs| then BLANK.(waiting := 1, live := true) else BLANK
  {
    SubmittedOnce(jobs, now0, id);
    if id < |jobs| { SubmittedRecord(jobs, now0, id); }
  }

  lemma {:induction false} StoryAlways(jobs: seq<NewJob>, now0: nat, events: seq<Happening>, r: Registry)
    ensures StoryInv(Told(jobs, now0, events, r), r)
    decreases |events|
  {
    if events == [] {
      StoryBegins(jobs, now0, r);
    } else {
      StoryAlways(jobs, now0, events[..|events| - 1], r);
      TellKeepsStory(Told(jobs, now0, events[..|events| - 1], r), events[|events| - 1], r);
    }
  }

  // ------------------------------------------------------------- main results

  /** Whatever the children do and however often they die, no job is dispatched more than once
      more than its task's retries; a job that has not been pushed is not dispatched at all. */
  lemma AtMostRetriesPlusOne(jobs: seq<NewJob>, now0: nat, events: seq<Happening>, r: Registry, id: nat)
    ensures var s := Told(jobs, now0, events, r);
            ChildRuns.Count(s.dispatched, id) <= if id < |s.born| then r.child.retries(s.born[id].name) + 1 else 0
  {
    var s := Told(jobs, now0, events, r);
    StoryAlways(jobs, now0, events, r);
    assert Sound(LedgerOf(s, id), RetriesOf(s, id, r));
  }

  /** Dead letters are of settled jobs, and unless the handler rejected the job, or a claim of it
      was handed back or refused, every run its task allows had been spent on it. */
  ghost predicate Exhausted(s: Story, item: Item, r: Registry) {
    var id := item.job.taskId;
    && id < |s.born| && id !in s.batch.queue.jobs
    && (item.outcome.directive != Reject && id !in s.spared ==>
          ChildRuns.Count(s.dispatched, id) == r.child.retries(s.born[id].name) + 1)
  }

  ghost predicate AllExhausted(s: Story, r: Registry) {
    forall k :: 0 <= k < |s.buried| ==> Exhausted(s, s.buried[k], r)
  }

  predicate OutOfRetries(c: Child, cfg: Cfg, item: Item) {
    && c.settling.Busy? && !c.settling.stage.Settled? && c.settling.item == item
    && (item.outcome.directive == Reject || item.job.attempt > cfg.retries(item.job.job.name))
  }

  lemma BuriedIsOutOfRetries(c: Child, e: S.Event, cfg: Cfg)
    ensures var effect := S.Step(c, e, cfg).1;
            effect.Some? && effect.value.Bury? ==> OutOfRetries(c, cfg, effect.value.item)
  {
  }

  lemma StaysExhausted(s: Story, s': Story, i: nat, e: S.Event, c': Child, effect: Option<Effect>, r: Registry,
        item: Item)
    requires GoesOn(s, s', i, e.Dispatch?, c', effect)
             && Lawful(s.batch.children[i], c', e, effect, r.child, item.job.taskId)
    requires StoryInv(s, r) && Exhausted(s, item, r)
    requires forall x :: Requeues(effect, x) > 0 ==> x in s.batch.queue.jobs
    ensures Exhausted(s', item, r)
  {
    var id := item.job.taskId;
    assert Sound(LedgerOf(s, id), RetriesOf(s, id, r));
    QueueNumbers(s, s', i, e.Dispatch?, c', effect, id);
    HandNumbers(s, s', i, e.Dispatch?, c', effect, id);
  }

  lemma NewlyExhausted(s: Story, s': Story, i: nat, e: S.Event, c': Child, item: Item, r: Registry)
    requires GoesOn(s, s', i, e.Dispatch?, c', Some(Bury(item)))
    requires Lawful(s.batch.children[i], c', e, Some(Bury(item)), r.child, item.job.taskId)
    requires StoryInv(s, r)
    requires OutOfRetries(s.batch.children[i], r.child, item)
    ensures Exhausted(s', item, r)
  {
    var id, effect, ran := item.job.taskId, Some(Bury(item)), e.Dispatch?;
    HeldIsOutstanding(s.batch, i, id);
    HeldUnder(s, s', i, ran, c', effect, id);
    SoleHolder(s, s', i, ran, c', effect, id);
    assert Agrees(item.job, s.batch.queue);
    assert Sound(LedgerOf(s, id), RetriesOf(s, id, r));
    QueueNumbers(s, s', i, ran, c', effect, id);
    HandNumbers(s, s', i, ran, c', effect, id);
  }

  lemma ExhaustedGoesOn(s: Story, s': Story, i: nat, e: S.Event, c': Child, effect: Option<Effect>, r: Registry, k: nat)
    requires GoesOn(s, s', i, e.Dispatch?, c', effect) && StoryInv(s, r) && AllExhausted(s, r)
    requires k < |s'.buried| && Lawful(s.batch.children[i], c', e, effect, r.child, s'.buried[k].job.taskId)
    requires forall x :: Requeues(effect, x) > 0 ==> x in s.batch.queue.jobs
    requires effect.Some? && effect.value.Bury? ==> OutOfRetries(s.batch.children[i], r.child, effect.value.item)
    ensures Exhausted(s', s'.buried[k], r)
  {
    if k < |s.buried| {
      StaysExhausted(s, s', i, e, c', effect, r, s.buried[k]);
    } else {
      NewlyExhausted(s, s', i, e, c', s'.buried[k], r);
    }
  }

  lemma OnKeepsExhausted(s: Story, i: nat, e: S.Event, r: Registry)
    requires StoryInv(s, r) && AllExhausted(s, r) && Goes(s, i, e, r)
    ensures AllExhausted(Tell(s, On(i, e), r), r)
  {
    var s' := Tell(s, On(i, e), r);
    var (c', effect) := S.Step(s.batch.children[i], e, r.child);
    TellingOn(s, i, e, r);
    RequeuedIsLive(s.batch, i, e, r);
    BuriedIsOutOfRetries(s.batch.children[i], e, r.child);
    forall k | 0 <= k < |s'.buried| ensures Exhausted(s', s'.buried[k], r) {
      OnIsLawful(s, i, e, r, s'.buried[k].job.taskId);
      ExhaustedGoesOn(s, s', i, e, c', effect, r, k);
    }
  }

  lemma QuietKeepsExhausted(s: Story, b': Batch, r: Registry)
    requires AllExhausted(s, r) && b'.queue.jobs.Keys == s.batch.queue.jobs.Keys
    ensures AllExhausted(s.(batch := b'), r)
  {
    forall k | 0 <= k < |s.buried| ensures Exhausted(s.(batch := b'), s.buried[k], r) {
      assert Exhausted(s, s.buried[k], r);
      assert s.buried[k].job.taskId !in s.batch.queue.jobs.Keys;
    }
  }

  lemma TellKeepsExhausted(s: Story, h: Happening, r: Registry)
    requires StoryInv(s, r) && AllExhausted(s, r)
    ensures AllExhausted(Tell(s, h, r), r)
  {
    if h.On? && Goes(s, h.i, h.event, r) {
      OnKeepsExhausted(s, h.i, h.event, r);
    } else {
      NothingIsAdded(s, h, r);
      ClaimCountsAttempt(s.batch.queue, s.batch.now, 0);
      QuietKeepsExhausted(s, B.Step(s.batch, h, r), r);
    }
  }

  lemma {:induction false} ExhaustedAlways(jobs: seq<NewJob>, now0: nat, events: seq<Happening>, r: Registry)
    ensures AllExhausted(Told(jobs, now0, events, r), r)
    decreases |events|
  {
    if events != [] {
      var before := events[..|events| - 1];
      ExhaustedAlways(jobs, now0, before, r);
      StoryAlways(jobs, now0, before, r);
      TellKeepsExhausted(Told(jobs, now0, before, r), events[|events| - 1], r);
    }
  }

  /** A job that is dead-lettered for failing has been dispatched exactly once more than its
      retries, if no handler rejected it and no claim of it was limited, capped, expired or
      cancelled. */
  lemma ExactlyRetriesPlusOne(jobs: seq<NewJob>, now0: nat, events: seq<Happening>, r: Registry, item: Item)
    requires item in Told(jobs, now0, events, r).buried && item.outcome.directive != Reject
    requires item.job.taskId !in Told(jobs, now0, events, r).spared
    ensures var s, id := Told(jobs, now0, events, r), item.job.taskId;
            id < |s.born| && ChildRuns.Count(s.dispatched, id) == r.child.retries(s.born[id].name) + 1
  {
    ExhaustedAlways(jobs, now0, events, r);
  }

  // ------------------------------------------------------------------- expiry

  predicate ClearedFor(c: Child, id: nat) {
    c.hand.Some? && c.hand.value.cleared && c.hand.value.job.taskId == id
  }

  /** The job exists, is past its expiry if the broker still has it, and no child has it in hand
      cleared to go. */
  ghost predicate Stale(b: Batch, id: nat, r: Registry) {
    && id < b.queue.nextId
    && (id in b.queue.jobs ==> PastExpiry(Adopt(Delivery(id, b.queue.jobs[id])), r, b.now))
    && (forall i :: 0 <= i < |b.children| ==> !ClearedFor(b.children[i], id))
  }

  /** Only clearing it makes a job clear, and a job is dispatched only when cleared. */
  lemma ClearingIsAllowed(c: Child, e: S.Event, r: Registry, now: nat, id: nat)
    requires Valid(c) && Allowed(c, e, r, now) && !ClearedFor(c, id)
    ensures var c' := S.Step(c, e, r.child).0;
            && (ClearedFor(c', id) ==>
               c.hand.Some? && c.hand.value.job.taskId == id && !PastExpiry(c.hand.value.job, r, now))
            && (e.Dispatch? ==> LeftHand(c, c') != Some(id))
  {
  }

  lemma HeldHandIsLive(b: Batch, i: nat)
    requires i < |b.children| && Inv(b) && b.children[i].hand.Some?
    ensures b.children[i].hand.value.job.taskId in b.queue.jobs
  {
    var id := b.children[i].hand.value.job.taskId;
    SumAtLeast(b.children, i, HeldOf(id));
    assert Tickets(b.queue.ready, id) + HeldByAll(b, id) > 0;
  }

  lemma StaleIsNotCleared(b: Batch, i: nat, e: S.Event, r: Registry, id: nat)
    requires i < |b.children| && Inv(b) && AllFaithful(b) && Stale(b, id, r) && Allowed(b.children[i], e, r, b.now)
    ensures var c' := S.Step(b.children[i], e, r.child).0;
            !ClearedFor(c', id) && (e.Dispatch? ==> LeftHand(b.children[i], c') != Some(id))
  {
    if b.children[i].hand.Some? {
      HeldHandIsLive(b, i);
      assert Agrees(b.children[i].hand.value.job, b.queue);
    }
    ClearingIsAllowed(b.children[i], e, r, b.now, id);
  }

  lemma OnKeepsStale(s: Story, i: nat, e: S.Event, r: Registry, id: nat)
    requires StoryInv(s, r) && Goes(s, i, e, r) && Stale(s.batch, id, r)
    ensures var s' := Tell(s, On(i, e), r);
            Stale(s'.batch, id, r) && ChildRuns.Count(s'.dispatched, id) == ChildRuns.Count(s.dispatched, id)
  {
    var (c', effect) := S.Step(s.batch.children[i], e, r.child);
    TellingOn(s, i, e, r);
    StaleIsNotCleared(s.batch, i, e, r, id);
    StaleGoesOn(s, Tell(s, On(i, e), r), i, e, c', effect, r, id);
  }

  lemma StaleGoesOn(s: Story, s': Story, i: nat, e: S.Event, c': Child, effect: Option<Effect>, r: Registry, id: nat)
    requires GoesOn(s, s', i, e.Dispatch?, c', effect) && Stale(s.batch, id, r) && s'.batch.now == s.batch.now
    requires !ClearedFor(c', id) && (e.Dispatch? ==> LeftHand(s.batch.children[i], c') != Some(id))
    ensures Stale(s'.batch, id, r) && ChildRuns.Count(s'.dispatched, id) == ChildRuns.Count(s.dispatched, id)
  {
    var left := LeftHand(s.batch.children[i], c');
    CountGrows(s.dispatched, if left.Some? && e.Dispatch? then [left.value] else [], id);
    ServedAttempts(s.batch.queue, effect, s.batch.now, id);
  }

  lemma TryClaimKeepsStale(b: Batch, i: nat, r: Registry, id: nat)
    requires i < |b.children| && Stale(b, id, r)
    ensures Stale(TryClaimStep(b, i, r), id, r)
  {
    ClaimCountsAttempt(b.queue, b.now, id);
    ClaimTakesOneTicketOnly(b.queue, b.now);
  }

  lemma ClaimTakesOneTicketOnly(q: Queue, now: nat)
    ensures MemoryQueue.Claim(q, now).0.nextId == q.nextId
  {
  }

  lemma TellKeepsStale(s: Story, h: Happening, r: Registry, id: nat)
    requires StoryInv(s, r) && Stale(s.batch, id, r)
    ensures var s' := Tell(s, h, r);
            Stale(s'.batch, id, r) && ChildRuns.Count(s'.dispatched, id) == ChildRuns.Count(s.dispatched, id)
  {
    if h.On? && Goes(s, h.i, h.event, r) {
      OnKeepsStale(s, h.i, h.event, r, id);
    } else {
      NothingIsAdded(s, h, r);
      if h.TryClaim? && h.i < |s.batch.children| { TryClaimKeepsStale(s.batch, h.i, r, id); }
    }
  }

  /** Once past its expiry, and not already cleared to go, a job is never dispatched again,
      however often it is retried or handed back: requeueing keeps the moment it became ready. */
  lemma {:induction false} StaleIsNeverDispatched(jobs: seq<NewJob>, now0: nat, k: nat, events: seq<Happening>,
        r: Registry, id: nat)
    requires k <= |events| && Stale(Told(jobs, now0, events[..k], r).batch, id, r)
    ensures Stale(Told(jobs, now0, events, r).batch, id, r)
    ensures ChildRuns.Count(Told(jobs, now0, events, r).dispatched, id)
            == ChildRuns.Count(Told(jobs, now0, events[..k], r).dispatched, id)
    decreases |events|
  {
    if k == |events| {
      assert events[..k] == events;
    } else {
      var before := events[..|events| - 1];
      assert before[..k] == events[..k];
      StaleIsNeverDispatched(jobs, now0, k, before, r, id);
      StoryAlways(jobs, now0, before, r);
      TellKeepsStale(Told(jobs, now0, before, r), events[|events| - 1], r, id);
    }
  }

  ghost predicate ReadySince(b: Batch, jobs: seq<NewJob>, now0: nat) {
    forall id: nat :: id < |jobs| && id in b.queue.jobs ==> FiledAs(b.queue.jobs[id], jobs[id], now0)
  }

  /** The job it was, and the moment it became runnable, whatever has happened to it since. */
  predicate FiledAs(record: Record, job: NewJob, readyMs: nat) {
    record.job == job && record.readyMs == readyMs
  }

  lemma StepKeepsReadySince(b: Batch, h: Happening, r: Registry, jobs: seq<NewJob>, now0: nat)
    requires ReadySince(b, jobs, now0) && |jobs| <= b.queue.nextId
    ensures ReadySince(B.Step(b, h, r), jobs, now0) && |jobs| <= B.Step(b, h, r).queue.nextId
  {
    match h
    case TryClaim(i) =>
      forall id: nat { ClaimCountsAttempt(b.queue, b.now, id); }
      ClaimTakesOneTicketOnly(b.queue, b.now);
    case On(i, e) =>
      if i < |b.children| && Allowed(b.children[i], e, r, b.now) {
        ServedKeepsOthers(b.queue, S.Step(b.children[i], e, r.child).1, b.now);
      }
    case _ =>
  }

  lemma {:induction false} ReadySinceAlways(jobs: seq<NewJob>, now0: nat, events: seq<Happening>, r: Registry)
    ensures var b := Told(jobs, now0, events, r).batch; ReadySince(b, jobs, now0) && |jobs| <= b.queue.nextId
    decreases |events|
  {
    if events == [] {
      SubmittedOnce(jobs, now0, 0);
      forall id: nat | id < |jobs| { SubmittedRecord(jobs, now0, id); }
    } else {
      var before := events[..|events| - 1];
      ReadySinceAlways(jobs, now0, before, r);
      StepKeepsReadySince(Told(jobs, now0, before, r).batch, events[|events| - 1], r, jobs, now0);
    }
  }

  /** A job submitted at a moment the clock can tell from "unknown" is past its expiry exactly when
      more than that long has gone by since, as long as the broker has it. */
  lemma ExpiryRunsFromSubmission(jobs: seq<NewJob>, now0: nat, events: seq<Happening>, r: Registry, id: nat)
    requires now0 > 0 && id < |jobs| && Expiry(jobs[id], r) > 0
    ensures var b := Told(jobs, now0, events, r).batch;
            id in b.queue.jobs ==>
              (PastExpiry(Adopt(Delivery(id, b.queue.jobs[id])), r, b.now) <==> b.now > now0 + Expiry(jobs[id], r))
  {
    ReadySinceAlways(jobs, now0, events, r);
    var b := Told(jobs, now0, events, r).batch;
    if id in b.queue.jobs { assert FiledAs(b.queue.jobs[id], jobs[id], now0); }
  }

  /** Once its expiry has gone by since it was submitted, and no child has it cleared to go, a job is
      never dispatched again, though it may be waiting, claimed, failing or handed back. */
  lemma ExpiredIsNeverDispatched(jobs: seq<NewJob>, now0: nat, k: nat, events: seq<Happening>, r: Registry, id: nat)
    requires now0 > 0 && id < |jobs| && Expiry(jobs[id], r) > 0 && k <= |events|
    requires var b := Told(jobs, now0, events[..k], r).batch;
             && b.now > now0 + Expiry(jobs[id], r)
             && forall i :: 0 <= i < |b.children| ==> !ClearedFor(b.children[i], id)
    ensures ChildRuns.Count(Told(jobs, now0, events, r).dispatched, id)
            == ChildRuns.Count(Told(jobs, now0, events[..k], r).dispatched, id)
  {
    ExpiryRunsFromSubmission(jobs, now0, events[..k], r, id);
    ReadySinceAlways(jobs, now0, events[..k], r);
    StaleIsNeverDispatched(jobs, now0, k, events, r, id);
  }

  /** Neither cleared nor handed back. */
  ghost predicate MustRefuse(c: Child, r: Registry, now: nat) {
    !Allowed(c, S.Event.Clear, r, now) && forall ms :: !Allowed(c, Limited(ms), r, now)
  }

  /** Refusing what child `i` has in hand answers it, unless the settle channel is full. */
  predicate RefusedIs(b: Batch, i: nat, error: string, r: Registry)
    requires i < |b.children| && b.children[i].hand.Some?
  {
    var c := b.children[i];
    c.mode.Serving? && |c.queue| < r.child.capacity ==>
      B.Step(b, On(i, Refuse(error)), r).children
      == b.children[i := c.(hand := None, queue := c.queue + [Item(c.hand.value.job, Nack(error, ""), false)])]
  }

  lemma RefusingAnswers(b: Batch, i: nat, error: string, r: Registry)
    requires i < |b.children| && b.children[i].hand.Some?
    ensures RefusedIs(b, i, error, r)
  {
    var e := S.Event.Refuse(error);
    assert Allowed(b.children[i], e, r, b.now);
    assert S.Step(b.children[i], e, r.child).1 == None;
  }

  /** A child that has such a job in hand can only refuse it: it may neither clear it nor hand it
      back, and refusing it answers it. */
  lemma ExpiredIsRefused(jobs: seq<NewJob>, now0: nat, events: seq<Happening>, r: Registry, i: nat, error: string)
    requires var b := Told(jobs, now0, events, r).batch;
             && i < |b.children| && b.children[i].hand.Some? && !b.children[i].hand.value.cleared
             && var id := b.children[i].hand.value.job.taskId;
                && now0 > 0 && id < |jobs| && Expiry(jobs[id], r) > 0 && b.now > now0 + Expiry(jobs[id], r)
    ensures var b := Told(jobs, now0, events, r).batch;
            MustRefuse(b.children[i], r, b.now) && RefusedIs(b, i, error, r)
  {
    var b := Told(jobs, now0, events, r).batch;
    var id := b.children[i].hand.value.job.taskId;
    StoryAlways(jobs, now0, events, r);
    HeldHandIsLive(b, i);
    assert Agrees(b.children[i].hand.value.job, b.queue);
    ExpiryRunsFromSubmission(jobs, now0, events, r, id);
    RefusingAnswers(b, i, error, r);
  }

  /** Such a moment comes: of a single job left waiting past its expiry, the run goes on to a child
      that has claimed it and has it in hand, uncleared. */
  lemma AJobExpires(job: NewJob, now0: nat, r: Registry) returns (events: seq<Happening>)
    requires now0 > 0 && Expiry(job, r) > 0
    ensures var b := Told([job], now0, events, r).batch;
            HasIt(b, job, now0) && Stale(b, 0, r) && 0 in b.queue.jobs
  {
    var wait := Expiry(job, r) + 1;
    var before := HasASlot(job, now0, wait, r);
    events := before + [TryClaim(0)];
    NowHasIt(job, now0, before, now0 + wait, r);
    InHandAndStale(Told([job], now0, events, r).batch, job, now0, r);
  }

  /** Claimed and in hand, with the clock where it is. */
  ghost predicate HasIt(b: Batch, job: NewJob, now0: nat) {
    && b.children == [FRESH.(free := 1, hand := Some(Hand(Job(0, 1, now0, job), false)))]
    && b.queue.jobs == map[0 := Record.Record(job, 1, now0)] && b.queue.nextId == 1
  }

  lemma InHandAndStale(b: Batch, job: NewJob, now0: nat, r: Registry)
    requires HasIt(b, job, now0) && now0 > 0 && Expiry(job, r) > 0 && b.now == now0 + Expiry(job, r) + 1
    ensures Stale(b, 0, r) && 0 in b.queue.jobs
  {
  }

  lemma OneMore(jobs: seq<NewJob>, now0: nat, events: seq<Happening>, h: Happening, r: Registry)
    ensures Told(jobs, now0, events + [h], r).batch == B.Step(Told(jobs, now0, events, r).batch, h, r)
  {
    assert (events + [h])[..|events|] == events;
  }

  lemma ToldNext(jobs: seq<NewJob>, now0: nat, events: seq<Happening>, b: Batch, h: Happening, b': Batch, r: Registry)
    requires Told(jobs, now0, events, r).batch == b && B.Step(b, h, r) == b'
    ensures Told(jobs, now0, events + [h], r).batch == b'
  {
    OneMore(jobs, now0, events, h, r);
  }

  function Waiting(job: NewJob, now0: nat, now: nat, c: Child): Batch {
    Batch(Push(EMPTY, job, 0, now0), [c], map[], 1, false, now)
  }

  lemma LeftWaiting(job: NewJob, now0: nat, ms: nat, r: Registry)
    ensures B.Step(B.Step(Start([job], now0), Pass(ms), r), Spawn, r) == Waiting(job, now0, now0 + ms, FRESH)
  {
    assert [job][..0] == [] && Submitted([job], now0) == Push(EMPTY, job, 0, now0);
  }

  lemma GetsReady(job: NewJob, now0: nat, now: nat, r: Registry)
    ensures B.Step(Waiting(job, now0, now, FRESH), On(0, S.Event.Frame(Some([Msgpack.Str("Ready")]), false)), r)
            == Waiting(job, now0, now, FRESH.(free := 1))
  {
    assert S.Read([Msgpack.Str("Ready")]) == IsReady;
    assert ServeFrame(FRESH, r.child, Some([Msgpack.Str("Ready")]), false) == FRESH.(free := 1);
  }

  lemma HasASlot(job: NewJob, now0: nat, ms: nat, r: Registry) returns (events: seq<Happening>)
    ensures Told([job], now0, events, r).batch == Waiting(job, now0, now0 + ms, FRESH.(free := 1))
  {
    var ready := On(0, S.Event.Frame(Some([Msgpack.Str("Ready")]), false));
    var before := IsWaiting(job, now0, ms, r);
    GetsReady(job, now0, now0 + ms, r);
    ToldNext([job], now0, before, Waiting(job, now0, now0 + ms, FRESH), ready,
      Waiting(job, now0, now0 + ms, FRESH.(free := 1)), r);
    events := before + [ready];
  }

  lemma IsWaiting(job: NewJob, now0: nat, ms: nat, r: Registry) returns (events: seq<Happening>)
    ensures Told([job], now0, events, r).batch == Waiting(job, now0, now0 + ms, FRESH)
  {
    LeftWaiting(job, now0, ms, r);
    OneMore([job], now0, [], Pass(ms), r);
    OneMore([job], now0, [] + [Pass(ms)], Spawn, r);
    events := [] + [Pass(ms)] + [Spawn];
  }

  lemma ClaimsIt(job: NewJob, now0: nat, now: nat, r: Registry)
    ensures var b := B.Step(Waiting(job, now0, now, FRESH.(free := 1)), TryClaim(0), r);
            HasIt(b, job, now0) && b.now == now
  {
    var b, c := Waiting(job, now0, now, FRESH.(free := 1)), FRESH.(free := 1);
    assert MemoryQueue.Claim(b.queue, now).1 == Some(Delivery(0, Record.Record(job, 1, now0)));
    assert S.Step(c, S.Event.Claim(Job(0, 1, now0, job)), r.child).0
           == c.(hand := Some(Hand(Job(0, 1, now0, job), false)));
  }

  lemma NowHasIt(job: NewJob, now0: nat, events: seq<Happening>, now: nat, r: Registry)
    requires Told([job], now0, events, r).batch == Waiting(job, now0, now, FRESH.(free := 1))
    ensures var b := Told([job], now0, events + [TryClaim(0)], r).batch; HasIt(b, job, now0) && b.now == now
  {
    ClaimsIt(job, now0, now, r);
    OneMore([job], now0, events, TryClaim(0), r);
  }
}
