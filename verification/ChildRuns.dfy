/** What holds over every run of one child, whatever frames it sends: no delivery is settled
    twice or lost, answers reach the broker in the child's order, and only work that was
    handed out counts as done. */
module ChildRuns {
  import opened Results
  import opened Msgpack
  import opened Chains
  import opened Supervision

  // ------------------------------------------------------- one step conserves

  /** Whether a step takes on a delivery of job `id`. */
  function Taken(c: Child, e: Event, id: nat): nat {
    One(e.Claim? && e.job.taskId == id && c.mode.Serving? && c.hand.None? && c.free > 0 && Held(c, id) == 0)
  }

  /** Whether an effect answers for a delivery of job `id`: ack, retry and dead letter do, and
      so does handing a job back before it ran. */
  function Answers(effect: Option<Effect>, id: nat): nat {
    match effect
    case Some(Ack(item)) => One(item.job.taskId == id)
    case Some(Retry(item, _)) => One(item.job.taskId == id)
    case Some(Bury(item)) => One(item.job.taskId == id)
    case Some(HandBack(job, _)) => One(job.taskId == id)
    case _ => 0
  }

  lemma QueuedOneMore(items: seq<Item>, item: Item, id: nat)
    ensures Queued(items + [item], id) == Queued(items, id) + One(item.job.taskId == id)
  {
    assert (items + [item])[..|items|] == items;
  }

  lemma {:induction false} QueuedOneLess(items: seq<Item>, id: nat)
    requires items != []
    ensures Queued(items, id) == One(items[0].job.taskId == id) + Queued(items[1..], id)
    decreases |items|
  {
    if |items| > 1 {
      var init := items[..|items| - 1];
      QueuedOneLess(init, id);
      assert init[1..] == items[1..][..|items| - 2];
    }
  }

  lemma SettleStepConserves(c: Child, cfg: Cfg, id: nat)
    requires Valid(c) && c.settling.Busy?
    ensures var (c', effect) := SettleStep(c, cfg);
            Valid(c') && Held(c', id) + Answers(effect, id) == Held(c, id)
  {
  }

  lemma AcceptConserves(c: Child, answered: nat, outcome: Outcome, id: nat)
    requires Valid(c) && c.mode.Serving? && c.hand.None? && answered in c.inflight
    ensures var c' := c.(inflight := c.inflight - {answered}, tasksDone := c.tasksDone + 1,
                         queue := c.queue + [Item(c.inflight[answered], outcome, true)]);
            Valid(c') && Held(c', id) == Held(c, id)
  {
    QueuedOneMore(c.queue, Item(c.inflight[answered], outcome, true), id);
  }

  lemma ServeFrameConserves(c: Child, body: Option<seq<Value>>, fired: bool, cfg: Cfg, id: nat)
    requires Valid(c) && c.mode.Serving? && c.hand.None?
    ensures var c' := ServeFrame(c, cfg, body, fired); Valid(c') && Held(c', id) == Held(c, id)
  {
    if body.Some? && body.value != [] {
      match Read(body.value)
      case Answer(answered, outcome) => if answered in c.inflight { AcceptConserves(c, answered, outcome, id); }
      case _ =>
    }
  }

  lemma DrainFrameConserves(c: Child, body: Option<seq<Value>>, id: nat)
    requires Valid(c) && c.mode.Draining? && c.settling.Idle?
    ensures var c' := DrainFrame(c, body); Valid(c') && Held(c', id) == Held(c, id)
  {
  }

  predicate ConcernsTheHand(e: Event) {
    e.Claim? || e.Clear? || e.Limited? || e.Refuse? || e.Dispatch?
  }

  lemma RefuseConserves(c: Child, error: string, cfg: Cfg, id: nat)
    requires Valid(c)
    ensures var (c', effect) := Step(c, Refuse(error), cfg);
            Valid(c') && Held(c', id) == Held(c, id) && Answers(effect, id) == 0
  {
    if c.hand.Some? {
      QueuedOneMore(c.queue, Item(c.hand.value.job, Nack(error, ""), false), id);
    }
  }

  lemma DispatchConserves(c: Child, cfg: Cfg, id: nat)
    requires Valid(c)
    ensures var (c', effect) := Step(c, Dispatch, cfg);
            Valid(c') && Held(c', id) == Held(c, id) && Answers(effect, id) == 0
  {
  }

  lemma HandStepConserves(c: Child, e: Event, cfg: Cfg, id: nat)
    requires Valid(c) && ConcernsTheHand(e)
    ensures var (c', effect) := Step(c, e, cfg);
            Valid(c') && Held(c', id) + Answers(effect, id) == Held(c, id) + Taken(c, e, id)
  {
    if e.Refuse? { RefuseConserves(c, e.error, cfg, id); }
    else if e.Dispatch? { DispatchConserves(c, cfg, id); }
  }

  lemma ProgressConserves(c: Child, cfg: Cfg, id: nat)
    requires Valid(c)
    ensures var (c', effect) := Step(c, Progress, cfg);
            Valid(c') && Held(c', id) + Answers(effect, id) == Held(c, id)
  {
    if c.settling.Busy? { SettleStepConserves(c, cfg, id); }
    else if c.queue != [] { QueuedOneLess(c.queue, id); }
  }

  /** Whatever the event, what is held before and taken on is held after or answered for. */
  lemma StepConserves(c: Child, e: Event, cfg: Cfg, id: nat)
    requires Valid(c)
    ensures var (c', effect) := Step(c, e, cfg);
            Valid(c') && Held(c', id) + Answers(effect, id) == Held(c, id) + Taken(c, e, id)
  {
    if ConcernsTheHand(e) { HandStepConserves(c, e, cfg, id); }
    else if e.Progress? { ProgressConserves(c, cfg, id); }
    else if e.Frame? {
      if c.mode.Serving? && c.hand.None? { ServeFrameConserves(c, e.body, e.fired, cfg, id); }
      else if c.mode.Draining? && c.settling.Idle? { DrainFrameConserves(c, e.body, id); }
    }
  }

  // --------------------------------------------------------------- whole runs

  /** A child and the history of its run: the job ids claimed, the calls made on the broker and
      the record, the items sent to be settled and the ones whose settlement reached the broker,
      each in order, the answers heard from the child, how many jobs were dispatched to it, and
      how many slots it offered. */
  datatype Life = Life(
    child: Child, claimed: seq<nat>, calls: seq<Effect>, sent: seq<Item>, reached: seq<Item>,
    heard: seq<(nat, Outcome)>, dispatched: nat, offered: nat)

  const BORN := Life(FRESH, [], [], [], [], [], 0, 0)

  function CallOf(effect: Option<Effect>): seq<Effect> {
    match effect case Some(call) => [call] case None => []
  }

  function ReachedItem(effect: Option<Effect>): seq<Item> {
    match effect
    case Some(Ack(item)) => [item]
    case Some(Retry(item, _)) => [item]
    case Some(Bury(item)) => [item]
    case _ => []
  }

  /** Whether a step dispatched the job in hand. */
  function Sent(c: Child, c': Child, e: Event): nat {
    One(e.Dispatch? && c.hand.Some? && c'.hand.None?)
  }

  /** The item a step hands to the settle path: onto the queue, or straight to the broker. */
  function NewlySent(c: Child, c': Child): seq<Item> {
    if |c'.queue| > |c.queue| then [c'.queue[|c'.queue| - 1]]
    else if c.settling.Idle? && c'.settling.Busy? && |c'.queue| == |c.queue| then [c'.settling.item]
    else []
  }

  /** The answer a step hears, accepted or not. */
  function NewlyHeard(c: Child, e: Event): seq<(nat, Outcome)> {
    if e.Frame? && e.body.Some? && e.body.value != [] && Read(e.body.value).Answer?
       && ((c.mode.Serving? && c.hand.None?) || (c.mode.Draining? && c.settling.Idle?))
    then [(Read(e.body.value).taskId, Read(e.body.value).outcome)] else []
  }

  /** Whether a step hears a slot offered, and takes the offer up. */
  function Offers(c: Child, e: Event): nat {
    One(e.Frame? && !e.fired && e.body.Some? && e.body.value != [] && Read(e.body.value).IsReady?
        && c.mode.Serving? && c.hand.None?)
  }

  /** The history with one more step in it. */
  function Noted(l: Life, e: Event, c': Child, effect: Option<Effect>): Life {
    Life(c',
         l.claimed + NewlyClaimed(l.child, c'),
         l.calls + CallOf(effect),
         l.sent + NewlySent(l.child, c'),
         l.reached + ReachedItem(effect),
         l.heard + NewlyHeard(l.child, e),
         l.dispatched + Sent(l.child, c', e),
         l.offered + Offers(l.child, e))
  }

  function LifeStep(l: Life, e: Event, cfg: Cfg): Life {
    var (c', effect) := Step(l.child, e, cfg);
    Noted(l, e, c', effect)
  }

  function Run(events: seq<Event>, cfg: Cfg): Life
    decreases |events|
  {
    if events == [] then BORN else LifeStep(Run(events[..|events| - 1], cfg), events[|events| - 1], cfg)
  }

  function Count(ids: seq<nat>, id: nat): nat {
    if ids == [] then 0 else Count(ids[..|ids| - 1], id) + One(ids[|ids| - 1] == id)
  }

  /** How many of a run's calls answer for a delivery of job `id`. */
  function AnswersIn(calls: seq<Effect>, id: nat): nat {
    if calls == [] then 0 else AnswersIn(calls[..|calls| - 1], id) + Answers(Some(calls[|calls| - 1]), id)
  }

  lemma CountGrows(ids: seq<nat>, extra: seq<nat>, id: nat)
    requires |extra| <= 1
    ensures Count(ids + extra, id) == Count(ids, id) + One(extra != [] && extra[0] == id)
  {
    if extra == [] {
      assert ids + extra == ids;
    } else {
      assert (ids + extra)[..|ids + extra| - 1] == ids;
    }
  }

  /** Every delivery claimed is still held or has been answered for, once. */
  predicate Conserved(l: Life, id: nat) {
    Count(l.claimed, id) == Held(l.child, id) + AnswersIn(l.calls, id)
  }

  lemma TakingShows(c: Child, e: Event, cfg: Cfg, id: nat)
    requires Valid(c)
    ensures var c' := Step(c, e, cfg).0;
            var newly := NewlyClaimed(c, c'); Taken(c, e, id) == One(newly != [] && newly[0] == id)
  {
  }

  /** The id a step newly claims, as a sequence. */
  function NewlyClaimed(c: Child, c': Child): seq<nat> {
    if c.hand.None? && c'.hand.Some? then [c'.hand.value.job.taskId] else []
  }

  lemma CountAnswers(calls: seq<Effect>, effect: Option<Effect>, id: nat)
    ensures AnswersIn(calls + CallOf(effect), id) == AnswersIn(calls, id) + Answers(effect, id)
  {
    if effect.Some? {
      assert (calls + [effect.value])[..|calls|] == calls;
    } else {
      assert calls + [] == calls;
    }
  }

  lemma CountClaims(ids: seq<nat>, c: Child, c': Child, taken: nat, id: nat)
    requires var newly := NewlyClaimed(c, c'); taken == One(newly != [] && newly[0] == id)
    ensures Count(ids + NewlyClaimed(c, c'), id) == Count(ids, id) + taken
  {
    CountGrows(ids, NewlyClaimed(c, c'), id);
  }

  lemma StepKeepsConserved(l: Life, e: Event, cfg: Cfg, id: nat)
    requires Valid(l.child) && Conserved(l, id)
    ensures Valid(LifeStep(l, e, cfg).child) && Conserved(LifeStep(l, e, cfg), id)
  {
    var (c', effect) := Step(l.child, e, cfg);
    StepConserves(l.child, e, cfg, id);
    TakingShows(l.child, e, cfg, id);
    CountClaims(l.claimed, l.child, c', Taken(l.child, e, id), id);
    CountAnswers(l.calls, effect, id);
  }

  lemma {:induction false} ConservedAlways(events: seq<Event>, cfg: Cfg, id: nat)
    ensures var l := Run(events, cfg); Valid(l.child) && Conserved(l, id)
    decreases |events|
  {
    if events != [] {
      ConservedAlways(events[..|events| - 1], cfg, id);
      StepKeepsConserved(Run(events[..|events| - 1], cfg), events[|events| - 1], cfg, id);
    }
  }

  /** For any frames whatever, forged, duplicated or cut short, through death, hard kill and drain
      deadline: no delivery is answered for more often than it was claimed, and once the child is
      gone each has been answered for exactly as often, by one of ack, retry and dead letter. */
  lemma EveryDeliveryIsAnsweredOnce(events: seq<Event>, cfg: Cfg, id: nat)
    ensures var l := Run(events, cfg);
            && AnswersIn(l.calls, id) <= Count(l.claimed, id)
            && (l.child.mode.Gone? ==> AnswersIn(l.calls, id) == Count(l.claimed, id))
  {
    ConservedAlways(events, cfg, id);
  }

  // ---------------------------------------------------------- order, and counts

  /** Being settled, and not yet with the broker. */
  function UnderWay(c: Child): seq<Item> {
    if c.settling.Busy? && !c.settling.stage.Settled? then [c.settling.item] else []
  }

  /** The answers among a sequence of items. */
  function Accepted(items: seq<Item>): seq<(nat, Outcome)> {
    if items == [] then []
    else
      var last := items[|items| - 1];
      Accepted(items[..|items| - 1]) + if last.answered then [(last.job.taskId, last.outcome)] else []
  }

  ghost predicate Subsequence<T>(a: seq<T>, b: seq<T>)
    decreases |b|
  {
    a == [] || (b != [] && ((a[|a| - 1] == b[|b| - 1] && Subsequence(a[..|a| - 1], b[..|b| - 1]))
                            || Subsequence(a, b[..|b| - 1])))
  }

  lemma SubsequenceGrows<T>(a: seq<T>, b: seq<T>, x: T)
    requires Subsequence(a, b)
    ensures Subsequence(a, b + [x]) && Subsequence(a + [x], b + [x])
  {
    assert (a + [x])[..|a|] == a && (b + [x])[..|b|] == b;
  }

  lemma AcceptedOneMore(items: seq<Item>, item: Item)
    ensures Accepted(items + [item])
            == Accepted(items) + if item.answered then [(item.job.taskId, item.outcome)] else []
    ensures Accepted(items + []) == Accepted(items)
  {
    assert (items + [item])[..|items|] == items;
    assert items + [] == items;
  }

  /** What was sent to be settled is what reached the broker, then what is under way, then the
      queue; and the answers in it are answers the child gave, in the order it gave them. */
  ghost predicate InOrder(l: Life) {
    && l.sent == l.reached + UnderWay(l.child) + l.child.queue
    && Subsequence(Accepted(l.sent), l.heard)
  }

  /** One step's worth of the settle path: what goes in at one end comes out at the other. */
  ghost predicate PathMoves(c: Child, c': Child, effect: Option<Effect>) {
    UnderWay(c) + c.queue + NewlySent(c, c') == ReachedItem(effect) + UnderWay(c') + c'.queue
  }

  lemma ProgressMovesThePath(c: Child, cfg: Cfg)
    requires Valid(c)
    ensures var (c', effect) := Step(c, Progress, cfg); PathMoves(c, c', effect)
  {
    if c.settling.Idle? && c.queue != [] {
      assert c.queue == [c.queue[0]] + c.queue[1..];
    }
  }

  lemma ServeFrameMovesThePath(c: Child, body: Option<seq<Value>>, fired: bool, cfg: Cfg)
    requires Valid(c) && c.mode.Serving? && c.hand.None?
    ensures PathMoves(c, ServeFrame(c, cfg, body, fired), None)
  {
    var c' := ServeFrame(c, cfg, body, fired);
    if |c'.queue| > |c.queue| {
      assert c'.queue == c.queue + [c'.queue[|c.queue|]];
    }
  }

  lemma DrainFrameMovesThePath(c: Child, body: Option<seq<Value>>)
    requires Valid(c) && c.mode.Draining? && c.settling.Idle?
    ensures PathMoves(c, DrainFrame(c, body), None)
  {
  }

  lemma FramesMoveThePath(c: Child, body: Option<seq<Value>>, fired: bool, cfg: Cfg)
    requires Valid(c)
    ensures var (c', effect) := Step(c, Frame(body, fired), cfg); PathMoves(c, c', effect)
  {
    if c.mode.Serving? && c.hand.None? { ServeFrameMovesThePath(c, body, fired, cfg); }
    else if c.mode.Draining? && c.settling.Idle? { DrainFrameMovesThePath(c, body); }
  }

  /** Leaving, flushing, the deadline and the end of reaping only move the life on. */
  ghost predicate OnlyMovesOn(c: Child, c': Child) {
    && c'.queue == c.queue && c'.settling == c.settling && c'.inflight == c.inflight && c'.tasksDone == c.tasksDone
    && (c'.mode.Serving? || c'.mode.Flushing? ==> c.mode.Serving? || c.mode.Flushing?)
  }

  lemma EndingOnlyMovesOn(c: Child, e: Event, cfg: Cfg)
    requires e.Leave? || e.Flushed? || e.Deadline? || e.Reaped?
    ensures var (c', effect) := Step(c, e, cfg); effect == None && OnlyMovesOn(c, c')
  {
  }

  lemma MovingOnMovesNoPath(c: Child, c': Child)
    requires OnlyMovesOn(c, c')
    ensures PathMoves(c, c', None)
  {
    assert UnderWay(c) + c.queue + [] == [] + UnderWay(c) + c.queue;
  }

  lemma ReapingMovesThePath(c: Child, id: nat, cfg: Cfg)
    requires Valid(c)
    ensures var (c', effect) := Step(c, ReapOne(id), cfg); effect == None && PathMoves(c, c', effect)
  {
    var c' := Step(c, ReapOne(id), cfg).0;
    if c' == c {
      MovingOnMovesNoPath(c, c');
    } else {
      assert UnderWay(c) == [] && c.queue == [] && c'.queue == [];
      assert NewlySent(c, c') == UnderWay(c');
    }
  }

  lemma EndingMovesThePath(c: Child, e: Event, cfg: Cfg)
    requires Valid(c) && (e.Leave? || e.Flushed? || e.Deadline? || e.ReapOne? || e.Reaped?)
    ensures var (c', effect) := Step(c, e, cfg); effect == None && PathMoves(c, c', effect)
  {
    if e.ReapOne? {
      ReapingMovesThePath(c, e.taskId, cfg);
    } else {
      EndingOnlyMovesOn(c, e, cfg);
      MovingOnMovesNoPath(c, Step(c, e, cfg).0);
    }
  }

  lemma SettlePathIsAQueue(c: Child, e: Event, cfg: Cfg)
    requires Valid(c)
    ensures var (c', effect) := Step(c, e, cfg); PathMoves(c, c', effect)
  {
    if e.Progress? { ProgressMovesThePath(c, cfg); }
    else if e.Frame? { FramesMoveThePath(c, e.body, e.fired, cfg); }
    else if ConcernsTheHand(e) { HandMovesThePath(c, e, cfg); }
    else { EndingMovesThePath(c, e, cfg); }
  }

  lemma HandMovesThePath(c: Child, e: Event, cfg: Cfg)
    requires Valid(c) && ConcernsTheHand(e)
    ensures var (c', effect) := Step(c, e, cfg); PathMoves(c, c', effect)
  {
  }

  /** Nothing is sent as an answer that was not heard at that very step. */
  lemma SentAnswersAreHeard(c: Child, e: Event, cfg: Cfg)
    requires Valid(c)
    ensures AnswersHeard(NewlySent(c, Step(c, e, cfg).0), NewlyHeard(c, e))
  {
  }

  predicate AnswersHeard(sent: seq<Item>, heard: seq<(nat, Outcome)>) {
    |sent| <= 1 && |heard| <= 1 && (sent != [] && sent[0].answered ==> heard == [(sent[0].job.taskId, sent[0].outcome)])
  }

  lemma HeardGrows<T>(a: seq<T>, b: seq<T>, newly: seq<T>)
    requires Subsequence(a, b) && |newly| <= 1
    ensures Subsequence(a, b + newly) && Subsequence(a + newly, b + newly)
  {
    if newly == [] {
      assert a + newly == a && b + newly == b;
    } else {
      assert newly == [newly[0]];
      SubsequenceGrows(a, b, newly[0]);
    }
  }

  lemma SentGrowsInOrder(before: seq<Item>, heard: seq<(nat, Outcome)>, sent: seq<Item>, newly: seq<(nat, Outcome)>)
    requires Subsequence(Accepted(before), heard) && AnswersHeard(sent, newly)
    ensures Subsequence(Accepted(before + sent), heard + newly)
  {
    HeardGrows(Accepted(before), heard, newly);
    if sent == [] {
      assert before + sent == before;
    } else {
      assert sent == [sent[0]];
      AcceptedOneMore(before, sent[0]);
      if !sent[0].answered { assert Accepted(before) + [] == Accepted(before); }
    }
  }

  lemma PathExtends(reached: seq<Item>, way: seq<Item>, queue: seq<Item>, sent: seq<Item>,
                    out: seq<Item>, way': seq<Item>, queue': seq<Item>)
    requires way + queue + sent == out + way' + queue'
    ensures reached + way + queue + sent == reached + out + way' + queue'
  {
    assert reached + way + queue + sent == reached + (way + queue + sent);
    assert reached + out + way' + queue' == reached + (out + way' + queue');
  }

  lemma StepKeepsInOrder(l: Life, e: Event, cfg: Cfg)
    requires Valid(l.child) && InOrder(l)
    ensures InOrder(LifeStep(l, e, cfg))
  {
    var (c', effect) := Step(l.child, e, cfg);
    SettlePathIsAQueue(l.child, e, cfg);
    PathExtends(l.reached, UnderWay(l.child), l.child.queue, NewlySent(l.child, c'), ReachedItem(effect),
      UnderWay(c'), c'.queue);
    SentAnswersAreHeard(l.child, e, cfg);
    SentGrowsInOrder(l.sent, l.heard, NewlySent(l.child, c'), NewlyHeard(l.child, e));
  }

  /** Tasks counted as done are answers to jobs that were dispatched, each counted once. */
  ghost predicate Counted(l: Life) {
    && |Accepted(l.sent)| + |l.child.inflight| <= l.dispatched
    && l.child.tasksDone <= |Accepted(l.sent)|
    && (l.child.mode.Serving? || l.child.mode.Flushing? ==>
          l.child.tasksDone + |l.child.inflight| == l.dispatched && l.child.tasksDone == |Accepted(l.sent)|)
  }

  /** How one step moves the three numbers: in flight, done, and answers sent. */
  ghost predicate CountsMove(c: Child, c': Child, dispatched: nat) {
    var answer := |Accepted(NewlySent(c, c'))|;
    var left := |c.inflight| + dispatched - |c'.inflight|;
    && 0 <= answer <= left
    && c.tasksDone <= c'.tasksDone <= c.tasksDone + answer
    && (c'.mode.Serving? || c'.mode.Flushing? ==>
          (c.mode.Serving? || c.mode.Flushing?) && answer == left && c'.tasksDone == c.tasksDone + answer)
  }

  lemma OneAnswer(item: Item)
    ensures |Accepted([item])| == One(item.answered)
  {
  }

  lemma ServeFrameCounts(c: Child, body: Option<seq<Value>>, fired: bool, cfg: Cfg)
    requires Valid(c) && c.mode.Serving? && c.hand.None?
    ensures CountsMove(c, ServeFrame(c, cfg, body, fired), 0)
  {
    var sent := NewlySent(c, ServeFrame(c, cfg, body, fired));
    if sent != [] { OneAnswer(sent[0]); assert sent == [sent[0]]; }
  }

  lemma DrainFrameCounts(c: Child, body: Option<seq<Value>>)
    requires Valid(c) && c.mode.Draining? && c.settling.Idle?
    ensures CountsMove(c, DrainFrame(c, body), 0)
  {
    var sent := NewlySent(c, DrainFrame(c, body));
    if sent != [] { OneAnswer(sent[0]); assert sent == [sent[0]]; }
  }

  lemma FrameCounts(c: Child, body: Option<seq<Value>>, fired: bool, cfg: Cfg)
    requires Valid(c)
    ensures CountsMove(c, Step(c, Frame(body, fired), cfg).0, 0)
  {
    if c.mode.Serving? && c.hand.None? { ServeFrameCounts(c, body, fired, cfg); }
    else if c.mode.Draining? && c.settling.Idle? { DrainFrameCounts(c, body); }
  }

  lemma HandCounts(c: Child, e: Event, cfg: Cfg)
    requires Valid(c) && ConcernsTheHand(e)
    ensures CountsMove(c, Step(c, e, cfg).0, Sent(c, Step(c, e, cfg).0, e))
  {
    var sent := NewlySent(c, Step(c, e, cfg).0);
    if sent != [] { OneAnswer(sent[0]); assert sent == [sent[0]]; }
  }

  lemma ProgressCounts(c: Child, cfg: Cfg)
    requires Valid(c)
    ensures CountsMove(c, Step(c, Progress, cfg).0, 0)
  {
  }

  lemma MovingOnCounts(c: Child, c': Child)
    requires OnlyMovesOn(c, c')
    ensures CountsMove(c, c', 0)
  {
    assert NewlySent(c, c') == [];
  }

  lemma ReapingCounts(c: Child, id: nat, cfg: Cfg)
    requires Valid(c)
    ensures CountsMove(c, Step(c, ReapOne(id), cfg).0, 0)
  {
    var c' := Step(c, ReapOne(id), cfg).0;
    if c' == c {
      MovingOnCounts(c, c');
    } else {
      assert NewlySent(c, c') == [c'.settling.item] && !c'.settling.item.answered;
      OneAnswer(c'.settling.item);
    }
  }

  lemma EndingCounts(c: Child, e: Event, cfg: Cfg)
    requires Valid(c) && (e.Leave? || e.Flushed? || e.Deadline? || e.ReapOne? || e.Reaped?)
    ensures CountsMove(c, Step(c, e, cfg).0, 0)
  {
    if e.ReapOne? {
      ReapingCounts(c, e.taskId, cfg);
    } else {
      EndingOnlyMovesOn(c, e, cfg);
      MovingOnCounts(c, Step(c, e, cfg).0);
    }
  }

  lemma StepCounts(c: Child, e: Event, cfg: Cfg)
    requires Valid(c)
    ensures CountsMove(c, Step(c, e, cfg).0, Sent(c, Step(c, e, cfg).0, e))
  {
    if e.Frame? { FrameCounts(c, e.body, e.fired, cfg); }
    else if ConcernsTheHand(e) { HandCounts(c, e, cfg); }
    else if e.Progress? { ProgressCounts(c, cfg); }
    else { EndingCounts(c, e, cfg); }
  }

  lemma AcceptedGrows(before: seq<Item>, sent: seq<Item>)
    requires |sent| <= 1
    ensures |Accepted(before + sent)| == |Accepted(before)| + |Accepted(sent)|
  {
    if sent == [] {
      assert before + sent == before;
    } else {
      assert sent == [sent[0]];
      AcceptedOneMore(before, sent[0]);
      OneAnswer(sent[0]);
    }
  }

  lemma StepKeepsCounted(l: Life, e: Event, cfg: Cfg)
    requires Valid(l.child) && Counted(l)
    ensures Counted(LifeStep(l, e, cfg))
  {
    var c' := Step(l.child, e, cfg).0;
    StepCounts(l.child, e, cfg);
    AcceptedGrows(l.sent, NewlySent(l.child, c'));
  }

  lemma {:induction false} OrderAndCountAlways(events: seq<Event>, cfg: Cfg)
    ensures var l := Run(events, cfg); InOrder(l) && Counted(l)
    decreases |events|
  {
    if events != [] {
      var before := events[..|events| - 1];
      OrderAndCountAlways(before, cfg);
      ConservedAlways(before, cfg, 0);
      StepKeepsInOrder(Run(before, cfg), events[|events| - 1], cfg);
      StepKeepsCounted(Run(before, cfg), events[|events| - 1], cfg);
    }
  }

  lemma FrontOf<T>(whole: seq<T>, a: seq<T>, b: seq<T>, c: seq<T>)
    requires whole == a + b + c
    ensures a <= whole && (b == [] && c == [] ==> a == whole)
  {
    assert whole == a + (b + c);
  }

  /** What has reached the broker is the front of what was sent to be settled, in order, through
      the handover from serving to draining and beyond; and the accepted answers among it are
      ones the child gave, in the order it gave them. */
  lemma AnswersReachTheBrokerInOrder(events: seq<Event>, cfg: Cfg)
    ensures var l := Run(events, cfg);
            && l.reached <= l.sent
            && Subsequence(Accepted(l.sent), l.heard)
            && (l.child.mode.Gone? ==> l.reached == l.sent)
  {
    OrderAndCountAlways(events, cfg);
    ConservedAlways(events, cfg, 0);
    var l := Run(events, cfg);
    FrontOf(l.sent, l.reached, UnderWay(l.child), l.child.queue);
  }

  /** Done tasks are distinct dispatched tasks: no more than were dispatched and are no longer in
      flight, one for each answer accepted, however often the child answers. */
  lemma DoneCountsDispatchedTasksOnce(events: seq<Event>, cfg: Cfg)
    ensures var l := Run(events, cfg);
            && l.child.tasksDone + |l.child.inflight| <= l.dispatched
            && (l.child.mode.Serving? ==> l.child.tasksDone + |l.child.inflight| == l.dispatched
                                          && l.child.tasksDone == |Accepted(l.sent)|)
  {
    OrderAndCountAlways(events, cfg);
  }

  // --------------------------------------------------- the right call, every time

  lemma SlotsAreKept(c: Child, e: Event, cfg: Cfg)
    requires Valid(c)
    ensures var c' := Step(c, e, cfg).0; c'.free + Sent(c, c', e) == c.free + Offers(c, e)
  {
  }

  /** The slots a child has on offer are those it offered and that were not used: one dispatch to a
      Ready, and none for a Ready that retired it. */
  lemma {:induction false} OfferedIsDispatchedOrFree(events: seq<Event>, cfg: Cfg)
    ensures var l := Run(events, cfg); l.child.free + l.dispatched == l.offered
    decreases |events|
  {
    if events != [] {
      var before := events[..|events| - 1];
      OfferedIsDispatchedOrFree(before, cfg);
      ConservedAlways(before, cfg, 0);
      SlotsAreKept(Run(before, cfg).child, events[|events| - 1], cfg);
    }
  }

  /** Whether the next step of a successful item's chain, if it has one, is among the calls. */
  ghost predicate SuccessorCalled(calls: seq<Effect>, item: Item) {
    var next := NextJob(item.job.job.chain, item.outcome.result);
    next.Some? ==> PushNext(next.value) in calls
  }

  /** A call the policy allows: a success is acked, its chain's next step having been queued; a failure
      is retried exactly while attempts remain and the handler did not reject it, after the delay the
      handler asked for, or the backoff if it asked for none; and buried otherwise. */
  ghost predicate Right(call: Effect, before: seq<Effect>, cfg: Cfg) {
    match call
    case Ack(item) => item.outcome.ok && SuccessorCalled(before, item)
    case Retry(item, delayMs) =>
      && !item.outcome.ok && item.outcome.directive != Reject && item.job.attempt <= cfg.retries(item.job.job.name)
      && delayMs == (match item.outcome.directive
                     case RetryAfter(ms) => ms
                     case _ => cfg.backoff(item.job.job.name, item.job.attempt, item.job.job.id))
    case Bury(item) =>
      !item.outcome.ok && (item.outcome.directive == Reject || item.job.attempt > cfg.retries(item.job.job.name))
    case _ => true
  }

  ghost predicate AllRight(calls: seq<Effect>, cfg: Cfg) {
    forall i :: 0 <= i < |calls| ==> Right(calls[i], calls[..i], cfg)
  }

  /** What the stages of a settlement stand for. */
  ghost predicate StageMeans(c: Child, calls: seq<Effect>) {
    c.settling.Busy? ==>
      match c.settling.stage
      case Counted(next) =>
        c.settling.item.outcome.ok
          && NextJob(c.settling.item.job.job.chain, c.settling.item.outcome.result) == Some(next)
      case Advanced => c.settling.item.outcome.ok && SuccessorCalled(calls, c.settling.item)
      case _ => true
  }

  lemma SettlingIsRight(c: Child, cfg: Cfg, calls: seq<Effect>)
    requires c.settling.Busy? && StageMeans(c, calls)
    ensures var (c', effect) := SettleStep(c, cfg);
            && StageMeans(c', calls + CallOf(effect))
            && (effect.Some? ==> Right(effect.value, calls, cfg))
  {
  }

  lemma StepIsRight(c: Child, e: Event, cfg: Cfg, calls: seq<Effect>)
    requires Valid(c) && StageMeans(c, calls)
    ensures var (c', effect) := Step(c, e, cfg);
            && StageMeans(c', calls + CallOf(effect))
            && (effect.Some? ==> Right(effect.value, calls, cfg))
  {
    if e.Progress? && c.settling.Busy? { SettlingIsRight(c, cfg, calls); }
  }

  lemma OneMoreRight(calls: seq<Effect>, effect: Option<Effect>, cfg: Cfg)
    requires AllRight(calls, cfg) && (effect.Some? ==> Right(effect.value, calls, cfg))
    ensures AllRight(calls + CallOf(effect), cfg)
  {
    var more := calls + CallOf(effect);
    forall i | 0 <= i < |more| ensures Right(more[i], more[..i], cfg) {
      if i < |calls| { assert more[..i] == calls[..i]; } else { assert more[..i] == calls; }
    }
  }

  /** Over every run, whatever the child does, each call on the broker is the one the policy calls
      for, and no success is acked before the next step of its chain is queued. */
  lemma {:induction false} EveryCallIsTheRightOne(events: seq<Event>, cfg: Cfg)
    ensures var l := Run(events, cfg); AllRight(l.calls, cfg) && StageMeans(l.child, l.calls)
    decreases |events|
  {
    if events != [] {
      var before := events[..|events| - 1];
      EveryCallIsTheRightOne(before, cfg);
      ConservedAlways(before, cfg, 0);
      StepIsRight(Run(before, cfg).child, events[|events| - 1], cfg, Run(before, cfg).calls);
      OneMoreRight(Run(before, cfg).calls, Step(Run(before, cfg).child, events[|events| - 1], cfg).1, cfg);
    }
  }

  // ------------------------------------------------------ the frame that is too short

  predicate TooShortToIndex(e: Event) {
    e.Frame? && e.body.Some? && e.body.value != [] && Read(e.body.value).TooShort?
  }

  /** The loop comes to look inside such a frame: with the child served and the loop reading, or
      drained and not settling, when Progress frames are not looked into. */
  predicate ReadsShort(c: Child, e: Event) {
    && TooShortToIndex(e)
    && ((c.mode.Serving? && c.hand.None?)
        || (c.mode.Draining? && c.settling.Idle? && AsStr(e.body.value[0]) != Some("Progress")))
  }

  lemma PanicsExactlyThen(c: Child, e: Event, cfg: Cfg)
    ensures Step(c, e, cfg).0.mode.Panicked? <==> c.mode.Panicked? || ReadsShort(c, e)
  {
  }

  predicate ReadsShortAt(events: seq<Event>, k: nat, cfg: Cfg)
    requires k < |events|
  {
    ReadsShort(Run(events[..k], cfg).child, events[k])
  }

  ghost predicate ReadsShortSomewhere(events: seq<Event>, cfg: Cfg) {
    exists k :: 0 <= k < |events| && ReadsShortAt(events, k, cfg)
  }

  lemma ReadsShortAlike(events: seq<Event>, n: nat, k: nat, cfg: Cfg)
    requires k < n <= |events|
    ensures ReadsShortAt(events[..n], k, cfg) == ReadsShortAt(events, k, cfg)
  {
    assert events[..n][..k] == events[..k];
  }

  lemma ReadsShortEarlierOrNow(events: seq<Event>, cfg: Cfg)
    requires events != []
    ensures var n := |events| - 1;
            ReadsShortSomewhere(events, cfg) <==> ReadsShortSomewhere(events[..n], cfg) || ReadsShortAt(events, n, cfg)
  {
    var n := |events| - 1;
    forall k | 0 <= k < n { ReadsShortAlike(events, n, k, cfg); }
    if ReadsShortSomewhere(events[..n], cfg) {
      var k :| 0 <= k < n && ReadsShortAt(events[..n], k, cfg);
    }
  }

  lemma LastPanics(events: seq<Event>, cfg: Cfg)
    requires events != []
    ensures var n := |events| - 1;
            HasPanicked(events, cfg) <==> HasPanicked(events[..n], cfg) || ReadsShortAt(events, n, cfg)
  {
    PanicsExactlyThen(Run(events[..|events| - 1], cfg).child, events[|events| - 1], cfg);
  }

  predicate HasPanicked(events: seq<Event>, cfg: Cfg) { Run(events, cfg).child.mode.Panicked? }

  /** A run panics exactly when at some point the loop looks inside a frame too short to index: no
      other frame does it, nor does a short one that is never looked into. */
  lemma {:induction false} PanicsIffItReadsShort(events: seq<Event>, cfg: Cfg)
    ensures HasPanicked(events, cfg) <==> ReadsShortSomewhere(events, cfg)
    decreases |events|
  {
    if events != [] {
      PanicsIffItReadsShort(events[..|events| - 1], cfg);
      LastPanics(events, cfg);
      ReadsShortEarlierOrNow(events, cfg);
    }
  }

  lemma PanicIsFinal(c: Child, e: Event, cfg: Cfg)
    requires c.mode.Panicked?
    ensures var c' := Step(c, e, cfg).0; c'.mode.Panicked? && c'.inflight == c.inflight
  {
  }

  function RunOn(l: Life, more: seq<Event>, cfg: Cfg): Life
    decreases |more|
  {
    if more == [] then l else RunOn(LifeStep(l, more[0], cfg), more[1..], cfg)
  }

  lemma {:induction false} InFlightStaysAfterPanic(l: Life, more: seq<Event>, cfg: Cfg, id: nat)
    requires Valid(l.child) && Conserved(l, id) && l.child.mode.Panicked?
    ensures var later := RunOn(l, more, cfg);
            Valid(later.child) && Conserved(later, id) && later.child.inflight == l.child.inflight
    decreases |more|
  {
    if more != [] {
      var l' := LifeStep(l, more[0], cfg);
      PanicIsFinal(l.child, more[0], cfg);
      StepKeepsConserved(l, more[0], cfg, id);
      InFlightStaysAfterPanic(l', more[1..], cfg, id);
    }
  }

  /** A panic drops what was in flight: whatever happens next, those deliveries are never
      answered for. */
  lemma PanicDropsWhatIsInFlight(events: seq<Event>, more: seq<Event>, cfg: Cfg, id: nat)
    requires Run(events, cfg).child.mode.Panicked? && id in Run(events, cfg).child.inflight
    ensures var later := RunOn(Run(events, cfg), more, cfg); AnswersIn(later.calls, id) < Count(later.claimed, id)
  {
    ConservedAlways(events, cfg, id);
    InFlightStaysAfterPanic(Run(events, cfg), more, cfg, id);
  }

  lemma OneMoreEvent(events: seq<Event>, e: Event, cfg: Cfg)
    ensures Run(events + [e], cfg) == LifeStep(Run(events, cfg), e, cfg)
  {
    assert (events + [e])[..|events|] == events;
  }

  lemma PanicsOnAck(c: Child, cfg: Cfg)
    requires c.mode.Serving? && c.hand.None?
    ensures Step(c, Event.Frame(Some([Str("Ack")]), false), cfg) == (c.(mode := Panicked), None)
  {
    assert Read([Str("Ack")]).TooShort?;
  }

  /** Where a life stands that has seen one job only, and made no call yet. */
  predicate Stands(l: Life, c: Child, claimed: seq<nat>) {
    l.child == c && l.claimed == claimed && l.calls == []
  }

  lemma StandsNext(events: seq<Event>, c: Child, claimed: seq<nat>, e: Event, c': Child, cfg: Cfg)
    requires Stands(Run(events, cfg), c, claimed) && Step(c, e, cfg) == (c', None)
    ensures Stands(Run(events + [e], cfg), c', claimed + NewlyClaimed(c, c'))
  {
    OneMoreEvent(events, e, cfg);
  }

  /** Such a run there is, for any job: handed to the child, it is dropped by an Ack without a result. */
  lemma AShortAckDropsTheJob(job: Job, cfg: Cfg) returns (events: seq<Event>)
    ensures Stands(Run(events, cfg), FRESH.(mode := Panicked, inflight := map[job.taskId := job]), [job.taskId])
  {
    var dispatched := DispatchedOnce(job, cfg);
    var sent := FRESH.(inflight := map[job.taskId := job]);
    PanicsOnAck(sent, cfg);
    StandsNext(dispatched, sent, [job.taskId], Event.Frame(Some([Str("Ack")]), false), sent.(mode := Panicked), cfg);
    events := dispatched + [Event.Frame(Some([Str("Ack")]), false)];
  }

  lemma OfferedOnce(cfg: Cfg) returns (events: seq<Event>)
    ensures Stands(Run(events, cfg), FRESH.(free := 1), [])
  {
    var ready := Event.Frame(Some([Str("Ready")]), false);
    assert Read([Str("Ready")]).IsReady?;
    StandsNext([], FRESH, [], ready, FRESH.(free := 1), cfg);
    events := [] + [ready];
  }

  lemma ClaimedOnce(job: Job, cfg: Cfg) returns (events: seq<Event>)
    ensures Stands(Run(events, cfg), FRESH.(free := 1, hand := Some(Hand(job, false))), [job.taskId])
  {
    var offered := OfferedOnce(cfg);
    StandsNext(offered, FRESH.(free := 1), [], Claim(job), FRESH.(free := 1, hand := Some(Hand(job, false))), cfg);
    events := offered + [Claim(job)];
  }

  lemma ClearedOnce(job: Job, cfg: Cfg) returns (events: seq<Event>)
    ensures Stands(Run(events, cfg), FRESH.(free := 1, hand := Some(Hand(job, true))), [job.taskId])
  {
    var claimed := ClaimedOnce(job, cfg);
    var free := FRESH.(free := 1);
    StandsNext(claimed, free.(hand := Some(Hand(job, false))), [job.taskId], Clear,
      free.(hand := Some(Hand(job, true))), cfg);
    events := claimed + [Clear];
  }

  lemma DispatchedOnce(job: Job, cfg: Cfg) returns (events: seq<Event>)
    ensures Stands(Run(events, cfg), FRESH.(inflight := map[job.taskId := job]), [job.taskId])
  {
    var cleared := ClearedOnce(job, cfg);
    var c, c' := FRESH.(free := 1, hand := Some(Hand(job, true))), FRESH.(inflight := map[job.taskId := job]);
    StandsNext(cleared, c, [job.taskId], Dispatch, c', cfg);
    events := cleared + [Dispatch];
  }

  // ----------------------------------------------------------- it can always finish

  function Steps(c: Child, events: seq<Event>, cfg: Cfg): Child
    decreases |events|
  {
    if events == [] then c else Steps(Step(c, events[0], cfg).0, events[1..], cfg)
  }

  /** Broker calls left before the settle path is empty. */
  function ToSettle(c: Child): nat {
    6 * |c.queue| + match c.settling
                    case Idle => 0
                    case Busy(_, Begun) => 4
                    case Busy(_, Counted(_)) => 3
                    case Busy(_, Advanced) => 2
                    case Busy(_, Settled) => 1
  }

  lemma ProgressShortensTheQueue(c: Child, cfg: Cfg)
    requires Valid(c) && ToSettle(c) > 0
    ensures var c' := Step(c, Progress, cfg).0;
            Valid(c') && c'.mode == c.mode && c'.inflight == c.inflight && c'.hand == c.hand
              && ToSettle(c') < ToSettle(c)
  {
    StepConserves(c, Progress, cfg, 0);
  }

  function StagesLeft(mode: Mode): nat {
    match mode
    case Serving => 4
    case Flushing(_) => 3
    case Draining => 2
    case Reaping(_) => 1
    case _ => 0
  }

  lemma StepsFirst(c: Child, e: Event, rest: seq<Event>, cfg: Cfg)
    ensures Steps(c, [e] + rest, cfg) == Steps(Step(c, e, cfg).0, rest, cfg)
  {
    assert ([e] + rest)[1..] == rest;
  }

  /** From any state but a panic, however much is in hand, in flight, queued or half settled,
      there is a way to the end, and with it to every delivery being answered for. */
  lemma {:induction false} ItCanAlwaysFinish(c: Child, cfg: Cfg) returns (events: seq<Event>)
    requires Valid(c) && !c.mode.Panicked?
    ensures Steps(c, events, cfg).mode.Gone?
    decreases One(c.hand.Some?), StagesLeft(c.mode), |c.inflight|, ToSettle(c)
  {
    if c.mode.Gone? {
      return [];
    }
    var e: Event;
    if ToSettle(c) > 0 {
      e := Progress;
      ProgressShortensTheQueue(c, cfg);
    } else {
      match c.mode {
        case Serving =>
          e := if c.hand.None? then Leave(Died) else if !c.hand.value.cleared then Limited(0) else Dispatch;
        case Flushing(_) => e := Flushed;
        case Draining => e := Deadline;
        case Reaping(_) =>
          if c.inflight == map[] { e := Reaped; } else { var id :| id in c.inflight; e := ReapOne(id); }
      }
      StepConserves(c, e, cfg, 0);
    }
    var rest := ItCanAlwaysFinish(Step(c, e, cfg).0, cfg);
    StepsFirst(c, e, rest, cfg);
    events := [e] + rest;
  }
}
