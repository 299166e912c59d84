/** The loops that drive one child, written as they run: filling its slots, reading its
    frames, draining it and reaping it. Each keeps the child's state a run of the supervision
    machine, so everything proved of those runs holds of these loops. */
module ServeLoop {
  import opened Results
  import opened Msgpack
  import opened Chains
  import opened Supervision
  import opened ChildRuns

  // ------------------------------------------------- what the world answers

  /** What the checks between a claim and its dispatch say of a job. */
  datatype Verdict = Expired(error: string) | OverLimit(delayMs: nat) | Revoked | Go(written: bool)

  /** What the fill loop hears when it asks the broker for a job. */
  datatype Answer = Nothing | Got(job: Job, verdict: Verdict)

  /** What a fill meets: how many broker calls the settle consumer makes before each time it asks,
      and what it then hears, which may turn on the child's state by then; after `asks` of them
      there is nothing to be had. */
  datatype Filling = Filling(meanwhile: nat -> nat, answer: (Child, nat) -> Answer, asks: nat)

  datatype Fill = Sent | Empty | Done | Dead

  /** What a reading of the child's pressure says: whether a recycle trigger or the hard
      ceiling has been reached, and how many tasks it may hold; none for no bound. */
  datatype Check = Check(fired: bool, overHard: bool, budget: Option<nat>)

  datatype Incoming =
    | Heard(body: Option<seq<Value>>, check: Check, filling: Filling)
    | Tick(check: Check, filling: Filling)

  /** A child and the calls made so far. */
  datatype Snapshot = Snapshot(child: Child, calls: seq<Effect>)

  ghost predicate Follows(before: Snapshot, e: Event, after: Snapshot, cfg: Cfg) {
    var (child, effect) := Step(before.child, e, cfg);
    after == Snapshot(child, before.calls + CallOf(effect))
  }

  /** The states a run goes through, one after each event. */
  ghost predicate Path(path: seq<Snapshot>, events: seq<Event>, cfg: Cfg) {
    && |path| == |events| + 1
    && path[0] == Snapshot(FRESH, [])
    && (forall k :: 0 <= k < |events| ==> Follows(path[k], events[k], path[k + 1], cfg))
  }

  lemma {:induction false} PathIsTheRun(path: seq<Snapshot>, events: seq<Event>, cfg: Cfg)
    requires Path(path, events, cfg)
    ensures path[|events|] == Snapshot(ChildRuns.Run(events, cfg).child, ChildRuns.Run(events, cfg).calls)
    decreases |events|
  {
    if events != [] {
      var n := |events| - 1;
      PathIsTheRun(path[..n + 1], events[..n], cfg);
      assert Follows(path[n], events[n], path[n + 1], cfg);
    }
  }

  lemma PathGoesOn(path: seq<Snapshot>, events: seq<Event>, e: Event, after: Snapshot, cfg: Cfg)
    requires Path(path, events, cfg) && Follows(path[|events|], e, after, cfg)
    ensures Path(path + [after], events + [e], cfg)
  {
  }

  lemma HoldsNoMore(c: Child, e: Event, cfg: Cfg)
    requires Valid(c)
    ensures var c' := Step(c, e, cfg).0;
            Valid(c') && (!e.Claim? ==> forall id: nat :: Held(c', id) <= Held(c, id))
  {
    forall id: nat ensures var c' := Step(c, e, cfg).0; Valid(c') && (!e.Claim? ==> Held(c', id) <= Held(c, id)) {
      StepConserves(c, e, cfg, id);
    }
  }

  /** A broker hands out no job that the child still holds: one that has been put back, by the fill
      itself or by the settle consumer meanwhile, it may hand out again at once. */
  predicate NotHeldAlready(c: Child, answer: Answer) {
    answer.Got? ==> Held(c, answer.job.taskId) == 0
  }

  ghost predicate Fair(filling: Filling) {
    forall c: Child, k: nat :: NotHeldAlready(c, filling.answer(c, k))
  }

  ghost predicate Honest(world: (Child, nat) -> Incoming) {
    forall c: Child, k: nat :: Fair(world(c, k).filling)
  }

  lemma DrainingHears(c: Child, body: Option<seq<Value>>, cfg: Cfg)
    requires c.mode.Draining? && c.settling.Idle?
    ensures Step(c, Event.Frame(body, false), cfg) == (DrainFrame(c, body), None)
  {
  }

  class ChildLoop {
    const cfg: Cfg
    var mode: Mode
    var free: nat
    var allowed: Option<nat>
    var hand: Option<Hand>
    var inflight: map<nat, Job>
    var queue: seq<Item>
    var settling: Settling
    var tasksDone: nat
    var calls: seq<Effect>
    ghost var trace: seq<Event>
    ghost var path: seq<Snapshot>

    function State(): Child
      reads this
    {
      Child(mode, free, hand, inflight, queue, settling, tasksDone)
    }

    /** The fields are where the machine is after the events so far. */
    ghost predicate OnCourse()
      reads this
    {
      && cfg.capacity > 0
      && Path(path, trace, cfg) && path[|trace|] == Snapshot(State(), calls)
      && Valid(State())
    }

    constructor (cfg: Cfg)
      requires cfg.capacity > 0
      ensures OnCourse() && State() == FRESH && this.cfg == cfg
    {
      this.cfg := cfg;
      mode, free, allowed, hand, inflight := Serving, 0, None, None, map[];
      queue, settling, tasksDone, calls := [], Idle, 0, [];
      trace, path := [], [Snapshot(FRESH, [])];
    }

    /** The step taken is `e`: what every single move below promises. */
    twostate predicate Took(e: Event)
      reads this
    {
      && trace == old(trace) + [e]
      && path == old(path) + [Snapshot(State(), calls)]
      && State() == Step(old(State()), e, cfg).0
      && calls == old(calls) + CallOf(Step(old(State()), e, cfg).1)
    }

    twostate lemma StaysOnCourse(e: Event)
      requires old(OnCourse()) && Took(e)
      ensures OnCourse()
      ensures !e.Claim? ==> HeldNoMore()
      ensures e.Progress? && old(ToSettle(State())) > 0 ==> Closer()
    {
      if e.Progress? && ToSettle(old(State())) > 0 { ProgressShortensTheQueue(old(State()), cfg); }
      PathGoesOn(old(path), old(trace), e, Snapshot(State(), calls), cfg);
      HoldsNoMore(old(State()), e, cfg);
    }

    /** The run so far is a run that went before, gone on. */
    twostate predicate Continues()
      reads this
    {
      old(trace) <= trace && old(calls) <= calls
    }

    /** Fewer broker calls stand between the settle path and its being empty. */
    twostate predicate Closer()
      reads this
    {
      ToSettle(State()) < old(ToSettle(State()))
    }

    /** No delivery is held that was not held before. */
    twostate predicate HeldNoMore()
      reads this
    {
      forall id: nat :: Held(State(), id) <= old(Held(State(), id))
    }

    // ------------------------------------------------------ the settle consumer

    /** A success queues the next step of its chain before it is acked. */
    method AdvanceChain()
      requires OnCourse() && settling.Busy? && settling.stage.Begun? && settling.item.outcome.ok
      modifies this`settling, this`calls, this`trace, this`path
      ensures OnCourse() && Continues() && HeldNoMore() && trace == old(trace) + [Event.Progress]
      ensures Closer()
    {
      var item := settling.item;
      match NextJob(item.job.job.chain, item.outcome.result) {
        case Some(next) => settling, calls := Busy(item, Counted(next)), calls + [Effect.Count];
        case None => settling := Busy(item, Advanced);
      }
      trace, path := trace + [Event.Progress], path + [Snapshot(State(), calls)];
      StaysOnCourse(Event.Progress);
    }

    /** A failure is retried while attempts remain, and dead-lettered after; a rejection at once. */
    method FailJob()
      requires OnCourse() && settling.Busy? && settling.stage.Begun? && !settling.item.outcome.ok
      modifies this`settling, this`calls, this`trace, this`path
      ensures OnCourse() && Continues() && HeldNoMore() && trace == old(trace) + [Event.Progress]
      ensures Closer()
    {
      var item := settling.item;
      if item.outcome.directive != Reject && item.job.attempt <= cfg.retries(item.job.job.name) {
        var delay := match item.outcome.directive
                     case RetryAfter(ms) => ms
                     case _ => cfg.backoff(item.job.job.name, item.job.attempt, item.job.job.id);
        settling, calls := Idle, calls + [Retry(item, delay)];
      } else {
        settling, calls := Busy(item, Settled), calls + [Bury(item)];
      }
      trace, path := trace + [Event.Progress], path + [Snapshot(State(), calls)];
      StaysOnCourse(Event.Progress);
    }

    method GoOnSettling()
      requires OnCourse() && settling.Busy? && !settling.stage.Begun?
      modifies this`settling, this`calls, this`trace, this`path
      ensures OnCourse() && Continues() && HeldNoMore() && trace == old(trace) + [Event.Progress]
      ensures Closer()
    {
      var item := settling.item;
      match settling.stage {
        case Counted(next) => settling, calls := Busy(item, Advanced), calls + [PushNext(next)];
        case Advanced => settling, calls := Busy(item, Settled), calls + [Ack(item)];
        case Settled => settling, calls := Idle, calls + [Record(item)];
      }
      trace, path := trace + [Event.Progress], path + [Snapshot(State(), calls)];
      StaysOnCourse(Event.Progress);
    }

    method TakeNext()
      requires OnCourse() && settling.Idle? && queue != []
      modifies this`queue, this`settling, this`trace, this`path
      ensures OnCourse() && Continues() && HeldNoMore() && trace == old(trace) + [Event.Progress]
      ensures Closer() && queue == old(queue)[1..]
    {
      settling, queue := Busy(queue[0], Begun), queue[1..];
      trace, path := trace + [Event.Progress], path + [Snapshot(State(), calls)];
      StaysOnCourse(Event.Progress);
    }

    /** One turn of the settle consumer: a broker call, or the next item taken off the channel. */
    method Progress()
      requires OnCourse()
      modifies this`queue, this`settling, this`calls, this`trace, this`path
      ensures OnCourse() && Continues() && HeldNoMore()
      ensures old(ToSettle(State())) > 0 ==> ToSettle(State()) < old(ToSettle(State()))
    {
      if settling.Busy? {
        if !settling.stage.Begun? { GoOnSettling(); }
        else if settling.item.outcome.ok { AdvanceChain(); }
        else { FailJob(); }
      } else if queue != [] {
        TakeNext();
      }
    }

    /** The consumer's turns while the loop waits on something else. */
    method Consume(turns: nat)
      requires OnCourse()
      modifies this`queue, this`settling, this`calls, this`trace, this`path
      ensures OnCourse() && Continues() && HeldNoMore()
    {
      var i := 0;
      while i < turns
        invariant OnCourse() && Continues() && HeldNoMore()
      {
        Progress();
        i := i + 1;
      }
    }

    /** The settle channel is bounded: while it is full the loop waits for the consumer. */
    method WaitForRoom()
      requires OnCourse()
      modifies this`queue, this`settling, this`calls, this`trace, this`path
      ensures OnCourse() && Continues() && HeldNoMore() && |queue| < cfg.capacity
    {
      while |queue| >= cfg.capacity
        invariant OnCourse() && Continues() && HeldNoMore()
        decreases ToSettle(State())
      {
        Progress();
      }
    }

    // ------------------------------------------------------------ the fill loop

    method TakeOn(job: Job)
      requires OnCourse() && mode.Serving? && hand.None? && free > 0 && Held(State(), job.taskId) == 0
      modifies this`hand, this`trace, this`path
      ensures OnCourse() && Continues() && trace == old(trace) + [Claim(job)]
      ensures hand == Some(Hand(job, false))
      ensures forall id: nat :: id != job.taskId ==> Held(State(), id) == old(Held(State(), id))
    {
      hand := Some(Hand(job, false));
      trace, path := trace + [Claim(job)], path + [Snapshot(State(), calls)];
      StaysOnCourse(Claim(job));
    }

    method ClearHand()
      requires OnCourse() && mode.Serving? && hand.Some?
      modifies this`hand, this`trace, this`path
      ensures OnCourse() && Continues() && HeldNoMore() && trace == old(trace) + [Clear]
      ensures hand == Some(old(hand).value.(cleared := true))
    {
      hand := Some(hand.value.(cleared := true));
      trace, path := trace + [Clear], path + [Snapshot(State(), calls)];
      StaysOnCourse(Clear);
    }

    method PutBack(delayMs: nat)
      requires OnCourse() && mode.Serving? && hand.Some? && !hand.value.cleared
      modifies this`hand, this`calls, this`trace, this`path
      ensures OnCourse() && Continues() && HeldNoMore() && trace == old(trace) + [Limited(delayMs)]
      ensures hand == None && calls == old(calls) + [HandBack(old(hand).value.job, delayMs)]
    {
      calls := calls + [HandBack(hand.value.job, delayMs)];
      hand := None;
      trace, path := trace + [Limited(delayMs)], path + [Snapshot(State(), calls)];
      StaysOnCourse(Limited(delayMs));
    }

    method RefuseHand(error: string)
      requires OnCourse() && mode.Serving? && hand.Some? && |queue| < cfg.capacity
      modifies this`hand, this`queue, this`trace, this`path
      ensures OnCourse() && Continues() && HeldNoMore() && trace == old(trace) + [Refuse(error)]
      ensures hand == None && queue == old(queue) + [Item(old(hand).value.job, Nack(error, ""), false)]
    {
      queue := queue + [Item(hand.value.job, Nack(error, ""), false)];
      hand := None;
      trace, path := trace + [Refuse(error)], path + [Snapshot(State(), calls)];
      StaysOnCourse(Refuse(error));
    }

    method RefuseWhenRoom(error: string)
      requires OnCourse() && mode.Serving? && hand.Some?
      modifies this`hand, this`queue, this`settling, this`calls, this`trace, this`path
      ensures OnCourse() && Continues() && HeldNoMore() && hand == None
    {
      WaitForRoom();
      RefuseHand(error);
    }

    method DispatchHand()
      requires OnCourse() && mode.Serving? && hand.Some? && hand.value.cleared
      modifies this`hand, this`inflight, this`free, this`trace, this`path
      ensures OnCourse() && Continues() && HeldNoMore() && trace == old(trace) + [Dispatch]
      ensures hand == None && free == old(free) - 1
      ensures inflight == old(inflight)[old(hand).value.job.taskId := old(hand).value.job]
    {
      var job := hand.value.job;
      inflight, free, hand := inflight[job.taskId := job], free - 1, None;
      trace, path := trace + [Dispatch], path + [Snapshot(State(), calls)];
      StaysOnCourse(Dispatch);
    }

    /** What is done with a job just claimed. Returns whether the loop may go on. */
    method Handle(job: Job, verdict: Verdict) returns (sent: bool, alive: bool)
      requires OnCourse() && mode.Serving? && hand.None? && free > 0 && Held(State(), job.taskId) == 0
      modifies this
      ensures OnCourse() && Continues() && unchanged(`mode, `allowed, `tasksDone) && hand.None?
      ensures forall id: nat :: id != job.taskId ==> Held(State(), id) <= old(Held(State(), id))
      ensures sent == verdict.Go? && alive == (sent ==> verdict.written)
      ensures if sent then inflight == old(inflight)[job.taskId := job] && free == old(free) - 1
              else inflight == old(inflight) && free == old(free)
      ensures |inflight| + free <= old(|inflight| + free) && |inflight| <= old(|inflight|) + 1
              && |old(inflight)| <= |inflight|
      ensures verdict.OverLimit? ==> HandBack(job, verdict.delayMs) in calls
    {
      TakeOn(job);
      sent, alive := false, true;
      match verdict {
        case Expired(error) =>
          RefuseWhenRoom(error);
        case OverLimit(delayMs) =>
          PutBack(delayMs);
        case Revoked =>
          ClearHand();
          RefuseWhenRoom("Cancelled");
        case Go(written) =>
          ClearHand();
          DispatchHand();
          sent, alive := true, written;
      }
    }

    predicate MayHoldMore()
      reads this
    {
      allowed.None? || |inflight| < allowed.value
    }

    /** Ask the broker for a job, the settle consumer having had its turns. */
    method AskOnce(filling: Filling, k: nat) returns (answer: Answer)
      requires OnCourse() && Fair(filling)
      modifies this`queue, this`settling, this`calls, this`trace, this`path
      ensures OnCourse() && Continues() && HeldNoMore()
      ensures answer == (if k < filling.asks then filling.answer(State(), k) else Nothing)
              && NotHeldAlready(State(), answer)
    {
      Consume(filling.meanwhile(k));
      answer := if k < filling.asks then filling.answer(State(), k) else Nothing;
    }

    /** One turn of the fill loop: a job asked for and, if there is one, dealt with. Returns whether the
        loop may go on. */
    method FillOne(filling: Filling, k: nat) returns (answer: Answer, alive: bool)
      requires OnCourse() && mode.Serving? && hand.None? && free > 0 && Fair(filling)
      modifies this
      ensures OnCourse() && Continues() && unchanged(`mode, `allowed, `tasksDone) && hand.None?
      ensures k >= filling.asks ==> answer.Nothing?
      ensures if answer.Got? && answer.verdict.Go?
              then free == old(free) - 1 && alive == answer.verdict.written && answer.job.taskId in inflight
              else free == old(free) && inflight == old(inflight) && alive
      ensures |old(inflight)| <= |inflight| <= |old(inflight)| + 1 && |inflight| + free <= old(|inflight| + free)
    {
      alive := true;
      answer := AskOnce(filling, k);
      if answer.Got? {
        var _, goesOn := Handle(answer.job, answer.verdict);
        alive := goesOn;
      }
    }

    /** Fill what the child has offered and the ceiling allows. Only with nothing in flight does it
        wait for the broker, so only then can the answer be that the run is done. */
    method FillSlots(filling: Filling) returns (outcome: Fill)
      requires OnCourse() && mode.Serving? && hand.None? && Fair(filling)
      modifies this
      ensures OnCourse() && Continues() && unchanged(`mode, `allowed, `tasksDone) && hand.None?
      ensures outcome.Done? ==> inflight == map[] && free > 0 && old(inflight) == map[]
      ensures old(inflight) != map[] ==> inflight != map[]
      ensures allowed.Some? ==> |inflight| <= old(|inflight|) || |inflight| <= allowed.value
      ensures free <= old(free) && |inflight| + free <= old(|inflight| + free)
    {
      outcome := Fill.Empty;
      var k := 0;
      while free > 0 && MayHoldMore()
        invariant OnCourse() && Continues() && unchanged(`mode, `allowed, `tasksDone) && hand.None?
        invariant allowed.Some? ==> |inflight| <= old(|inflight|) || |inflight| <= allowed.value
        invariant free <= old(free) && |inflight| + free <= old(|inflight| + free)
        invariant !outcome.Done? && old(|inflight|) <= |inflight|
        decreases filling.asks - k
      {
        var answer, alive := FillOne(filling, k);
        if answer.Nothing? {
          if inflight == map[] { outcome := Done; }
          break;
        }
        if !alive { outcome := Dead; break; }
        if answer.verdict.Go? { outcome := Sent; }
        k := k + 1;
      }
    }

    // ------------------------------------------------------- frames and ticks

    /** A step that changes nothing but how far the child's life has got. */
    method MoveTo(m: Mode, ghost e: Event)
      requires OnCourse() && !e.Claim? && Step(State(), e, cfg) == (State().(mode := m), None)
      modifies this`mode, this`trace, this`path
      ensures OnCourse() && Continues() && mode == m
    {
      mode := m;
      trace, path := trace + [e], path + [Snapshot(State(), calls)];
      StaysOnCourse(e);
    }

    method Leave(exit: Exit)
      requires OnCourse() && mode.Serving? && hand.None? && (exit == Finished ==> inflight == map[])
      modifies this`mode, this`trace, this`path
      ensures OnCourse() && Continues() && mode == Flushing(exit)
    {
      MoveTo(Flushing(exit), Event.Leave(exit));
    }

    /** A frame that ends the loop: nothing to read, an answer with the wrong types, a frame that is
        none of the known ones, or one too short to index. */
    method GiveUpOn(body: Option<seq<Value>>)
      requires OnCourse() && mode.Serving? && hand.None?
      requires body.None? || body.value == [] || var r := Read(body.value); r.Malformed? || r.Unknown? || r.TooShort?
      modifies this`mode, this`trace, this`path
      ensures OnCourse() && Continues()
      ensures mode == if body.Some? && body.value != [] && Read(body.value).TooShort? then Panicked else Flushing(Died)
    {
      mode := if body.Some? && body.value != [] && Read(body.value).TooShort? then Panicked else Flushing(Died);
      trace, path := trace + [Event.Frame(body, false)], path + [Snapshot(State(), calls)];
      StaysOnCourse(Event.Frame(body, false));
    }

    method NoteReady(body: seq<Value>, fired: bool)
      requires OnCourse() && mode.Serving? && hand.None? && body != [] && Read(body).IsReady?
      modifies this`mode, this`free, this`trace, this`path
      ensures OnCourse() && Continues() && HeldNoMore()
      ensures if fired then mode == Flushing(Recycle) && free == old(free) else mode == Serving && free == old(free) + 1
    {
      if fired { mode := Flushing(Recycle); } else { free := free + 1; }
      trace, path := trace + [Event.Frame(Some(body), fired)], path + [Snapshot(State(), calls)];
      StaysOnCourse(Event.Frame(Some(body), fired));
    }

    /** An answer counts only for work in flight; a duplicate or a forgery changes nothing. */
    method NoteAnswer(body: seq<Value>)
      requires OnCourse() && mode.Serving? && hand.None? && body != [] && Read(body).Answer?
      requires Read(body).taskId in inflight ==> |queue| < cfg.capacity
      modifies this`inflight, this`queue, this`tasksDone, this`trace, this`path
      ensures OnCourse() && Continues()
      ensures var id, outcome := Read(body).taskId, Read(body).outcome;
              if id in old(inflight) then
                && inflight == old(inflight) - {id} && tasksDone == old(tasksDone) + 1
                && queue == old(queue) + [Item(old(inflight)[id], outcome, true)]
              else inflight == old(inflight) && tasksDone == old(tasksDone) && queue == old(queue)
    {
      var id, outcome := Read(body).taskId, Read(body).outcome;
      if id in inflight {
        queue := queue + [Item(inflight[id], outcome, true)];
        inflight := inflight - {id};
        tasksDone := tasksDone + 1;
      }
      trace, path := trace + [Event.Frame(Some(body), false)], path + [Snapshot(State(), calls)];
      StaysOnCourse(Event.Frame(Some(body), false));
    }

    /** Fill, and leave if that says to. */
    method FillOrLeave(filling: Filling)
      requires OnCourse() && mode.Serving? && hand.None? && Fair(filling)
      modifies this
      ensures OnCourse() && Continues() && hand.None?
      ensures mode.Serving? || mode == Flushing(Died) || (mode == Flushing(Finished) && inflight == map[])
    {
      var outcome := FillSlots(filling);
      match outcome {
        case Dead => Leave(Died);
        case Done => Leave(Finished);
        case _ =>
      }
    }

    /** The ceiling is read before a Ready is acted on: one that has been reached retires the child. */
    method OnReady(body: seq<Value>, check: Check, filling: Filling)
      requires OnCourse() && mode.Serving? && hand.None? && body != [] && Read(body).IsReady? && Fair(filling)
      modifies this
      ensures OnCourse() && Continues() && hand.None?
      ensures mode.Serving? || mode.Flushing?
      ensures check.fired ==> mode == Flushing(Recycle) && inflight == old(inflight)
    {
      allowed := check.budget;
      NoteReady(body, check.fired);
      if !check.fired {
        FillOrLeave(filling);
      }
    }

    method OnFrame(body: Option<seq<Value>>, check: Check, filling: Filling)
      requires OnCourse() && mode.Serving? && hand.None? && Fair(filling)
      modifies this
      ensures OnCourse() && Continues() && hand.None?
      ensures mode.Serving? || mode.Flushing? || mode.Panicked?
      ensures body.None? ==> mode == Flushing(Died)
    {
      if body.None? || body.value == [] {
        GiveUpOn(body);
        return;
      }
      match Read(body.value) {
        case IsReady => OnReady(body.value, check, filling);
        case Answer(id, _) =>
          if id in inflight { WaitForRoom(); }
          NoteAnswer(body.value);
        case IsProgress =>
        case _ => GiveUpOn(body);
      }
    }

    /** The timer: top up a busy child, a fill that never finds the run done; then retire one over the
        hard ceiling, at once if it holds work, and one whose trigger has fired. `filled` is what the
        fill came to. */
    method OnTick(check: Check, filling: Filling) returns (filled: Fill)
      requires OnCourse() && mode.Serving? && hand.None? && Fair(filling)
      modifies this
      ensures OnCourse() && Continues() && hand.None?
      ensures mode.Serving? || mode.Flushing?
      ensures !filled.Done? && (filled.Dead? <==> mode == Flushing(Died)) && mode != Flushing(Finished)
      ensures check.overHard && mode != Flushing(Died) ==>
              mode == Flushing(if inflight != map[] then OverHardLimit else Recycle)
      ensures check.fired ==> mode.Flushing?
    {
      allowed, filled := check.budget, Fill.Empty;
      if free > 0 && inflight != map[] {
        filled := FillSlots(filling);
        if filled.Dead? {
          Leave(Died);
          return;
        }
      }
      if check.overHard {
        Leave(if inflight != map[] then OverHardLimit else Recycle);
      } else if check.fired {
        Leave(Recycle);
      }
    }

    /** Serve the child until it has to be replaced, is dead, or the work is done. `world` says what
        comes next, from the state as it is; after `turns` of it the frames end. */
    method ServeUntilDone(world: (Child, nat) -> Incoming, turns: nat)
      requires OnCourse() && mode.Serving? && hand.None? && Honest(world)
      modifies this
      ensures OnCourse() && Continues() && hand.None?
      ensures mode.Flushing? || mode.Panicked?
    {
      var k := 0;
      while k < turns && mode.Serving?
        invariant OnCourse() && Continues() && hand.None?
        invariant mode.Serving? || mode.Flushing? || mode.Panicked?
      {
        var next := world(State(), k);
        match next {
          case Heard(body, check, filling) => OnFrame(body, check, filling);
          case Tick(check, filling) => var _ := OnTick(check, filling);
        }
        k := k + 1;
      }
      if mode.Serving? {
        OnFrame(None, Check(false, false, allowed), Filling(k => 0, (c, k) => Nothing, 0));
      }
    }

    // ------------------------------------------------- flush, drain and reap

    /** The channel is closed and the consumer awaited: every answer reaches the broker before
        anything else is done about the child. */
    method Flush() returns (exit: Exit)
      requires OnCourse() && mode.Flushing?
      modifies this`mode, this`queue, this`settling, this`calls, this`trace, this`path
      ensures OnCourse() && Continues() && queue == [] && settling.Idle?
      ensures exit == old(mode).exit
      ensures mode == AfterFlush(exit)
    {
      exit := mode.exit;
      while queue != [] || settling.Busy?
        invariant OnCourse() && Continues() && mode == Flushing(exit)
        decreases ToSettle(State())
      {
        Progress();
      }
      MoveTo(AfterFlush(exit), Event.Flushed);
    }

    /** All of one item's broker calls, one after the other. */
    method Settle()
      requires OnCourse() && settling.Busy? && queue == []
      modifies this`queue, this`settling, this`calls, this`trace, this`path
      ensures OnCourse() && Continues() && settling.Idle? && queue == []
    {
      while settling.Busy?
        invariant OnCourse() && Continues() && queue == []
        decreases ToSettle(State())
      {
        Progress();
      }
    }

    /** What a draining child says: an answer to work in flight is taken to be settled, a frame too
        short to index panics, the end of the stream ends the drain, the rest is ignored. */
    method HearDraining(body: Option<seq<Value>>)
      requires OnCourse() && mode.Draining? && settling.Idle? && queue == []
      modifies this`mode, this`inflight, this`settling, this`trace, this`path
      ensures OnCourse() && Continues()
      ensures mode == Draining || mode == Reaping("ChildDied") || mode == Panicked
      ensures settling.Busy? ==> mode == Draining && |inflight| < |old(inflight)|
    {
      if body.None? || body.value == [] {
        mode := Reaping("ChildDied");
      } else {
        match DrainReading(Read(body.value), body.value) {
          case Answer(id, outcome) =>
            if id in inflight {
              settling, inflight := Busy(Item(inflight[id], outcome, true), Begun), inflight - {id};
            }
          case TooShort => mode := Panicked;
          case _ =>
        }
      }
      assert State() == DrainFrame(old(State()), body);
      DrainingHears(old(State()), body, cfg);
      trace, path := trace + [Event.Frame(body, false)], path + [Snapshot(State(), calls)];
      StaysOnCourse(Event.Frame(body, false));
    }

    /** Stop dispatching and let the work in flight finish: until the frames end or the deadline,
        which comes when `frames` runs out. */
    method Drain(frames: seq<Option<seq<Value>>>)
      requires OnCourse() && mode.Draining? && settling.Idle? && queue == []
      modifies this
      ensures OnCourse() && Continues() && queue == [] && (mode.Reaping? ==> settling.Idle?)
      ensures mode == Reaping("ChildDied") || mode == Panicked
    {
      var k := 0;
      while k < |frames| && mode.Draining?
        invariant OnCourse() && Continues() && queue == []
        invariant mode == Draining || mode == Reaping("ChildDied") || mode == Panicked
        invariant settling.Idle?
      {
        HearDraining(frames[k]);
        if settling.Busy? { Settle(); }
        k := k + 1;
      }
      if mode.Draining? {
        MoveTo(Reaping("ChildDied"), Event.Deadline);
      }
    }

    method GiveBack(id: nat)
      requires OnCourse() && mode.Reaping? && settling.Idle? && id in inflight
      modifies this`inflight, this`settling, this`trace, this`path
      ensures OnCourse() && Continues() && settling.Busy? && inflight == old(inflight) - {id}
    {
      settling := Busy(Item(inflight[id], Nack(mode.error, ""), false), Begun);
      inflight := inflight - {id};
      trace, path := trace + [Event.ReapOne(id)], path + [Snapshot(State(), calls)];
      StaysOnCourse(Event.ReapOne(id));
    }

    /** The child is gone; whatever it still held has failed. */
    method Reap()
      requires OnCourse() && mode.Reaping? && settling.Idle? && queue == []
      modifies this
      ensures OnCourse() && Continues() && mode.Gone?
    {
      while inflight != map[]
        invariant OnCourse() && Continues() && mode.Reaping? && settling.Idle? && queue == []
        decreases |inflight|
      {
        var id :| id in inflight;
        GiveBack(id);
        Settle();
      }
      MoveTo(Gone, Event.Reaped);
    }

    /** A child's whole life. Whatever it and the world do, short of a frame too short to index,
        each delivery claimed for it has been answered for once, no more and no less, among the
        calls made; and each call made is the one the policy calls for. */
    method Live(world: (Child, nat) -> Incoming, turns: nat, draining: seq<Option<seq<Value>>>)
      requires OnCourse() && State() == FRESH && trace == [] && Honest(world)
      modifies this
      ensures OnCourse() && (mode.Gone? || mode.Panicked?)
      ensures mode.Gone? ==>
              forall id: nat :: AnswersIn(calls, id) == ChildRuns.Count(ChildRuns.Run(trace, cfg).claimed, id)
      ensures AllRight(calls, cfg)
    {
      ServeUntilDone(world, turns);
      if mode.Flushing? {
        var exit := Flush();
        if exit == Recycle {
          Drain(draining);
        }
        if mode.Reaping? {
          Reap();
        }
      }
      PathIsTheRun(path, trace, cfg);
      EveryCallIsTheRightOne(trace, cfg);
      forall id: nat | mode.Gone?
        ensures AnswersIn(calls, id) == ChildRuns.Count(ChildRuns.Run(trace, cfg).claimed, id) {
        EveryDeliveryIsAnsweredOnce(trace, cfg, id);
      }
    }
  }
}
