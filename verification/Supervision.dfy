/** One child as its supervisor sees it: what it holds, what it has answered, and how each
    delivery is settled, from the first Ready to the last job given back. The child hosts
    user code, so its frames are arbitrary. Every event that does not apply leaves the state
    alone, so every sequence of events is a run. */
module Supervision {
  import opened Results
  import opened Msgpack
  import opened Chains

  /** What a handler asked for, on top of having failed. */
  datatype Directive = Policy | Reject | RetryAfter(ms: nat)

  datatype Outcome = Outcome(ok: bool, result: Blob, error: string, traceback: string, directive: Directive)

  function Nack(error: string, traceback: string): Outcome {
    Outcome(false, Empty, error, traceback, Policy)
  }

  /** A claimed delivery. */
  datatype Job = Job(taskId: nat, attempt: nat, readyMs: nat, job: NewJob)

  /** Something on its way to the broker; `answered` if the child's frame put it there. */
  datatype Item = Item(job: Job, outcome: Outcome, answered: bool)

  /** Claimed but not dispatched; `cleared` once nothing stands in the way of dispatching it. */
  datatype Hand = Hand(job: Job, cleared: bool)

  /** How far the settling of one item has got. */
  datatype Stage = Begun | Counted(next: NewJob) | Advanced | Settled

  datatype Settling = Idle | Busy(item: Item, stage: Stage)

  datatype Exit = Finished | Recycle | Died | OverHardLimit

  datatype Mode =
    | Serving
    | Flushing(exit: Exit)      // the loop is over; what it queued is still being settled
    | Draining
    | Reaping(error: string)
    | Gone
    | Panicked                  // the frame was too short to index

  datatype Child = Child(
    mode: Mode, free: nat, hand: Option<Hand>, inflight: map<nat, Job>,
    queue: seq<Item>, settling: Settling, tasksDone: nat)

  const FRESH := Child(Serving, 0, None, map[], [], Idle, 0)

  /** What the run is configured with: how often each task may be retried, how many milliseconds a
      failed job of it waits, going by the attempt and the job's own id, and the settle channel's
      capacity, which is the slot count and at least one. */
  datatype Cfg = Cfg(retries: string -> nat, backoff: (string, nat, string) -> nat, capacity: nat)

  /** What a step asks of the broker or of the shared record. */
  datatype Effect =
    | Count                                  // the batch total grows before a chain step is pushed
    | PushNext(next: NewJob)
    | Ack(item: Item)
    | Retry(item: Item, delayMs: nat)
    | Bury(item: Item)
    | HandBack(job: Job, delayMs: nat)
    | Record(item: Item)

  datatype Event =
    | Claim(job: Job)
    | Clear                                  // not expired, within its rate and its cap
    | Limited(delayMs: nat)                  // over its rate or its cap, or neither could be read
    | Refuse(error: string)                  // expired, or cancelled before it started
    | Dispatch
    | Frame(body: Option<seq<Value>>, fired: bool)   // no body: undecodable, or the stream ended
    | Leave(exit: Exit)
    | Progress                               // the settle path moves on by one broker call
    | Flushed
    | Deadline
    | ReapOne(taskId: nat)
    | Reaped

  // ---------------------------------------------------------------- frames

  function ReadDirective(items: seq<Value>): Directive {
    if |items| <= 4 then Policy
    else match AsStr(items[4])
      case Some("reject") => Reject
      case Some("retry") => RetryAfter(if |items| <= 5 then 0 else AsU32(Or(AsU64(items[5]), 0)))
      case _ => Policy
  }

  /** What a frame turns out to be. */
  datatype Reading =
    | IsReady
    | Answer(taskId: nat, outcome: Outcome)
    | IsProgress
    | TooShort      // an index past the end of the array: the task panics
    | Malformed     // an answer whose fields have the wrong types
    | Unknown

  function Read(items: seq<Value>): Reading
    requires items != []
  {
    match AsStr(items[0])
    case Some("Ready") => IsReady
    case Some("Ack") =>
      if |items| < 3 then TooShort
      else (match (AsU64(items[1]), AsBlob(items[2]))
            case (Some(id), Some(result)) => Answer(id, Outcome(true, result, "", "", Policy))
            case _ => Malformed)
    case Some("Nack") =>
      if |items| < 4 then TooShort
      else (match (AsU64(items[1]), AsStr(items[2]), AsStr(items[3]))
            case (Some(id), Some(kind), Some(tb)) => Answer(id, Nack(kind, tb).(directive := ReadDirective(items)))
            case _ => Malformed)
    case Some("Progress") => if |items| < 3 then TooShort else IsProgress
    case _ => Unknown
  }

  // ------------------------------------------------------------------ steps

  /** The next broker call of the item being settled. */
  function SettleStep(c: Child, cfg: Cfg): (Child, Option<Effect>)
    requires c.settling.Busy?
  {
    var item, stage := c.settling.item, c.settling.stage;
    match stage
    case Settled => (c.(settling := Idle), Some(Record(item)))
    case Begun =>
      if item.outcome.ok then
        (match NextJob(item.job.job.chain, item.outcome.result)
         case Some(next) => (c.(settling := Busy(item, Counted(next))), Some(Count))
         case None => (c.(settling := Busy(item, Advanced)), None))
      else if item.outcome.directive != Reject && item.job.attempt <= cfg.retries(item.job.job.name) then
        var delay := match item.outcome.directive
                     case RetryAfter(ms) => ms
                     case _ => cfg.backoff(item.job.job.name, item.job.attempt, item.job.job.id);
        (c.(settling := Idle), Some(Retry(item, delay)))
      else (c.(settling := Busy(item, Settled)), Some(Bury(item)))
    case Counted(next) => (c.(settling := Busy(item, Advanced)), Some(PushNext(next)))
    case Advanced => (c.(settling := Busy(item, Settled)), Some(Ack(item)))
  }

  /** A frame, while the child is served: an answer counts only for work it was handed. */
  function ServeFrame(c: Child, cfg: Cfg, body: Option<seq<Value>>, fired: bool): Child {
    if body.None? || body.value == [] then c.(mode := Flushing(Died))
    else match Read(body.value)
      case IsReady => if fired then c.(mode := Flushing(Recycle)) else c.(free := c.free + 1)
      case Answer(id, outcome) =>
        if id !in c.inflight then c
        else if |c.queue| >= cfg.capacity then c   // the loop waits for room before it reads on
        else c.(inflight := c.inflight - {id}, queue := c.queue + [Item(c.inflight[id], outcome, true)],
                tasksDone := c.tasksDone + 1)
      case IsProgress => c
      case TooShort => c.(mode := Panicked)
      case Malformed => c.(mode := Flushing(Died))
      case Unknown => c.(mode := Flushing(Died))
  }

  /** A frame, while the child is drained: answers are settled on the spot, the rest ignored. */
  function DrainFrame(c: Child, body: Option<seq<Value>>): Child {
    if body.None? || body.value == [] then c.(mode := Reaping("ChildDied"))
    else match DrainReading(Read(body.value), body.value)
      case Answer(id, outcome) =>
        if id !in c.inflight then c
        else c.(inflight := c.inflight - {id}, settling := Busy(Item(c.inflight[id], outcome, true), Begun))
      case TooShort => c.(mode := Panicked)
      case _ => c
  }

  /** Draining never looks inside a Progress frame, so a short one does not stop it. */
  function DrainReading(r: Reading, items: seq<Value>): Reading
    requires items != []
  {
    if r.TooShort? && AsStr(items[0]) == Some("Progress") then IsProgress else r
  }

  /** A retired child is drained; a dead, finished or killed one is reaped. */
  function AfterFlush(exit: Exit): Mode {
    match exit
    case Recycle => Draining
    case OverHardLimit => Reaping("HardMemoryLimit")
    case _ => Reaping("ChildDied")
  }

  function Step(c: Child, e: Event, cfg: Cfg): (Child, Option<Effect>) {
    match e
    case Claim(job) =>
      if c.mode.Serving? && c.hand.None? && c.free > 0 && Held(c, job.taskId) == 0
      then (c.(hand := Some(Hand(job, false))), None) else (c, None)
    case Clear =>
      if c.mode.Serving? && c.hand.Some? then (c.(hand := Some(c.hand.value.(cleared := true))), None) else (c, None)
    case Limited(delayMs) =>
      if c.mode.Serving? && c.hand.Some? && !c.hand.value.cleared
      then (c.(hand := None), Some(HandBack(c.hand.value.job, delayMs))) else (c, None)
    case Refuse(error) =>
      if c.mode.Serving? && c.hand.Some? && |c.queue| < cfg.capacity
      then (c.(hand := None, queue := c.queue + [Item(c.hand.value.job, Nack(error, ""), false)]), None) else (c, None)
    case Dispatch =>
      if c.mode.Serving? && c.hand.Some? && c.hand.value.cleared && c.free > 0
      then var job := c.hand.value.job;
           (c.(hand := None, inflight := c.inflight[job.taskId := job], free := c.free - 1), None)
      else (c, None)
    case Frame(body, fired) =>
      if c.mode.Serving? && c.hand.None? then (ServeFrame(c, cfg, body, fired), None)
      else if c.mode.Draining? && c.settling.Idle? then (DrainFrame(c, body), None)
      else (c, None)
    case Leave(exit) =>
      if c.mode.Serving? && c.hand.None? && (exit == Finished ==> c.inflight == map[])
      then (c.(mode := Flushing(exit)), None) else (c, None)
    case Progress =>
      if c.settling.Busy? then SettleStep(c, cfg)
      else if c.queue != [] then (c.(queue := c.queue[1..], settling := Busy(c.queue[0], Begun)), None)
      else (c, None)
    case Flushed =>
      if c.mode.Flushing? && c.queue == [] && c.settling.Idle?
      then (c.(mode := AfterFlush(c.mode.exit)), None) else (c, None)
    case Deadline =>
      if c.mode.Draining? && c.settling.Idle? then (c.(mode := Reaping("ChildDied")), None) else (c, None)
    case ReapOne(id) =>
      if c.mode.Reaping? && c.settling.Idle? && id in c.inflight
      then (c.(inflight := c.inflight - {id},
           settling := Busy(Item(c.inflight[id], Nack(c.mode.error, ""), false), Begun)), None)
      else (c, None)
    case Reaped =>
      if c.mode.Reaping? && c.settling.Idle? && c.inflight == map[] then (c.(mode := Gone), None) else (c, None)
  }

  // -------------------------------------------------------------- who holds what

  function One(b: bool): nat { if b then 1 else 0 }

  function InHand(c: Child, id: nat): nat { One(c.hand.Some? && c.hand.value.job.taskId == id) }

  /** How many items of a queue settle job `id`. */
  function Queued(items: seq<Item>, id: nat): nat {
    if items == [] then 0 else Queued(items[..|items| - 1], id) + One(items[|items| - 1].job.taskId == id)
  }

  function BeingSettled(c: Child, id: nat): nat {
    One(c.settling.Busy? && !c.settling.stage.Settled? && c.settling.item.job.taskId == id)
  }

  /** Settled with the broker and not yet recorded. */
  function BeingRecorded(c: Child, id: nat): nat {
    One(c.settling.Busy? && c.settling.stage.Settled? && c.settling.item.job.taskId == id)
  }

  /** How many deliveries of job `id` this child's supervisor still owes the broker an answer for. */
  function Held(c: Child, id: nat): nat {
    InHand(c, id) + One(id in c.inflight) + Queued(c.queue, id) + BeingSettled(c, id)
  }

  /** What every state of a run satisfies: a job in flight is filed under its own id, a claim in
      hand is not also in flight, only a served child has a claim in hand, only its loop and the
      flush after it have a queue, and a child that finished or is gone holds nothing. */
  ghost predicate Valid(c: Child) {
    && (forall id :: id in c.inflight ==> c.inflight[id].taskId == id)
    && (c.hand.Some? ==> c.mode.Serving? && c.free > 0 && c.hand.value.job.taskId !in c.inflight)
    && (c.queue != [] ==> c.mode.Serving? || c.mode.Flushing? || c.mode.Panicked?)
    && (c.mode.Flushing? && c.mode.exit == Finished ==> c.inflight == map[])
    && (c.mode.Gone? ==> c.inflight == map[] && c.settling.Idle?)
  }
}
