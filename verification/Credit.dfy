/** The Ready credits between a supervisor and a well-behaved child: two FIFO streams, one slot
    per credit, and what a drain or a finished run leaves behind. */
module Credit {

  /** What the child sends. Progress asks for nothing and changes nothing. */
  datatype Frame = Ready | Answer(id: nat) | Progress

  /** What the supervisor sends. */
  datatype Order = Dispatch(id: nat) | Drain

  /** `Drained`: the end of the child's stream was read while draining it. */
  datatype Mode = Serving | Draining | Drained | Finished

  /** The supervisor's side, the two streams, and the child's side: credits it has yet to send on
      starting, tasks running, tasks that have answered and not yet asked whether to send a Ready,
      and those that have asked and are about to. */
  datatype Pair = Pair(
    mode: Mode, free: nat, inflight: set<nat>,
    up: seq<Frame>, down: seq<Order>,
    unsent: nat, running: set<nat>, reporting: nat, readying: nat, draining: bool, exited: bool)

  datatype Event =
    | Offer                    // one of the credits a child starts with
    | Receive                  // the child reads the next order
    | Reply(id: nat)           // a task is done and its answer is sent
    | Ask                      // ... and looks whether the child is draining
    | Credit                   // ... and sends its Ready
    | Tell                     // progress
    | Exit
    | Hear(retire: bool)       // the supervisor reads the next frame; at a Ready it may retire
    | Send(id: nat)            // it dispatches a job
    | Retire                   // on its timer
    | Finish                   // nothing left to do and nothing in flight

  function Hearing(p: Pair, retire: bool): Pair {
    if p.mode.Drained? || p.mode.Finished? then p
    else if p.up == [] then (if p.mode.Draining? && p.exited then p.(mode := Drained) else p)
    else
      var q := p.(up := p.up[1..]);
      match p.up[0]
      case Ready =>
        if p.mode.Draining? then q
        else if retire then q.(mode := Draining, down := p.down + [Drain])
        else q.(free := p.free + 1)
      case Answer(id) => q.(inflight := p.inflight - {id})
      case Progress => q
  }

  function Receiving(p: Pair): Pair {
    if p.unsent > 0 || p.draining || p.down == [] then p
    else
      match p.down[0]
      case Dispatch(id) => p.(down := p.down[1..], running := p.running + {id})
      case Drain => p.(down := p.down[1..], draining := true)
  }

  function Step(p: Pair, e: Event): Pair {
    match e
    case Offer => if p.unsent > 0 then p.(unsent := p.unsent - 1, up := p.up + [Ready]) else p
    case Receive => Receiving(p)
    case Reply(id) =>
      if id in p.running
      then p.(running := p.running - {id}, reporting := p.reporting + 1, up := p.up + [Answer(id)])
      else p
    case Ask =>
      if p.reporting == 0 then p
      else if p.draining then p.(reporting := p.reporting - 1)
      else p.(reporting := p.reporting - 1, readying := p.readying + 1)
    case Credit => if p.readying > 0 then p.(readying := p.readying - 1, up := p.up + [Ready]) else p
    case Tell => if p.exited then p else p.(up := p.up + [Progress])
    case Exit =>
      if p.draining && p.running == {} && p.reporting == 0 && p.readying == 0 then p.(exited := true) else p
    case Hear(retire) => Hearing(p, retire)
    case Send(id) =>
      if p.mode.Serving? && p.free > 0 && id !in p.inflight
      then p.(free := p.free - 1, inflight := p.inflight + {id}, down := p.down + [Dispatch(id)]) else p
    case Retire => if p.mode.Serving? then p.(mode := Draining, down := p.down + [Drain]) else p
    case Finish =>
      if p.mode.Serving? && p.free > 0 && p.inflight == {} then p.(mode := Finished, down := p.down + [Drain]) else p
  }

  function Start(slots: nat): Pair {
    Pair(Serving, 0, {}, [], [], slots, {}, 0, 0, false, false)
  }

  function Run(slots: nat, events: seq<Event>): Pair
    decreases |events|
  {
    if events == [] then Start(slots) else Step(Run(slots, events[..|events| - 1]), events[|events| - 1])
  }

  // ------------------------------------------------------------------ counting

  function One(b: bool): nat { if b then 1 else 0 }

  function Readys(up: seq<Frame>): nat {
    if up == [] then 0 else One(up[0].Ready?) + Readys(up[1..])
  }

  function Replies(up: seq<Frame>): nat {
    if up == [] then 0 else One(up[0].Answer?) + Replies(up[1..])
  }

  function RepliesTo(up: seq<Frame>, id: nat): nat {
    if up == [] then 0 else One(up[0] == Answer(id)) + RepliesTo(up[1..], id)
  }

  function Dispatches(down: seq<Order>): nat {
    if down == [] then 0 else One(down[0].Dispatch?) + Dispatches(down[1..])
  }

  function DispatchesOf(down: seq<Order>, id: nat): nat {
    if down == [] then 0 else One(down[0] == Dispatch(id)) + DispatchesOf(down[1..], id)
  }

  lemma {:induction false} UpOneMore(up: seq<Frame>, f: Frame, id: nat)
    ensures Readys(up + [f]) == Readys(up) + One(f.Ready?)
    ensures Replies(up + [f]) == Replies(up) + One(f.Answer?)
    ensures RepliesTo(up + [f], id) == RepliesTo(up, id) + One(f == Answer(id))
  {
    if up == [] {
      assert up + [f] == [f];
    } else {
      UpOneMore(up[1..], f, id);
      assert (up + [f])[1..] == up[1..] + [f];
    }
  }

  lemma {:induction false} DownOneMore(down: seq<Order>, o: Order, id: nat)
    ensures Dispatches(down + [o]) == Dispatches(down) + One(o.Dispatch?)
    ensures DispatchesOf(down + [o], id) == DispatchesOf(down, id) + One(o == Dispatch(id))
  {
    if down == [] {
      assert down + [o] == [o];
    } else {
      DownOneMore(down[1..], o, id);
      assert (down + [o])[1..] == down[1..] + [o];
    }
  }

  // ---------------------------------------------------------------- invariants

  /** Every slot, wherever its credit is: not yet sent, on its way up, held, on its way down as a
      dispatch, running, or answered and yet to be sent again. */
  function Credits(p: Pair): nat {
    p.unsent + Readys(p.up) + p.free + Dispatches(p.down) + |p.running| + p.reporting + p.readying
  }

  /** In how many places job `id` is on its way: going down, running, or answered and unread. */
  function OnTheWay(p: Pair, id: nat): nat {
    DispatchesOf(p.down, id) + One(id in p.running) + RepliesTo(p.up, id)
  }

  ghost predicate Accounted(p: Pair) {
    forall id: nat :: OnTheWay(p, id) == One(id in p.inflight)
  }

  /** A Drain is the last order, once the supervisor has sent it; a child that has read it has
      nothing more to read, and one that has exited nothing more to do. */
  ghost predicate Orderly(p: Pair) {
    && (p.mode.Serving? ==> Drain !in p.down && !p.draining)
    && (!p.mode.Serving? && !p.draining ==>
       p.down != [] && p.down[|p.down| - 1] == Drain && Drain !in p.down[..|p.down| - 1])
    && (p.draining ==> p.down == [] && !p.mode.Serving?)
    && (p.exited ==> p.draining && p.running == {} && p.reporting == 0 && p.readying == 0 && p.unsent == 0)
    && (p.draining ==> p.unsent == 0)
    && (p.mode.Drained? ==> p.exited && p.up == [])
  }

  /** From any point in the stream on, each unread answer has its credit still to come. */
  ghost predicate Balanced(p: Pair) {
    !p.draining ==> forall k :: 0 <= k <= |p.up| ==> Replies(p.up[k..]) <= Readys(p.up[k..]) + p.reporting + p.readying
  }

  ghost predicate Inv(p: Pair, slots: nat) {
    && (if p.mode.Serving? then Credits(p) == slots else Credits(p) <= slots)
    && Dispatches(p.down) + |p.running| + Replies(p.up) == |p.inflight|
    && Accounted(p) && Orderly(p) && Balanced(p)
  }

  // --------------------------------------------------- every step keeps them

  /** Sending a frame up adds to every suffix. */
  lemma BalanceGrows(up: seq<Frame>, f: Frame, owed: nat, owed': nat)
    requires forall k :: 0 <= k <= |up| ==> Replies(up[k..]) <= Readys(up[k..]) + owed
    requires owed + One(f.Answer?) <= owed' + One(f.Ready?)
    ensures forall k :: 0 <= k <= |up| + 1 ==> Replies((up + [f])[k..]) <= Readys((up + [f])[k..]) + owed'
  {
    forall k | 0 <= k <= |up| + 1 ensures Replies((up + [f])[k..]) <= Readys((up + [f])[k..]) + owed' {
      if k <= |up| {
        assert (up + [f])[k..] == up[k..] + [f];
        UpOneMore(up[k..], f, 0);
      }
    }
  }

  lemma SendingUp(p: Pair, p': Pair, f: Frame, slots: nat)
    requires Inv(p, slots) && p'.up == p.up + [f] && p'.draining == p.draining
    requires p.reporting + p.readying + One(f.Answer?) <= p'.reporting + p'.readying + One(f.Ready?)
    ensures Balanced(p')
    ensures Readys(p'.up) == Readys(p.up) + One(f.Ready?) && Replies(p'.up) == Replies(p.up) + One(f.Answer?)
    ensures forall id: nat :: RepliesTo(p'.up, id) == RepliesTo(p.up, id) + One(f == Answer(id))
  {
    if !p.draining { BalanceGrows(p.up, f, p.reporting + p.readying, p'.reporting + p'.readying); }
    UpOneMore(p.up, f, 0);
    forall id: nat ensures RepliesTo(p'.up, id) == RepliesTo(p.up, id) + One(f == Answer(id)) {
      UpOneMore(p.up, f, id);
    }
  }

  lemma SameOnTheWay(p: Pair, p': Pair)
    requires Accounted(p) && p'.inflight == p.inflight
    requires forall id: nat :: OnTheWay(p', id) == OnTheWay(p, id)
    ensures Accounted(p')
  {
  }

  lemma OfferKeeps(p: Pair, slots: nat)
    requires Inv(p, slots)
    ensures Inv(Step(p, Offer), slots)
  {
    if p.unsent > 0 { ReadySentKeeps(p, Step(p, Offer), slots); }
  }

  lemma CreditKeeps(p: Pair, slots: nat)
    requires Inv(p, slots)
    ensures Inv(Step(p, Credit), slots)
  {
    if p.readying > 0 { ReadySentKeeps(p, Step(p, Credit), slots); }
  }

  lemma ReadySentKeeps(p: Pair, p': Pair, slots: nat)
    requires Inv(p, slots) && p'.unsent + p'.readying + 1 == p.unsent + p.readying
    requires p' == p.(unsent := p'.unsent, readying := p'.readying, up := p.up + [Ready])
    requires p'.unsent <= p.unsent && p'.readying <= p.readying
    ensures Inv(p', slots)
  {
    SendingUp(p, p', Ready, slots);
    forall id: nat ensures OnTheWay(p', id) == OnTheWay(p, id) {}
    SameOnTheWay(p, p');
  }

  lemma TellKeeps(p: Pair, slots: nat)
    requires Inv(p, slots)
    ensures Inv(Step(p, Tell), slots)
  {
    if !p.exited { ProgressSentKeeps(p, slots); }
  }

  lemma ProgressSentKeeps(p: Pair, slots: nat)
    requires Inv(p, slots) && !p.exited
    ensures Inv(p.(up := p.up + [Progress]), slots)
  {
    var p' := p.(up := p.up + [Progress]);
    SendingUp(p, p', Progress, slots);
    forall id: nat ensures OnTheWay(p', id) == OnTheWay(p, id) {
      assert RepliesTo(p'.up, id) == RepliesTo(p.up, id);
    }
    SameOnTheWay(p, p');
  }

  lemma ReplyKeeps(p: Pair, id: nat, slots: nat)
    requires Inv(p, slots)
    ensures Inv(Step(p, Reply(id)), slots)
  {
    var p' := Step(p, Reply(id));
    if id in p.running {
      SendingUp(p, p', Answer(id), slots);
      forall x: nat ensures OnTheWay(p', x) == OnTheWay(p, x) {}
      SameOnTheWay(p, p');
    }
  }

  lemma AskKeeps(p: Pair, slots: nat)
    requires Inv(p, slots)
    ensures Inv(Step(p, Ask), slots) && Inv(Step(p, Exit), slots)
  {
    forall id: nat
      ensures OnTheWay(Step(p, Ask), id) == OnTheWay(p, id) && OnTheWay(Step(p, Exit), id) == OnTheWay(p, id) {}
    SameOnTheWay(p, Step(p, Ask));
    SameOnTheWay(p, Step(p, Exit));
  }

  lemma ReceiveKeeps(p: Pair, slots: nat)
    requires Inv(p, slots)
    ensures Inv(Receiving(p), slots)
  {
    var p' := Receiving(p);
    if p' != p {
      match p.down[0]
      case Dispatch(x) =>
        assert OnTheWay(p, x) == One(x in p.inflight);
        assert x !in p.running;
        forall id: nat ensures OnTheWay(p', id) == OnTheWay(p, id) {}
        SameOnTheWay(p, p');
        assert !p.mode.Serving? ==> p'.down == p.down[1..] && |p.down| > 1;
      case Drain =>
        DrainIsLast(p, slots);
        forall id: nat ensures OnTheWay(p', id) == OnTheWay(p, id) {}
        SameOnTheWay(p, p');
    }
  }

  lemma DrainIsLast(p: Pair, slots: nat)
    requires Inv(p, slots) && p.down != [] && p.down[0] == Drain
    ensures p.down == [Drain] && !p.mode.Serving?
  {
  }

  lemma HearAnswerKeeps(p: Pair, slots: nat)
    requires Inv(p, slots) && p.up != [] && p.up[0].Answer?
    ensures Inv(p.(up := p.up[1..], inflight := p.inflight - {p.up[0].id}), slots)
  {
    var p' := p.(up := p.up[1..], inflight := p.inflight - {p.up[0].id});
    SuffixesOfTheRest(p.up);
    assert OnTheWay(p, p.up[0].id) == One(p.up[0].id in p.inflight);
    forall id: nat ensures OnTheWay(p', id) == One(id in p'.inflight) {
      assert OnTheWay(p, id) == One(id in p.inflight);
    }
  }

  lemma HearOtherKeeps(p: Pair, free: nat, slots: nat)
    requires Inv(p, slots) && p.up != [] && !p.up[0].Answer?
    requires free <= p.free + One(p.up[0].Ready?) && (p.mode.Serving? ==> free == p.free + One(p.up[0].Ready?))
    ensures Inv(p.(up := p.up[1..], free := free), slots)
  {
    var p' := p.(up := p.up[1..], free := free);
    SuffixesOfTheRest(p.up);
    forall id: nat ensures OnTheWay(p', id) == OnTheWay(p, id) {}
    SameOnTheWay(p, p');
  }

  /** Retiring on a Ready is retiring, and then hearing a Ready that is nothing to answer. */
  lemma RetireOnReadyKeeps(p: Pair, slots: nat)
    requires Inv(p, slots) && p.up != [] && p.up[0].Ready? && p.mode.Serving?
    ensures Inv(Hearing(p, true), slots)
  {
    var q := Step(p, Retire);
    StopKeeps(p, Retire, slots);
    HearOtherKeeps(q, p.free, slots);
    assert Hearing(p, true) == q.(up := q.up[1..], free := p.free);
  }

  lemma HearKeeps(p: Pair, retire: bool, slots: nat)
    requires Inv(p, slots)
    ensures Inv(Hearing(p, retire), slots)
  {
    if p.mode.Drained? || p.mode.Finished? {
    } else if p.up == [] {
      forall id: nat ensures OnTheWay(Hearing(p, retire), id) == OnTheWay(p, id) {}
      SameOnTheWay(p, Hearing(p, retire));
    } else if p.up[0].Answer? {
      HearAnswerKeeps(p, slots);
    } else if p.up[0].Ready? && p.mode.Serving? && retire {
      RetireOnReadyKeeps(p, slots);
    } else {
      HearOtherKeeps(p, if p.up[0].Ready? && p.mode.Serving? then p.free + 1 else p.free, slots);
    }
  }

  lemma SuffixesOfTheRest(up: seq<Frame>)
    requires up != []
    ensures forall k :: 0 <= k <= |up| - 1 ==> up[1..][k..] == up[k + 1..]
  {
  }

  lemma DrainSent(down: seq<Order>)
    ensures Dispatches(down + [Drain]) == Dispatches(down)
    ensures forall id: nat :: DispatchesOf(down + [Drain], id) == DispatchesOf(down, id)
    ensures (down + [Drain])[..|down|] == down
  {
    DownOneMore(down, Drain, 0);
    forall id: nat ensures DispatchesOf(down + [Drain], id) == DispatchesOf(down, id) { DownOneMore(down, Drain, id); }
  }

  lemma StopKeeps(p: Pair, e: Event, slots: nat)
    requires Inv(p, slots) && (e.Retire? || e.Finish?)
    ensures Inv(Step(p, e), slots)
  {
    if Step(p, e) != p {
      assert p.mode.Serving?;
      StoppedKeeps(p, if e.Retire? then Draining else Finished, slots);
    }
  }

  /** A Drain at the end of the orders, and nothing else different. */
  lemma StoppedKeeps(p: Pair, mode: Mode, slots: nat)
    requires Inv(p, slots) && p.mode.Serving? && (mode.Draining? || mode.Finished?)
    ensures Inv(p.(mode := mode, down := p.down + [Drain]), slots)
  {
    var p' := p.(mode := mode, down := p.down + [Drain]);
    DrainSent(p.down);
    StoppedIsAccounted(p, p');
    assert Orderly(p') by { assert p'.down[..|p'.down| - 1] == p.down; }
  }

  lemma StoppedIsAccounted(p: Pair, p': Pair)
    requires Accounted(p) && p' == p.(mode := p'.mode, down := p.down + [Drain])
    ensures Accounted(p')
  {
    forall id: nat ensures OnTheWay(p', id) == OnTheWay(p, id) { DownOneMore(p.down, Drain, id); }
    SameOnTheWay(p, p');
  }

  lemma SendKeeps(p: Pair, id: nat, slots: nat)
    requires Inv(p, slots)
    ensures Inv(Step(p, Send(id)), slots)
  {
    var p' := Step(p, Send(id));
    if p' != p {
      DownOneMore(p.down, Dispatch(id), id);
      forall x: nat ensures OnTheWay(p', x) == One(x in p'.inflight) {
        DownOneMore(p.down, Dispatch(id), x);
        assert OnTheWay(p, x) == One(x in p.inflight);
      }
    }
  }

  lemma {:induction false} InvAlways(slots: nat, events: seq<Event>)
    ensures Inv(Run(slots, events), slots)
    decreases |events|
  {
    if events == [] {
      var p := Start(slots);
      forall id: nat ensures OnTheWay(p, id) == One(id in p.inflight) {}
    } else {
      var p, e := Run(slots, events[..|events| - 1]), events[|events| - 1];
      InvAlways(slots, events[..|events| - 1]);
      match e
      case Receive => ReceiveKeeps(p, slots);
      case Reply(id) => ReplyKeeps(p, id, slots);
      case Ask => AskKeeps(p, slots);
      case Exit => AskKeeps(p, slots);
      case Hear(retire) => HearKeeps(p, retire, slots);
      case Send(id) => SendKeeps(p, id, slots);
      case Retire => StopKeeps(p, e, slots);
      case Finish => StopKeeps(p, e, slots);
      case Offer => OfferKeeps(p, slots);
      case Credit => CreditKeeps(p, slots);
      case Tell => TellKeeps(p, slots);
    }
  }

  // ------------------------------------------------------------- main results

  /** Until the child is retired every slot's credit is somewhere, exactly once; so it never runs
      more tasks than it has slots, then or later. */
  lemma CreditsAreConserved(slots: nat, events: seq<Event>)
    ensures var p := Run(slots, events);
            (p.mode.Serving? ==> Credits(p) == slots) && |p.running| <= slots
  {
    InvAlways(slots, events);
  }

  /** When a Ready is read, a slot is neither offered nor taken: a served child's offers and the
      work in flight, answered or not, never come to more than its slots. */
  lemma AReadyIsForASpareSlot(slots: nat, events: seq<Event>)
    requires var p := Run(slots, events); p.mode.Serving? && p.up != [] && p.up[0].Ready?
    ensures var p := Run(slots, events); p.free + |p.inflight| < slots
  {
    InvAlways(slots, events);
    var p := Run(slots, events);
    assert p.up[0..] == p.up && Replies(p.up[0..]) == Replies(p.up[1..]);
    assert Replies(p.up[1..]) <= Readys(p.up[1..]) + p.reporting + p.readying;
  }

  /** A drained child whose stream has ended, with no deadline cutting it short, has answered for
      everything it was sent. */
  lemma DrainedHoldsNothing(slots: nat, events: seq<Event>)
    requires Run(slots, events).mode.Drained?
    ensures Run(slots, events).inflight == {}
  {
    InvAlways(slots, events);
    var p := Run(slots, events);
    assert |p.inflight| == 0;
  }

  /** A child sent away because the work is done has nothing on its way to it, running, or unread. */
  lemma FinishedHoldsNothing(slots: nat, events: seq<Event>)
    requires Run(slots, events).mode.Finished?
    ensures var p := Run(slots, events);
            p.inflight == {} && p.running == {} && Replies(p.up) == 0 && Dispatches(p.down) == 0
  {
    InvAlways(slots, events);
    FinishedStaysEmpty(slots, events);
  }

  lemma StepKeepsFinished(p: Pair, e: Event)
    requires p.mode.Finished? ==> p.inflight == {}
    ensures var p' := Step(p, e); p'.mode.Finished? ==> p'.inflight == {}
  {
    if e.Hear? { HearingKeepsFinished(p, e.retire); }
  }

  lemma HearingKeepsFinished(p: Pair, retire: bool)
    requires p.mode.Finished? ==> p.inflight == {}
    ensures Hearing(p, retire).mode.Finished? ==> Hearing(p, retire).inflight == {}
  {
  }

  lemma {:induction false} FinishedStaysEmpty(slots: nat, events: seq<Event>)
    ensures Run(slots, events).mode.Finished? ==> Run(slots, events).inflight == {}
    decreases |events|
  {
    if events != [] {
      FinishedStaysEmpty(slots, events[..|events| - 1]);
      StepKeepsFinished(Run(slots, events[..|events| - 1]), events[|events| - 1]);
    }
  }

  /** When nothing is on its way either way and no task is at work, the supervisor holds every
      credit and owes nothing: no slot is ever lost. */
  lemma QuietMeansEverySlotIsFree(slots: nat, events: seq<Event>)
    requires var p := Run(slots, events);
             p.mode.Serving? && p.unsent == 0 && p.up == [] && p.down == [] && p.running == {} && p.reporting == 0
               && p.readying == 0
    ensures var p := Run(slots, events); p.free == slots && p.inflight == {}
  {
    InvAlways(slots, events);
    var p := Run(slots, events);
    assert |p.inflight| == 0;
  }
}
