/** The memory ceiling over the Ready protocol: the supervisor and a well-behaved child exchange frames
    while the child's memory moves, and each Ready is acted on as it comes. That one always finds a slot
    to spare is what the ceiling's account of a child takes for granted; here it is the protocol's. */
module CeilingCredit {
  import C = Credit
  import H = Ceiling

  /** The two sides of the stream, what the child holds, and which job each of its tasks is. */
  datatype Both = Both(pair: C.Pair, host: H.Host, order: seq<nat>)

  /** `ids` are the jobs a fill takes, one for each task it adds. */
  datatype Event =
    | Child(e: C.Event)                            // everything the child does but answer
    | Reply(id: nat)
    | Memory(m: H.Event)                           // memory moves, or another child's is learned of
    | Hear(age: nat, jobs: nat, ids: seq<nat>)     // the supervisor reads the next frame
    | Tick(age: nat, jobs: nat, ids: seq<nat>)
    | Finish

  predicate OfTheChild(e: C.Event) {
    e.Offer? || e.Receive? || e.Ask? || e.Credit? || e.Tell? || e.Exit?
  }

  predicate OfMemory(e: H.Event) {
    e.Change? || e.Release? || e.Learn?
  }

  function IndexOf(order: seq<nat>, id: nat): (i: nat)
    ensures i <= |order| && (i < |order| ==> order[i] == id) && (id in order ==> i < |order|)
  {
    if order == [] || order[0] == id then 0 else 1 + IndexOf(order[1..], id)
  }

  /** A Ready acted on, with nothing asked about slots: a reached limit retires the child, and otherwise
      the slot is offered and filled. */
  function Taking(h: H.Host, age: nat, jobs: nat, lim: H.Limits): H.Host {
    var checked := H.Checked(h, lim);
    if H.Fires(H.Rss(h), H.Estimate(h), h.tasksDone, age, lim) then checked.(serving := false)
    else H.Filled(checked.(free := h.free + 1), jobs)
  }

  function Sends(p: C.Pair, ids: seq<nat>): C.Pair {
    if ids == [] then p else C.Step(Sends(p, ids[..|ids| - 1]), C.Send(ids[|ids| - 1]))
  }

  predicate Distinct(ids: seq<nat>) {
    forall i, j :: 0 <= i < j < |ids| ==> ids[i] != ids[j]
  }

  /** New jobs, one for each task added. */
  predicate New(b: Both, after: H.Host, ids: seq<nat>) {
    && |b.host.tasks| + |ids| == |after.tasks| && Distinct(ids)
    && forall k :: 0 <= k < |ids| ==> ids[k] !in b.pair.inflight
  }

  function HearStep(b: Both, age: nat, jobs: nat, ids: seq<nat>, lim: H.Limits): Both {
    var p := b.pair;
    if p.up != [] && p.up[0].Answer? && (p.mode.Serving? || p.mode.Draining?) then
      var i := IndexOf(b.order, p.up[0].id);
      Both(C.Step(p, C.Hear(false)), H.Step(b.host, H.Answer(i), lim),
           if i < |b.order| then H.Without(b.order, i) else b.order)
    else if p.up != [] && p.up[0].Ready? && p.mode.Serving? then
      var after := Taking(b.host, age, jobs, lim);
      if !after.serving then b.(pair := C.Step(p, C.Hear(true)), host := after)
      else if New(b, after, ids) then Both(Sends(C.Step(p, C.Hear(false)), ids), after, b.order + ids)
      else b
    else b.(pair := C.Step(p, C.Hear(false)))
  }

  function TickStep(b: Both, age: nat, jobs: nat, ids: seq<nat>, lim: H.Limits): Both {
    var after := H.Step(b.host, H.Tick(age, jobs), lim);
    if !b.pair.mode.Serving? || !New(b, after, ids) then b
    else
      var sent := Sends(b.pair, ids);
      Both(if after.serving then sent else C.Step(sent, C.Retire), after, b.order + ids)
  }

  function Step(b: Both, e: Event, lim: H.Limits): Both {
    match e
    case Child(e) => if OfTheChild(e) then b.(pair := C.Step(b.pair, e)) else b
    case Reply(id) =>
      if id in b.pair.running
      then b.(pair := C.Step(b.pair, C.Reply(id)), host := H.Step(b.host, H.Over(IndexOf(b.order, id)), lim))
      else b
    case Memory(m) => if OfMemory(m) then b.(host := H.Step(b.host, m, lim)) else b
    case Hear(age, jobs, ids) => HearStep(b, age, jobs, ids, lim)
    case Tick(age, jobs, ids) => TickStep(b, age, jobs, ids, lim)
    case Finish => b.(pair := C.Step(b.pair, C.Finish))
  }

  function Run(events: seq<Event>, lim: H.Limits, growth: H.Growth): Both
    decreases |events|
  {
    if events == [] then Both(C.Start(lim.slots), H.Born(lim, growth), [])
    else Step(Run(events[..|events| - 1], lim, growth), events[|events| - 1], lim)
  }

  // ------------------------------------------------- each side is a run of its own

  ghost predicate IsPair(p: C.Pair, slots: nat) {
    exists events :: C.Run(slots, events) == p
  }

  ghost predicate IsHost(h: H.Host, lim: H.Limits, growth: H.Growth) {
    exists events :: H.Run(events, lim, growth) == h
  }

  lemma PairGoesOn(p: C.Pair, e: C.Event, slots: nat)
    requires IsPair(p, slots)
    ensures IsPair(C.Step(p, e), slots)
  {
    var events :| C.Run(slots, events) == p;
    assert (events + [e])[..|events|] == events;
    assert C.Run(slots, events + [e]) == C.Step(p, e);
  }

  lemma HostGoesOn(h: H.Host, e: H.Event, lim: H.Limits, growth: H.Growth)
    requires IsHost(h, lim, growth)
    ensures IsHost(H.Step(h, e, lim), lim, growth)
  {
    var events :| H.Run(events, lim, growth) == h;
    assert (events + [e])[..|events|] == events;
    assert H.Run(events + [e], lim, growth) == H.Step(h, e, lim);
  }

  lemma PairHasInv(p: C.Pair, slots: nat)
    requires IsPair(p, slots)
    ensures C.Inv(p, slots)
    ensures p.mode.Serving? && p.up != [] && p.up[0].Ready? ==> p.free + |p.inflight| < slots
  {
    var events :| C.Run(slots, events) == p;
    C.InvAlways(slots, events);
    if p.mode.Serving? && p.up != [] && p.up[0].Ready? { C.AReadyIsForASpareSlot(slots, events); }
  }

  // --------------------------------------------------- and they agree throughout

  /** The tasks are the jobs in flight, each once; a task whose answer is on its way is over; the slots
      on offer are the same; and the child is served while the supervisor serves it. */
  ghost predicate Linked(b: Both) {
    && |b.order| == |b.host.tasks| && Distinct(b.order)
    && (forall id: nat :: id in b.order <==> id in b.pair.inflight)
    && b.host.free == b.pair.free
    && (b.host.serving <==> b.pair.mode.Serving? || b.pair.mode.Finished?)
    && (forall i :: 0 <= i < |b.order| && C.RepliesTo(b.pair.up, b.order[i]) > 0 ==> b.host.tasks[i].over)
  }

  ghost predicate Inv(b: Both, lim: H.Limits, growth: H.Growth) {
    IsPair(b.pair, lim.slots) && IsHost(b.host, lim, growth) && Linked(b)
  }

  lemma {:induction false} SameSize(order: seq<nat>, ids: set<nat>)
    requires Distinct(order) && forall id: nat :: id in order <==> id in ids
    ensures |order| == |ids|
    decreases |order|
  {
    if order == [] {
      assert ids == {};
    } else {
      var n := |order| - 1;
      assert order == order[..n] + [order[n]];
      SameSize(order[..n], ids - {order[n]});
    }
  }

  /** So a Ready is never for a slot that is taken. */
  lemma SpareForAReady(b: Both, lim: H.Limits, growth: H.Growth)
    requires Inv(b, lim, growth) && b.pair.mode.Serving? && b.pair.up != [] && b.pair.up[0].Ready?
    ensures b.host.serving && b.host.free + |b.host.tasks| < lim.slots
  {
    PairHasInv(b.pair, lim.slots);
    SameSize(b.order, b.pair.inflight);
  }

  lemma FilledAdds(h: H.Host, jobs: nat)
    ensures var h' := H.Filled(h, jobs);
            && h.tasks <= h'.tasks && h'.free + |h'.tasks| == h.free + |h.tasks|
            && h' == h.(tasks := h'.tasks, free := h'.free)
    decreases jobs
  {
    if jobs > 0 && H.MayTakeOne(h) {
      FilledAdds(h.(tasks := h.tasks + [H.Task(0, false)], free := h.free - 1), jobs - 1);
    }
  }

  lemma SendsOne(p: C.Pair, id: nat)
    requires p.mode.Serving? && p.free > 0 && id !in p.inflight
    ensures var p' := C.Step(p, C.Send(id));
            p'.mode == p.mode && p'.free == p.free - 1 && p'.up == p.up && p'.inflight == p.inflight + {id}
  {
  }

  /** Sending so many new jobs uses up as many offers, and puts them in flight and nowhere else. */
  lemma {:induction false} SendsAll(p: C.Pair, ids: seq<nat>)
    requires p.mode.Serving? && |ids| <= p.free
    requires Distinct(ids) && forall k :: 0 <= k < |ids| ==> ids[k] !in p.inflight
    ensures var p' := Sends(p, ids);
            && p'.mode == p.mode && p'.free == p.free - |ids| && p'.up == p.up
            && (forall id: nat :: id in p'.inflight <==> id in p.inflight || id in ids)
    decreases |ids|
  {
    if ids != [] {
      var n := |ids| - 1;
      SendsAll(p, ids[..n]);
      assert ids == ids[..n] + [ids[n]];
      SendsOne(Sends(p, ids[..n]), ids[n]);
    }
  }

  lemma {:induction false} SendsGoOn(p: C.Pair, ids: seq<nat>, slots: nat)
    requires IsPair(p, slots)
    ensures IsPair(Sends(p, ids), slots)
    decreases |ids|
  {
    if ids != [] {
      SendsGoOn(p, ids[..|ids| - 1], slots);
      PairGoesOn(Sends(p, ids[..|ids| - 1]), C.Send(ids[|ids| - 1]), slots);
    }
  }

  lemma NotOnItsWay(p: C.Pair, slots: nat, id: nat)
    requires IsPair(p, slots) && id !in p.inflight
    ensures C.RepliesTo(p.up, id) == 0
  {
    PairHasInv(p, slots);
    assert C.OnTheWay(p, id) == 0;
  }

  lemma DistinctBoth(order: seq<nat>, ids: seq<nat>)
    requires Distinct(order) && Distinct(ids) && forall k :: 0 <= k < |ids| ==> ids[k] !in order
    ensures Distinct(order + ids)
  {
  }

  /** Of tasks with answers on their way: each is over, the ones just added having none. */
  lemma FillingKeepsOver(b: Both, tasks: seq<H.Task>, ids: seq<nat>, up: seq<C.Frame>, lim: H.Limits, growth: H.Growth)
    requires Inv(b, lim, growth) && |b.host.tasks| + |ids| == |tasks| && b.host.tasks <= tasks
    requires forall k :: 0 <= k < |ids| ==> ids[k] !in b.pair.inflight
    requires forall id: nat :: C.RepliesTo(up, id) == C.RepliesTo(b.pair.up, id)
    ensures forall i :: 0 <= i < |b.order + ids| && C.RepliesTo(up, (b.order + ids)[i]) > 0 ==> tasks[i].over
  {
    forall i | 0 <= i < |b.order + ids| && C.RepliesTo(up, (b.order + ids)[i]) > 0 ensures tasks[i].over {
      if i < |b.order| {
        assert tasks[i] == b.host.tasks[i] && (b.order + ids)[i] == b.order[i];
      } else {
        NotOnItsWay(b.pair, lim.slots, ids[i - |b.order|]);
      }
    }
  }

  /** A fill adds its jobs on both sides. */
  lemma FillingKeepsLinked(b: Both, p: C.Pair, after: H.Host, ids: seq<nat>, lim: H.Limits, growth: H.Growth)
    requires Inv(b, lim, growth) && New(b, after, ids) && p.mode.Serving?
    requires p.inflight == b.pair.inflight && (forall id: nat :: C.RepliesTo(p.up, id) == C.RepliesTo(b.pair.up, id))
    requires b.host.tasks <= after.tasks && p.free == after.free + |ids|
    ensures var p' := Sends(p, ids);
            p'.mode == p.mode && Linked(Both(p', after.(serving := true), b.order + ids))
  {
    SendsAll(p, ids);
    DistinctBoth(b.order, ids);
    FillingKeepsOver(b, after.tasks, ids, p.up, lim, growth);
    assert forall id: nat :: id in b.order + ids <==> id in b.order || id in ids;
  }

  /** A Ready either retires the child as it is, or adds an offer and turns offers into tasks. */
  predicate Taken(h: H.Host, after: H.Host) {
    && h.tasks <= after.tasks
    && if after.serving then after.free + |after.tasks| == h.free + 1 + |h.tasks|
       else after.tasks == h.tasks && after.free == h.free
  }

  lemma TakingTakes(h: H.Host, age: nat, jobs: nat, lim: H.Limits)
    requires h.serving
    ensures Taken(h, Taking(h, age, jobs, lim))
  {
    H.CheckMovesNothing(h, lim);
    FilledAdds(H.Checked(h, lim).(free := h.free + 1), jobs);
  }

  lemma ReadyTakenIsAStep(b: Both, age: nat, jobs: nat, lim: H.Limits, growth: H.Growth)
    requires Inv(b, lim, growth) && b.pair.mode.Serving? && b.pair.up != [] && b.pair.up[0].Ready?
    ensures Taking(b.host, age, jobs, lim) == H.Step(b.host, H.Ready(age, jobs), lim)
  {
    SpareForAReady(b, lim, growth);
    H.CheckMovesNothing(b.host, lim);
  }

  lemma HearsReady(p: C.Pair, retire: bool)
    requires p.mode.Serving? && p.up != [] && p.up[0].Ready?
    ensures var p' := C.Step(p, C.Hear(retire));
            && p'.inflight == p.inflight && (forall id: nat :: C.RepliesTo(p'.up, id) == C.RepliesTo(p.up, id))
            && (if retire then p'.mode.Draining? && p'.free == p.free else p'.mode.Serving? && p'.free == p.free + 1)
  {
  }

  lemma RetiringKeepsLinked(b: Both, p: C.Pair, after: H.Host)
    requires Linked(b) && after.tasks == b.host.tasks && after.free == b.host.free && !after.serving
    requires p.mode.Draining? && p.free == b.pair.free && p.inflight == b.pair.inflight
    requires forall id: nat :: C.RepliesTo(p.up, id) == C.RepliesTo(b.pair.up, id)
    ensures Linked(b.(pair := p, host := after))
  {
  }

  lemma HearReadyKeepsLinked(b: Both, age: nat, jobs: nat, ids: seq<nat>, lim: H.Limits, growth: H.Growth)
    requires Inv(b, lim, growth) && b.pair.mode.Serving? && b.pair.up != [] && b.pair.up[0].Ready?
    ensures Linked(HearStep(b, age, jobs, ids, lim))
  {
    var after := Taking(b.host, age, jobs, lim);
    SpareForAReady(b, lim, growth);
    TakingTakes(b.host, age, jobs, lim);
    HearsReady(b.pair, !after.serving);
    if !after.serving {
      RetiringKeepsLinked(b, C.Step(b.pair, C.Hear(true)), after);
    } else if New(b, after, ids) {
      FillingKeepsLinked(b, C.Step(b.pair, C.Hear(false)), after, ids, lim, growth);
      assert after.(serving := true) == after;
    }
  }

  lemma HearReadyKeeps(b: Both, age: nat, jobs: nat, ids: seq<nat>, lim: H.Limits, growth: H.Growth)
    requires Inv(b, lim, growth) && b.pair.mode.Serving? && b.pair.up != [] && b.pair.up[0].Ready?
    ensures Inv(HearStep(b, age, jobs, ids, lim), lim, growth)
  {
    HearReadyKeepsLinked(b, age, jobs, ids, lim, growth);
    ReadyTakenIsAStep(b, age, jobs, lim, growth);
    HostGoesOn(b.host, H.Ready(age, jobs), lim, growth);
    PairGoesOn(b.pair, C.Hear(true), lim.slots);
    PairGoesOn(b.pair, C.Hear(false), lim.slots);
    SendsGoOn(C.Step(b.pair, C.Hear(false)), ids, lim.slots);
  }

  // ----------------------------------------------------- every other step, too

  lemma HearsAnswer(p: C.Pair, slots: nat)
    requires IsPair(p, slots) && p.up != [] && p.up[0].Answer? && (p.mode.Serving? || p.mode.Draining?)
    ensures var p' := C.Step(p, C.Hear(false));
            && p.up[0].id in p.inflight && p'.inflight == p.inflight - {p.up[0].id} && p'.free == p.free
               && p'.mode == p.mode
            && (forall id: nat :: C.RepliesTo(p'.up, id) <= C.RepliesTo(p.up, id))
  {
    PairHasInv(p, slots);
    assert C.OnTheWay(p, p.up[0].id) == C.One(p.up[0].id in p.inflight);
  }

  lemma WithoutOne(order: seq<nat>, i: nat)
    requires Distinct(order) && i < |order|
    ensures var rest := H.Without(order, i);
            && |rest| == |order| - 1 && Distinct(rest)
            && (forall j :: 0 <= j < |rest| ==> rest[j] == order[if j < i then j else j + 1])
            && (forall id: nat :: id in rest <==> id in order && id != order[i])
  {
    var rest := H.Without(order, i);
    forall id: nat | id in order && id != order[i] ensures id in rest {
      var k :| 0 <= k < |order| && order[k] == id;
      assert rest[if k < i then k else k - 1] == id;
    }
  }

  lemma GoneKeepsOver(order: seq<nat>, tasks: seq<H.Task>, i: nat, up: seq<C.Frame>, up': seq<C.Frame>)
    requires Distinct(order) && |tasks| == |order| && i < |order|
    requires forall j :: 0 <= j < |order| && C.RepliesTo(up, order[j]) > 0 ==> tasks[j].over
    requires forall id: nat :: C.RepliesTo(up', id) <= C.RepliesTo(up, id)
    ensures forall j :: 0 <= j < |order| - 1 && C.RepliesTo(up', H.Without(order, i)[j]) > 0 ==>
            H.Without(tasks, i)[j].over
  {
    WithoutOne(order, i);
    forall j | 0 <= j < |order| - 1 && C.RepliesTo(up', H.Without(order, i)[j]) > 0
      ensures H.Without(tasks, i)[j].over {
      var k := if j < i then j else j + 1;
      assert H.Without(tasks, i)[j] == tasks[k] && C.RepliesTo(up, order[k]) > 0;
    }
  }

  lemma HearAnswerKeepsLinked(b: Both, lim: H.Limits, growth: H.Growth)
    requires Inv(b, lim, growth) && b.pair.up != [] && b.pair.up[0].Answer?
             && (b.pair.mode.Serving? || b.pair.mode.Draining?)
    ensures Linked(HearStep(b, 0, 0, [], lim))
  {
    var i, p' := IndexOf(b.order, b.pair.up[0].id), C.Step(b.pair, C.Hear(false));
    HearsAnswer(b.pair, lim.slots);
    assert C.RepliesTo(b.pair.up, b.order[i]) > 0 && b.host.tasks[i].over;
    WithoutOne(b.order, i);
    GoneKeepsOver(b.order, b.host.tasks, i, b.pair.up, p'.up);
    GoneKeepsLinked(b, p', H.Step(b.host, H.Answer(i), lim), i);
  }

  lemma GoneKeepsLinked(b: Both, p: C.Pair, h: H.Host, i: nat)
    requires Linked(b) && i < |b.order| && p.inflight == b.pair.inflight - {b.order[i]} && p.free == b.pair.free
             && p.mode == b.pair.mode
    requires h.tasks == H.Without(b.host.tasks, i) && h.free == b.host.free && h.serving == b.host.serving
    requires forall j :: 0 <= j < |b.order| - 1 && C.RepliesTo(p.up, H.Without(b.order, i)[j]) > 0 ==> h.tasks[j].over
    ensures Linked(Both(p, h, H.Without(b.order, i)))
  {
    WithoutOne(b.order, i);
  }

  /** A step of the protocol that leaves the jobs in flight, the offers and the service as they were, and
      puts no answer on the stream. */
  ghost predicate Quiet(p: C.Pair, p': C.Pair) {
    && p'.inflight == p.inflight && p'.free == p.free
    && (p'.mode.Serving? || p'.mode.Finished? <==> p.mode.Serving? || p.mode.Finished?)
    && (forall id: nat :: C.RepliesTo(p'.up, id) <= C.RepliesTo(p.up, id))
  }

  lemma QuietKeepsLinked(b: Both, p: C.Pair)
    requires Linked(b) && Quiet(b.pair, p)
    ensures Linked(b.(pair := p))
  {
  }

  lemma HearsNothingMuch(p: C.Pair)
    requires !(p.up != [] && p.up[0].Answer? && (p.mode.Serving? || p.mode.Draining?))
    requires !(p.up != [] && p.up[0].Ready? && p.mode.Serving?)
    ensures Quiet(p, C.Step(p, C.Hear(false)))
  {
  }

  lemma ChildIsQuiet(p: C.Pair, e: C.Event)
    requires OfTheChild(e)
    ensures Quiet(p, C.Step(p, e))
  {
    forall id: nat
      ensures C.RepliesTo(p.up + [C.Ready], id) == C.RepliesTo(p.up, id)
      ensures C.RepliesTo(p.up + [C.Progress], id) == C.RepliesTo(p.up, id)
    {
      C.UpOneMore(p.up, C.Ready, id);
      C.UpOneMore(p.up, C.Progress, id);
    }
  }

  lemma ReplyKeepsLinked(b: Both, id: nat, lim: H.Limits, growth: H.Growth)
    requires Inv(b, lim, growth) && id in b.pair.running
    ensures Linked(Step(b, Reply(id), lim))
  {
    var i, b' := IndexOf(b.order, id), Step(b, Reply(id), lim);
    PairHasInv(b.pair, lim.slots);
    assert C.OnTheWay(b.pair, id) == C.One(id in b.pair.inflight);
    forall j | 0 <= j < |b'.order| && C.RepliesTo(b'.pair.up, b'.order[j]) > 0 ensures b'.host.tasks[j].over {
      C.UpOneMore(b.pair.up, C.Answer(id), b.order[j]);
      if b.order[j] == id { assert i == j; }
    }
  }

  lemma MemoryKeepsLinked(b: Both, m: H.Event, lim: H.Limits)
    requires Linked(b) && OfMemory(m)
    ensures Linked(b.(host := H.Step(b.host, m, lim)))
  {
  }

  lemma TickTicks(h: H.Host, age: nat, jobs: nat, lim: H.Limits)
    requires h.serving
    ensures var after := H.Step(h, H.Tick(age, jobs), lim);
            h.tasks <= after.tasks && after.free + |after.tasks| == h.free + |h.tasks|
  {
    H.CheckMovesNothing(h, lim);
    FilledAdds(H.Checked(h, lim), jobs);
  }

  lemma TickKeepsLinked(b: Both, age: nat, jobs: nat, ids: seq<nat>, lim: H.Limits, growth: H.Growth)
    requires Inv(b, lim, growth)
    ensures Linked(TickStep(b, age, jobs, ids, lim))
  {
    var after := H.Step(b.host, H.Tick(age, jobs), lim);
    if b.pair.mode.Serving? && New(b, after, ids) {
      TickTicks(b.host, age, jobs, lim);
      FillingKeepsLinked(b, b.pair, after, ids, lim, growth);
      var sent := Both(Sends(b.pair, ids), after.(serving := true), b.order + ids);
      if after.serving {
        assert after.(serving := true) == after;
      } else {
        RetiringKeepsLinked(sent, C.Step(sent.pair, C.Retire), after);
      }
    }
  }

  lemma HearKeepsInv(b: Both, age: nat, jobs: nat, ids: seq<nat>, lim: H.Limits, growth: H.Growth)
    requires Inv(b, lim, growth)
    ensures Inv(HearStep(b, age, jobs, ids, lim), lim, growth)
  {
    var p := b.pair;
    if p.up != [] && p.up[0].Answer? && (p.mode.Serving? || p.mode.Draining?) {
      HearAnswerKeepsLinked(b, lim, growth);
      PairGoesOn(p, C.Hear(false), lim.slots);
      HostGoesOn(b.host, H.Answer(IndexOf(b.order, p.up[0].id)), lim, growth);
    } else if p.up != [] && p.up[0].Ready? && p.mode.Serving? {
      HearReadyKeeps(b, age, jobs, ids, lim, growth);
    } else {
      HearsNothingMuch(p);
      QuietKeepsLinked(b, C.Step(p, C.Hear(false)));
      PairGoesOn(p, C.Hear(false), lim.slots);
    }
  }

  lemma TickKeepsInv(b: Both, age: nat, jobs: nat, ids: seq<nat>, lim: H.Limits, growth: H.Growth)
    requires Inv(b, lim, growth)
    ensures Inv(TickStep(b, age, jobs, ids, lim), lim, growth)
  {
    TickKeepsLinked(b, age, jobs, ids, lim, growth);
    HostGoesOn(b.host, H.Tick(age, jobs), lim, growth);
    SendsGoOn(b.pair, ids, lim.slots);
    PairGoesOn(Sends(b.pair, ids), C.Retire, lim.slots);
  }

  lemma StepKeepsInv(b: Both, e: Event, lim: H.Limits, growth: H.Growth)
    requires Inv(b, lim, growth)
    ensures Inv(Step(b, e, lim), lim, growth)
  {
    match e
    case Child(e) =>
      if OfTheChild(e) {
        ChildIsQuiet(b.pair, e);
        QuietKeepsLinked(b, C.Step(b.pair, e));
        PairGoesOn(b.pair, e, lim.slots);
      }
    case Reply(id) =>
      if id in b.pair.running {
        ReplyKeepsLinked(b, id, lim, growth);
        PairGoesOn(b.pair, C.Reply(id), lim.slots);
        HostGoesOn(b.host, H.Over(IndexOf(b.order, id)), lim, growth);
      }
    case Memory(m) =>
      if OfMemory(m) {
        MemoryKeepsLinked(b, m, lim);
        HostGoesOn(b.host, m, lim, growth);
      }
    case Hear(age, jobs, ids) => HearKeepsInv(b, age, jobs, ids, lim, growth);
    case Tick(age, jobs, ids) => TickKeepsInv(b, age, jobs, ids, lim, growth);
    case Finish =>
      QuietKeepsLinked(b, C.Step(b.pair, C.Finish));
      PairGoesOn(b.pair, C.Finish, lim.slots);
  }

  lemma BeginsWithInv(lim: H.Limits, growth: H.Growth)
    ensures Inv(Run([], lim, growth), lim, growth)
  {
    assert C.Run(lim.slots, []) == C.Start(lim.slots);
    assert H.Run([], lim, growth) == H.Born(lim, growth);
  }

  lemma {:induction false} InvAlways(events: seq<Event>, lim: H.Limits, growth: H.Growth)
    ensures Inv(Run(events, lim, growth), lim, growth)
    decreases |events|
  {
    if events == [] {
      BeginsWithInv(lim, growth);
    } else {
      InvAlways(events[..|events| - 1], lim, growth);
      StepKeepsInv(Run(events[..|events| - 1], lim, growth), events[|events| - 1], lim, growth);
    }
  }

  // ------------------------------------------------------------- main results

  /** Over every run of the two sides together, a Ready that is read while the child is served is for a
      slot neither offered nor taken by the child's own tasks. */
  lemma EveryReadyFindsASlot(events: seq<Event>, lim: H.Limits, growth: H.Growth)
    requires var p := Run(events, lim, growth).pair; p.mode.Serving? && p.up != [] && p.up[0].Ready?
    ensures var b := Run(events, lim, growth);
            b.host.serving && b.host.free == b.pair.free && |b.host.tasks| == |b.pair.inflight|
            && b.host.free + |b.host.tasks| < lim.slots
  {
    var b := Run(events, lim, growth);
    InvAlways(events, lim, growth);
    SpareForAReady(b, lim, growth);
    SameSize(b.order, b.pair.inflight);
  }

  /** So with a well-behaved child each Ready can be acted on as it comes, and still a child of so many
      slots stays below the ceiling and what they may all add, with no more tasks at work than slots. */
  lemma TheCeilingHolds(events: seq<Event>, lim: H.Limits, growth: H.Growth)
    requires H.CeilingSet(lim) && growth.bytes <= lim.perTask
    ensures var b := Run(events, lim, growth);
            && H.Rss(b.host) < lim.maxRss + lim.slots * lim.perTask && b.host.growth <= lim.perTask
            && |b.host.tasks| == |b.pair.inflight| && |b.pair.running| <= lim.slots
  {
    var b := Run(events, lim, growth);
    InvAlways(events, lim, growth);
    SameSize(b.order, b.pair.inflight);
    PairHasInv(b.pair, lim.slots);
    var hs :| H.Run(hs, lim, growth) == b.host;
    H.NeverFarOverTheCeiling(hs, lim, growth);
  }
}
