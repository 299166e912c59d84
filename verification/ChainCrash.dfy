/** A chain on a durable queue, under any number of crashes, redeliveries and retries, with workers whose
    lease has lapsed going on beside the new ones: the successor is queued before the step is acked, so
    the chain is never dropped but by a push that is refused. */
module ChainCrash {
  import opened Results
  import opened Msgpack
  import opened Chains

  /** How far one delivery of a step has got. A success is settled in two broker calls:
      push the next step, then ack this one. */
  datatype Stage = Running | Answered(result: Blob) | Advanced

  /** An entry, by its number in order of its push, as a worker has it. */
  datatype Delivery = Delivery(id: nat, stage: Stage)

  /** Entries are live until acked or buried. `parents` says of each push but the first which entry it
      came after, and `refused` of which entries the broker refused a push. */
  datatype State = State(
    pushed: seq<NewJob>, parents: seq<nat>, refused: seq<nat>,
    live: set<nat>, acked: set<nat>, dead: set<nat>, workers: seq<Delivery>)

  datatype Event =
    | Claim(i: nat)       // of an entry: the first time, or again, its lease having lapsed
    | Succeed(i: nat, result: Blob)
    | Retry(i: nat)
    | Bury(i: nat)
    | Push(i: nat)
    | PushFails(i: nat)   // counted as a broker error, and the ack goes ahead
    | Ack(i: nat)
    | Crash(i: nat)       // a worker dies, or its settlement is fenced off: the entry stays as it is

  function Without<T>(s: seq<T>, i: nat): seq<T>
    requires i < |s|
  {
    s[..i] + s[i + 1..]
  }

  /** Settling an entry that is no longer live does nothing. */
  function Settled(s: State, i: nat, ok: bool): State
    requires i < |s.workers|
  {
    var id, s' := s.workers[i].id, s.(workers := Without(s.workers, i));
    if id !in s.live then s'
    else if ok then s'.(live := s.live - {id}, acked := s.acked + {id})
    else s'.(live := s.live - {id}, dead := s.dead + {id})
  }

  function Moved(s: State, i: nat, stage: Stage): State
    requires i < |s.workers|
  {
    s.(workers := s.workers[i := s.workers[i].(stage := stage)])
  }

  /** An event that does not apply leaves the state alone, so every sequence of events is a run. */
  function Step(s: State, e: Event): State {
    if e.Claim? then (if e.i in s.live then s.(workers := s.workers + [Delivery(e.i, Running)]) else s)
    else if e.i >= |s.workers| || s.workers[e.i].id >= |s.pushed| then s
    else
      var id := s.workers[e.i].id;
      match (e, s.workers[e.i].stage)
      case (Succeed(i, result), Running) => Moved(s, i, Answered(result))
      case (Retry(i), Running) => s.(workers := Without(s.workers, i))
      case (Bury(i), Running) => Settled(s, i, false)
      case (Push(i), Answered(result)) =>
        (match NextJob(s.pushed[id].chain, result)
         case None => Moved(s, i, Advanced)
         case Some(next) =>
           Moved(s, i, Advanced)
             .(pushed := s.pushed + [next], parents := s.parents + [id], live := s.live + {|s.pushed|}))
      case (PushFails(i), Answered(result)) =>
        Moved(s, i, Advanced).(refused := s.refused + if HasNext(s.pushed[id]) then [id] else [])
      case (Ack(i), Advanced) => Settled(s, i, true)
      case (Crash(i), _) => s.(workers := Without(s.workers, i))
      case _ => s
  }

  function After(s: State, events: seq<Event>): State
    decreases |events|
  {
    if events == [] then s else Step(After(s, events[..|events| - 1]), events[|events| - 1])
  }

  function Start(head: NewJob): State {
    State([head], [], [], {0}, {}, {}, [])
  }

  /** Whether a job carries a step to run after it. */
  predicate HasNext(job: NewJob) {
    NextJob(job.chain, Empty).Some?
  }

  lemma NextDoesNotDependOnTheAnswer(chain: Blob, a: Blob, b: Blob)
    ensures NextJob(chain, a).Some? <==> NextJob(chain, b).Some?
  {
  }

  ghost predicate IsSuccessor(next: NewJob, job: NewJob) {
    exists result :: NextJob(job.chain, result) == Some(next)
  }

  // --------------------------------------------------------------- invariants

  function One(b: bool): nat { if b then 1 else 0 }

  /** How many deliveries of an entry are past the push of its next step. */
  function AdvancedOf(workers: seq<Delivery>, id: nat): nat {
    if workers == [] then 0
    else
      var n := |workers| - 1;
      AdvancedOf(workers[..n], id) + One(workers[n] == Delivery(id, Advanced))
  }

  /** Each entry that was queued is live, acked or buried, and only one of them. */
  ghost predicate OneFate(s: State, id: nat) {
    One(id in s.live) + One(id in s.acked) + One(id in s.dead) == One(id < |s.pushed|)
  }

  /** Of an entry that has a next step: its ack, and every delivery of it about to make one, has had a
      push of its own before, done or refused. */
  ghost predicate PushedFirst(s: State, id: nat) {
    id < |s.pushed| && HasNext(s.pushed[id]) ==>
      One(id in s.acked) + AdvancedOf(s.workers, id) <= multiset(s.parents)[id] + multiset(s.refused)[id]
  }

  /** The k-th push after the first queued the next step of its parent, pushed before it. */
  ghost predicate Descends(s: State) {
    && |s.pushed| == |s.parents| + 1
    && forall k :: 0 <= k < |s.parents| ==> s.parents[k] <= k && IsSuccessor(s.pushed[k + 1], s.pushed[s.parents[k]])
  }

  ghost predicate Inv(s: State) {
    && (forall id: nat :: OneFate(s, id)) && (forall id: nat :: PushedFirst(s, id)) && Descends(s)
    && (forall k :: 0 <= k < |s.refused| ==> s.refused[k] < |s.pushed|)
  }

  lemma {:induction false} AdvancedUpdated(workers: seq<Delivery>, i: nat, d: Delivery, id: nat)
    requires i < |workers|
    ensures AdvancedOf(workers[i := d], id) + One(workers[i] == Delivery(id, Advanced))
            == AdvancedOf(workers, id) + One(d == Delivery(id, Advanced))
    decreases |workers|
  {
    var n := |workers| - 1;
    if i < n {
      AdvancedUpdated(workers[..n], i, d, id);
      assert workers[i := d][..n] == workers[..n][i := d];
    } else {
      assert workers[i := d][..n] == workers[..n];
    }
  }

  lemma {:induction false} AdvancedWithout(workers: seq<Delivery>, i: nat, id: nat)
    requires i < |workers|
    ensures AdvancedOf(Without(workers, i), id) + One(workers[i] == Delivery(id, Advanced)) == AdvancedOf(workers, id)
    decreases |workers|
  {
    var n := |workers| - 1;
    if i < n {
      AdvancedWithout(workers[..n], i, id);
      assert Without(workers, i)[..n - 1] == Without(workers[..n], i);
    } else {
      assert Without(workers, i) == workers[..n];
    }
  }

  lemma AdvancedOneMore(workers: seq<Delivery>, d: Delivery, id: nat)
    ensures AdvancedOf(workers + [d], id) == AdvancedOf(workers, id) + One(d == Delivery(id, Advanced))
  {
    assert (workers + [d])[..|workers|] == workers;
  }

  lemma MovingKeepsInv(s: State, i: nat, stage: Stage)
    requires Inv(s) && i < |s.workers| && s.workers[i].id < |s.pushed|
    requires stage.Advanced? ==> !HasNext(s.pushed[s.workers[i].id])
    ensures Inv(Moved(s, i, stage))
  {
    var s' := Moved(s, i, stage);
    forall id: nat ensures OneFate(s', id) && PushedFirst(s', id) {
      assert OneFate(s, id) && PushedFirst(s, id);
      AdvancedUpdated(s.workers, i, s.workers[i].(stage := stage), id);
    }
  }

  lemma RefusingKeepsInv(s: State, i: nat)
    requires Inv(s) && i < |s.workers| && s.workers[i].id < |s.pushed|
    ensures Inv(Moved(s, i, Advanced).(refused := s.refused + [s.workers[i].id]))
  {
    var s' := Moved(s, i, Advanced).(refused := s.refused + [s.workers[i].id]);
    forall id: nat ensures OneFate(s', id) && PushedFirst(s', id) {
      assert OneFate(s, id) && PushedFirst(s, id);
      AdvancedUpdated(s.workers, i, s.workers[i].(stage := Advanced), id);
    }
  }

  /** A push queues an entry of its own, and pays for one ack of the delivery that made it. */
  lemma PushingKeepsInv(s: State, i: nat, next: NewJob, s': State)
    requires Inv(s) && i < |s.workers| && s.workers[i].id < |s.pushed| && IsSuccessor(next, s.pushed[s.workers[i].id])
    requires s' == Moved(s, i, Advanced).(pushed := s.pushed + [next], parents := s.parents + [s.workers[i].id],
                                          live := s.live + {|s.pushed|})
    requires forall k :: 0 <= k < |s.workers| ==> s.workers[k].id < |s.pushed|
    ensures Inv(s')
  {
    forall id: nat ensures OneFate(s', id) && PushedFirst(s', id) {
      assert OneFate(s, id) && PushedFirst(s, id);
      AdvancedUpdated(s.workers, i, s.workers[i].(stage := Advanced), id);
      if id == |s.pushed| { NoneAdvanced(s'.workers, id); }
    }
  }

  lemma {:induction false} NoneAdvanced(workers: seq<Delivery>, id: nat)
    requires forall k :: 0 <= k < |workers| ==> workers[k].id != id
    ensures AdvancedOf(workers, id) == 0
    decreases |workers|
  {
    if workers != [] {
      NoneAdvanced(workers[..|workers| - 1], id);
    }
  }

  lemma LeavingKeepsInv(s: State, i: nat)
    requires Inv(s) && i < |s.workers|
    ensures Inv(s.(workers := Without(s.workers, i)))
  {
    var s' := s.(workers := Without(s.workers, i));
    forall id: nat ensures OneFate(s', id) && PushedFirst(s', id) {
      assert OneFate(s, id) && PushedFirst(s, id);
      AdvancedWithout(s.workers, i, id);
    }
  }

  lemma SettlingKeepsInv(s: State, i: nat, ok: bool)
    requires Inv(s) && i < |s.workers| && (ok ==> s.workers[i].stage.Advanced?)
    ensures Inv(Settled(s, i, ok))
  {
    var s' := Settled(s, i, ok);
    forall id: nat ensures OneFate(s', id) && PushedFirst(s', id) {
      assert OneFate(s, id) && PushedFirst(s, id);
      AdvancedWithout(s.workers, i, id);
    }
  }

  lemma ClaimingKeepsInv(s: State, id: nat)
    requires Inv(s)
    ensures Inv(s.(workers := s.workers + [Delivery(id, Running)]))
  {
    var s' := s.(workers := s.workers + [Delivery(id, Running)]);
    forall x: nat ensures OneFate(s', x) && PushedFirst(s', x) {
      assert OneFate(s, x) && PushedFirst(s, x);
      AdvancedOneMore(s.workers, Delivery(id, Running), x);
    }
  }

  /** Workers have entries that were queued. */
  ghost predicate WorkersHaveEntries(s: State) {
    forall k :: 0 <= k < |s.workers| ==> s.workers[k].id < |s.pushed|
  }

  lemma PushKeepsInv(s: State, i: nat)
    requires Inv(s) && WorkersHaveEntries(s) && i < |s.workers| && s.workers[i].stage.Answered?
    ensures Inv(Step(s, Push(i)))
  {
    var job, result := s.pushed[s.workers[i].id], s.workers[i].stage.result;
    NextDoesNotDependOnTheAnswer(job.chain, result, Empty);
    match NextJob(job.chain, result)
    case None => MovingKeepsInv(s, i, Advanced);
    case Some(next) => PushingKeepsInv(s, i, next, Step(s, Push(i)));
  }

  lemma PushFailsKeepsInv(s: State, i: nat)
    requires Inv(s) && WorkersHaveEntries(s) && i < |s.workers| && s.workers[i].stage.Answered?
    ensures Inv(Step(s, PushFails(i)))
  {
    if HasNext(s.pushed[s.workers[i].id]) {
      RefusingKeepsInv(s, i);
    } else {
      MovingKeepsInv(s, i, Advanced);
      assert s.refused + [] == s.refused;
    }
  }

  lemma StepKeepsInv(s: State, e: Event)
    requires Inv(s) && WorkersHaveEntries(s)
    ensures Inv(Step(s, e))
  {
    if e.Claim? {
      if e.i in s.live { ClaimingKeepsInv(s, e.i); }
    } else if e.i < |s.workers| {
      match (e, s.workers[e.i].stage)
      case (Succeed(i, result), Running) => MovingKeepsInv(s, i, Answered(result));
      case (Retry(i), Running) => LeavingKeepsInv(s, i);
      case (Bury(i), Running) => SettlingKeepsInv(s, i, false);
      case (Push(i), Answered(result)) => PushKeepsInv(s, i);
      case (PushFails(i), Answered(result)) => PushFailsKeepsInv(s, i);
      case (Ack(i), Advanced) => SettlingKeepsInv(s, i, true);
      case (Crash(i), _) => LeavingKeepsInv(s, i);
      case _ =>
    }
  }

  lemma StepKeepsWorkers(s: State, e: Event)
    requires Inv(s) && WorkersHaveEntries(s)
    ensures WorkersHaveEntries(Step(s, e))
  {
    if e.Claim? { assert OneFate(s, e.i); }
  }

  lemma StartHasInv(head: NewJob)
    ensures Inv(Start(head)) && WorkersHaveEntries(Start(head))
  {
    forall id: nat ensures OneFate(Start(head), id) && PushedFirst(Start(head), id) {
    }
  }

  lemma {:induction false} InvAlways(head: NewJob, events: seq<Event>)
    ensures Inv(After(Start(head), events)) && WorkersHaveEntries(After(Start(head), events))
    decreases |events|
  {
    if events == [] {
      StartHasInv(head);
    } else {
      var before := After(Start(head), events[..|events| - 1]);
      InvAlways(head, events[..|events| - 1]);
      StepKeepsInv(before, events[|events| - 1]);
      StepKeepsWorkers(before, events[|events| - 1]);
    }
  }

  // ------------------------------------------------------------- main results

  /** Over every run, however many workers have one step at once: every entry that was queued is live,
      acked or buried; each push but the first queued the next step of an entry before it; and no ack of
      a step that has a next one is made, or about to be, that has not had a push of its own, done or
      refused. */
  lemma NoStepIsAckedEarly(head: NewJob, events: seq<Event>, id: nat)
    ensures var s := After(Start(head), events);
            OneFate(s, id) && PushedFirst(s, id) && Descends(s)
  {
    InvAlways(head, events);
  }

  lemma {:induction false} HeadStays(head: NewJob, events: seq<Event>)
    ensures var s := After(Start(head), events); s.pushed != [] && s.pushed[0] == head
    decreases |events|
  {
    if events != [] {
      HeadStays(head, events[..|events| - 1]);
    }
  }

  /** The chain came to its end, or to a step whose push was refused. */
  predicate EndsAt(s: State, id: nat) {
    id in s.acked && id < |s.pushed| && (!HasNext(s.pushed[id]) || id in s.refused)
  }

  lemma FollowToTheEnd(s: State, id: nat) returns (last: nat)
    requires Inv(s) && s.live == {} && s.dead == {} && id < |s.pushed|
    ensures EndsAt(s, last)
    decreases TailLength(s.pushed[id].chain)
  {
    assert OneFate(s, id) && PushedFirst(s, id);
    if !HasNext(s.pushed[id]) || id in s.refused { return id; }
    assert id in multiset(s.parents);
    var k :| 0 <= k < |s.parents| && s.parents[k] == id;
    var result :| NextJob(s.pushed[id].chain, result) == Some(s.pushed[k + 1]);
    EachHopShortensTheTail(s.pushed[id].chain, result);
    last := FollowToTheEnd(s, k + 1);
  }

  /** A chain whose queue has run dry with nothing buried reached its last step, whatever crashed in
      between and whoever went on beside whom, unless a push was refused: then it stopped at no other
      place than at a step whose push was. */
  lemma DryQueueMeansFinished(head: NewJob, events: seq<Event>)
    requires var s := After(Start(head), events); s.live == {} && s.dead == {}
    ensures exists last :: EndsAt(After(Start(head), events), last)
    ensures After(Start(head), events).refused == [] ==>
              exists last ::
                var s := After(Start(head), events);
                last in s.acked && last < |s.pushed| && !HasNext(s.pushed[last])
  {
    InvAlways(head, events);
    HeadStays(head, events);
    var last := FollowToTheEnd(After(Start(head), events), 0);
  }

  /** The refused push is the one hole: four events drop the rest of any chain in silence. */
  lemma ARefusedPushDropsTheChain(head: NewJob, result: Blob)
    requires HasNext(head)
    ensures var s := Step(Step(Step(Step(Start(head), Claim(0)), Succeed(0, result)), PushFails(0)), Ack(0));
            s.live == {} && s.dead == {} && s.acked == {0} && s.pushed == [head] && s.refused == [0] && s.workers == []
  {
    var s1 := Step(Start(head), Claim(0));
    assert s1.workers == [Delivery(0, Running)];
    var s2 := Step(s1, Succeed(0, result));
    assert s2.workers == [Delivery(0, Answered(result))];
    var s3 := Step(s2, PushFails(0));
    assert s3.workers == [Delivery(0, Advanced)];
  }
}
