/** A batch run's calls on its broker are in turn: no child's supervisor settles a job that has not been
    claimed. So what `AtLeastOnce` says of the in-memory broker holds of every batch run. */
module BatchOnce {
  import opened Results
  import opened Chains
  import opened S = Supervision
  import opened MemoryQueue
  import opened B = Batch
  import R = BatchRetries
  import A = AtLeastOnce

  /** The call a step of the batch makes on the broker, if it makes one. */
  function CallsOf(b: Batch, h: Happening, r: Registry): seq<A.Call> {
    match h
    case TryClaim(i) => if i < |b.children| && Asks(b.children[i]) then [A.Claiming(b.now)] else []
    case On(i, e) =>
      if i < |b.children| && Allowed(b.children[i], e, r, b.now)
      then CallFor(S.Step(b.children[i], e, r.child).1, b.now)
      else []
    case _ => []
  }

  function CallFor(effect: Option<Effect>, now: nat): seq<A.Call> {
    match effect
    case Some(PushNext(next)) => [A.Pushing(next, 0, now)]
    case Some(Ack(item)) => [A.Settling(item.job.taskId)]
    case Some(Bury(item)) => [A.Settling(item.job.taskId)]
    case Some(Retry(item, delayMs)) => [A.Requeueing(item.job.taskId, delayMs, now)]
    case Some(HandBack(job, delayMs)) => [A.Requeueing(job.taskId, delayMs, now)]
    case _ => []
  }

  function Submissions(jobs: seq<NewJob>, now0: nat): seq<A.Call>
    decreases |jobs|
  {
    if jobs == [] then [] else Submissions(jobs[..|jobs| - 1], now0) + [A.Pushing(jobs[|jobs| - 1], 0, now0)]
  }

  /** Every call of a run, in order. */
  function Calls(jobs: seq<NewJob>, now0: nat, events: seq<Happening>, r: Registry): seq<A.Call>
    decreases |events|
  {
    if events == [] then Submissions(jobs, now0)
    else
      var before := events[..|events| - 1];
      Calls(jobs, now0, before, r) + CallsOf(B.Run(jobs, now0, before, r), events[|events| - 1], r)
  }

  function CalledAll(q: Queue, calls: seq<A.Call>): Queue
    requires |calls| <= 1
  {
    if calls == [] then q else A.Called(q, calls[0])
  }

  lemma StepMakesItsCall(b: Batch, h: Happening, r: Registry)
    ensures |CallsOf(b, h, r)| <= 1 && B.Step(b, h, r).queue == CalledAll(b.queue, CallsOf(b, h, r))
  {
  }

  // ------------------------------------------- what is held has been claimed

  ghost predicate HeldWereClaimed(b: Batch) {
    forall id: nat :: id in b.queue.jobs && HeldByAll(b, id) > 0 ==> b.queue.jobs[id].attempts > 0
  }

  lemma OnKeepsClaimed(b: Batch, i: nat, e: S.Event, r: Registry)
    requires i < |b.children| && Inv(b) && HeldWereClaimed(b) && !e.Claim?
    ensures HeldWereClaimed(OnStep(b, i, e, r))
  {
    var b', effect := OnStep(b, i, e, r), S.Step(b.children[i], e, r.child).1;
    forall id: nat | id in b'.queue.jobs && HeldByAll(b', id) > 0 ensures b'.queue.jobs[id].attempts > 0 {
      OnMovesCounts(b, i, e, r, id);
      R.ServedAttempts(b.queue, effect, b.now, id);
      OnServes(b, i, e, r, id);
      assert Places(b, b.queue.nextId) == 0;
    }
  }

  lemma TryClaimKeepsClaimed(b: Batch, i: nat, r: Registry)
    requires i < |b.children| && Inv(b) && HeldWereClaimed(b) && Asks(b.children[i])
    ensures HeldWereClaimed(TryClaimStep(b, i, r))
  {
    var b' := TryClaimStep(b, i, r);
    forall id: nat | id in b'.queue.jobs && HeldByAll(b', id) > 0 ensures b'.queue.jobs[id].attempts > 0 {
      R.ClaimCountsAttempt(b.queue, b.now, id);
      TryClaimMovesCounts(b, i, r, id);
    }
  }

  lemma StepKeepsClaimed(b: Batch, h: Happening, r: Registry)
    requires Inv(b) && HeldWereClaimed(b)
    ensures HeldWereClaimed(B.Step(b, h, r))
  {
    match h
    case TryClaim(i) => if i < |b.children| && Asks(b.children[i]) { TryClaimKeepsClaimed(b, i, r); }
    case On(i, e) => if i < |b.children| && Allowed(b.children[i], e, r, b.now) { OnKeepsClaimed(b, i, e, r); }
    case Spawn => SpawningHolds(b, r);
    case Pass(ms) =>
  }

  lemma SpawningHolds(b: Batch, r: Registry)
    requires HeldWereClaimed(b)
    ensures HeldWereClaimed(B.Step(b, Spawn, r))
  {
    forall id: nat ensures HeldByAll(B.Step(b, Spawn, r), id) == HeldByAll(b, id) {
      SumOneMore(b.children, FRESH, HeldOf(id));
    }
  }

  /** A job that is settled is one its child's supervisor holds. */
  lemma SettledWasClaimed(b: Batch, h: Happening, r: Registry)
    requires Inv(b) && HeldWereClaimed(b)
    ensures forall k :: 0 <= k < |CallsOf(b, h, r)| ==> A.SettlesClaimed(b.queue, CallsOf(b, h, r)[k])
  {
    if h.On? && h.i < |b.children| && Allowed(b.children[h.i], h.event, r, b.now) {
      var effect := S.Step(b.children[h.i], h.event, r.child).1;
      match effect
      case Some(Ack(item)) => OnMovesCounts(b, h.i, h.event, r, item.job.taskId);
      case Some(Bury(item)) => OnMovesCounts(b, h.i, h.event, r, item.job.taskId);
      case _ =>
    }
  }

  lemma {:induction false} ClaimedAlways(jobs: seq<NewJob>, now0: nat, events: seq<Happening>, r: Registry)
    ensures HeldWereClaimed(B.Run(jobs, now0, events, r))
    decreases |events|
  {
    if events != [] {
      ClaimedAlways(jobs, now0, events[..|events| - 1], r);
      InvAlways(jobs, now0, events[..|events| - 1], r);
      StepKeepsClaimed(B.Run(jobs, now0, events[..|events| - 1], r), events[|events| - 1], r);
    }
  }

  // -------------------------------------------------------------- main result

  lemma CallsGoOn(calls: seq<A.Call>, more: seq<A.Call>)
    requires A.CallsInTurn(calls) && |more| <= 1
    requires forall k :: 0 <= k < |more| ==> A.SettlesClaimed(A.After(calls), more[k])
    ensures A.CallsInTurn(calls + more) && A.After(calls + more) == CalledAll(A.After(calls), more)
  {
    if more == [] {
      assert calls + more == calls;
    } else {
      assert (calls + more)[..|calls|] == calls;
      forall k | 0 <= k < |calls + more| ensures A.SettlesClaimed(A.After((calls + more)[..k]), (calls + more)[k]) {
        if k < |calls| { assert (calls + more)[..k] == calls[..k]; }
      }
    }
  }

  lemma {:induction false} SubmittedInTurn(jobs: seq<NewJob>, now0: nat)
    ensures A.CallsInTurn(Submissions(jobs, now0)) && A.After(Submissions(jobs, now0)) == Submitted(jobs, now0)
    decreases |jobs|
  {
    if jobs != [] {
      SubmittedInTurn(jobs[..|jobs| - 1], now0);
      CallsGoOn(Submissions(jobs[..|jobs| - 1], now0), [A.Pushing(jobs[|jobs| - 1], 0, now0)]);
    }
  }

  /** With any number of children, over every interleaving and any frames from any of them, the calls made
      on the broker leave it where it is, and only claimed jobs are settled among them: so their account
      is one of the abstract queue. */
  lemma {:induction false} BatchCallsAreInTurn(jobs: seq<NewJob>, now0: nat, events: seq<Happening>, r: Registry)
    ensures var calls := Calls(jobs, now0, events, r);
            && A.After(calls) == B.Run(jobs, now0, events, r).queue
            && A.CallsInTurn(calls) && A.Tells(A.MemoryTells(calls))
    decreases |events|
  {
    if events == [] {
      SubmittedInTurn(jobs, now0);
    } else {
      var before, h := events[..|events| - 1], events[|events| - 1];
      var b := B.Run(jobs, now0, before, r);
      BatchCallsAreInTurn(jobs, now0, before, r);
      InvAlways(jobs, now0, before, r);
      ClaimedAlways(jobs, now0, before, r);
      StepMakesItsCall(b, h, r);
      SettledWasClaimed(b, h, r);
      CallsGoOn(Calls(jobs, now0, before, r), CallsOf(b, h, r));
    }
    A.MemoryIsAtLeastOnce(Calls(jobs, now0, events, r));
  }
}
