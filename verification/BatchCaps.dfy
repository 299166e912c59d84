/** A capped task in a batch run: a slot is taken before a job of it is dispatched and given back
    when the job is settled, whichever way it ends; so however many children there are, no more
    jobs of the task are in flight, with their leases running, than its cap. */
module BatchCaps {
  import opened Results
  import opened Chains
  import opened S = Supervision
  import opened ChildRuns
  import opened B = Batch
  import K = Coordination
  import MemoryQueue
  import Msgpack

  /** The capped task, how long its slots last, and the key a job's slot is filed under. */
  datatype Rule = Rule(name: string, cap: nat, leaseMs: nat, slotKey: nat -> string)

  /** A batch, who holds the task's slots, and until when the slot each job last took was to last. */
  datatype Capped = Capped(batch: Batch, held: K.Holders, leases: map<nat, real>)

  predicate Governs(rule: Rule, job: Job) { job.job.name == rule.name }

  function Seconds(b: Batch): real { b.now as real / 1000.0 }

  /** Whether a step is where the fill loop asks for a slot: past the expiry and the rate, with the
      job in hand. */
  predicate Asking(b: Batch, h: Happening, r: Registry, rule: Rule) {
    && h.On? && h.event.Clear? && h.i < |b.children| && Allowed(b.children[h.i], h.event, r, b.now)
    && var c := b.children[h.i];
       c.mode.Serving? && c.hand.Some? && !c.hand.value.cleared && Governs(rule, c.hand.value.job)
  }

  /** Whether a step begins to settle a job of the task, which first gives back its slot. */
  predicate Returning(b: Batch, h: Happening, rule: Rule) {
    && h.On? && h.event.Progress? && h.i < |b.children|
    && var c := b.children[h.i];
       c.settling.Busy? && c.settling.stage.Begun? && Governs(rule, c.settling.item.job)
  }

  /** Refused a slot, the job stays in hand uncleared, to be handed back. */
  function Step(s: Capped, h: Happening, r: Registry, rule: Rule): Capped {
    if Asking(s.batch, h, r, rule) then
      var id := s.batch.children[h.i].hand.value.job.taskId;
      var (held, taken) := K.Acquire(s.held, rule.slotKey(id), rule.cap, rule.leaseMs, Seconds(s.batch));
      if taken then Capped(B.Step(s.batch, h, r), held, s.leases[id := held[rule.slotKey(id)]]) else s.(held := held)
    else if Returning(s.batch, h, rule) then
      var id := s.batch.children[h.i].settling.item.job.taskId;
      s.(batch := B.Step(s.batch, h, r), held := K.Release(s.held, rule.slotKey(id)))
    else s.(batch := B.Step(s.batch, h, r))
  }

  function Run(jobs: seq<NewJob>, now0: nat, events: seq<Happening>, r: Registry, rule: Rule): Capped
    decreases |events|
  {
    if events == [] then Capped(Start(jobs, now0), map[], map[])
    else Step(Run(jobs, now0, events[..|events| - 1], r, rule), events[|events| - 1], r, rule)
  }

  // --------------------------------------------------------------- invariants

  ghost predicate Distinct(rule: Rule) {
    forall a: nat, b: nat :: rule.slotKey(a) == rule.slotKey(b) ==> a == b
  }

  /** In flight with a child, or in hand and cleared to go. */
  predicate InProgress(c: Child, id: nat, rule: Rule) {
    || (id in c.inflight && Governs(rule, c.inflight[id]))
    || (c.hand.Some? && c.hand.value.cleared && c.hand.value.job.taskId == id && Governs(rule, c.hand.value.job))
  }

  /** A job in progress took a slot, and still has it if its lease has not lapsed. */
  predicate HoldsItsSlot(held: K.Holders, leases: map<nat, real>, now: real, id: nat, rule: Rule) {
    id in leases && (leases[id] > now ==> rule.slotKey(id) in held && held[rule.slotKey(id)] == leases[id])
  }

  ghost predicate AllHold(s: Capped, rule: Rule) {
    forall i, id :: 0 <= i < |s.batch.children| && InProgress(s.batch.children[i], id, rule) ==>
      HoldsItsSlot(s.held, s.leases, Seconds(s.batch), id, rule)
  }

  ghost predicate CapInv(s: Capped, rule: Rule) {
    Inv(s.batch) && AllHold(s, rule) && |K.Live(s.held, Seconds(s.batch)).Keys| <= rule.cap
  }

  /** Only asking for a slot puts a job in progress that was not. */
  lemma ProgressIsNotNew(c: Child, e: S.Event, cfg: Cfg, id: nat, rule: Rule)
    requires Valid(c)
    ensures var c' := S.Step(c, e, cfg).0;
            InProgress(c', id, rule) ==>
              InProgress(c, id, rule)
              || (e.Clear? && c.mode.Serving? && c.hand.Some? && !c.hand.value.cleared && c.hand.value.job.taskId == id
                  && Governs(rule, c.hand.value.job))
  {
  }

  lemma ProgressIsHeld(c: Child, id: nat, rule: Rule)
    requires Valid(c) && InProgress(c, id, rule)
    ensures Held(c, id) > 0
  {
  }

  lemma {:induction false} TwoHolders(children: seq<Child>, i: nat, j: nat, weight: Child -> nat)
    requires i < j < |children|
    ensures Sum(children, weight) >= weight(children[i]) + weight(children[j])
    decreases |children|
  {
    var last := |children| - 1;
    if j < last {
      TwoHolders(children[..last], i, j, weight);
    } else {
      SumAtLeast(children[..last], i, weight);
    }
  }

  /** A job being settled is in progress with no child: it is in one place only. */
  lemma SettledIsNotInProgress(b: Batch, i: nat, j: nat, rule: Rule)
    requires Inv(b) && i < |b.children| && j < |b.children|
    requires b.children[i].settling.Busy? && b.children[i].settling.stage.Begun?
    ensures !InProgress(b.children[j], b.children[i].settling.item.job.taskId, rule)
  {
    var id := b.children[i].settling.item.job.taskId;
    assert Places(b, id) == One(id < b.queue.nextId);
    if InProgress(b.children[j], id, rule) {
      ProgressIsHeld(b.children[j], id, rule);
      SumAtLeast(b.children, i, HeldOf(id));
      if i < j { TwoHolders(b.children, i, j, HeldOf(id)); }
      else if j < i { TwoHolders(b.children, j, i, HeldOf(id)); }
    }
  }

  /** Where a step of the batch leaves a child that it found in some state, or made. */
  lemma ChildrenMove(b: Batch, h: Happening, r: Registry, j: nat, id: nat, rule: Rule)
    requires Inv(b) && j < |B.Step(b, h, r).children| && InProgress(B.Step(b, h, r).children[j], id, rule)
    ensures j < |b.children|
    ensures InProgress(b.children[j], id, rule)
            || (Asking(b, h, r, rule) && h.i == j && b.children[j].hand.value.job.taskId == id)
  {
    if j < |b.children| {
      var e := WhatItDoes(b, h, r, j);
      if e.Some? { ProgressIsNotNew(b.children[j], e.value, r.child, id, rule); }
    }
  }

  /** A step of the batch is at most one step of child `j`. */
  lemma WhatItDoes(b: Batch, h: Happening, r: Registry, j: nat) returns (e: Option<S.Event>)
    requires j < |b.children|
    ensures j < |B.Step(b, h, r).children|
    ensures B.Step(b, h, r).children[j] == if e.Some? then S.Step(b.children[j], e.value, r.child).0 else b.children[j]
    ensures e.Some? && !e.value.Claim? ==> h == On(j, e.value) && Allowed(b.children[j], e.value, r, b.now)
  {
    match h
    case TryClaim(i) =>
      var d := MemoryQueue.Claim(b.queue, b.now).1;
      e := if i == j && Asks(b.children[j]) && d.Some? then Some(S.Event.Claim(Adopt(d.value))) else None;
    case On(i, event) =>
      e := if i == j && Allowed(b.children[j], event, r, b.now) then Some(event) else None;
    case _ =>
      e := None;
  }

  // --------------------------------------------- taking, keeping and giving back

  lemma PruningKeeps(held: K.Holders, leases: map<nat, real>, now: real, id: nat, rule: Rule)
    requires HoldsItsSlot(held, leases, now, id, rule)
    ensures HoldsItsSlot(K.Live(held, now), leases, now, id, rule)
  {
  }

  lemma TakingKeeps(held: K.Holders, leases: map<nat, real>, now: real, x: nat, id: nat, rule: Rule)
    requires Distinct(rule) && |K.Live(held, now)| < rule.cap
    requires id == x || HoldsItsSlot(held, leases, now, id, rule)
    ensures var held' := K.Acquire(held, rule.slotKey(x), rule.cap, rule.leaseMs, now).0;
            HoldsItsSlot(held', leases[x := held'[rule.slotKey(x)]], now, id, rule)
  {
  }

  lemma ReturningKeeps(held: K.Holders, leases: map<nat, real>, now: real, x: nat, id: nat, rule: Rule)
    requires Distinct(rule) && id != x && HoldsItsSlot(held, leases, now, id, rule)
    ensures HoldsItsSlot(K.Release(held, rule.slotKey(x)), leases, now, id, rule)
  {
    assert rule.slotKey(id) != rule.slotKey(x);
  }

  lemma TakingFits(held: K.Holders, key: string, cap: nat, leaseMs: nat, now: real)
    requires |K.Live(held, now).Keys| <= cap
    ensures |K.Live(K.Acquire(held, key, cap, leaseMs, now).0, now).Keys| <= cap
  {
    var live := K.Live(held, now);
    var (held', taken) := K.Acquire(held, key, cap, leaseMs, now);
    assert K.Live(live, now) == live;
    if taken {
      assert K.Live(held', now).Keys <= live.Keys + {key};
      K.SubsetIsSmaller(K.Live(held', now).Keys, live.Keys + {key});
    }
  }

  lemma LaterOrFewerFits(held: K.Holders, held': K.Holders, now: real, now': real, cap: nat)
    requires |K.Live(held, now).Keys| <= cap && now <= now'
    requires forall k :: k in held' ==> k in held && held'[k] == held[k]
    ensures |K.Live(held', now').Keys| <= cap
  {
    K.SubsetIsSmaller(K.Live(held', now').Keys, K.Live(held, now).Keys);
  }

  lemma StepKeepsTime(b: Batch, h: Happening, r: Registry)
    ensures Seconds(B.Step(b, h, r)) >= Seconds(b)
    ensures !h.Pass? ==> Seconds(B.Step(b, h, r)) == Seconds(b)
  {
  }

  lemma AskingKeepsHolding(s: Capped, h: Happening, r: Registry, rule: Rule, j: nat, id: nat)
    requires CapInv(s, rule) && Distinct(rule) && Asking(s.batch, h, r, rule)
    requires var s' := Step(s, h, r, rule); j < |s'.batch.children| && InProgress(s'.batch.children[j], id, rule)
    ensures var s' := Step(s, h, r, rule); HoldsItsSlot(s'.held, s'.leases, Seconds(s'.batch), id, rule)
  {
    var x, now := s.batch.children[h.i].hand.value.job.taskId, Seconds(s.batch);
    StepKeepsTime(s.batch, h, r);
    if |K.Live(s.held, now)| < rule.cap {
      ChildrenMove(s.batch, h, r, j, id, rule);
      TakingKeeps(s.held, s.leases, now, x, id, rule);
    } else {
      PruningKeeps(s.held, s.leases, now, id, rule);
    }
  }

  lemma ReturningKeepsHolding(s: Capped, h: Happening, r: Registry, rule: Rule, j: nat, id: nat)
    requires CapInv(s, rule) && Distinct(rule) && Returning(s.batch, h, rule)
    requires var s' := Step(s, h, r, rule); j < |s'.batch.children| && InProgress(s'.batch.children[j], id, rule)
    ensures var s' := Step(s, h, r, rule); HoldsItsSlot(s'.held, s'.leases, Seconds(s'.batch), id, rule)
  {
    StepKeepsTime(s.batch, h, r);
    ChildrenMove(s.batch, h, r, j, id, rule);
    SettledIsNotInProgress(s.batch, h.i, j, rule);
    ReturningKeeps(s.held, s.leases, Seconds(s.batch), s.batch.children[h.i].settling.item.job.taskId, id, rule);
  }

  lemma OtherwiseKeepsHolding(s: Capped, h: Happening, r: Registry, rule: Rule, j: nat, id: nat)
    requires CapInv(s, rule) && !Asking(s.batch, h, r, rule) && !Returning(s.batch, h, rule)
    requires var s' := Step(s, h, r, rule); j < |s'.batch.children| && InProgress(s'.batch.children[j], id, rule)
    ensures var s' := Step(s, h, r, rule); HoldsItsSlot(s'.held, s'.leases, Seconds(s'.batch), id, rule)
  {
    var s' := Step(s, h, r, rule);
    StepKeepsTime(s.batch, h, r);
    ChildrenMove(s.batch, h, r, j, id, rule);
    assert HoldsItsSlot(s.held, s.leases, Seconds(s.batch), id, rule);
    assert s'.held == s.held && s'.leases == s.leases;
  }

  lemma StepFits(s: Capped, h: Happening, r: Registry, rule: Rule)
    requires |K.Live(s.held, Seconds(s.batch)).Keys| <= rule.cap
    ensures var s' := Step(s, h, r, rule); |K.Live(s'.held, Seconds(s'.batch)).Keys| <= rule.cap
  {
    var s', now := Step(s, h, r, rule), Seconds(s.batch);
    StepKeepsTime(s.batch, h, r);
    if Asking(s.batch, h, r, rule) {
      TakingFits(s.held, rule.slotKey(s.batch.children[h.i].hand.value.job.taskId), rule.cap, rule.leaseMs, now);
    } else {
      LaterOrFewerFits(s.held, s'.held, now, Seconds(s'.batch), rule.cap);
    }
  }

  lemma StepKeepsCapInv(s: Capped, h: Happening, r: Registry, rule: Rule)
    requires CapInv(s, rule) && Distinct(rule)
    ensures CapInv(Step(s, h, r, rule), rule)
  {
    var s' := Step(s, h, r, rule);
    StepKeepsInv(s.batch, h, r);
    StepFits(s, h, r, rule);
    forall j, id | 0 <= j < |s'.batch.children| && InProgress(s'.batch.children[j], id, rule)
      ensures HoldsItsSlot(s'.held, s'.leases, Seconds(s'.batch), id, rule)
    {
      if Asking(s.batch, h, r, rule) { AskingKeepsHolding(s, h, r, rule, j, id); }
      else if Returning(s.batch, h, rule) { ReturningKeepsHolding(s, h, r, rule, j, id); }
      else { OtherwiseKeepsHolding(s, h, r, rule, j, id); }
    }
  }

  lemma {:induction false} CapInvAlways(jobs: seq<NewJob>, now0: nat, events: seq<Happening>, r: Registry, rule: Rule)
    requires Distinct(rule)
    ensures CapInv(Run(jobs, now0, events, r, rule), rule)
    decreases |events|
  {
    if events == [] {
      StartHasInv(jobs, now0);
      assert K.Live(map[], Seconds(Start(jobs, now0))).Keys == {};
    } else {
      CapInvAlways(jobs, now0, events[..|events| - 1], r, rule);
      StepKeepsCapInv(Run(jobs, now0, events[..|events| - 1], r, rule), events[|events| - 1], r, rule);
    }
  }

  // -------------------------------------------------------------- main result

  /** In progress with some child, on a slot whose lease is running. */
  ghost predicate Counts(s: Capped, id: nat, rule: Rule) {
    && (exists i :: 0 <= i < |s.batch.children| && InProgress(s.batch.children[i], id, rule))
    && id in s.leases && s.leases[id] > Seconds(s.batch)
  }

  lemma {:induction false} SameSizeUnderKeys(ids: set<nat>, rule: Rule)
    requires Distinct(rule)
    ensures |ids| == |set id | id in ids :: rule.slotKey(id)|
  {
    if ids != {} {
      var x :| x in ids;
      SameSizeUnderKeys(ids - {x}, rule);
      assert (set id | id in ids :: rule.slotKey(id))
             == (set id | id in ids - {x} :: rule.slotKey(id)) + {rule.slotKey(x)};
    }
  }

  lemma ItsSlotIsLive(s: Capped, id: nat, rule: Rule)
    requires CapInv(s, rule) && Counts(s, id, rule)
    ensures rule.slotKey(id) in K.Live(s.held, Seconds(s.batch)).Keys
  {
    var i :| 0 <= i < |s.batch.children| && InProgress(s.batch.children[i], id, rule);
    assert HoldsItsSlot(s.held, s.leases, Seconds(s.batch), id, rule);
  }

  lemma SlotsCover(s: Capped, rule: Rule, ids: set<nat>)
    requires CapInv(s, rule) && forall id :: id in ids ==> Counts(s, id, rule)
    ensures (set id | id in ids :: rule.slotKey(id)) <= K.Live(s.held, Seconds(s.batch)).Keys
  {
    forall id | id in ids ensures rule.slotKey(id) in K.Live(s.held, Seconds(s.batch)).Keys {
      ItsSlotIsLive(s, id, rule);
    }
  }

  /** At every moment of every run, with any number of children and any frames from them, the jobs of a
      capped task that are dispatched or about to be, on leases that have not lapsed, number at most its
      cap, each job having its own slot key. */
  lemma AtMostTheCapIsInProgress(jobs: seq<NewJob>, now0: nat, events: seq<Happening>, r: Registry, rule: Rule,
        ids: set<nat>)
    requires Distinct(rule)
    requires forall id :: id in ids ==> Counts(Run(jobs, now0, events, r, rule), id, rule)
    ensures |ids| <= rule.cap
  {
    var s := Run(jobs, now0, events, r, rule);
    CapInvAlways(jobs, now0, events, r, rule);
    SlotsCover(s, rule, ids);
    SameSizeUnderKeys(ids, rule);
    K.SubsetIsSmaller(set id | id in ids :: rule.slotKey(id), K.Live(s.held, Seconds(s.batch)).Keys);
  }

  // --------------------------------------------------------- and none left behind

  predicate IsOf(item: Item, id: nat, rule: Rule) { item.job.taskId == id && Governs(rule, item.job) }

  /** A child's supervisor has a job of the task that has not begun to be settled. */
  ghost predicate Owes(c: Child, id: nat, rule: Rule) {
    || InProgress(c, id, rule)
    || (exists k :: 0 <= k < |c.queue| && IsOf(c.queue[k], id, rule))
    || (c.settling.Busy? && c.settling.stage.Begun? && IsOf(c.settling.item, id, rule))
  }

  ghost predicate OwedFor(s: Capped, key: string, rule: Rule) {
    exists i, id :: 0 <= i < |s.batch.children| && rule.slotKey(id) == key && Owes(s.batch.children[i], id, rule)
  }

  ghost predicate NoneLeft(s: Capped, rule: Rule) {
    forall key :: key in s.held ==> OwedFor(s, key, rule)
  }

  predicate BeginsSettling(c: Child, e: S.Event, id: nat, rule: Rule) {
    e.Progress? && c.settling.Busy? && c.settling.stage.Begun? && IsOf(c.settling.item, id, rule)
  }

  lemma SettleOwes(c: Child, cfg: Cfg, id: nat, rule: Rule)
    requires Valid(c) && Owes(c, id, rule) && !BeginsSettling(c, S.Event.Progress, id, rule)
    ensures Owes(S.Step(c, S.Event.Progress, cfg).0, id, rule)
  {
    var c' := S.Step(c, S.Event.Progress, cfg).0;
    if !InProgress(c, id, rule) {
      var k :| 0 <= k < |c.queue| && IsOf(c.queue[k], id, rule);
      if c.settling.Idle? && k > 0 { assert c'.queue[k - 1] == c.queue[k]; }
      else if c.settling.Busy? { assert c'.queue[k] == c.queue[k]; }
    }
  }

  lemma GrownQueueOwes(c: Child, c': Child, id: nat, rule: Rule)
    requires c.queue <= c'.queue && c'.settling == c.settling && !InProgress(c, id, rule) && Owes(c, id, rule)
    ensures Owes(c', id, rule)
  {
    if exists k :: 0 <= k < |c.queue| && IsOf(c.queue[k], id, rule) {
      var k :| 0 <= k < |c.queue| && IsOf(c.queue[k], id, rule);
      assert c'.queue[k] == c.queue[k];
    }
  }

  lemma FrameOwes(c: Child, body: Option<seq<Msgpack.Value>>, fired: bool, cfg: Cfg, id: nat, rule: Rule)
    requires Valid(c) && Owes(c, id, rule)
    ensures Owes(S.Step(c, Frame(body, fired), cfg).0, id, rule)
  {
    var c' := S.Step(c, Frame(body, fired), cfg).0;
    if !InProgress(c, id, rule) && c'.settling == c.settling {
      GrownQueueOwes(c, c', id, rule);
    } else if |c'.queue| > |c.queue| {
      assert c'.queue[|c.queue|].job.taskId in c.inflight;
      if c'.queue[|c.queue|].job.taskId == id {
        assert InProgress(c, id, rule) ==> IsOf(c'.queue[|c.queue|], id, rule);
      }
    }
  }

  lemma HandOwes(c: Child, e: S.Event, cfg: Cfg, id: nat, rule: Rule)
    requires Valid(c) && Owes(c, id, rule) && ConcernsTheHand(e)
    ensures Owes(S.Step(c, e, cfg).0, id, rule)
  {
    var c' := S.Step(c, e, cfg).0;
    if !InProgress(c, id, rule) {
      GrownQueueOwes(c, c', id, rule);
    } else if |c'.queue| > |c.queue| {
      assert IsOf(c'.queue[|c.queue|], id, rule) || id in c.inflight;
    }
  }

  lemma EndingOwes(c: Child, e: S.Event, cfg: Cfg, id: nat, rule: Rule)
    requires Valid(c) && Owes(c, id, rule) && (e.Leave? || e.Flushed? || e.Deadline? || e.ReapOne? || e.Reaped?)
    ensures Owes(S.Step(c, e, cfg).0, id, rule)
  {
    var c' := S.Step(c, e, cfg).0;
    if !InProgress(c, id, rule) && c'.settling == c.settling {
      GrownQueueOwes(c, c', id, rule);
    }
  }

  /** Nothing but beginning to settle a job ends what is owed for it. */
  lemma StepOwes(c: Child, e: S.Event, cfg: Cfg, id: nat, rule: Rule)
    requires Valid(c) && Owes(c, id, rule) && !BeginsSettling(c, e, id, rule)
    ensures Owes(S.Step(c, e, cfg).0, id, rule)
  {
    if e.Progress? { SettleOwes(c, cfg, id, rule); }
    else if e.Frame? { FrameOwes(c, e.body, e.fired, cfg, id, rule); }
    else if ConcernsTheHand(e) { HandOwes(c, e, cfg, id, rule); }
    else { EndingOwes(c, e, cfg, id, rule); }
  }

  lemma OwesStays(b: Batch, h: Happening, r: Registry, i: nat, id: nat, rule: Rule)
    requires Inv(b) && i < |b.children| && Owes(b.children[i], id, rule)
    requires !(h.On? && h.i == i && BeginsSettling(b.children[i], h.event, id, rule))
    ensures var b' := B.Step(b, h, r); i < |b'.children| && Owes(b'.children[i], id, rule)
  {
    var e := WhatItDoes(b, h, r, i);
    if e.Some? { StepOwes(b.children[i], e.value, r.child, id, rule); }
  }

  lemma OwedForStays(s: Capped, h: Happening, r: Registry, key: string, rule: Rule)
    requires Inv(s.batch) && OwedFor(s, key, rule)
    requires Returning(s.batch, h, rule) ==> rule.slotKey(s.batch.children[h.i].settling.item.job.taskId) != key
    ensures OwedFor(s.(batch := B.Step(s.batch, h, r)), key, rule)
  {
    var i, id :| 0 <= i < |s.batch.children| && rule.slotKey(id) == key && Owes(s.batch.children[i], id, rule);
    OwesStays(s.batch, h, r, i, id, rule);
  }

  lemma AskerOwes(b: Batch, h: Happening, r: Registry, rule: Rule)
    requires Asking(b, h, r, rule)
    ensures var b' := B.Step(b, h, r);
            h.i < |b'.children| && Owes(b'.children[h.i], b.children[h.i].hand.value.job.taskId, rule)
  {
  }

  lemma KeyStaysOwed(s: Capped, h: Happening, r: Registry, key: string, rule: Rule)
    requires CapInv(s, rule) && NoneLeft(s, rule) && key in Step(s, h, r, rule).held
    ensures OwedFor(Step(s, h, r, rule), key, rule)
  {
    if Asking(s.batch, h, r, rule) {
      AskedKeyStaysOwed(s, h, r, key, rule);
    } else {
      OwedForStays(s, h, r, key, rule);
    }
  }

  lemma AskedKeyStaysOwed(s: Capped, h: Happening, r: Registry, key: string, rule: Rule)
    requires CapInv(s, rule) && NoneLeft(s, rule) && Asking(s.batch, h, r, rule) && key in Step(s, h, r, rule).held
    ensures OwedFor(Step(s, h, r, rule), key, rule)
  {
    var x := s.batch.children[h.i].hand.value.job.taskId;
    if |K.Live(s.held, Seconds(s.batch))| < rule.cap {
      if key == rule.slotKey(x) { AskerOwes(s.batch, h, r, rule); } else { OwedForStays(s, h, r, key, rule); }
    }
  }

  lemma StepLeavesNone(s: Capped, h: Happening, r: Registry, rule: Rule)
    requires CapInv(s, rule) && NoneLeft(s, rule)
    ensures NoneLeft(Step(s, h, r, rule), rule)
  {
    forall key | key in Step(s, h, r, rule).held ensures OwedFor(Step(s, h, r, rule), key, rule) {
      KeyStaysOwed(s, h, r, key, rule);
    }
  }

  lemma {:induction false} NoneLeftAlways(jobs: seq<NewJob>, now0: nat, events: seq<Happening>, r: Registry, rule: Rule)
    requires Distinct(rule)
    ensures NoneLeft(Run(jobs, now0, events, r, rule), rule)
    decreases |events|
  {
    if events != [] {
      NoneLeftAlways(jobs, now0, events[..|events| - 1], r, rule);
      CapInvAlways(jobs, now0, events[..|events| - 1], r, rule);
      StepLeavesNone(Run(jobs, now0, events[..|events| - 1], r, rule), events[|events| - 1], r, rule);
    }
  }

  /** Every way out gives the slot back: one is held only for a job of the task that some child's
      supervisor still has and has not begun to settle, so once there is none the task has all its
      slots again. */
  lemma NoSlotIsLeftBehind(jobs: seq<NewJob>, now0: nat, events: seq<Happening>, r: Registry, rule: Rule, key: string)
    requires Distinct(rule) && key in Run(jobs, now0, events, r, rule).held
    ensures OwedFor(Run(jobs, now0, events, r, rule), key, rule)
  {
    NoneLeftAlways(jobs, now0, events, r, rule);
  }
}
