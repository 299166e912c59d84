/** The memory ceiling: what a task is learned to cost, how many tasks that lets a child hold,
    when it is retired, and how far over the ceiling it can ever get. */
module Ceiling {
  import opened Results

  /** Bytes a task is expected to cost, and whether any task has finished to show it. */
  datatype Growth = Growth(bytes: nat, measured: bool)

  const COLD_START_SLOTS := 4
  const MAX_U64 := 0xFFFF_FFFF_FFFF_FFFF

  function Min(a: nat, b: nat): nat { if a <= b then a else b }

  function Max(a: nat, b: nat): nat { if a >= b then a else b }

  function Less(a: nat, b: nat): nat { if a >= b then a - b else 0 }

  /** Bytes per task from one reading. No baseline, or no task yet, is no answer. */
  function PerTaskGrowth(rss: nat, baseline: nat, tasksDone: nat, inflight: nat): Option<nat> {
    if tasksDone + inflight == 0 || baseline == 0 then None else Some(Less(rss, baseline) / (tasksDone + inflight))
  }

  function ProjectedRss(rss: nat, growth: Growth, tasksDone: nat): nat {
    if tasksDone == 0 then rss else Min(rss + growth.bytes, MAX_U64)
  }

  /** How many tasks a child may hold; none for no bound. */
  function SlotBudget(rss: nat, growth: Growth, maxRss: nat): Option<nat> {
    if maxRss == 0 then None
    else if !growth.measured then Some(COLD_START_SLOTS)
    else if growth.bytes == 0 then None
    else Some(Less(maxRss, rss) / growth.bytes)
  }

  /** The limits a child may be retired for; zero is no limit. `slots` and `perTask`, what a task
      adds at most, are the world's. */
  datatype Limits = Limits(maxTasks: nat, maxLifetime: nat, maxRss: nat, baseline: nat, slots: nat, perTask: nat)

  /** The fraction of the nearest limit used up. */
  function Consumed(rss: nat, growth: Growth, tasksDone: nat, age: nat, lim: Limits): real {
    var tasks := if lim.maxTasks > 0 then tasksDone as real / lim.maxTasks as real else 0.0;
    var lifetime := if lim.maxLifetime > 0 then age as real / lim.maxLifetime as real else 0.0;
    var memory := if lim.maxRss > 0 then ProjectedRss(rss, growth, tasksDone) as real / lim.maxRss as real else 0.0;
    var worst := if lifetime > tasks then lifetime else tasks;
    if memory > worst then memory else worst
  }

  predicate Fires(rss: nat, growth: Growth, tasksDone: nat, age: nat, lim: Limits) {
    Consumed(rss, growth, tasksDone, age, lim) >= 1.0
  }

  lemma RatioReachesOne(a: nat, b: nat)
    requires b > 0
    ensures a as real / b as real >= 1.0 <==> a >= b
  {
    var x, y := a as real, b as real;
    var q := x / y;
    assert q * y == x;
    if q >= 1.0 {
      assert (q - 1.0) * y >= 0.0;
    } else {
      assert (1.0 - q) * y > 0.0;
    }
  }

  /** Taking the nearest of the three limits retires a child exactly when one of them is reached. */
  lemma FiresAtALimit(rss: nat, growth: Growth, tasksDone: nat, age: nat, lim: Limits)
    ensures Fires(rss, growth, tasksDone, age, lim) <==>
              || (lim.maxTasks > 0 && tasksDone >= lim.maxTasks)
              || (lim.maxLifetime > 0 && age >= lim.maxLifetime)
              || (lim.maxRss > 0 && ProjectedRss(rss, growth, tasksDone) >= lim.maxRss)
  {
    if lim.maxTasks > 0 { RatioReachesOne(tasksDone, lim.maxTasks); }
    if lim.maxLifetime > 0 { RatioReachesOne(age, lim.maxLifetime); }
    if lim.maxRss > 0 { RatioReachesOne(ProjectedRss(rss, growth, tasksDone), lim.maxRss); }
  }

  // ---------------------------------------------------------------- the child

  /** A task in flight: what it holds, and whether it is over though its answer is unread. */
  datatype Task = Task(bytes: nat, over: bool)

  /** `rest` is what the interpreter and the answered tasks hold. `growth` and `samples` are shared
      with the other children. */
  datatype Host = Host(
    rest: nat, tasks: seq<Task>, free: nat, tasksDone: nat, growth: nat, samples: nat,
    budget: Option<nat>, serving: bool)

  datatype Event =
    | Change(i: nat, bytes: nat)              // a running task's memory moves
    | Over(i: nat)
    | Answer(i: nat)
    | Release(bytes: nat)                     // finished work's memory is given back
    | Learn(bytes: nat, samples: nat)         // another child's reading
    | Ready(age: nat, jobs: nat)              // so many jobs are there to be had
    | Tick(age: nat, jobs: nat)

  function Bytes(tasks: seq<Task>): nat {
    if tasks == [] then 0 else Bytes(tasks[..|tasks| - 1]) + tasks[|tasks| - 1].bytes
  }

  function Rss(h: Host): nat { h.rest + Bytes(h.tasks) }

  function Estimate(h: Host): Growth { Growth(h.growth, h.samples > 0) }

  /** A reading taken: learned from, and budgeted by. */
  function Checked(h: Host, lim: Limits): Host {
    var learned :=
      match PerTaskGrowth(Rss(h), lim.baseline, h.tasksDone, |h.tasks|)
      case Some(bytes) => h.(growth := Max(h.growth, bytes), samples := Max(h.samples, h.tasksDone))
      case None => h;
    learned.(budget := SlotBudget(Rss(h), Estimate(learned), lim.maxRss))
  }

  predicate MayTakeOne(h: Host) {
    h.free > 0 && (h.budget.None? || |h.tasks| < h.budget.value)
  }

  function Filled(h: Host, jobs: nat): Host
    decreases jobs
  {
    if jobs == 0 || !MayTakeOne(h) then h
    else Filled(h.(tasks := h.tasks + [Task(0, false)], free := h.free - 1), jobs - 1)
  }

  function Without<T>(s: seq<T>, i: nat): seq<T>
    requires i < |s|
  {
    s[..i] + s[i + 1..]
  }

  /** A Ready comes only for a slot that is neither offered nor taken. The check is made before the
      fill; on the timer, retiring comes after it. */
  function Step(h: Host, e: Event, lim: Limits): Host {
    match e
    case Change(i, bytes) =>
      if i < |h.tasks| && !h.tasks[i].over && bytes <= lim.perTask
      then h.(tasks := h.tasks[i := Task(bytes, false)])
      else h
    case Over(i) => if i < |h.tasks| then h.(tasks := h.tasks[i := h.tasks[i].(over := true)]) else h
    case Answer(i) =>
      if i < |h.tasks| && h.tasks[i].over
      then h.(tasks := Without(h.tasks, i), rest := h.rest + h.tasks[i].bytes,
              tasksDone := h.tasksDone + if h.serving then 1 else 0)
      else h
    case Release(bytes) => h.(rest := Less(h.rest, bytes))
    case Learn(bytes, samples) =>
      if bytes <= lim.perTask then h.(growth := Max(h.growth, bytes), samples := Max(h.samples, samples)) else h
    case Ready(age, jobs) =>
      if !h.serving || h.free + |h.tasks| >= lim.slots then h
      else
        var fired := Fires(Rss(h), Estimate(h), h.tasksDone, age, lim);
        var checked := Checked(h, lim);
        if fired then checked.(serving := false) else Filled(checked.(free := h.free + 1), jobs)
    case Tick(age, jobs) =>
      if !h.serving then h
      else
        var fired := Fires(Rss(h), Estimate(h), h.tasksDone, age, lim);
        var checked := Checked(h, lim);
        var filled := if h.free > 0 && h.tasks != [] then Filled(checked, jobs) else checked;
        filled.(serving := !fired)
  }

  function Born(lim: Limits, growth: Growth): Host {
    Host(lim.baseline, [], 0, 0, growth.bytes, if growth.measured then 1 else 0, None, true)
  }

  function Run(events: seq<Event>, lim: Limits, growth: Growth): Host
    decreases |events|
  {
    if events == []
    then Born(lim, growth)
    else Step(Run(events[..|events| - 1], lim, growth), events[|events| - 1], lim)
  }

  // -------------------------------------------------------- what is still owed

  /** What the running tasks may still add, each up to its most. */
  function Owed(tasks: seq<Task>, perTask: nat): nat {
    if tasks == [] then 0
    else
      var last := tasks[|tasks| - 1];
      Owed(tasks[..|tasks| - 1], perTask) + if last.over then 0 else Less(perTask, last.bytes)
  }

  function OwedBy(t: Task, perTask: nat): nat { if t.over then 0 else Less(perTask, t.bytes) }

  /** How high the child could get with the slots it has offered filled, and every task at its most. */
  function Potential(h: Host, lim: Limits): nat {
    Rss(h) + Owed(h.tasks, lim.perTask) + h.free * lim.perTask
  }

  lemma {:induction false} TaskChanged(tasks: seq<Task>, i: nat, t: Task, perTask: nat)
    requires i < |tasks|
    ensures Bytes(tasks[i := t]) + tasks[i].bytes == Bytes(tasks) + t.bytes
    ensures Owed(tasks[i := t], perTask) + OwedBy(tasks[i], perTask) == Owed(tasks, perTask) + OwedBy(t, perTask)
    decreases |tasks|
  {
    var n := |tasks| - 1;
    if i < n {
      TaskChanged(tasks[..n], i, t, perTask);
      assert tasks[i := t][..n] == tasks[..n][i := t];
    } else {
      assert tasks[i := t][..n] == tasks[..n];
    }
  }

  lemma {:induction false} TaskGone(tasks: seq<Task>, i: nat, perTask: nat)
    requires i < |tasks|
    ensures Bytes(Without(tasks, i)) + tasks[i].bytes == Bytes(tasks)
    ensures Owed(Without(tasks, i), perTask) + OwedBy(tasks[i], perTask) == Owed(tasks, perTask)
    decreases |tasks|
  {
    var n := |tasks| - 1;
    if i < n {
      TaskGone(tasks[..n], i, perTask);
      assert Without(tasks, i)[..n - 1] == Without(tasks[..n], i);
    } else {
      assert Without(tasks, i) == tasks[..n];
    }
  }

  lemma TaskAdded(tasks: seq<Task>, perTask: nat)
    ensures Bytes(tasks + [Task(0, false)]) == Bytes(tasks)
    ensures Owed(tasks + [Task(0, false)], perTask) == Owed(tasks, perTask) + perTask
  {
    assert (tasks + [Task(0, false)])[..|tasks|] == tasks;
  }

  lemma {:induction false} OwedAtMost(tasks: seq<Task>, perTask: nat)
    requires forall i :: 0 <= i < |tasks| ==> tasks[i].bytes <= perTask
    ensures Owed(tasks, perTask) <= |tasks| * perTask
    ensures Bytes(tasks) <= |tasks| * perTask
    decreases |tasks|
  {
    if tasks != [] {
      OwedAtMost(tasks[..|tasks| - 1], perTask);
      assert |tasks| * perTask == (|tasks| - 1) * perTask + perTask;
    }
  }

  // ---------------------------------------------------------- main invariants

  /** Never more than the ceiling and a full set of slots above it, whatever each task still adds. */
  ghost predicate Bounded(h: Host, lim: Limits) {
    && Potential(h, lim) < lim.maxRss + lim.slots * lim.perTask
    && h.free + |h.tasks| <= lim.slots
    && (forall i :: 0 <= i < |h.tasks| ==> h.tasks[i].bytes <= lim.perTask)
  }

  /** What was learned of a task's cost never exceeds it, since all the growth is the tasks'. */
  ghost predicate Honest(h: Host, lim: Limits) {
    && h.growth <= lim.perTask
    && (h.serving ==> h.rest <= lim.baseline + h.tasksDone * lim.perTask)
    && (forall i :: 0 <= i < |h.tasks| ==> h.tasks[i].bytes <= lim.perTask)
  }

  lemma QuotientAtMost(a: nat, n: nat, k: nat)
    requires n > 0 && a <= n * k
    ensures a / n <= k
  {
  }

  lemma SharesAtMost(a: nat, b: nat, whole: nat, each: nat)
    requires a + b <= whole
    ensures a * each + b * each <= whole * each
  {
    assert (whole - (a + b)) * each >= 0;
  }

  lemma GrowthIsShared(grown: nat, a: nat, b: nat, each: nat)
    requires a + b > 0 && grown <= a * each + b * each
    ensures grown / (a + b) <= each
  {
    assert a * each + b * each == (a + b) * each;
    QuotientAtMost(grown, a + b, each);
  }

  lemma CheckKeepsHonest(h: Host, lim: Limits)
    requires Honest(h, lim) && h.serving
    ensures Honest(Checked(h, lim), lim)
  {
    if h.tasksDone + |h.tasks| > 0 && lim.baseline > 0 {
      OwedAtMost(h.tasks, lim.perTask);
      GrowthIsShared(Less(Rss(h), lim.baseline), h.tasksDone, |h.tasks|, lim.perTask);
    }
  }

  lemma OneMoreShare(n: nat, each: nat)
    ensures (n + 1) * each == n * each + each
  {
  }

  /** One share less on offer and one more owed come to the same. */
  lemma ShareMoves(h: Host, next: Host, lim: Limits)
    requires h.free > 0 && next.free == h.free - 1 && Rss(next) == Rss(h)
    requires Owed(next.tasks, lim.perTask) == Owed(h.tasks, lim.perTask) + lim.perTask
    ensures Potential(next, lim) == Potential(h, lim)
  {
    OneMoreShare(next.free, lim.perTask);
  }

  /** A slot filled: what was owed for the offer is owed for the task. */
  lemma FillingOneKeeps(h: Host, next: Host, lim: Limits)
    requires h.free > 0 && next == h.(tasks := h.tasks + [Task(0, false)], free := h.free - 1)
    ensures Potential(next, lim) == Potential(h, lim) && Rss(next) == Rss(h)
  {
    FilledOwes(h, next, lim.perTask);
    ShareMoves(h, next, lim);
  }

  lemma FilledOwes(h: Host, next: Host, perTask: nat)
    requires next.tasks == h.tasks + [Task(0, false)] && next.rest == h.rest
    ensures Owed(next.tasks, perTask) == Owed(h.tasks, perTask) + perTask && Rss(next) == Rss(h)
  {
    TaskAdded(h.tasks, perTask);
  }

  lemma {:induction false} FillKeeps(h: Host, jobs: nat, lim: Limits)
    requires Honest(h, lim)
    ensures var h' := Filled(h, jobs);
            && Honest(h', lim) && Potential(h', lim) == Potential(h, lim) && Rss(h') == Rss(h)
            && h'.free + |h'.tasks| == h.free + |h.tasks| && |h'.tasks| >= |h.tasks|
            && h' == h.(tasks := h'.tasks, free := h'.free)
    decreases jobs
  {
    if jobs > 0 && MayTakeOne(h) {
      var next := h.(tasks := h.tasks + [Task(0, false)], free := h.free - 1);
      FillingOneKeeps(h, next, lim);
      FillKeeps(next, jobs - 1, lim);
    }
  }

  /** A reading below the ceiling starts the account afresh: at most every slot at its most. */
  lemma PassingResets(h: Host, lim: Limits)
    requires Honest(h, lim) && Rss(h) < lim.maxRss && h.free + |h.tasks| <= lim.slots
    ensures Bounded(h, lim)
  {
    OwedAtMost(h.tasks, lim.perTask);
    SharesAtMost(h.free, |h.tasks|, lim.slots, lim.perTask);
  }

  /** The ceiling is set and fits the machine's words, and the child's imports alone stay below it. */
  predicate CeilingSet(lim: Limits) {
    lim.baseline < lim.maxRss <= MAX_U64
  }

  lemma NotFiredIsBelow(h: Host, age: nat, lim: Limits)
    requires CeilingSet(lim) && !Fires(Rss(h), Estimate(h), h.tasksDone, age, lim)
    ensures Rss(h) < lim.maxRss
  {
    FiresAtALimit(Rss(h), Estimate(h), h.tasksDone, age, lim);
  }

  lemma CheckMovesNothing(h: Host, lim: Limits)
    ensures var c := Checked(h, lim);
            && c.rest == h.rest && c.tasks == h.tasks && c.free == h.free && c.tasksDone == h.tasksDone
               && c.serving == h.serving
  {
  }

  lemma ReadyKeeps(h: Host, age: nat, jobs: nat, lim: Limits)
    requires CeilingSet(lim) && Bounded(h, lim) && Honest(h, lim)
    ensures var h' := Step(h, Ready(age, jobs), lim); Bounded(h', lim) && Honest(h', lim)
  {
    if h.serving && h.free + |h.tasks| < lim.slots {
      CheckKeepsHonest(h, lim);
      CheckMovesNothing(h, lim);
      if !Fires(Rss(h), Estimate(h), h.tasksDone, age, lim) {
        var checked := Checked(h, lim).(free := h.free + 1);
        NotFiredIsBelow(h, age, lim);
        PassingResets(checked, lim);
        FillKeeps(checked, jobs, lim);
      }
    }
  }

  lemma TickKeeps(h: Host, age: nat, jobs: nat, lim: Limits)
    requires CeilingSet(lim) && Bounded(h, lim) && Honest(h, lim)
    ensures var h' := Step(h, Tick(age, jobs), lim); Bounded(h', lim) && Honest(h', lim)
  {
    if h.serving {
      CheckKeepsHonest(h, lim);
      CheckMovesNothing(h, lim);
      FillKeeps(Checked(h, lim), jobs, lim);
    }
  }

  lemma AnswerKeeps(h: Host, i: nat, lim: Limits)
    requires Bounded(h, lim) && Honest(h, lim)
    ensures var h' := Step(h, Answer(i), lim); Bounded(h', lim) && Honest(h', lim)
  {
    if i < |h.tasks| && h.tasks[i].over {
      TaskGone(h.tasks, i, lim.perTask);
      OneMoreShare(h.tasksDone, lim.perTask);
    }
  }

  lemma ChangeKeeps(h: Host, i: nat, bytes: nat, lim: Limits)
    requires Bounded(h, lim) && Honest(h, lim)
    ensures var h' := Step(h, Change(i, bytes), lim); Bounded(h', lim) && Honest(h', lim)
  {
    if i < |h.tasks| { TaskChanged(h.tasks, i, Task(bytes, false), lim.perTask); }
  }

  lemma OverKeeps(h: Host, i: nat, lim: Limits)
    requires Bounded(h, lim) && Honest(h, lim)
    ensures var h' := Step(h, Over(i), lim); Bounded(h', lim) && Honest(h', lim)
  {
    if i < |h.tasks| { TaskChanged(h.tasks, i, h.tasks[i].(over := true), lim.perTask); }
  }

  lemma TasksKeep(h: Host, e: Event, lim: Limits)
    requires Bounded(h, lim) && Honest(h, lim) && !e.Ready? && !e.Tick?
    ensures var h' := Step(h, e, lim); Bounded(h', lim) && Honest(h', lim)
  {
    match e
    case Change(i, bytes) => ChangeKeeps(h, i, bytes, lim);
    case Over(i) => OverKeeps(h, i, lim);
    case Answer(i) => AnswerKeeps(h, i, lim);
    case _ =>
  }

  lemma {:induction false} BoundedAlways(events: seq<Event>, lim: Limits, growth: Growth)
    requires CeilingSet(lim) && growth.bytes <= lim.perTask
    ensures var h := Run(events, lim, growth); Bounded(h, lim) && Honest(h, lim)
    decreases |events|
  {
    if events == [] {
      PassingResets(Born(lim, growth), lim);
    } else {
      var h, e := Run(events[..|events| - 1], lim, growth), events[|events| - 1];
      BoundedAlways(events[..|events| - 1], lim, growth);
      match e
      case Ready(age, jobs) => ReadyKeeps(h, age, jobs, lim);
      case Tick(age, jobs) => TickKeeps(h, age, jobs, lim);
      case _ => TasksKeep(h, e, lim);
    }
  }

  // ------------------------------------------------------------- main results

  lemma RssIsWithinPotential(h: Host, lim: Limits)
    ensures Rss(h) <= Potential(h, lim)
  {
    SharesAtMost(0, 0, h.free, lim.perTask);
  }

  /** If each task adds at most so much in total and readings are exact, a child never reaches the
      ceiling plus that much for each of its slots, over its whole life and its drain; and what is
      learned of a task's cost never exceeds what a task can cost. */
  lemma NeverFarOverTheCeiling(events: seq<Event>, lim: Limits, growth: Growth)
    requires CeilingSet(lim) && growth.bytes <= lim.perTask
    ensures var h := Run(events, lim, growth);
            Rss(h) < lim.maxRss + lim.slots * lim.perTask && h.growth <= lim.perTask
  {
    BoundedAlways(events, lim, growth);
    RssIsWithinPotential(Run(events, lim, growth), lim);
  }

  // The bound is met: work that was measured to cost nothing, and then all grows at once.

  function Alike(n: nat, bytes: nat): seq<Task> { seq(n, _ => Task(bytes, false)) }

  function Busy(tasks: seq<Task>, lim: Limits): Host { Host(lim.baseline, tasks, 0, 0, 0, 1, None, true) }

  lemma {:induction false} BytesOfAlike(n: nat, bytes: nat)
    ensures Bytes(Alike(n, bytes)) == n * bytes
  {
    if n > 0 {
      BytesOfAlike(n - 1, bytes);
      assert Alike(n, bytes)[..n - 1] == Alike(n - 1, bytes);
      OneMoreShare(n - 1, bytes);
    }
  }

  lemma OneMoreDispatched(n: nat, lim: Limits)
    requires CeilingSet(lim) && lim.maxTasks == 0 && lim.maxLifetime == 0 && n < lim.slots
    ensures Step(Busy(Alike(n, 0), lim), Ready(0, 1), lim) == Busy(Alike(n + 1, 0), lim)
  {
    var h := Busy(Alike(n, 0), lim);
    BytesOfAlike(n, 0);
    FiresAtALimit(Rss(h), Estimate(h), 0, 0, lim);
    var checked := Checked(h, lim).(free := 1);
    assert checked == h.(free := 1);
    assert Filled(checked, 1) == Filled(checked.(tasks := checked.tasks + [Task(0, false)], free := 0), 0);
    assert Alike(n, 0) + [Task(0, false)] == Alike(n + 1, 0);
  }

  lemma RunOneMore(events: seq<Event>, e: Event, lim: Limits, growth: Growth)
    ensures Run(events + [e], lim, growth) == Step(Run(events, lim, growth), e, lim)
  {
    assert (events + [e])[..|events|] == events;
  }

  lemma {:induction false} AllDispatched(n: nat, lim: Limits) returns (events: seq<Event>)
    requires CeilingSet(lim) && lim.maxTasks == 0 && lim.maxLifetime == 0 && n <= lim.slots
    ensures Run(events, lim, Growth(0, true)) == Busy(Alike(n, 0), lim)
  {
    events := [];
    if n > 0 {
      events := AllDispatched(n - 1, lim);
      OneMoreDispatched(n - 1, lim);
      RunOneMore(events, Ready(0, 1), lim, Growth(0, true));
      events := events + [Ready(0, 1)];
    }
  }

  lemma {:induction false} SomeGrown(n: nat, m: nat, lim: Limits) returns (events: seq<Event>)
    requires CeilingSet(lim) && lim.maxTasks == 0 && lim.maxLifetime == 0 && m <= n <= lim.slots
    ensures Run(events, lim, Growth(0, true)) == Busy(Alike(m, lim.perTask) + Alike(n - m, 0), lim)
    decreases m
  {
    if m == 0 {
      events := AllDispatched(n, lim);
      assert Alike(0, lim.perTask) + Alike(n, 0) == Alike(n, 0);
    } else {
      events := SomeGrown(n, m - 1, lim);
      RunOneMore(events, Change(m - 1, lim.perTask), lim, Growth(0, true));
      assert (Alike(m - 1, lim.perTask) + Alike(n - m + 1, 0))[m - 1 := Task(lim.perTask, false)]
             == Alike(m, lim.perTask) + Alike(n - m, 0);
      events := events + [Change(m - 1, lim.perTask)];
    }
  }

  /** No smaller bound holds: whatever the slots and the cost of a task, a child that starts just
      below the ceiling can get to within a byte of it. */
  lemma TheBoundIsReached(lim: Limits) returns (events: seq<Event>)
    requires CeilingSet(lim) && lim.maxTasks == 0 && lim.maxLifetime == 0 && lim.baseline == lim.maxRss - 1
    ensures Rss(Run(events, lim, Growth(0, true))) == lim.maxRss + lim.slots * lim.perTask - 1
  {
    events := SomeGrown(lim.slots, lim.slots, lim);
    assert Alike(lim.slots, lim.perTask) + Alike(0, 0) == Alike(lim.slots, lim.perTask);
    BytesOfAlike(lim.slots, lim.perTask);
  }

  lemma BudgetFits(room: nat, each: nat, n: nat)
    requires each > 0 && n <= room / each
    ensures n * each <= room
  {
    assert (room / each - n) * each >= 0;
    assert room / each * each <= room;
  }

  /** When a Ready hands out work, every task the child then holds, finished or not, fits under the
      ceiling at its learned cost, on top of what the child already has. */
  lemma FillingCommitsWithinTheCeiling(h: Host, age: nat, jobs: nat, lim: Limits)
    requires CeilingSet(lim) && |Step(h, Ready(age, jobs), lim).tasks| > |h.tasks|
    ensures var h' := Step(h, Ready(age, jobs), lim);
            h'.samples > 0 ==> Rss(h) + |h'.tasks| * h'.growth <= lim.maxRss
  {
    var checked := Checked(h, lim).(free := h.free + 1);
    FilledOnlyAdds(checked, jobs);
    CheckMovesNothing(h, lim);
    NotFiredIsBelow(h, age, lim);
    var h' := Filled(checked, jobs);
    if h'.samples > 0 && h'.growth > 0 {
      BudgetFits(Less(lim.maxRss, Rss(h)), h'.growth, |h'.tasks|);
    }
  }

  lemma {:induction false} FilledOnlyAdds(h: Host, jobs: nat)
    ensures var h' := Filled(h, jobs);
            && h' == h.(tasks := h'.tasks, free := h'.free) && |h'.tasks| >= |h.tasks|
            && (|h'.tasks| > |h.tasks| ==> h.budget.None? || |h'.tasks| <= h.budget.value)
    decreases jobs
  {
    if jobs > 0 && MayTakeOne(h) {
      FilledOnlyAdds(h.(tasks := h.tasks + [Task(0, false)], free := h.free - 1), jobs - 1);
    }
  }

  /** Until a task has finished anywhere, a child under a ceiling is handed at most four at once. */
  lemma AColdStartHoldsFour(h: Host, age: nat, jobs: nat, lim: Limits)
    requires lim.maxRss > 0 && h.samples == 0 && h.tasksDone == 0
    ensures |Step(h, Ready(age, jobs), lim).tasks| <= Max(|h.tasks|, 4)
    ensures |Step(h, Tick(age, jobs), lim).tasks| <= Max(|h.tasks|, 4)
  {
    CheckMovesNothing(h, lim);
    FilledOnlyAdds(Checked(h, lim).(free := h.free + 1), jobs);
    FilledOnlyAdds(Checked(h, lim), jobs);
  }

  lemma NoRoomForOne(room: nat, each: nat)
    requires each > 0
    ensures room / each == 0 <==> room < each
  {
  }

  /** A budget of nothing is nothing only for a while: at the same reading the next check retires a
      child that has finished a task. One that has finished none is retired only at a limit. */
  lemma ShutOutIsRetired(rss: nat, growth: Growth, tasksDone: nat, age: nat, lim: Limits)
    requires lim.maxRss <= MAX_U64 && SlotBudget(rss, growth, lim.maxRss) == Some(0)
    ensures tasksDone > 0 ==> Fires(rss, growth, tasksDone, age, lim)
    ensures tasksDone == 0 ==>
              (Fires(rss, growth, tasksDone, age, lim) <==>
                rss >= lim.maxRss || (lim.maxLifetime > 0 && age >= lim.maxLifetime))
  {
    FiresAtALimit(rss, growth, tasksDone, age, lim);
    NoRoomForOne(Less(lim.maxRss, rss), growth.bytes);
  }

  /** So a served child that has finished a task, and was shut out at its last check, is retired by
      the next tick at that reading, whatever other children have taught since. */
  lemma NextTickRetiresIt(h: Host, lim: Limits, age: nat, jobs: nat, taught: nat)
    requires CeilingSet(lim) && h.serving && h.tasksDone > 0 && Checked(h, lim).budget == Some(0)
    ensures var later := Checked(h, lim).(growth := Max(Checked(h, lim).growth, taught));
            !Step(later, Tick(age, jobs), lim).serving
  {
    var checked := Checked(h, lim);
    var later := checked.(growth := Max(checked.growth, taught));
    CheckMovesNothing(h, lim);
    NoRoomForOne(Less(lim.maxRss, Rss(h)), checked.growth);
    FiresAtALimit(Rss(later), Estimate(later), later.tasksDone, age, lim);
  }

  /** A fresh child is not always given a first task: exactly when nothing is known of a task's
      cost, or the cost is nothing, or one task fits. Otherwise, below the ceiling and with no other
      limit near, it is neither used nor retired. */
  lemma FirstTaskIffItFits(h: Host, age: nat, jobs: nat, lim: Limits)
    requires CeilingSet(lim) && lim.maxTasks == 0 && lim.maxLifetime == 0 && jobs > 0 && lim.slots > 0
    requires h.serving && h.tasksDone == 0 && h.tasks == [] && h.free == 0 && Rss(h) < lim.maxRss
    ensures var h' := Step(h, Ready(age, jobs), lim);
            && h'.serving
            && (h'.tasks != [] <==> h.samples == 0 || h.growth == 0 || h.growth <= lim.maxRss - Rss(h))
  {
    FiresAtALimit(Rss(h), Estimate(h), 0, age, lim);
    var checked := Checked(h, lim).(free := h.free + 1);
    if h.growth > 0 { NoRoomForOne(lim.maxRss - Rss(h), h.growth); }
    FilledOnlyAdds(checked, jobs);
    if MayTakeOne(checked) {
      FilledOnlyAdds(checked.(tasks := [Task(0, false)], free := h.free), jobs - 1);
    }
  }
}
