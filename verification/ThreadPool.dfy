/** The child's thread pool. A sync layer blocks its thread while the layers inside it run, so one
    task may hold several; sized for that the pool never makes a task wait, sized to the slots
    alone it can lock up. */
module ThreadPool {
  /** How many layers the task has entered, the handler being the last, and whether its handler is
      sync. */
  datatype Task = Task(depth: nat, sync: bool)

  /** The middlewares from the outermost in, true for a sync one; the slots; and the pool's size. */
  datatype Cfg = Cfg(layers: seq<bool>, slots: nat, pool: nat)

  datatype Event =
    | Start(sync: bool)
    | Enter(i: nat)          // the next layer in, or the handler; a sync one needs a thread
    | Leave(i: nat)          // the innermost one entered is done, and its thread comes free
    | Finish(i: nat)

  function Blocking(layers: seq<bool>): nat {
    if layers == [] then 0 else Blocking(layers[..|layers| - 1]) + if layers[|layers| - 1] then 1 else 0
  }

  /** What the child sizes its pool to. */
  function PoolSize(layers: seq<bool>, slots: nat): nat {
    slots * (1 + Blocking(layers))
  }

  /** The threads a task holds: one for each sync layer it is inside. */
  function Holds(t: Task, layers: seq<bool>): nat {
    if t.depth <= |layers| then Blocking(layers[..t.depth]) else Blocking(layers) + if t.sync then 1 else 0
  }

  function Used(tasks: seq<Task>, layers: seq<bool>): nat {
    if tasks == [] then 0 else Used(tasks[..|tasks| - 1], layers) + Holds(tasks[|tasks| - 1], layers)
  }

  /** Whether there is a layer further in, and whether entering it takes a thread. */
  predicate Inward(t: Task, layers: seq<bool>) { t.depth <= |layers| }

  predicate Asks(t: Task, layers: seq<bool>) {
    Inward(t, layers) && if t.depth < |layers| then layers[t.depth] else t.sync
  }

  predicate MayEnter(tasks: seq<Task>, i: nat, cfg: Cfg) {
    i < |tasks| && Inward(tasks[i], cfg.layers) && (Asks(tasks[i], cfg.layers) ==> Used(tasks, cfg.layers) < cfg.pool)
  }

  function Without<T>(s: seq<T>, i: nat): seq<T>
    requires i < |s|
  {
    s[..i] + s[i + 1..]
  }

  function Step(tasks: seq<Task>, e: Event, cfg: Cfg): seq<Task> {
    match e
    case Start(sync) => if |tasks| < cfg.slots then tasks + [Task(0, sync)] else tasks
    case Enter(i) => if MayEnter(tasks, i, cfg) then tasks[i := tasks[i].(depth := tasks[i].depth + 1)] else tasks
    case Leave(i) =>
      if i < |tasks| && tasks[i].depth > 0 then tasks[i := tasks[i].(depth := tasks[i].depth - 1)] else tasks
    case Finish(i) => if i < |tasks| && tasks[i].depth == 0 then Without(tasks, i) else tasks
  }

  function Run(events: seq<Event>, cfg: Cfg): seq<Task>
    decreases |events|
  {
    if events == [] then [] else Step(Run(events[..|events| - 1], cfg), events[|events| - 1], cfg)
  }

  ghost predicate Valid(tasks: seq<Task>, cfg: Cfg) {
    |tasks| <= cfg.slots && forall i :: 0 <= i < |tasks| ==> tasks[i].depth <= |cfg.layers| + 1
  }

  lemma {:induction false} ValidAlways(events: seq<Event>, cfg: Cfg)
    ensures Valid(Run(events, cfg), cfg)
    decreases |events|
  {
    if events != [] {
      ValidAlways(events[..|events| - 1], cfg);
    }
  }

  // -------------------------------------------------------------- never short

  lemma {:induction false} BlockingSoFar(layers: seq<bool>, d: nat)
    requires d <= |layers|
    ensures Blocking(layers[..d]) <= Blocking(layers)
    ensures d < |layers| && layers[d] ==> Blocking(layers[..d]) < Blocking(layers)
    decreases |layers|
  {
    if d == |layers| {
      assert layers[..d] == layers;
    } else {
      BlockingSoFar(layers[..|layers| - 1], d);
      assert layers[..|layers| - 1][..d] == layers[..d];
    }
  }

  lemma HoldsAtMost(t: Task, layers: seq<bool>)
    ensures Holds(t, layers) <= 1 + Blocking(layers)
    ensures Asks(t, layers) ==> Holds(t, layers) <= Blocking(layers)
  {
    if t.depth <= |layers| {
      BlockingSoFar(layers, t.depth);
      if t.depth == |layers| { assert layers[..t.depth] == layers; }
    }
  }

  lemma OneMoreShare(n: nat, each: nat)
    ensures (n + 1) * each == n * each + each
  {
  }

  lemma {:induction false} UsedAtMost(tasks: seq<Task>, layers: seq<bool>)
    ensures Used(tasks, layers) <= |tasks| * (1 + Blocking(layers))
    decreases |tasks|
  {
    if tasks != [] {
      UsedAtMost(tasks[..|tasks| - 1], layers);
      HoldsAtMost(tasks[|tasks| - 1], layers);
      OneMoreShare(|tasks| - 1, 1 + Blocking(layers));
    }
  }

  /** A task that asks is itself one thread short of the most it may hold. */
  lemma {:induction false} UsedWhileAsking(tasks: seq<Task>, i: nat, layers: seq<bool>)
    requires i < |tasks| && Asks(tasks[i], layers)
    ensures Used(tasks, layers) < |tasks| * (1 + Blocking(layers))
    decreases |tasks|
  {
    var n := |tasks| - 1;
    HoldsAtMost(tasks[n], layers);
    OneMoreShare(n, 1 + Blocking(layers));
    if i < n {
      UsedWhileAsking(tasks[..n], i, layers);
    } else {
      UsedAtMost(tasks[..n], layers);
    }
  }

  lemma FewerShares(n: nat, slots: nat, each: nat)
    requires n <= slots
    ensures n * each <= slots * each
  {
    assert (slots - n) * each >= 0;
  }

  /** For any middlewares in any order, sync and async, and any handlers: in a pool of the size the
      child makes it, a layer or handler that asks for a thread finds one, and so no task ever waits
      for another. */
  lemma AnAskAlwaysFinds(events: seq<Event>, cfg: Cfg, i: nat)
    requires cfg.pool >= PoolSize(cfg.layers, cfg.slots)
    requires i < |Run(events, cfg)| && Inward(Run(events, cfg)[i], cfg.layers)
    ensures MayEnter(Run(events, cfg), i, cfg)
  {
    var tasks := Run(events, cfg);
    ValidAlways(events, cfg);
    if Asks(tasks[i], cfg.layers) {
      UsedWhileAsking(tasks, i, cfg.layers);
      FewerShares(|tasks|, cfg.slots, 1 + Blocking(cfg.layers));
    }
  }

  // --------------------------------------------------- and no larger than it must

  lemma RunOneMore(events: seq<Event>, e: Event, cfg: Cfg)
    ensures Run(events + [e], cfg) == Step(Run(events, cfg), e, cfg)
  {
    assert (events + [e])[..|events|] == events;
  }

  /** Any tasks that fit the slots and the pool can come about. */
  lemma {:induction false} AnythingThatFitsHappens(tasks: seq<Task>, cfg: Cfg) returns (events: seq<Event>)
    requires Valid(tasks, cfg) && Used(tasks, cfg.layers) <= cfg.pool
    ensures Run(events, cfg) == tasks
    decreases |tasks|, if tasks == [] then 0 else tasks[|tasks| - 1].depth
  {
    if tasks == [] {
      return [];
    }
    var n := |tasks| - 1;
    var last := tasks[n];
    if last.depth == 0 {
      var before := AnythingThatFitsHappens(tasks[..n], cfg);
      RunOneMore(before, Start(last.sync), cfg);
      assert tasks == tasks[..n] + [last];
      events := before + [Start(last.sync)];
    } else {
      var earlier := tasks[n := last.(depth := last.depth - 1)];
      EntersLast(tasks, earlier, cfg);
      var before := AnythingThatFitsHappens(earlier, cfg);
      RunOneMore(before, Enter(n), cfg);
      events := before + [Enter(n)];
    }
  }

  /** The last task one layer out: they fit as well, and it may enter. */
  lemma EntersLast(tasks: seq<Task>, earlier: seq<Task>, cfg: Cfg)
    requires Valid(tasks, cfg) && Used(tasks, cfg.layers) <= cfg.pool && tasks != [] && tasks[|tasks| - 1].depth > 0
    requires var n := |tasks| - 1; earlier == tasks[n := tasks[n].(depth := tasks[n].depth - 1)]
    ensures Valid(earlier, cfg) && Used(earlier, cfg.layers) <= cfg.pool
            && Step(earlier, Enter(|tasks| - 1), cfg) == tasks
  {
    var n := |tasks| - 1;
    assert tasks[n].depth <= |cfg.layers| + 1;
    UsedBefore(tasks, earlier, cfg.layers);
    assert MayEnter(earlier, n, cfg);
    assert earlier[n := tasks[n]] == tasks;
  }

  lemma UsedBefore(tasks: seq<Task>, earlier: seq<Task>, layers: seq<bool>)
    requires tasks != [] && 0 < tasks[|tasks| - 1].depth <= |layers| + 1
    requires var n := |tasks| - 1; earlier == tasks[n := tasks[n].(depth := tasks[n].depth - 1)]
    ensures var n := |tasks| - 1;
            Used(tasks, layers) == Used(earlier, layers) + if Asks(earlier[n], layers) then 1 else 0
  {
    var n := |tasks| - 1;
    EnteringTakes(earlier[n], layers);
    assert earlier[..n] == tasks[..n];
  }

  lemma EnteringTakes(t: Task, layers: seq<bool>)
    requires Inward(t, layers)
    ensures Holds(t.(depth := t.depth + 1), layers) == Holds(t, layers) + if Asks(t, layers) then 1 else 0
  {
    if t.depth < |layers| {
      assert layers[..t.depth + 1][..t.depth] == layers[..t.depth];
    } else {
      assert layers[..t.depth] == layers;
    }
  }

  /** There is a depth at which a task with a sync handler holds any number of threads short of its
      most, and asks for the next. */
  lemma {:induction false} AskingWith(layers: seq<bool>, r: nat) returns (d: nat)
    requires r <= Blocking(layers)
    ensures d <= |layers| && Holds(Task(d, true), layers) == r && Asks(Task(d, true), layers)
    decreases |layers|
  {
    if r == Blocking(layers) {
      d := |layers|;
      assert layers[..d] == layers;
    } else {
      var n := |layers| - 1;
      if layers[n] && r == Blocking(layers[..n]) {
        d := n;
      } else {
        d := AskingWith(layers[..n], r);
        assert layers[..n][..d] == layers[..d];
      }
    }
  }

  /** Some tasks hold any number of threads short of the full pool's, while one of them asks. */
  lemma {:induction false} AskingWhenUsed(used: nat, slots: nat, layers: seq<bool>) returns (tasks: seq<Task>)
    requires used < PoolSize(layers, slots)
    ensures 0 < |tasks| <= slots && Used(tasks, layers) == used && Asks(tasks[0], layers)
    ensures forall i :: 0 <= i < |tasks| ==> tasks[i].depth <= |layers| + 1
    decreases slots
  {
    var most := 1 + Blocking(layers);
    if used < most {
      var d := AskingWith(layers, used);
      tasks := [Task(d, true)];
    } else {
      OneMoreShare(slots - 1, most);
      var before := AskingWhenUsed(used - most, slots - 1, layers);
      tasks := before + [Task(|layers| + 1, true)];
      assert tasks[..|before|] == before;
    }
  }

  ghost predicate NeverShort(cfg: Cfg) {
    forall events, i :: 0 <= i < |Run(events, cfg)| && Inward(Run(events, cfg)[i], cfg.layers) ==>
      MayEnter(Run(events, cfg), i, cfg)
  }

  /** The child's size is the least that will do: with one thread fewer some task has to wait. */
  lemma ThePoolIsJustLargeEnough(cfg: Cfg)
    ensures NeverShort(cfg) <==> cfg.pool >= PoolSize(cfg.layers, cfg.slots)
  {
    if cfg.pool >= PoolSize(cfg.layers, cfg.slots) {
      forall events, i | 0 <= i < |Run(events, cfg)| && Inward(Run(events, cfg)[i], cfg.layers)
        ensures MayEnter(Run(events, cfg), i, cfg)
      {
        AnAskAlwaysFinds(events, cfg, i);
      }
    } else {
      var tasks := AskingWhenUsed(cfg.pool, cfg.slots, cfg.layers);
      var events := AnythingThatFitsHappens(tasks, cfg);
      assert !MayEnter(Run(events, cfg), 0, cfg) && Inward(Run(events, cfg)[0], cfg.layers);
    }
  }

  // ------------------------------------------------- a pool the size of the slots

  /** So many tasks, each inside its outermost layer. */
  function Waiting(n: nat): seq<Task> {
    seq(n, _ => Task(1, true))
  }

  lemma {:induction false} WaitingUsesOneEach(n: nat, layers: seq<bool>)
    requires layers != [] && layers[0]
    ensures Used(Waiting(n), layers) == n
  {
    if n > 0 {
      WaitingUsesOneEach(n - 1, layers);
      assert Waiting(n)[..n - 1] == Waiting(n - 1);
      assert layers[..1] == [layers[0]] && Blocking([layers[0]]) == 1;
    }
  }

  /** A pool the size of the slots locks up: behind two sync layers, or one and a sync handler, every
      slot takes a thread for its outermost layer and then there is none for any of them to go on. */
  lemma APoolOfSlotsLocksUp(cfg: Cfg) returns (events: seq<Event>)
    requires cfg.pool == cfg.slots && cfg.layers != [] && cfg.layers[0]
    requires |cfg.layers| > 1 ==> cfg.layers[1]
    ensures |Run(events, cfg)| == cfg.slots
    ensures forall i :: 0 <= i < cfg.slots ==>
            Inward(Run(events, cfg)[i], cfg.layers) && !MayEnter(Run(events, cfg), i, cfg)
  {
    WaitingUsesOneEach(cfg.slots, cfg.layers);
    events := AnythingThatFitsHappens(Waiting(cfg.slots), cfg);
  }
}
