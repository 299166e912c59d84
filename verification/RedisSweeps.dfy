/** The sweep over a Redis stream, page by page: which overdue entries it sees, and that every entry
    which is not settled can come to be handed out again. */
module RedisSweeps {
  import opened Results
  import opened Redis
  import opened RedisRuns
  import opened Sequences

  // ------------------------------------------------------- each entry in its place

  /** The stream has each job that was added to it once: all that were pushed and are not delayed. */
  ghost predicate StreamHasEach(w: World) {
    forall id: nat :: Times(w.stream, id) == One(id < w.nextJob && id !in w.delayed)
  }

  lemma {:induction false} PromotingKeepsStream(w: World, due: seq<nat>, id: nat)
    requires EachInOnePlace(w) && Times(w.stream, id) == One(id < w.nextJob && id !in w.delayed)
    ensures var w' := Promoted(w, due);
            Times(w'.stream, id) == One(id < w'.nextJob && id !in w'.delayed) && (id in w'.delayed ==> id in w.delayed)
    decreases |due|
  {
    if due != [] {
      var init, last := due[..|due| - 1], due[|due| - 1];
      PromotingKeepsStream(w, init, id);
      PromotingKeepsPlaces(w, init, id);
      assert Places(w, id) == One(id < w.nextJob);
      TimesOneMore(Promoted(w, init).stream, last, id);
    }
  }

  lemma PushingKeepsStream(w: World, delayMs: nat, cfg: Cfg, id: nat)
    requires EachInOnePlace(w) && Times(w.stream, id) == One(id < w.nextJob && id !in w.delayed)
    ensures var w' := Step(w, Push(delayMs), cfg); Times(w'.stream, id) == One(id < w'.nextJob && id !in w'.delayed)
  {
    assert Places(w, id) == One(id < w.nextJob);
    TimesOneMore(w.stream, w.nextJob, id);
  }

  /** Nothing else adds a job or touches the delayed set. */
  lemma OthersKeepStream(w: World, e: Event, cfg: Cfg)
    requires !e.Promote? && !e.Push?
    ensures var w' := Step(w, e, cfg); w'.stream == w.stream && w'.nextJob == w.nextJob && w'.delayed == w.delayed
  {
  }

  lemma StepKeepsStream(w: World, e: Event, cfg: Cfg)
    requires EachInOnePlace(w) && StreamHasEach(w)
    ensures StreamHasEach(Step(w, e, cfg))
  {
    forall id: nat
      ensures var w' := Step(w, e, cfg); Times(w'.stream, id) == One(id < w'.nextJob && id !in w'.delayed) {
      assert Times(w.stream, id) == One(id < w.nextJob && id !in w.delayed);
      if e.Promote? { PromotingKeepsStream(w, e.due, id); }
      else if e.Push? { PushingKeepsStream(w, e.delayMs, cfg, id); }
      else { OthersKeepStream(w, e, cfg); }
    }
  }

  /** There are as many supervisors as there were, and no timeout they go by is nothing. */
  ghost predicate Books(w: World, n: nat) {
    |w.sups| == n && forall s :: 0 <= s < n ==> w.sups[s].least > 0
  }

  lemma StepKeepsBooks(w: World, e: Event, cfg: Cfg, n: nat)
    requires Books(w, n)
    ensures Books(Step(w, e, cfg), n)
  {
    if e.Promote? { PromotingTouchesNoClaim(w, e.due); }
  }

  lemma {:induction false} InPlaceAlways(n: nat, events: seq<Event>, cfg: Cfg)
    ensures var w := Run(n, events, cfg); EachInOnePlace(w) && StreamHasEach(w) && Books(w, n)
    decreases |events|
  {
    PlacesAlways(n, events, cfg);
    if events != [] {
      var before := events[..|events| - 1];
      InPlaceAlways(n, before, cfg);
      StepKeepsStream(Run(n, before, cfg), events[|events| - 1], cfg);
      StepKeepsBooks(Run(n, before, cfg), events[|events| - 1], cfg, n);
    }
  }

  lemma {:induction false} TimesIsIn(ids: seq<nat>, id: nat)
    ensures Times(ids, id) > 0 <==> id in ids
  {
    if ids != [] {
      TimesIsIn(ids[1..], id);
      assert ids == [ids[0]] + ids[1..];
    }
  }

  lemma {:induction false} TimesOfBoth(a: seq<nat>, b: seq<nat>, id: nat)
    ensures Times(a + b, id) == Times(a, id) + Times(b, id)
    decreases |b|
  {
    if b == [] {
      assert a + b == a;
    } else {
      var n := |b| - 1;
      TimesOfBoth(a, b[..n], id);
      TimesOneMore(a + b[..n], b[n], id);
      TimesOneMore(b[..n], b[n], id);
      assert a + b == a + b[..n] + [b[n]] && b == b[..n] + [b[n]];
    }
  }

  // ------------------------------------------------------ what a page has room for

  lemma {:induction false} InListing(w: World, s: nat, cfg: Cfg, stream: seq<nat>, id: nat)
    requires s < |w.sups|
    ensures id in Listing(w, s, cfg, stream) <==> id in stream && Lists(w, s, cfg, id)
    decreases |stream|
  {
    if stream != [] {
      var n := |stream| - 1;
      InListing(w, s, cfg, stream[..n], id);
      assert stream == stream[..n] + [stream[n]];
    }
  }

  lemma {:induction false} ListingOfBoth(w: World, s: nat, cfg: Cfg, a: seq<nat>, b: seq<nat>)
    requires s < |w.sups|
    ensures Listing(w, s, cfg, a + b) == Listing(w, s, cfg, a) + Listing(w, s, cfg, b)
    decreases |b|
  {
    if b == [] {
      assert a + b == a;
    } else {
      var n := |b| - 1;
      ListingOfBoth(w, s, cfg, a, b[..n]);
      assert (a + b)[..|a + b| - 1] == a + b[..n];
    }
  }

  /** The listed entries before the k-th of the stream, it, and those after it, where it is not again. */
  lemma ListingAround(w: World, s: nat, cfg: Cfg, k: nat) returns (after: seq<nat>)
    requires s < |w.sups| && k < |w.stream| && Times(w.stream, w.stream[k]) == 1
    ensures var before, id := Listing(w, s, cfg, w.stream[..k]), w.stream[k];
            && Listing(w, s, cfg, w.stream) == before + (if Lists(w, s, cfg, id) then [id] else []) + after
            && id !in before && id !in after
  {
    var id, front, back := w.stream[k], w.stream[..k], w.stream[k + 1..];
    assert w.stream == front + [id] + back && [id][..0] == [];
    ListingOfBoth(w, s, cfg, front, [id]);
    ListingOfBoth(w, s, cfg, front + [id], back);
    TimesOfBoth(front, [id], id);
    TimesOfBoth(front + [id], back, id);
    TimesOneMore([], id, id);
    assert [] + [id] == [id];
    TimesIsIn(front, id);
    TimesIsIn(back, id);
    InListing(w, s, cfg, front, id);
    InListing(w, s, cfg, back, id);
    after := Listing(w, s, cfg, back);
  }

  /** A sweep is told of an entry if and only if the server lists it and fewer than a page's worth of
      earlier ones are listed with it, overdue or not: so as many entries inside longer leases of their
      own hide it for as long as they stay. */
  lemma OnThePageIff(n: nat, events: seq<Event>, cfg: Cfg, s: nat, k: nat)
    requires s < n && k < |Run(n, events, cfg).stream|
    ensures var w := Run(n, events, cfg);
            && |w.sups| == n
            && (w.stream[k] in Page(w, s, cfg)
                <==> Lists(w, s, cfg, w.stream[k]) && |Listing(w, s, cfg, w.stream[..k])| < PAGE)
  {
    var w := Run(n, events, cfg);
    InPlaceAlways(n, events, cfg);
    TimesIsIn(w.stream, w.stream[k]);
    assert Times(w.stream, w.stream[k]) == One(w.stream[k] < w.nextJob && w.stream[k] !in w.delayed);
    var after := ListingAround(w, s, cfg, k);
    PageCutsOff(Listing(w, s, cfg, w.stream[..k]), Lists(w, s, cfg, w.stream[k]), w.stream[k], after);
  }

  lemma PageCutsOff(before: seq<nat>, listed: bool, id: nat, after: seq<nat>)
    requires id !in before && id !in after
    ensures var all := before + (if listed then [id] else []) + after;
            id in all[..Min(PAGE, |all|)] <==> listed && |before| < PAGE
  {
    var all := before + (if listed then [id] else []) + after;
    if listed { assert all[|before|] == id; }
    forall j | 0 <= j < |all| && !(listed && j == |before|) ensures all[j] != id {
      if j < |before| { assert all[j] == before[j]; }
      else if listed { assert all[j] == after[j - |before| - 1]; }
      else { assert all[j] == after[j - |before|]; }
    }
  }

  // ------------------------------------------------------- and nothing is stuck

  function Stepping(cfg: Cfg): (World, Event) -> World { (w: World, e: Event) => Step(w, e, cfg) }

  function From(w: World, more: seq<Event>, cfg: Cfg): World { Fold(Stepping(cfg), w, more) }

  lemma {:induction false} RunFolds(n: nat, events: seq<Event>, cfg: Cfg)
    ensures Run(n, events, cfg) == From(Start(n), events, cfg)
    decreases |events|
  {
    if events != [] {
      RunFolds(n, events[..|events| - 1], cfg);
      StepIsStepping(From(Start(n), events[..|events| - 1], cfg), events[|events| - 1], cfg);
    }
  }

  lemma StepIsStepping(w: World, e: Event, cfg: Cfg)
    ensures Stepping(cfg)(w, e) == Step(w, e, cfg)
  {
  }

  lemma RunsOn(n: nat, events: seq<Event>, more: seq<Event>, cfg: Cfg)
    ensures Run(n, events + more, cfg) == From(Run(n, events, cfg), more, cfg)
  {
    RunFolds(n, events, cfg);
    RunFolds(n, events + more, cfg);
    FoldGoesOn(Stepping(cfg), Start(n), events, more);
  }

  lemma FirstThen(w: World, e: Event, rest: seq<Event>, cfg: Cfg)
    ensures From(w, [e] + rest, cfg) == From(Step(w, e, cfg), rest, cfg)
  {
    FoldFirst(Stepping(cfg), w, e, rest);
  }

  /** The first supervisor has handed it out, on a claim made since. */
  ghost predicate HandedAnew(w: World, w': World, id: nat) {
    |w'.sups| > 0 && exists r :: r in w'.sups[0].out && r.entry == id && r.stamp >= w.nextStamp
  }

  lemma GrantedIsHandedOut(w: World, granted: World, id: nat, cfg: Cfg) returns (more: seq<Event>)
    requires |w.sups| > 0 && |granted.sups| > 0
    requires granted.sups[0].kept == w.sups[0].kept + [Kept(id, w.nextStamp, w.now, None)]
    ensures HandedAnew(w, From(granted, more, cfg), id)
  {
    var i := |w.sups[0].kept|;
    more := [HandOut(0, i)] + [];
    FirstThen(granted, HandOut(0, i), [], cfg);
    assert Receipt(id, w.nextStamp) in Step(granted, HandOut(0, i), cfg).sups[0].out;
  }

  /** What the first supervisor would be listed is overdue, and its floor is not nothing. */
  ghost predicate AllOverdue(w: World, cfg: Cfg) {
    && |w.sups| > 0 && 0 < w.sups[0].least < UNSET
    && forall id :: id in w.pending && Lists(w, 0, cfg, id) ==> Overdue(Idle(w, id), cfg.timeoutMs(id), cfg.graceMs(0))
  }

  /** One entry found and taken: its idle clock starts over, and no other's moves. */
  predicate TookOne(w: World, w': World, x: nat) {
    && |w'.sups| == |w.sups| > 0 && w'.stream == w.stream && w'.now == w.now
    && w'.pending == w.pending[x := Pend(0, w.now, w.nextStamp)] && w'.nextStamp == w.nextStamp + 1
    && w'.sups[0].least == w.sups[0].least
    && w'.sups[0].kept == w.sups[0].kept + [Kept(x, w.nextStamp, w.now, None)]
  }

  lemma TheFirstIsTaken(w: World, cfg: Cfg) returns (x: nat)
    requires AllOverdue(w, cfg) && Listing(w, 0, cfg, w.stream) != []
    ensures x == Listing(w, 0, cfg, w.stream)[0] && x in w.pending && Lists(w, 0, cfg, x)
    ensures TookOne(w, Step(Step(w, Observe(0, x), cfg), Take(0, x), cfg), x)
  {
    x := Listing(w, 0, cfg, w.stream)[0];
    InListing(w, 0, cfg, w.stream, x);
    assert Page(w, 0, cfg)[0] == x;
    var seen := Step(w, Observe(0, x), cfg);
    assert x in seen.sups[0].seen;
  }

  lemma {:induction false} ListingDrops(w: World, w': World, cfg: Cfg, x: nat, stream: seq<nat>)
    requires |w.sups| > 0 && |w'.sups| > 0 && !Lists(w', 0, cfg, x)
    requires forall y :: y != x ==> (Lists(w', 0, cfg, y) <==> Lists(w, 0, cfg, y))
    ensures |Listing(w', 0, cfg, stream)| <= |Listing(w, 0, cfg, stream)|
    ensures x in Listing(w, 0, cfg, stream) ==> |Listing(w', 0, cfg, stream)| < |Listing(w, 0, cfg, stream)|
    decreases |stream|
  {
    if stream != [] {
      ListingDrops(w, w', cfg, x, stream[..|stream| - 1]);
    }
  }

  lemma TakenIsNotListed(w: World, w': World, cfg: Cfg, x: nat)
    requires AllOverdue(w, cfg) && TookOne(w, w', x)
    ensures !Lists(w', 0, cfg, x) && (forall y :: y != x ==> (Lists(w', 0, cfg, y) <==> Lists(w, 0, cfg, y)))
    ensures AllOverdue(w', cfg)
  {
    assert Idle(w', x) == 0;
    forall y | y != x && y in w.pending ensures Idle(w', y) == Idle(w, y) {}
  }

  /** With everything that is listed overdue, a sweep takes the first of it, and so in time gets to any
      entry further on, however many pages there are. */
  lemma {:induction false} AListedOneIsTaken(w: World, id: nat, cfg: Cfg) returns (more: seq<Event>)
    requires AllOverdue(w, cfg) && id in Listing(w, 0, cfg, w.stream)
    ensures HandedAnew(w, From(w, more, cfg), id)
    decreases |Listing(w, 0, cfg, w.stream)|
  {
    var x := TheFirstIsTaken(w, cfg);
    var seen := Step(w, Observe(0, x), cfg);
    var taken := Step(seen, Take(0, x), cfg);
    var rest;
    if x == id {
      rest := GrantedIsHandedOut(w, taken, id, cfg);
    } else {
      TakenIsNotListed(w, taken, cfg, x);
      InListing(w, 0, cfg, w.stream, id);
      InListing(taken, 0, cfg, w.stream, id);
      ListingDrops(w, taken, cfg, x, w.stream);
      rest := AListedOneIsTaken(taken, id, cfg);
    }
    FirstThen(seen, Take(0, x), rest, cfg);
    FirstThen(w, Observe(0, x), [Take(0, x)] + rest, cfg);
    more := [Observe(0, x)] + ([Take(0, x)] + rest);
  }

  /** How long until an entry is overdue and past a floor. */
  function Until(w: World, cfg: Cfg, floor: nat, id: nat): nat
    requires id in w.pending
  {
    (if w.pending[id].since > w.now then w.pending[id].since - w.now else 0) + cfg.timeoutMs(id) + cfg.graceMs(0)
      + 1 + floor
  }

  lemma {:induction false} LongEnough(w: World, cfg: Cfg, floor: nat, ids: set<nat>) returns (t: nat)
    requires ids <= w.pending.Keys
    ensures forall id :: id in ids ==> Until(w, cfg, floor, id) <= t
    decreases |ids|
  {
    t := 0;
    if ids != {} {
      var id :| id in ids;
      var rest := LongEnough(w, cfg, floor, ids - {id});
      t := Max(rest, Until(w, cfg, floor, id));
    }
  }

  lemma LaterAllIsOverdue(w: World, cfg: Cfg, floor: nat, t: nat)
    requires |w.sups| > 0 && 0 < w.sups[0].least < UNSET && floor == w.sups[0].least + cfg.graceMs(0)
    requires forall id :: id in w.pending ==> Until(w, cfg, floor, id) <= t
    ensures var w' := Step(w, Pass(t), cfg);
            AllOverdue(w', cfg) && forall id :: id in w.pending ==> Lists(w', 0, cfg, id)
  {
    var w' := Step(w, Pass(t), cfg);
    forall id | id in w.pending
      ensures Overdue(Idle(w', id), cfg.timeoutMs(id), cfg.graceMs(0)) && Lists(w', 0, cfg, id)
    {
      assert Until(w, cfg, floor, id) <= t;
    }
  }

  lemma APendingOneIsTaken(w: World, id: nat, cfg: Cfg, timeoutMs: nat) returns (more: seq<Event>)
    requires |w.sups| > 0 && w.sups[0].least > 0 && 0 < timeoutMs < UNSET && id in w.pending && id in w.stream
    ensures HandedAnew(w, From(w, more, cfg), id)
  {
    var known := Step(w, Register(0, timeoutMs), cfg);
    var floor := known.sups[0].least + cfg.graceMs(0);
    var t := LongEnough(known, cfg, floor, known.pending.Keys);
    LaterAllIsOverdue(known, cfg, floor, t);
    var later := Step(known, Pass(t), cfg);
    InListing(later, 0, cfg, later.stream, id);
    var rest := AListedOneIsTaken(later, id, cfg);
    FirstThen(known, Pass(t), rest, cfg);
    FirstThen(w, Register(0, timeoutMs), [Pass(t)] + rest, cfg);
    more := [Register(0, timeoutMs)] + ([Pass(t)] + rest);
  }

  lemma {:induction false} AnUndeliveredOneIsRead(w: World, id: nat, cfg: Cfg) returns (more: seq<Event>)
    requires |w.sups| > 0 && id in w.undelivered
    ensures HandedAnew(w, From(w, more, cfg), id)
    decreases |w.undelivered|
  {
    var next := Step(w, Deliver(0), cfg);
    var rest;
    if w.undelivered[0] == id {
      rest := GrantedIsHandedOut(w, next, id, cfg);
    } else {
      assert id in w.undelivered[1..];
      rest := AnUndeliveredOneIsRead(next, id, cfg);
    }
    FirstThen(w, Deliver(0), rest, cfg);
    more := [Deliver(0)] + rest;
  }

  lemma PromotedAlone(w: World, id: nat)
    requires id in w.delayed && id in w.fields && w.delayed[id] <= w.now
    ensures Promoted(w, [id]).undelivered == w.undelivered + [id]
  {
    var due := [id];
    assert Promoted(w, due[..|due| - 1]) == w;
  }

  lemma ADelayedOneIsPromoted(w: World, id: nat, cfg: Cfg) returns (more: seq<Event>)
    requires |w.sups| > 0 && id in w.delayed && id in w.fields
    ensures HandedAnew(w, From(w, more, cfg), id)
  {
    var pass := Pass(w.delayed[id]);
    var due := Step(w, pass, cfg);
    var promoted := Step(due, Promote([id]), cfg);
    PromotedAlone(due, id);
    PromotingTouchesNoClaim(due, [id]);
    var rest := AnUndeliveredOneIsRead(promoted, id, cfg);
    FirstThen(due, Promote([id]), rest, cfg);
    FirstThen(w, pass, [Promote([id])] + rest, cfg);
    more := [pass] + ([Promote([id])] + rest);
  }

  /** Wherever an unsettled entry is, delayed, in the stream or with a supervisor that may have died, and
      however many others are pending before it, the first supervisor can come to hand it out, on a claim
      of its own, if a child of it registers a task that has a timeout. */
  lemma AnEntryIsHandedOutAgain(n: nat, events: seq<Event>, cfg: Cfg, id: nat, timeoutMs: nat)
    returns (more: seq<Event>)
    requires n > 0 && 0 < timeoutMs < UNSET
    requires id < Run(n, events, cfg).nextJob && id !in Run(n, events, cfg).settled
    ensures HandedAnew(Run(n, events, cfg), Run(n, events + more, cfg), id)
  {
    var w := Run(n, events, cfg);
    InPlaceAlways(n, events, cfg);
    NoEntryIsLost(n, events, cfg, id);
    if id in w.delayed {
      more := ADelayedOneIsPromoted(w, id, cfg);
    } else if id in w.pending {
      assert Times(w.stream, id) == One(id < w.nextJob && id !in w.delayed);
      TimesIsIn(w.stream, id);
      more := APendingOneIsTaken(w, id, cfg, timeoutMs);
    } else {
      TimesIsIn(w.undelivered, id);
      more := AnUndeliveredOneIsRead(w, id, cfg);
    }
    RunsOn(n, events, more, cfg);
  }

  /** Without one it never does: a supervisor that has learned of no timeout finds nothing overdue. */
  lemma WithoutATimeoutNothingIsSwept(w: World, s: nat, cfg: Cfg, entry: nat)
    requires s < |w.sups| && w.sups[s].least == UNSET
    ensures Step(w, Observe(s, entry), cfg) == w
  {
    InListing(w, s, cfg, w.stream, entry);
  }
}
