/** Many supervisors over one Redis stream, in any interleaving of their commands: no entry is
    lost, and one handed out of a buffer is still its supervisor's. */
module RedisRuns {
  import opened Results
  import opened Redis

  /** A delivered entry that has not been settled: whose it is, since when its idle clock runs
      (which may be set before the beginning of time), and which claim it belongs to. */
  datatype Pend = Pend(owner: nat, since: int, stamp: nat)

  /** A claim a supervisor has been granted and has not handed out: at what time on the server, and
      when it reached the supervisor's buffer, if it has. */
  datatype Kept = Kept(entry: nat, stamp: nat, at: int, arrived: Option<nat>)

  /** What a claim that was handed out leaves its child to settle with. The server goes by the entry
      alone; the stamp only tells us which claim it was. */
  datatype Receipt = Receipt(entry: nat, stamp: nat)

  /** `out` are the receipts ever handed to its children, `seen` the entries its sweep found overdue, and
      `least` the shortest timeout it has learned of. */
  datatype Sup = Sup(kept: seq<Kept>, out: set<Receipt>, seen: set<nat>, least: nat)

  const NEW_SUP := Sup([], {}, {}, UNSET)

  /** Jobs are numbered as they are pushed. A delayed one waits in the sorted set, its fields beside
      it; `stream` is every one ever added to the stream, in order, of which some are undelivered and
      some pending. */
  datatype World = World(
    now: nat, delayed: map<nat, nat>, fields: set<nat>, stream: seq<nat>, undelivered: seq<nat>,
    pending: map<nat, Pend>, settled: set<nat>, nextJob: nat, nextStamp: nat, sups: seq<Sup>)

  /** How long each job may run, and each supervisor's grace. */
  datatype Cfg = Cfg(timeoutMs: nat -> nat, graceMs: nat -> nat, leastGraceMs: nat)

  datatype Event =
    | Pass(ms: nat)
    | Push(delayMs: nat)
    | Promote(due: seq<nat>)                   // one run of the script, over due members
    | Deliver(s: nat)                          // the next undelivered entry is read
    | Arrive(s: nat, i: nat)                   // a granted claim reaches the buffer
    | HandOut(s: nat, i: nat)                  // directly from a read, or from the buffer in time
    | Discard(s: nat, i: nat)
    | Register(s: nat, timeoutMs: nat)         // its first child says what its tasks' shortest timeout is
    | Observe(s: nat, entry: nat)              // a sweep lists the entry and finds it overdue
    | Take(s: nat, entry: nat)
    | Settled(s: nat, entry: nat, stamp: nat)
    | GiveBack(s: nat, entry: nat, stamp: nat, delayMs: nat)
    | Crash(s: nat)

  function Idle(w: World, entry: nat): nat
    requires entry in w.pending
  {
    if w.now >= w.pending[entry].since then w.now - w.pending[entry].since else 0
  }

  function HeldOf(k: Kept, cfg: Cfg): Held
    requires k.arrived.Some?
  {
    Taken(Entry(k.entry, k.stamp, cfg.timeoutMs(k.entry)), k.arrived.value)
  }

  /** A member without its fields is dropped; both are written and removed together. */
  function Promoted(w: World, due: seq<nat>): World
    decreases |due|
  {
    if due == [] then w
    else
      var before, id := Promoted(w, due[..|due| - 1]), due[|due| - 1];
      if id !in before.delayed || before.delayed[id] > before.now then before
      else before.(
        stream := before.stream + if id in before.fields then [id] else [],
        undelivered := before.undelivered + if id in before.fields then [id] else [],
        delayed := before.delayed - {id}, fields := before.fields - {id})
  }

  function Without<T>(s: seq<T>, i: nat): seq<T>
    requires i < |s|
  {
    s[..i] + s[i + 1..]
  }

  /** The server grants a claim: its idle clock starts over, and the supervisor will hear. */
  function Granted(w: World, s: nat, entry: nat): World
    requires s < |w.sups|
  {
    var sup := w.sups[s];
    w.(pending := w.pending[entry := Pend(s, w.now, w.nextStamp)], nextStamp := w.nextStamp + 1,
       sups := w.sups[s := sup.(kept := sup.kept + [Kept(entry, w.nextStamp, w.now, None)])])
  }

  /** A receipt once handed out can be used at any time after, its claim long lost or not; the server
      only asks that the entry is pending. */
  predicate CanSettle(w: World, s: nat, entry: nat, stamp: nat) {
    s < |w.sups| && Receipt(entry, stamp) in w.sups[s].out && entry in w.pending
  }

  predicate MayHandOut(w: World, k: Kept, cfg: Cfg) {
    k.arrived.None? || InTime(HeldOf(k, cfg), w.now)
  }

  function ReceiptOf(k: Kept): Receipt { Receipt(k.entry, k.stamp) }

  function WithSup(w: World, s: nat, sup: Sup): World
    requires s < |w.sups|
  {
    w.(sups := w.sups[s := sup])
  }

  /** The sweep's floor goes by the shortest timeout ever read or registered; none is no timeout. */
  function Learned(w: World, s: nat, timeoutMs: nat): World
    requires s < |w.sups|
  {
    if timeoutMs == 0 then w else WithSup(w, s, w.sups[s].(least := Min(w.sups[s].least, timeoutMs)))
  }

  /** How many entries a sweep asks for at a time. */
  const PAGE := 64

  predicate Lists(w: World, s: nat, cfg: Cfg, entry: nat)
    requires s < |w.sups|
  {
    entry in w.pending && Listed(Idle(w, entry), w.sups[s].least, cfg.graceMs(s))
  }

  /** Of these, the pending entries idle for as long as the floor, in order. */
  function Listing(w: World, s: nat, cfg: Cfg, stream: seq<nat>): seq<nat>
    requires s < |w.sups|
  {
    if stream == [] then []
    else
      var n := |stream| - 1;
      Listing(w, s, cfg, stream[..n]) + if Lists(w, s, cfg, stream[n]) then [stream[n]] else []
  }

  /** What the server lists to a sweep: the first so many of them. */
  function Page(w: World, s: nat, cfg: Cfg): seq<nat>
    requires s < |w.sups|
  {
    var listing := Listing(w, s, cfg, w.stream);
    listing[..Min(PAGE, |listing|)]
  }

  function Step(w: World, e: Event, cfg: Cfg): World {
    match e
    case Pass(ms) => w.(now := w.now + ms)
    case Push(delayMs) =>
      if delayMs == 0
      then w.(stream := w.stream + [w.nextJob], undelivered := w.undelivered + [w.nextJob], nextJob := w.nextJob + 1)
      else w.(delayed := w.delayed[w.nextJob := w.now + delayMs], fields := w.fields + {w.nextJob},
              nextJob := w.nextJob + 1)
    case Promote(due) => Promoted(w, due)
    case Deliver(s) =>
      if s < |w.sups| && w.undelivered != []
      then Learned(Granted(w.(undelivered := w.undelivered[1..]), s, w.undelivered[0]), s,
           cfg.timeoutMs(w.undelivered[0]))
      else w
    case Arrive(s, i) =>
      if s < |w.sups| && i < |w.sups[s].kept| && w.sups[s].kept[i].arrived.None?
      then WithSup(w, s, w.sups[s].(kept := w.sups[s].kept[i := w.sups[s].kept[i].(arrived := Some(w.now))])) else w
    case HandOut(s, i) =>
      if s < |w.sups| && i < |w.sups[s].kept| && MayHandOut(w, w.sups[s].kept[i], cfg)
      then WithSup(w, s,
           w.sups[s].(kept := Without(w.sups[s].kept, i), out := w.sups[s].out + {ReceiptOf(w.sups[s].kept[i])}))
      else w
    case Discard(s, i) =>
      if s < |w.sups| && i < |w.sups[s].kept|
      then WithSup(w, s, w.sups[s].(kept := Without(w.sups[s].kept, i))) else w
    case Register(s, timeoutMs) => if s < |w.sups| then Learned(w, s, timeoutMs) else w
    case Observe(s, entry) =>
      if s < |w.sups| && entry in w.pending && entry in Page(w, s, cfg)
         && Overdue(Idle(w, entry), cfg.timeoutMs(entry), cfg.graceMs(s))
      then WithSup(w, s, w.sups[s].(seen := w.sups[s].seen + {entry})) else w
    case Take(s, entry) =>
      if s < |w.sups| && entry in w.sups[s].seen && entry in w.pending
         && Gate(Idle(w, entry), cfg.timeoutMs(entry), cfg.graceMs(s))
      then Granted(w, s, entry) else w
    case Settled(s, entry, stamp) =>
      if CanSettle(w, s, entry, stamp) then w.(pending := w.pending - {entry}, settled := w.settled + {entry}) else w
    case GiveBack(s, entry, stamp, delayMs) =>
      if CanSettle(w, s, entry, stamp)
      then
        var since := w.now - IdleAfterRequeue(cfg.timeoutMs(entry), cfg.graceMs(s), delayMs);
        w.(pending := w.pending[entry := Pend(s, since, w.nextStamp)], nextStamp := w.nextStamp + 1)
      else w
    case Crash(s) => if s < |w.sups| then WithSup(w, s, NEW_SUP) else w
  }

  function Start(n: nat): World {
    World(0, map[], {}, [], [], map[], {}, 0, 0, seq(n, _ => NEW_SUP))
  }

  function Run(n: nat, events: seq<Event>, cfg: Cfg): World
    decreases |events|
  {
    if events == [] then Start(n) else Step(Run(n, events[..|events| - 1], cfg), events[|events| - 1], cfg)
  }

  // ------------------------------------------------------ no entry is ever lost

  function One(b: bool): nat { if b then 1 else 0 }

  function Times(ids: seq<nat>, id: nat): nat {
    if ids == [] then 0 else One(ids[0] == id) + Times(ids[1..], id)
  }

  lemma {:induction false} TimesOneMore(ids: seq<nat>, x: nat, id: nat)
    ensures Times(ids + [x], id) == Times(ids, id) + One(x == id)
  {
    if ids == [] {
      assert ids + [x] == [x];
    } else {
      TimesOneMore(ids[1..], x, id);
      assert (ids + [x])[1..] == ids[1..] + [x];
    }
  }

  function Places(w: World, id: nat): nat {
    One(id in w.delayed) + Times(w.undelivered, id) + One(id in w.pending) + One(id in w.settled)
  }

  ghost predicate EachInOnePlace(w: World) {
    && (forall id: nat :: Places(w, id) == One(id < w.nextJob))
    && (forall id :: id in w.delayed <==> id in w.fields)
  }

  lemma {:induction false} PromotingKeepsPlaces(w: World, due: seq<nat>, id: nat)
    requires forall x :: x in w.delayed <==> x in w.fields
    ensures var w' := Promoted(w, due);
            && Places(w', id) == Places(w, id) && w'.nextJob == w.nextJob
            && (forall x :: x in w'.delayed <==> x in w'.fields)
    decreases |due|
  {
    if due != [] {
      var before := Promoted(w, due[..|due| - 1]);
      PromotingKeepsPlaces(w, due[..|due| - 1], id);
      TimesOneMore(before.undelivered, due[|due| - 1], id);
    }
  }

  lemma DeliveringKeepsPlaces(w: World, s: nat, cfg: Cfg, id: nat)
    requires EachInOnePlace(w)
    ensures Places(Step(w, Deliver(s), cfg), id) == Places(w, id)
  {
    if w.undelivered != [] { assert Places(w, w.undelivered[0]) == One(w.undelivered[0] < w.nextJob); }
  }

  lemma PushingKeepsPlaces(w: World, delayMs: nat, cfg: Cfg, id: nat)
    requires EachInOnePlace(w)
    ensures Places(Step(w, Push(delayMs), cfg), id) == One(id < w.nextJob + 1)
  {
    assert Places(w, id) == One(id < w.nextJob);
    TimesOneMore(w.undelivered, w.nextJob, id);
  }

  lemma StepKeepsPlaces(w: World, e: Event, cfg: Cfg, id: nat)
    requires EachInOnePlace(w)
    ensures var w' := Step(w, e, cfg);
            && Places(w', id) == One(id < w'.nextJob)
            && (forall x :: x in w'.delayed <==> x in w'.fields)
  {
    assert Places(w, id) == One(id < w.nextJob);
    if e.Promote? { PromotingKeepsPlaces(w, e.due, id); }
    else if e.Push? { PushingKeepsPlaces(w, e.delayMs, cfg, id); }
    else if e.Deliver? { DeliveringKeepsPlaces(w, e.s, cfg, id); }
  }

  lemma {:induction false} PlacesAlways(n: nat, events: seq<Event>, cfg: Cfg)
    ensures EachInOnePlace(Run(n, events, cfg))
    decreases |events|
  {
    if events == [] {
      forall id: nat ensures Places(Start(n), id) == 0 {}
    } else {
      var w, e := Run(n, events[..|events| - 1], cfg), events[|events| - 1];
      PlacesAlways(n, events[..|events| - 1], cfg);
      forall id: nat ensures Places(Step(w, e, cfg), id) == One(id < Step(w, e, cfg).nextJob) {
        StepKeepsPlaces(w, e, cfg, id);
      }
      StepKeepsPlaces(w, e, cfg, 0);
    }
  }

  /** Over any interleaving of supervisors and time, promotions, sweeps, discards and crashes, and of
      settlements and requeues by present and former holders alike, a job that has not been settled is
      in exactly one place: the delayed set, or the stream, and there either undelivered, once, or
      pending. */
  lemma NoEntryIsLost(n: nat, events: seq<Event>, cfg: Cfg, id: nat)
    ensures var w := Run(n, events, cfg);
            id < w.nextJob && id !in w.settled ==>
              One(id in w.delayed) + Times(w.undelivered, id) + One(id in w.pending) == 1
  {
    PlacesAlways(n, events, cfg);
    assert Places(Run(n, events, cfg), id) == One(id < Run(n, events, cfg).nextJob);
  }

  // ------------------------------------------- what is in the buffer is still ours

  predicate Sensible(cfg: Cfg, n: nat) {
    forall s :: 0 <= s < n ==> cfg.leastGraceMs <= cfg.graceMs(s)
  }

  /** Every claim has its own stamp; a supervisor's ungranted hand-outs are not yet handed out. */
  ghost predicate Stamped(sup: Sup, nextStamp: nat) {
    && (forall i :: 0 <= i < |sup.kept| ==> sup.kept[i].stamp < nextStamp)
    && (forall i, r :: 0 <= i < |sup.kept| && r in sup.out ==> r.stamp != sup.kept[i].stamp)
    && (forall i, j :: 0 <= i < j < |sup.kept| ==> sup.kept[i].stamp != sup.kept[j].stamp)
    && (forall r :: r in sup.out ==> r.stamp < nextStamp)
  }

  /** A claim that is kept is the one the server has on the entry, untouched since; or it has been
      kept for as long as any sweep would wait. */
  predicate Ours(w: World, s: nat, k: Kept, cfg: Cfg) {
    k.at <= w.now
    && ((k.entry in w.pending && w.pending[k.entry] == Pend(s, k.at, k.stamp))
        || w.now - k.at >= cfg.timeoutMs(k.entry) + cfg.leastGraceMs)
  }

  ghost predicate AllOurs(w: World, s: nat, cfg: Cfg)
    requires s < |w.sups|
  {
    Stamped(w.sups[s], w.nextStamp) && forall i :: 0 <= i < |w.sups[s].kept| ==> Ours(w, s, w.sups[s].kept[i], cfg)
  }

  ghost predicate Owned(w: World, cfg: Cfg) {
    && Sensible(cfg, |w.sups|)
    && (forall s :: 0 <= s < |w.sups| ==> AllOurs(w, s, cfg))
  }

  /** A grant takes the entry from whoever kept it only after waiting as long as they may keep it. */
  lemma GrantKeepsOurs(w: World, w0: World, s: nat, entry: nat, t: nat, cfg: Cfg)
    requires s < |w.sups| && t < |w.sups| && Owned(w, cfg)
    requires w0 == w.(undelivered := w0.undelivered)
    requires entry in w.pending ==> Gate(Idle(w, entry), cfg.timeoutMs(entry), cfg.graceMs(s))
    ensures AllOurs(Granted(w0, s, entry), t, cfg)
  {
    var w' := Granted(w0, s, entry);
    assert AllOurs(w, t, cfg);
    forall i | 0 <= i < |w'.sups[t].kept| ensures Ours(w', t, w'.sups[t].kept[i], cfg) {
      if i < |w.sups[t].kept| {
        assert w'.sups[t].kept[i] == w.sups[t].kept[i];
        assert Ours(w, t, w.sups[t].kept[i], cfg);
      }
    }
  }

  /** The claim a receipt stands for is the one the server still has on the entry. */
  predicate Holds(w: World, s: nat, entry: nat, stamp: nat) {
    CanSettle(w, s, entry, stamp) && w.pending[entry].owner == s && w.pending[entry].stamp == stamp
  }

  /** A settlement or requeue that has any effect is the present holder's. */
  predicate InGoodTime(w: World, e: Event) {
    match e
    case Settled(s, entry, stamp) => CanSettle(w, s, entry, stamp) ==> Holds(w, s, entry, stamp)
    case GiveBack(s, entry, stamp, _) => CanSettle(w, s, entry, stamp) ==> Holds(w, s, entry, stamp)
    case _ => true
  }

  ghost predicate NoneIsLate(n: nat, events: seq<Event>, cfg: Cfg) {
    forall k :: 0 <= k < |events| ==> InGoodTime(Run(n, events[..k], cfg), events[k])
  }

  /** A holder's own settlement or requeue is of a claim it has handed out, never of one it keeps. */
  lemma HolderKeepsOurs(w: World, s: nat, entry: nat, stamp: nat, w': World, t: nat, cfg: Cfg)
    requires t < |w.sups| && Owned(w, cfg) && Holds(w, s, entry, stamp)
    requires w'.sups == w.sups && w'.now == w.now && w'.nextStamp >= w.nextStamp
    requires forall x :: x != entry ==>
             (x in w'.pending <==> x in w.pending) && (x in w.pending ==> w'.pending[x] == w.pending[x])
    ensures AllOurs(w', t, cfg)
  {
    assert AllOurs(w, t, cfg);
    forall i | 0 <= i < |w'.sups[t].kept| ensures Ours(w', t, w'.sups[t].kept[i], cfg) {
      assert Ours(w, t, w.sups[t].kept[i], cfg);
    }
  }

  /** A claim among those kept before, whether or not it has arrived since. */
  ghost predicate Among(k: Kept, kept: seq<Kept>) {
    exists j :: 0 <= j < |kept| && k == kept[j].(arrived := k.arrived)
  }

  /** Changes to one supervisor's own books. */
  lemma OwnBooksKeepOurs(w: World, s: nat, sup: Sup, t: nat, cfg: Cfg)
    requires s < |w.sups| && t < |w.sups| && Owned(w, cfg) && Stamped(sup, w.nextStamp)
    requires forall i :: 0 <= i < |sup.kept| ==> Among(sup.kept[i], w.sups[s].kept)
    ensures AllOurs(WithSup(w, s, sup), t, cfg)
  {
    var w' := WithSup(w, s, sup);
    assert AllOurs(w, t, cfg) && AllOurs(w, s, cfg);
    forall i | 0 <= i < |w'.sups[t].kept| ensures Ours(w', t, w'.sups[t].kept[i], cfg) {
      if t == s {
        assert Among(sup.kept[i], w.sups[s].kept);
        var j :| 0 <= j < |w.sups[s].kept| && sup.kept[i] == w.sups[s].kept[j].(arrived := sup.kept[i].arrived);
        assert Ours(w, s, w.sups[s].kept[j], cfg);
      } else {
        assert Ours(w, t, w.sups[t].kept[i], cfg);
      }
    }
  }

  lemma WithoutIsStamped(sup: Sup, i: nat, out: set<Receipt>, nextStamp: nat)
    requires Stamped(sup, nextStamp) && i < |sup.kept| && sup.out <= out <= sup.out + {ReceiptOf(sup.kept[i])}
    ensures Stamped(sup.(kept := Without(sup.kept, i), out := out), nextStamp)
    ensures forall j :: 0 <= j < |sup.kept| - 1 ==> Without(sup.kept, i)[j] == sup.kept[if j < i then j else j + 1]
  {
  }

  lemma LeavingKeepsOurs(w: World, s: nat, i: nat, out: set<Receipt>, t: nat, cfg: Cfg)
    requires s < |w.sups| && t < |w.sups| && Owned(w, cfg) && i < |w.sups[s].kept|
    requires w.sups[s].out <= out <= w.sups[s].out + {ReceiptOf(w.sups[s].kept[i])}
    ensures AllOurs(WithSup(w, s, w.sups[s].(kept := Without(w.sups[s].kept, i), out := out)), t, cfg)
  {
    assert AllOurs(w, s, cfg);
    var sup := w.sups[s].(kept := Without(w.sups[s].kept, i), out := out);
    WithoutIsStamped(w.sups[s], i, out, w.nextStamp);
    forall k | 0 <= k < |sup.kept|
      ensures Among(sup.kept[k], w.sups[s].kept)
    {
      var j := if k < i then k else k + 1;
      assert sup.kept[k] == w.sups[s].kept[j].(arrived := sup.kept[k].arrived);
    }
    OwnBooksKeepOurs(w, s, sup, t, cfg);
  }

  lemma ArrivingKeepsOurs(w: World, s: nat, i: nat, t: nat, cfg: Cfg)
    requires s < |w.sups| && t < |w.sups| && Owned(w, cfg) && i < |w.sups[s].kept|
    ensures AllOurs(WithSup(w, s,
            w.sups[s].(kept := w.sups[s].kept[i := w.sups[s].kept[i].(arrived := Some(w.now))])), t, cfg)
  {
    assert AllOurs(w, s, cfg);
    var sup := w.sups[s].(kept := w.sups[s].kept[i := w.sups[s].kept[i].(arrived := Some(w.now))]);
    forall k | 0 <= k < |sup.kept|
      ensures Among(sup.kept[k], w.sups[s].kept)
    {
      assert sup.kept[k] == w.sups[s].kept[k].(arrived := sup.kept[k].arrived);
    }
    OwnBooksKeepOurs(w, s, sup, t, cfg);
  }

  lemma StreamKeepsOurs(w: World, w': World, t: nat, cfg: Cfg)
    requires t < |w.sups| && Owned(w, cfg)
    requires w'.sups == w.sups && w'.pending == w.pending && w'.now >= w.now && w'.nextStamp == w.nextStamp
    ensures AllOurs(w', t, cfg)
  {
    assert AllOurs(w, t, cfg);
    forall i | 0 <= i < |w'.sups[t].kept| ensures Ours(w', t, w'.sups[t].kept[i], cfg) {
      assert Ours(w, t, w.sups[t].kept[i], cfg);
    }
  }

  lemma {:induction false} PromotingTouchesNoClaim(w: World, due: seq<nat>)
    ensures var w' := Promoted(w, due);
            && w'.sups == w.sups && w'.pending == w.pending && w'.settled == w.settled
            && w'.now == w.now && w'.nextStamp == w.nextStamp
    decreases |due|
  {
    if due != [] {
      PromotingTouchesNoClaim(w, due[..|due| - 1]);
    }
  }

  lemma SettlingKeepsOurs(w: World, e: Event, t: nat, cfg: Cfg)
    requires Owned(w, cfg) && t < |w.sups| && (e.Settled? || e.GiveBack?) && InGoodTime(w, e)
    ensures |Step(w, e, cfg).sups| == |w.sups| && AllOurs(Step(w, e, cfg), t, cfg)
  {
    assert AllOurs(w, t, cfg);
    match e
    case Settled(s, entry, stamp) =>
      if Holds(w, s, entry, stamp) {
        HolderKeepsOurs(w, s, entry, stamp, Step(w, e, cfg), t, cfg);
      }
    case GiveBack(s, entry, stamp, _) =>
      if Holds(w, s, entry, stamp) {
        HolderKeepsOurs(w, s, entry, stamp, Step(w, e, cfg), t, cfg);
      }
  }

  lemma BufferKeepsOurs(w: World, e: Event, t: nat, cfg: Cfg)
    requires Owned(w, cfg) && t < |w.sups| && (e.Arrive? || e.HandOut? || e.Discard?)
    ensures |Step(w, e, cfg).sups| == |w.sups| && AllOurs(Step(w, e, cfg), t, cfg)
  {
    assert AllOurs(w, t, cfg);
    if e.s < |w.sups| && e.i < |w.sups[e.s].kept| {
      assert AllOurs(w, e.s, cfg);
      match e
      case Arrive(s, i) => ArrivingKeepsOurs(w, s, i, t, cfg);
      case HandOut(s, i) => LeavingKeepsOurs(w, s, i, w.sups[s].out + {ReceiptOf(w.sups[s].kept[i])}, t, cfg);
      case Discard(s, i) => LeavingKeepsOurs(w, s, i, w.sups[s].out, t, cfg);
    }
  }

  lemma BooksKeepOurs(w: World, e: Event, t: nat, cfg: Cfg)
    requires Owned(w, cfg) && t < |w.sups| && (e.Observe? || e.Register? || e.Crash?)
    ensures |Step(w, e, cfg).sups| == |w.sups| && AllOurs(Step(w, e, cfg), t, cfg)
  {
    assert AllOurs(w, t, cfg);
    if e.s < |w.sups| {
      assert AllOurs(w, e.s, cfg);
      match e
      case Crash(s) => OwnBooksKeepOurs(w, s, NEW_SUP, t, cfg);
      case Observe(s, entry) => ObservingKeepsOurs(w, s, entry, t, cfg);
      case Register(s, timeoutMs) => LearningKeepsOurs(w, s, timeoutMs, t, cfg);
    }
  }

  lemma LearningKeepsOurs(w: World, s: nat, timeoutMs: nat, t: nat, cfg: Cfg)
    requires s < |w.sups| && t < |w.sups| && AllOurs(w, t, cfg)
    ensures |Learned(w, s, timeoutMs).sups| == |w.sups| && AllOurs(Learned(w, s, timeoutMs), t, cfg)
  {
    var w' := Learned(w, s, timeoutMs);
    assert w'.sups[t].kept == w.sups[t].kept && w'.sups[t].out == w.sups[t].out;
    forall i | 0 <= i < |w'.sups[t].kept| ensures Ours(w', t, w'.sups[t].kept[i], cfg) {
      assert Ours(w, t, w.sups[t].kept[i], cfg);
    }
  }

  lemma ObservingKeepsOurs(w: World, s: nat, entry: nat, t: nat, cfg: Cfg)
    requires Owned(w, cfg) && s < |w.sups| && t < |w.sups|
    ensures AllOurs(WithSup(w, s, w.sups[s].(seen := w.sups[s].seen + {entry})), t, cfg)
  {
    var sup := w.sups[s].(seen := w.sups[s].seen + {entry});
    assert AllOurs(w, s, cfg);
    forall k | 0 <= k < |sup.kept|
      ensures Among(sup.kept[k], w.sups[s].kept)
    {
      assert sup.kept[k] == w.sups[s].kept[k].(arrived := sup.kept[k].arrived);
    }
    OwnBooksKeepOurs(w, s, sup, t, cfg);
  }

  lemma GrantingKeepsOurs(w: World, e: Event, t: nat, cfg: Cfg)
    requires EachInOnePlace(w) && Owned(w, cfg) && t < |w.sups| && (e.Deliver? || e.Take?)
    ensures |Step(w, e, cfg).sups| == |w.sups| && AllOurs(Step(w, e, cfg), t, cfg)
  {
    assert AllOurs(w, t, cfg);
    match e
    case Deliver(s) =>
      if s < |w.sups| && w.undelivered != [] {
        assert Places(w, w.undelivered[0]) == One(w.undelivered[0] < w.nextJob);
        var w0 := w.(undelivered := w.undelivered[1..]);
        GrantKeepsOurs(w, w0, s, w.undelivered[0], t, cfg);
        LearningKeepsOurs(Granted(w0, s, w.undelivered[0]), s, cfg.timeoutMs(w.undelivered[0]), t, cfg);
      }
    case Take(s, entry) =>
      if s < |w.sups| && entry in w.pending && Gate(Idle(w, entry), cfg.timeoutMs(entry), cfg.graceMs(s)) {
        GrantKeepsOurs(w, w, s, entry, t, cfg);
      }
  }

  lemma PlainKeepsOurs(w: World, e: Event, t: nat, cfg: Cfg)
    requires Owned(w, cfg) && t < |w.sups| && (e.Pass? || e.Push? || e.Promote?)
    ensures |Step(w, e, cfg).sups| == |w.sups| && AllOurs(Step(w, e, cfg), t, cfg)
  {
    if e.Promote? { PromotingTouchesNoClaim(w, e.due); }
    StreamKeepsOurs(w, Step(w, e, cfg), t, cfg);
  }

  lemma StepKeepsOwned(w: World, e: Event, cfg: Cfg)
    requires EachInOnePlace(w) && Owned(w, cfg) && InGoodTime(w, e)
    ensures |Step(w, e, cfg).sups| == |w.sups| && Owned(Step(w, e, cfg), cfg)
  {
    forall t: nat | t < |w.sups| ensures |Step(w, e, cfg).sups| == |w.sups| && AllOurs(Step(w, e, cfg), t, cfg) {
      if e.Settled? || e.GiveBack? { SettlingKeepsOurs(w, e, t, cfg); }
      else if e.Deliver? || e.Take? { GrantingKeepsOurs(w, e, t, cfg); }
      else if e.Pass? || e.Push? || e.Promote? { PlainKeepsOurs(w, e, t, cfg); }
      else if e.Arrive? || e.HandOut? || e.Discard? { BufferKeepsOurs(w, e, t, cfg); }
      else { BooksKeepOurs(w, e, t, cfg); }
    }
    StepKeepsSups(w, e, cfg);
  }

  lemma StepKeepsSups(w: World, e: Event, cfg: Cfg)
    ensures |Step(w, e, cfg).sups| == |w.sups|
  {
    if e.Promote? { PromotingTouchesNoClaim(w, e.due); }
  }

  lemma NoneWasLate(n: nat, events: seq<Event>, cfg: Cfg)
    requires events != [] && NoneIsLate(n, events, cfg)
    ensures NoneIsLate(n, events[..|events| - 1], cfg)
    ensures InGoodTime(Run(n, events[..|events| - 1], cfg), events[|events| - 1])
  {
    var before := events[..|events| - 1];
    forall k | 0 <= k < |before| ensures InGoodTime(Run(n, before[..k], cfg), before[k]) {
      assert before[..k] == events[..k];
    }
  }

  lemma {:induction false} OwnedAlways(n: nat, events: seq<Event>, cfg: Cfg)
    requires Sensible(cfg, n) && NoneIsLate(n, events, cfg)
    ensures var w := Run(n, events, cfg); |w.sups| == n && Owned(w, cfg)
    decreases |events|
  {
    if events == [] {
      forall t: nat | t < n ensures AllOurs(Start(n), t, cfg) {}
    } else {
      NoneWasLate(n, events, cfg);
      OwnedAlways(n, events[..|events| - 1], cfg);
      PlacesAlways(n, events[..|events| - 1], cfg);
      StepKeepsOwned(Run(n, events[..|events| - 1], cfg), events[|events| - 1], cfg);
    }
  }

  /** How much later than the server granted it a claim may have reached the buffer. */
  predicate Prompt(k: Kept, cfg: Cfg) {
    k.arrived.Some? && k.arrived.value - k.at < cfg.leastGraceMs + Min(cfg.timeoutMs(k.entry), 1)
  }

  /** An entry handed out of the buffer in time is still this supervisor's, by this very claim, as
      long as the reply that brought it took less than the shortest grace (a millisecond more for
      a job that has a timeout), and no former holder has settled or requeued an entry late. */
  lemma BufferedIsStillOurs(n: nat, events: seq<Event>, cfg: Cfg, s: nat, i: nat)
    requires Sensible(cfg, n) && NoneIsLate(n, events, cfg)
    requires var w := Run(n, events, cfg); s < |w.sups| && i < |w.sups[s].kept|
    requires var w := Run(n, events, cfg);
             Prompt(w.sups[s].kept[i], cfg) && InTime(HeldOf(w.sups[s].kept[i], cfg), w.now)
    ensures var w := Run(n, events, cfg);
            var k := w.sups[s].kept[i];
            k.entry in w.pending && w.pending[k.entry] == Pend(s, k.at, k.stamp)
  {
    OwnedAlways(n, events, cfg);
    var w := Run(n, events, cfg);
    assert AllOurs(w, s, cfg);
    assert Ours(w, s, w.sups[s].kept[i], cfg);
  }

  // ---------------------------------------------------------- where it stops

  lemma RunOneMore(n: nat, events: seq<Event>, e: Event, cfg: Cfg)
    ensures Run(n, events + [e], cfg) == Step(Run(n, events, cfg), e, cfg)
  {
    assert (events + [e])[..|events|] == events;
  }

  /** Job 0, once handed out by the first of two supervisors, as their books have it, both with the
      shortest timeout there can be registered. */
  predicate Scene(w: World, now: nat, pend: Pend, nextStamp: nat, kept: seq<Kept>, seen0: set<nat>, seen1: set<nat>) {
    && w.now == now && w.nextStamp == nextStamp && w.pending == map[0 := pend] && w.stream == [0] && |w.sups| == 2
    && w.sups[0].kept == kept && w.sups[0].seen == seen0 && w.sups[0].least == 1
    && w.sups[1].seen == seen1 && w.sups[1].least == 1
    && Receipt(0, 0) in w.sups[0].out
  }

  /** So it is listed to either, once it has been idle for long enough. */
  lemma IsListed(w: World, s: nat, cfg: Cfg)
    requires s < |w.sups| && w.stream == [0] && Lists(w, s, cfg, 0)
    ensures 0 in Page(w, s, cfg)
  {
    assert w.stream[..0] == [];
    assert Listing(w, s, cfg, w.stream) == [0];
  }

  lemma Registered(cfg: Cfg) returns (events: seq<Event>)
    ensures Run(2, events, cfg) == Start(2).(sups := [NEW_SUP.(least := 1), NEW_SUP.(least := 1)])
  {
    events := [] + [Register(0, 1)] + [Register(1, 1)];
    RunOneMore(2, [], Register(0, 1), cfg);
    RunOneMore(2, [] + [Register(0, 1)], Register(1, 1), cfg);
    assert Start(2).sups == [NEW_SUP, NEW_SUP];
  }

  lemma Pushed(cfg: Cfg) returns (events: seq<Event>)
    ensures Run(2, events, cfg)
            == Start(2).(sups := [NEW_SUP.(least := 1), NEW_SUP.(least := 1)], stream := [0], undelivered := [0],
              nextJob := 1)
  {
    var before := Registered(cfg);
    events := before + [Push(0)];
    RunOneMore(2, before, Push(0), cfg);
  }

  lemma Delivered(cfg: Cfg) returns (events: seq<Event>)
    ensures var w := Run(2, events, cfg);
            && w.now == 0 && w.nextStamp == 1 && w.pending == map[0 := Pend(0, 0, 0)] && w.stream == [0]
            && |w.sups| == 2 && w.sups[0] == Sup([Kept(0, 0, 0, None)], {}, {}, 1) && w.sups[1] == NEW_SUP.(least := 1)
  {
    var before := Pushed(cfg);
    events := before + [Deliver(0)];
    RunOneMore(2, before, Deliver(0), cfg);
    assert Run(2, events, cfg).sups[0] == Sup([] + [Kept(0, 0, 0, None)], {}, {}, 1);
  }

  lemma HandedOut(cfg: Cfg) returns (events: seq<Event>)
    ensures Scene(Run(2, events, cfg), 0, Pend(0, 0, 0), 1, [], {}, {})
  {
    var before := Delivered(cfg);
    events := before + [HandOut(0, 0)];
    RunOneMore(2, before, HandOut(0, 0), cfg);
  }

  lemma FirstFindsItOverdue(cfg: Cfg, p: nat) returns (events: seq<Event>)
    requires p > cfg.timeoutMs(0) + cfg.graceMs(0)
    ensures Scene(Run(2, events, cfg), p, Pend(0, 0, 0), 1, [], {0}, {})
  {
    var before := HandedOut(cfg);
    events := before + [Pass(p)] + [Observe(0, 0)];
    RunOneMore(2, before, Pass(p), cfg);
    assert Scene(Run(2, before + [Pass(p)], cfg), p, Pend(0, 0, 0), 1, [], {}, {});
    IsListed(Run(2, before + [Pass(p)], cfg), 0, cfg);
    RunOneMore(2, before + [Pass(p)], Observe(0, 0), cfg);
  }

  lemma BothFindItOverdue(cfg: Cfg, p: nat) returns (events: seq<Event>)
    requires p > cfg.timeoutMs(0) + cfg.graceMs(0) && p > cfg.timeoutMs(0) + cfg.graceMs(1)
    ensures Scene(Run(2, events, cfg), p, Pend(0, 0, 0), 1, [], {0}, {0})
  {
    var before := FirstFindsItOverdue(cfg, p);
    events := before + [Observe(1, 0)];
    IsListed(Run(2, before, cfg), 1, cfg);
    RunOneMore(2, before, Observe(1, 0), cfg);
  }

  lemma FirstIsGrantedIt(cfg: Cfg, p: nat) returns (events: seq<Event>)
    requires p > cfg.timeoutMs(0) + cfg.graceMs(0) && p > cfg.timeoutMs(0) + cfg.graceMs(1)
    ensures Scene(Run(2, events, cfg), p, Pend(0, p, 1), 2, [Kept(0, 1, p, None)], {0}, {0})
  {
    var before := BothFindItOverdue(cfg, p);
    events := before + [Take(0, 0)];
    RunOneMore(2, before, Take(0, 0), cfg);
  }

  lemma TheReplyTakes(cfg: Cfg, p: nat, latency: nat) returns (events: seq<Event>)
    requires p > cfg.timeoutMs(0) + cfg.graceMs(0) && p > cfg.timeoutMs(0) + cfg.graceMs(1)
    ensures Scene(Run(2, events, cfg), p + latency, Pend(0, p, 1), 2, [Kept(0, 1, p, Some(p + latency))], {0}, {0})
  {
    var before := FirstIsGrantedIt(cfg, p);
    events := before + [Pass(latency)] + [Arrive(0, 0)];
    RunOneMore(2, before, Pass(latency), cfg);
    assert Scene(Run(2, before + [Pass(latency)], cfg), p + latency, Pend(0, p, 1), 2, [Kept(0, 1, p, None)], {0}, {0});
    RunOneMore(2, before + [Pass(latency)], Arrive(0, 0), cfg);
  }

  lemma SecondIsGrantedIt(cfg: Cfg, before: seq<Event>, kept: Kept, wait: nat) returns (events: seq<Event>)
    requires var w := Run(2, before, cfg); Scene(w, w.now, Pend(0, kept.at, 1), 2, [kept], {0}, {0})
    requires 0 <= kept.at <= Run(2, before, cfg).now
    requires Run(2, before, cfg).now + wait - kept.at >= cfg.timeoutMs(0) + cfg.graceMs(1)
    ensures var now := Run(2, before, cfg).now + wait;
            Scene(Run(2, events, cfg), now, Pend(1, now, 2), 3, [kept], {0}, {0})
  {
    var now := Run(2, before, cfg).now + wait;
    events := before + [Pass(wait)] + [Take(1, 0)];
    RunOneMore(2, before, Pass(wait), cfg);
    assert Scene(Run(2, before + [Pass(wait)], cfg), now, Pend(0, kept.at, 1), 2, [kept], {0}, {0});
    RunOneMore(2, before + [Pass(wait)], Take(1, 0), cfg);
  }

  /** A reply any slower than that, and the claim can be lost: two sweeps that both found an entry
      overdue are granted it one after the other, and the first still has it in its buffer, in time,
      when it is the second's. So the bound on the reply is exact, for every timeout and every grace,
      none included, when then even an instant reply is too slow. */
  lemma SlowerItMayNotBe(cfg: Cfg, latency: nat) returns (events: seq<Event>)
    requires Sensible(cfg, 2) && cfg.graceMs(1) == cfg.leastGraceMs
    requires latency >= cfg.leastGraceMs + Min(cfg.timeoutMs(0), 1)
    ensures var w := Run(2, events, cfg);
            && |w.sups| == 2 && |w.sups[0].kept| == 1
            && var k := w.sups[0].kept[0];
               && k.entry == 0 && k.arrived == Some(k.at + latency) && InTime(HeldOf(k, cfg), w.now)
               && 0 in w.pending && w.pending[0].owner == 1
  {
    var p := cfg.timeoutMs(0) + Max(cfg.graceMs(0), cfg.graceMs(1)) + 1;
    var before := TheReplyTakes(cfg, p, latency);
    events := SecondIsGrantedIt(cfg, before, Kept(0, 1, p, Some(p + latency)), Max(cfg.timeoutMs(0), 1) - 1);
  }

  /** Nor if a former holder settles late: the entry is settled, and yet goes out of the buffer, in
      time, to be run again. */
  lemma ALateSettlementLeavesItBuffered(cfg: Cfg) returns (events: seq<Event>)
    ensures var w := Run(2, events, cfg);
            && |w.sups| == 2 && |w.sups[0].kept| == 1
            && var k := w.sups[0].kept[0];
               k.entry == 0 && k.arrived == Some(w.now) && InTime(HeldOf(k, cfg), w.now) && 0 in w.settled
                 && 0 !in w.pending
  {
    var p := cfg.timeoutMs(0) + Max(cfg.graceMs(0), cfg.graceMs(1)) + 1;
    var before := TheReplyTakes(cfg, p, 0);
    events := before + [Settled(0, 0, 0)];
    RunOneMore(2, before, Settled(0, 0, 0), cfg);
  }
}
