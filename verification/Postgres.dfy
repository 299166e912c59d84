/** The Postgres broker's tables: one row a job, a lease that doubles as a visibility timer, a
    lease number that fences off late settlements, and the dead letters. The functions say what
    one statement does; the class's methods run them. */
module Postgres {
  import opened Results
  import opened Chains
  import opened Msgpack

  /** A live job. `attempt` is what the retry policy reads, `runLease` what receipts are checked
      against, and `leaseUntil` hides the row until then. Times are in milliseconds. */
  datatype Row = Row(job: NewJob, attempt: nat, runLease: nat, leaseUntil: Option<nat>, createdAt: nat)

  /** A dead letter: no chain, no metadata, no expiry. */
  datatype Grave = Grave(
    jobId: string, queue: string, name: string, payload: Blob, timeoutMs: nat, attempt: nat,
    error: string, traceback: string, diedAt: nat)

  /** `nextId` is the sequence behind both tables' keys; it only ever advances. */
  datatype Tables = Tables(jobs: map<nat, Row>, dead: map<nat, Grave>, nextId: nat)

  datatype Receipt = Receipt(row: nat, runLease: nat)

  const EMPTY := Tables(map[], map[], 0)

  function After(delayMs: nat, now: nat): Option<nat> {
    if delayMs > 0 then Some(now + delayMs) else None
  }

  function Push(t: Tables, job: NewJob, delayMs: nat, now: nat): Tables {
    t.(jobs := t.jobs[t.nextId := Row(job, 0, 0, After(delayMs, now), now)], nextId := t.nextId + 1)
  }

  // ------------------------------------------------------------------- claims

  /** Where a queue stands in the order of priority; the length if it is not there. */
  function Position(queues: seq<string>, queue: string): (p: nat)
    ensures p <= |queues| && (p < |queues| <==> queue in queues)
    ensures p < |queues| ==> queues[p] == queue
    ensures forall j :: 0 <= j < p ==> queues[j] != queue
  {
    if queues == [] then 0
    else if queues[0] == queue then 0
    else
      var rest := Position(queues[1..], queue);
      assert forall j :: 0 < j < 1 + rest ==> queues[j] == queues[1..][j - 1];
      1 + rest
  }

  /** A lease that has run out is no different from one that was never taken. */
  predicate Claimable(row: Row, queues: seq<string>, now: nat) {
    row.job.queue in queues && (row.leaseUntil.None? || row.leaseUntil.value < now)
  }

  /** Priority before age. */
  predicate Precedes(t: Tables, queues: seq<string>, a: nat, b: nat)
    requires a in t.jobs && b in t.jobs
  {
    var pa, pb := Position(queues, t.jobs[a].job.queue), Position(queues, t.jobs[b].job.queue);
    pa < pb || (pa == pb && a <= b)
  }

  /** The row a claim takes: the first of the claimable ones that no other transaction has locked. */
  ghost predicate Picks(t: Tables, queues: seq<string>, locked: set<nat>, now: nat, picked: Option<nat>) {
    match picked
    case Some(id) =>
      && id in t.jobs && id !in locked && Claimable(t.jobs[id], queues, now)
      && (forall other :: other in t.jobs && other !in locked && Claimable(t.jobs[other], queues, now) ==>
            Precedes(t, queues, id, other))
    case None => forall other :: other in t.jobs && other !in locked ==> !Claimable(t.jobs[other], queues, now)
  }

  function Leased(row: Row, graceMs: nat, now: nat): Row {
    row.(leaseUntil := Some(now + row.job.timeoutMs + graceMs), attempt := row.attempt + 1,
      runLease := row.runLease + 1)
  }

  function Claim(t: Tables, id: nat, graceMs: nat, now: nat): Tables
    requires id in t.jobs
  {
    t.(jobs := t.jobs[id := Leased(t.jobs[id], graceMs, now)])
  }

  // -------------------------------------------------------------- settlements

  /** Whether a receipt can still take effect. */
  predicate Effective(t: Tables, r: Receipt) {
    r.row in t.jobs && t.jobs[r.row].runLease == r.runLease
  }

  function Ack(t: Tables, r: Receipt): Tables {
    if Effective(t, r) then t.(jobs := t.jobs - {r.row}) else t
  }

  function Requeue(t: Tables, r: Receipt, delayMs: nat, now: nat): Tables {
    if Effective(t, r) then t.(jobs := t.jobs[r.row := t.jobs[r.row].(leaseUntil := After(delayMs, now))]) else t
  }

  function Buried(row: Row, error: string, traceback: string, now: nat): Grave {
    Grave(row.job.id, row.job.queue, row.job.name, row.job.payload, row.job.timeoutMs, row.attempt, error, traceback,
      now)
  }

  /** Deleted from the live rows and inserted among the dead in one statement; a dead letter already
      under that id would be kept, and the job lost. */
  function Bury(t: Tables, r: Receipt, error: string, traceback: string, now: nat): Tables {
    if !Effective(t, r) then t
    else
      var grave := Buried(t.jobs[r.row], error, traceback, now);
      t.(jobs := t.jobs - {r.row}, dead := if r.row in t.dead then t.dead else t.dead[r.row := grave])
  }

  // ------------------------------------------------------------- dead letters

  ghost function InQueue(dead: map<nat, Grave>, queue: string): set<nat> {
    set id | id in dead && dead[id].queue == queue
  }

  /** What a trim of a queue may drop: the oldest, down to `keep`; ties in any order. */
  ghost predicate Trims(dead: map<nat, Grave>, queue: string, keep: nat, dropped: set<nat>) {
    && dropped <= InQueue(dead, queue)
    && |InQueue(dead, queue) - dropped| == (if |InQueue(dead, queue)| <= keep then |InQueue(dead, queue)| else keep)
    && (forall a, b :: a in dropped && b in InQueue(dead, queue) - dropped ==> dead[a].diedAt <= dead[b].diedAt)
  }

  /** The trim after a dead letter: of the queue that letter is in, if it still is in one. */
  ghost predicate TrimsAfter(t: Tables, row: nat, keep: nat, dropped: set<nat>) {
    if row in t.dead then Trims(t.dead, t.dead[row].queue, keep, dropped) else dropped == {}
  }

  predicate IsDigit(c: char) { '0' <= c <= '9' }

  function Digits(s: string): (n: Option<nat>)
    ensures n.Some? <==> s != "" && forall i :: 0 <= i < |s| ==> IsDigit(s[i])
  {
    if s == "" || !IsDigit(s[|s| - 1]) then None
    else
      var last := (s[|s| - 1] - '0') as nat;
      if |s| == 1 then Some(last)
      else match Digits(s[..|s| - 1])
        case Some(n) => Some(10 * n + last)
        case None => None
  }

  function Negative(n: int): int { -n }

  /** A signed 64-bit integer, as the ids are read. */
  function ReadId(s: string): Option<int> {
    if s != "" && s[0] == '-' then
      (match Digits(s[1..])
       case Some(n) => if n <= 0x8000_0000_0000_0000 then Some(Negative(n)) else None
       case None => None)
    else
      match Digits(if s != "" && s[0] == '+' then s[1..] else s)
      case Some(n) => if n < 0x8000_0000_0000_0000 then Some(n) else None
      case None => None
  }

  /** The ids that parse; the rest are skipped. */
  function Picked(ids: seq<string>): set<int> {
    set k | 0 <= k < |ids| && ReadId(ids[k]).Some? :: ReadId(ids[k]).value
  }

  /** The dead letters an operator's list stands for: with nothing in it that parses, all of them. */
  ghost function Selected(t: Tables, queue: string, ids: seq<string>): set<nat> {
    set id | id in t.dead && t.dead[id].queue == queue && (Picked(ids) == {} || id in Picked(ids))
  }

  function Revived(grave: Grave, now: nat): Row {
    Row(NewJob(grave.jobId, grave.queue, grave.name, grave.payload, grave.timeoutMs, Empty, Empty, 0), 0, 0, None, now)
  }

  /** Replay the dead letters `order` one after the other, each under the next id. */
  function Replay(t: Tables, order: seq<nat>, now: nat): Tables
    requires forall k :: 0 <= k < |order| ==> order[k] in t.dead
    decreases |order|
  {
    if order == [] then t
    else
      var n := |order| - 1;
      var before := Replay(t, order[..n], now);
      Tables(before.jobs[before.nextId := Revived(t.dead[order[n]], now)], before.dead - {order[n]}, before.nextId + 1)
  }

  function Purge(t: Tables, ids: set<nat>): Tables {
    t.(dead := t.dead - ids)
  }

  /** An order in which to take the elements of a set, each once. */
  ghost predicate Lists(order: seq<nat>, ids: set<nat>) {
    && (forall k :: 0 <= k < |order| ==> order[k] in ids) && (forall id :: id in ids ==> id in order)
    && (forall j, k :: 0 <= j < k < |order| ==> order[j] != order[k])
  }

  lemma ListsOneMore(order: seq<nat>, ids: set<nat>, id: nat)
    requires Lists(order, ids) && id !in ids
    ensures Lists(order + [id], ids + {id})
  {
  }

  lemma ReplayOneMore(t: Tables, order: seq<nat>, id: nat, now: nat)
    requires (forall k :: 0 <= k < |order| ==> order[k] in t.dead) && id in t.dead
    ensures var before := Replay(t, order, now);
            Replay(t, order + [id], now)
            == Tables(before.jobs[before.nextId := Revived(t.dead[id], now)], before.dead - {id}, before.nextId + 1)
  {
    assert (order + [id])[..|order|] == order;
  }

  // --------------------------------------------------------------- the tables

  /** The tables as they stand. What other transactions have locked, and the time, are given. */
  class PgTables {
    var jobs: map<nat, Row>
    var dead: map<nat, Grave>
    var nextId: nat

    function Contents(): Tables
      reads this
    {
      Tables(jobs, dead, nextId)
    }

    constructor ()
      ensures Contents() == EMPTY
    {
      jobs, dead, nextId := map[], map[], 0;
    }

    method PushRow(job: NewJob, delayMs: nat, now: nat)
      modifies this
      ensures Contents() == Push(old(Contents()), job, delayMs, now)
    {
      jobs := jobs[nextId := Row(job, 0, 0, After(delayMs, now), now)];
      nextId := nextId + 1;
    }

    /** Find the row and lease it. What it hands out says when the row became runnable: when its old
        lease or delay lapsed, or when it was written. */
    method ClaimRow(queues: seq<string>, graceMs: nat, locked: set<nat>, now: nat)
      returns (picked: Option<nat>, readyAt: nat)
      modifies this`jobs
      ensures Picks(old(Contents()), queues, locked, now, picked)
      ensures picked.None? ==> Contents() == old(Contents())
      ensures picked.Some? ==>
        && Contents() == Claim(old(Contents()), picked.value, graceMs, now)
        && readyAt == (match old(jobs)[picked.value].leaseUntil
                       case Some(t) => t case None => old(jobs)[picked.value].createdAt)
    {
      picked, readyAt := None, 0;
      var left := jobs.Keys;
      while left != {}
        invariant left <= jobs.Keys
        invariant picked.Some? ==>
                  picked.value in jobs && picked.value !in locked && Claimable(jobs[picked.value], queues, now)
        invariant forall id :: id in jobs && id !in left && id !in locked && Claimable(jobs[id], queues, now) ==>
                    picked.Some? && Precedes(Contents(), queues, picked.value, id)
        decreases |left|
      {
        var id :| id in left;
        left := left - {id};
        if id !in locked && Claimable(jobs[id], queues, now)
           && (picked.None? || Precedes(Contents(), queues, id, picked.value)) {
          picked := Some(id);
        }
      }
      if picked.Some? {
        var row := jobs[picked.value];
        readyAt := match row.leaseUntil case Some(t) => t case None => row.createdAt;
        jobs := jobs[picked.value := Leased(row, graceMs, now)];
      }
    }

    method AckRow(r: Receipt)
      modifies this`jobs
      ensures Contents() == Ack(old(Contents()), r)
    {
      if r.row in jobs && jobs[r.row].runLease == r.runLease {
        jobs := jobs - {r.row};
      }
    }

    method RequeueRow(r: Receipt, delayMs: nat, now: nat)
      modifies this`jobs
      ensures Contents() == Requeue(old(Contents()), r, delayMs, now)
    {
      if r.row in jobs && jobs[r.row].runLease == r.runLease {
        jobs := jobs[r.row := jobs[r.row].(leaseUntil := After(delayMs, now))];
      }
    }

    /** The older of a queue's letters go first; what is left is at most `keep`. */
    method Trim(row: nat, keep: nat) returns (dropped: set<nat>)
      modifies this`dead
      ensures TrimsAfter(old(Contents()), row, keep, dropped)
      ensures dead == old(dead) - dropped
    {
      dropped := {};
      if row in dead {
        dropped := OldestDownTo(dead, dead[row].queue, keep);
      }
      dead := dead - dropped;
    }

    static method OldestDownTo(all: map<nat, Grave>, queue: string, keep: nat) returns (dropped: set<nat>)
      ensures Trims(all, queue, keep, dropped)
    {
      var kept := set id | id in all && all[id].queue == queue;
      dropped := {};
      assert kept == InQueue(all, queue);
      while |kept| > keep
        invariant kept !! dropped && kept + dropped == InQueue(all, queue)
        invariant if |InQueue(all, queue)| <= keep then dropped == {} else |kept| >= keep
        invariant forall a, b :: a in dropped && b in kept ==> all[a].diedAt <= all[b].diedAt
        decreases |kept|
      {
        var oldest := Oldest(all, kept);
        kept, dropped := kept - {oldest}, dropped + {oldest};
      }
      assert InQueue(all, queue) - dropped == kept;
    }

    static method Oldest(dead: map<nat, Grave>, ids: set<nat>) returns (oldest: nat)
      requires ids != {} && ids <= dead.Keys
      ensures oldest in ids && forall id :: id in ids ==> dead[oldest].diedAt <= dead[id].diedAt
    {
      oldest :| oldest in ids;
      var left := ids - {oldest};
      while left != {}
        invariant left <= ids && oldest in ids
        invariant forall id :: id in ids - left ==> dead[oldest].diedAt <= dead[id].diedAt
        decreases |left|
      {
        var id :| id in left;
        left := left - {id};
        if dead[id].diedAt < dead[oldest].diedAt { oldest := id; }
      }
    }

    /** Two statements: the burial, then the trim when a cap is set. */
    method DeadLetter(r: Receipt, error: string, traceback: string, keep: nat, now: nat) returns (dropped: set<nat>)
      modifies this
      ensures var buried := Bury(old(Contents()), r, error, traceback, now);
              && (keep == 0 ==> dropped == {} && Contents() == buried)
              && (keep > 0 ==> TrimsAfter(buried, r.row, keep, dropped) && Contents() == Purge(buried, dropped))
    {
      dropped := {};
      if r.row in jobs && jobs[r.row].runLease == r.runLease {
        var grave := Buried(jobs[r.row], error, traceback, now);
        jobs := jobs - {r.row};
        if r.row !in dead { dead := dead[r.row := grave]; }
      }
      if keep > 0 {
        dropped := Trim(r.row, keep);
      }
    }

    /** Put dead letters back on the live table: those listed, or with no usable id all of the queue's. */
    method ReplayDead(queue: string, ids: seq<string>, now: nat) returns (n: nat, ghost order: seq<nat>)
      modifies this
      ensures Lists(order, Selected(old(Contents()), queue, ids)) && n == |Selected(old(Contents()), queue, ids)|
      ensures (forall k :: 0 <= k < |order| ==> order[k] in old(dead))
              && Contents() == Replay(old(Contents()), order, now)
    {
      var picked := Picked(ids);
      var gone := set id | id in dead && dead[id].queue == queue && (picked == {} || id in picked);
      assert gone == Selected(Contents(), queue, ids);
      n := |gone|;
      order := ReviveAll(gone, now);
    }

    method ReviveAll(gone: set<nat>, now: nat) returns (ghost order: seq<nat>)
      requires gone <= dead.Keys
      modifies this
      ensures Lists(order, gone)
      ensures (forall k :: 0 <= k < |order| ==> order[k] in old(dead))
              && Contents() == Replay(old(Contents()), order, now)
    {
      order := [];
      var graves := dead;
      ghost var start := Contents();
      var left := gone;
      while left != {}
        invariant left <= gone && Lists(order, gone - left)
        invariant forall k :: 0 <= k < |order| ==> order[k] in graves
        invariant Contents() == Replay(start, order, now)
        decreases |left|
      {
        var id :| id in left;
        assert gone - (left - {id}) == gone - left + {id};
        ListsOneMore(order, gone - left, id);
        ReplayOneMore(start, order, id, now);
        left, order := left - {id}, order + [id];
        Revive(id, graves[id], now);
      }
      assert gone - left == gone;
    }

    method Revive(id: nat, grave: Grave, now: nat)
      modifies this
      ensures Contents() == Tables(old(jobs)[old(nextId) := Revived(grave, now)], old(dead) - {id}, old(nextId) + 1)
    {
      jobs := jobs[nextId := Revived(grave, now)];
      dead := dead - {id};
      nextId := nextId + 1;
    }

    method PurgeDead(queue: string, ids: seq<string>) returns (n: nat)
      modifies this`dead
      ensures n == |Selected(old(Contents()), queue, ids)|
      ensures Contents() == Purge(old(Contents()), Selected(old(Contents()), queue, ids))
    {
      var picked := Picked(ids);
      var gone := set id | id in dead && dead[id].queue == queue && (picked == {} || id in picked);
      assert gone == Selected(Contents(), queue, ids);
      n := |gone|;
      dead := dead - gone;
    }
  }

  // ------------------------------------------------------- what replaying does

  /** Each letter listed leaves the dead and comes back once, under an id no row ever had, with no
      attempt counted against it; whatever was live stays as it was. */
  lemma {:induction false} ReplayMovesEachOnce(t: Tables, order: seq<nat>, now: nat)
    requires forall k :: 0 <= k < |order| ==> order[k] in t.dead
    requires forall id :: id in t.jobs ==> id < t.nextId
    ensures var t' := Replay(t, order, now);
            && t'.nextId == t.nextId + |order|
            && (forall id :: id in t'.dead <==> id in t.dead && id !in order)
            && (forall id :: id in t'.dead ==> t'.dead[id] == t.dead[id])
            && (forall id :: id in t'.jobs <==> id in t.jobs || t.nextId <= id < t'.nextId)
            && (forall id :: id in t.jobs ==> t'.jobs[id] == t.jobs[id])
            && (forall k :: 0 <= k < |order| ==> t'.jobs[t.nextId + k] == Revived(t.dead[order[k]], now))
    decreases |order|
  {
    if order != [] {
      var n := |order| - 1;
      ReplayMovesEachOnce(t, order[..n], now);
      assert order == order[..n] + [order[n]];
    }
  }

  /** A delay and a lease are the same thing, a time before which the row is not seen: a requeued row can
      be claimed again from just after its delay, at once if it has none, and a claimed one from just
      after its lease. */
  lemma HiddenUntilThen(t: Tables, r: Receipt, delayMs: nat, graceMs: nat, queues: seq<string>, now: nat, later: nat)
    requires Effective(t, r) && later >= now
    ensures var row := t.jobs[r.row];
            && (Claimable(Requeue(t, r, delayMs, now).jobs[r.row], queues, later)
                <==> row.job.queue in queues && (delayMs == 0 || later > now + delayMs))
            && (Claimable(Claim(t, r.row, graceMs, now).jobs[r.row], queues, later)
                <==> row.job.queue in queues && later > now + row.job.timeoutMs + graceMs)
  {
  }

  predicate SomeIdParses(ids: seq<string>) {
    exists k :: 0 <= k < |ids| && ReadId(ids[k]).Some?
  }

  /** An operator's list is kept to exactly when some id in it parses, or the queue has no dead
      letters: a list of nothing usable stands for the whole queue. */
  lemma AListIsKeptToIff(t: Tables, queue: string, ids: seq<string>)
    ensures (forall id :: id in Selected(t, queue, ids) ==> exists k :: 0 <= k < |ids| && ReadId(ids[k]) == Some(id))
            <==> SomeIdParses(ids) || InQueue(t.dead, queue) == {}
  {
    if SomeIdParses(ids) {
      var k :| 0 <= k < |ids| && ReadId(ids[k]).Some?;
      assert ReadId(ids[k]).value in Picked(ids);
    } else {
      assert Picked(ids) == {};
      assert Selected(t, queue, ids) == InQueue(t.dead, queue);
    }
  }

  /** For instance, a mistyped id replays everything. */
  lemma AMistypedIdSelectsAll(t: Tables, queue: string)
    ensures Selected(t, queue, ["12a"]) == InQueue(t.dead, queue)
  {
    assert "12a"[0] == '1' && !IsDigit("12a"[2]);
    assert ReadId("12a") == None;
    assert Picked(["12a"]) == {};
  }
}
