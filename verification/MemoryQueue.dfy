/** The in-memory broker: a queue of ids, some not due yet, over a table of jobs. The value
    `Queue` and its operations say what the class's methods do; the supervisor's runs are
    stated over them. */
module MemoryQueue {
  import opened Results
  import opened Chains

  /** An id waiting its turn, and the moment before which it may not be claimed. */
  datatype Ticket = Ticket(id: nat, due: Option<nat>)

  /** A job, how often it has been claimed, and when it became runnable. */
  datatype Record = Record(job: NewJob, attempts: nat, readyMs: nat)

  datatype Queue = Queue(ready: seq<Ticket>, jobs: map<nat, Record>, nextId: nat)

  /** What a claim hands out; the id is also the receipt. */
  datatype Delivery = Delivery(id: nat, record: Record)

  const EMPTY := Queue([], map[], 0)

  function DueAfter(delayMs: nat, now: nat): Option<nat> {
    if delayMs == 0 then None else Some(now + delayMs)
  }

  predicate IsDue(t: Ticket, now: nat) {
    t.due.None? || t.due.value <= now
  }

  /** The position of the first ticket that is due, or the length if none is. */
  function FirstDue(ready: seq<Ticket>, now: nat): (i: nat)
    ensures i <= |ready|
    ensures i < |ready| ==> IsDue(ready[i], now)
    ensures forall j :: 0 <= j < i ==> !IsDue(ready[j], now)
  {
    if ready == [] then 0
    else if IsDue(ready[0], now) then 0
    else
      var rest := FirstDue(ready[1..], now);
      assert forall j :: 0 < j < 1 + rest ==> ready[j] == ready[1..][j - 1];
      1 + rest
  }

  function Remove<T>(s: seq<T>, i: nat): seq<T>
    requires i < |s|
  {
    s[..i] + s[i + 1..]
  }

  function Push(q: Queue, job: NewJob, delayMs: nat, now: nat): Queue {
    Queue(q.ready + [Ticket(q.nextId, DueAfter(delayMs, now))], q.jobs[q.nextId := Record(job, 0, now + delayMs)],
          q.nextId + 1)
  }

  /** Take the first due ticket. One whose job is gone is dropped, and nothing is handed out. */
  function Claim(q: Queue, now: nat): (Queue, Option<Delivery>) {
    var i := FirstDue(q.ready, now);
    if i == |q.ready| then (q, None)
    else
      var id, q' := q.ready[i].id, q.(ready := Remove(q.ready, i));
      if id !in q.jobs then (q', None)
      else
        var record := q.jobs[id].(attempts := q.jobs[id].attempts + 1);
        (q'.(jobs := q.jobs[id := record]), Some(Delivery(id, record)))
  }

  function Settle(q: Queue, id: nat): Queue {
    q.(jobs := q.jobs - {id})
  }

  function Requeue(q: Queue, id: nat, delayMs: nat, now: nat): Queue {
    if id in q.jobs then q.(ready := q.ready + [Ticket(id, DueAfter(delayMs, now))]) else q
  }

  class MemoryBroker {
    var ready: seq<Ticket>
    var jobs: map<nat, Record>
    var nextId: nat

    function Contents(): Queue
      reads this
    {
      Queue(ready, jobs, nextId)
    }

    constructor ()
      ensures Contents() == EMPTY
    {
      ready, jobs, nextId := [], map[], 0;
    }

    method PushJob(job: NewJob, delayMs: nat, now: nat)
      modifies this
      ensures Contents() == Push(old(Contents()), job, delayMs, now)
    {
      var id := nextId;
      nextId := nextId + 1;
      jobs := jobs[id := Record(job, 0, now + delayMs)];
      ready := ready + [Ticket(id, DueAfter(delayMs, now))];
    }

    method ClaimJob(now: nat) returns (d: Option<Delivery>)
      modifies this
      ensures (Contents(), d) == Claim(old(Contents()), now)
    {
      var position := 0;
      while position < |ready| && !IsDue(ready[position], now)
        invariant position <= |ready|
        invariant forall j :: 0 <= j < position ==> !IsDue(ready[j], now)
      {
        position := position + 1;
      }
      if position == |ready| {
        return None;
      }
      var id := ready[position].id;
      ready := Remove(ready, position);
      if id !in jobs {
        return None;
      }
      var record := jobs[id].(attempts := jobs[id].attempts + 1);
      jobs := jobs[id := record];
      return Some(Delivery(id, record));
    }

    method SettleJob(id: nat)
      modifies this
      ensures Contents() == Settle(old(Contents()), id)
    {
      jobs := jobs - {id};
    }

    method RequeueJob(id: nat, delayMs: nat, now: nat)
      modifies this
      ensures Contents() == Requeue(old(Contents()), id, delayMs, now)
    {
      if id in jobs {
        ready := ready + [Ticket(id, DueAfter(delayMs, now))];
      }
    }
  }

  lemma {:induction false} FirstDueOfNone(ready: seq<Ticket>, t: Ticket, now: nat)
    requires forall k :: 0 <= k < |ready| ==> !IsDue(ready[k], now)
    ensures FirstDue(ready + [t], now) == |ready| + if IsDue(t, now) then 0 else 1
    decreases |ready|
  {
    if ready != [] {
      assert (ready + [t])[1..] == ready[1..] + [t];
      FirstDueOfNone(ready[1..], t, now);
    }
  }

  /** A job put back with a delay is not handed out before it is over, whatever else waits; and from
      then on, with nothing else due, it is the one handed out, with an attempt more and the ready
      time it had. */
  lemma APutBackJobWaitsItsDelay(q: Queue, id: nat, delayMs: nat, now: nat, later: nat)
    requires id in q.jobs && later >= now && forall k :: 0 <= k < |q.ready| ==> q.ready[k].id != id
    ensures var d := Claim(Requeue(q, id, delayMs, now), later).1;
            && (later < now + delayMs && d.Some? ==> d.value.id != id)
            && (later >= now + delayMs && (forall k :: 0 <= k < |q.ready| ==> !IsDue(q.ready[k], later)) ==>
                  d == Some(Delivery(id, q.jobs[id].(attempts := q.jobs[id].attempts + 1))))
  {
    if forall k :: 0 <= k < |q.ready| ==> !IsDue(q.ready[k], later) {
      FirstDueOfNone(q.ready, Ticket(id, DueAfter(delayMs, now)), later);
    }
  }
}
