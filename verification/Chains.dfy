/** Chains: how a client packs one, how the supervisor takes it apart one step at a
    time, and that the two together are a left fold over the steps. */
module Chains {
  import opened Results
  import opened Msgpack

  /** A job as it is handed to a broker. */
  datatype NewJob = NewJob(
    id: string, queue: string, name: string, payload: Blob, timeoutMs: nat,
    chain: Blob, meta: Blob, expiresMs: nat)

  // -------------------------------------------------------- the supervisor

  /** Put the previous result in front of the arguments; a payload that is not a pair
      headed by an argument list is passed on untouched. */
  function PrependResult(payload: Blob, result: Blob): Blob {
    match Decode(payload)
    case Some(Array(parts)) =>
      if |parts| != 2 then payload
      else (match parts[0]
            case Array(args) => Packed(Array([Array([Or(Decode(result), Nil)] + args), parts[1]]))
            case _ => payload)
    case _ => payload
  }

  /** The job a successful step queues, if its chain has a usable first row. */
  function NextJob(chain: Blob, result: Blob): Option<NewJob> {
    match Decode(chain)
    case Some(Array(steps)) =>
      if steps == [] then None
      else (match steps[0]
            case Array(f) => if |f| < 6 then None else Some(JobOfRow(f, steps[1..], result))
            case _ => None)
    case _ => None
  }

  function JobOfRow(f: seq<Value>, rest: seq<Value>, result: Blob): NewJob
    requires |f| >= 6
  {
    var payload := Or(AsBlob(f[2]), Empty);
    NewJob(
      Or(AsStr(f[0]), ""),
      Or(AsStr(f[4]), "default"),
      Or(AsStr(f[1]), ""),
      if Or(AsBool(f[5]), true) then PrependResult(payload, result) else payload,
      AsU32(Or(AsU64(f[3]), 0)),
      if rest == [] then Empty else Packed(Array(rest)),
      Empty,
      0)
  }

  function TailLength(chain: Blob): nat {
    match Decode(chain)
    case Some(Array(steps)) => |steps|
    case _ => 0
  }

  /** Whatever the bytes were, a hop leaves a tail one step shorter and inherits neither
      the sender's metadata nor its expiry. */
  lemma EachHopShortensTheTail(chain: Blob, result: Blob)
    requires NextJob(chain, result).Some?
    ensures var next := NextJob(chain, result).value;
            && TailLength(next.chain) == TailLength(chain) - 1
            && next.meta == Empty && next.expiresMs == 0
  {
  }

  // ------------------------------------------------------------- the client

  /** A task with its arguments, not yet sent. */
  datatype Signature = Signature(
    taskId: string, name: string, args: seq<Value>, kwargs: seq<(Value, Value)>,
    timeoutMs: nat, queue: string, feed: bool)

  function PackArgs(args: seq<Value>, kwargs: seq<(Value, Value)>): Blob {
    Packed(Array([Array(args), Map(kwargs)]))
  }

  function Row(s: Signature): Value {
    Array([Str(s.taskId), Str(s.name), Bin(PackArgs(s.args, s.kwargs)), Int(s.timeoutMs), Str(s.queue), Bool(s.feed)])
  }

  function PackTail(steps: seq<Signature>): Blob {
    if steps == [] then Empty else Packed(Array(Rows(steps)))
  }

  /** What sending a chain puts on the queue: the head, carrying the rest packed. */
  function Send(steps: seq<Signature>): NewJob
    requires steps != []
  {
    var head := steps[0];
    NewJob(head.taskId, head.queue, head.name, PackArgs(head.args, head.kwargs), head.timeoutMs,
           PackTail(steps[1..]), Empty, 0)
  }

  // ------------------------------------------------ running a chain to its end

  /** A task's code: its arguments to an answer, or a failure. */
  type Handler = (string, seq<Value>, seq<(Value, Value)>) -> Option<Value>

  /** The child unpacks the payload, calls the task and packs what it returned. */
  function Call(job: NewJob, h: Handler): Option<Value> {
    match Decode(job.payload)
    case Some(Array(parts)) =>
      if |parts| == 2 && parts[0].Array? && parts[1].Map? then h(job.name, parts[0].items, parts[1].entries) else None
    case _ => None
  }

  /** Every job a chain queues, in order, and what its last one answered. */
  datatype Trace = Trace(jobs: seq<NewJob>, last: Option<Value>)

  function Run(job: NewJob, h: Handler): Trace
    decreases TailLength(job.chain)
  {
    match Call(job, h)
    case None => Trace([job], None)
    case Some(v) =>
      var next := NextJob(job.chain, Packed(v));
      if next.None? then Trace([job], Some(v))
      else
        EachHopShortensTheTail(job.chain, Packed(v));
        var rest := Run(next.value, h);
        Trace([job] + rest.jobs, rest.last)
  }

  /** The plain left fold: each step's answer fed to the next, one failure ending it. */
  function Fold(steps: seq<Signature>, k: nat, h: Handler): Option<Value>
    requires k < |steps|
  {
    if k == 0 then h(steps[0].name, steps[0].args, steps[0].kwargs)
    else match Fold(steps, k - 1, h)
      case None => None
      case Some(v) => h(steps[k].name, (if steps[k].feed then [v] else []) + steps[k].args, steps[k].kwargs)
  }

  /** The arguments step `k` should be called with. */
  function FedArgs(steps: seq<Signature>, k: nat, h: Handler): seq<Value>
    requires k < |steps| && (k > 0 ==> Fold(steps, k - 1, h).Some?)
  {
    (if k > 0 && steps[k].feed then [Fold(steps, k - 1, h).value] else []) + steps[k].args
  }

  /** The job that step `k` should be: its own id, name, queue and timeout, its arguments
      with the fold so far in front, and the steps after it still packed. */
  function StepJob(steps: seq<Signature>, k: nat, h: Handler): NewJob
    requires k < |steps| && (k > 0 ==> Fold(steps, k - 1, h).Some?)
  {
    NewJob(steps[k].taskId, steps[k].queue, steps[k].name, PackArgs(FedArgs(steps, k, h), steps[k].kwargs),
           steps[k].timeoutMs, PackTail(steps[k + 1..]), Empty, 0)
  }

  /** Timeouts that fit the 32 bits a job carries them in. */
  ghost predicate Sendable(steps: seq<Signature>) {
    steps != [] && forall k :: 0 <= k < |steps| ==> steps[k].timeoutMs < 0x1_0000_0000
  }

  /** A row read back is the step it was packed from, fed if it asked to be. */
  lemma RowMakesItsJob(s: Signature, rest: seq<Value>, v: Value)
    requires s.timeoutMs < 0x1_0000_0000
    ensures JobOfRow(Row(s).items, rest, Packed(v))
            == NewJob(s.taskId, s.queue, s.name, PackArgs((if s.feed then [v] else []) + s.args, s.kwargs), s.timeoutMs,
                      if rest == [] then Empty else Packed(Array(rest)), Empty, 0)
  {
    assert [] + s.args == s.args;
  }

  function Rows(steps: seq<Signature>): seq<Value> {
    seq(|steps|, i requires 0 <= i < |steps| => Row(steps[i]))
  }

  /** One split and one splice: from step `k`'s job to step `k + 1`'s. */
  lemma OneHop(steps: seq<Signature>, k: nat, h: Handler)
    requires Sendable(steps) && k < |steps| && Fold(steps, k, h).Some?
    ensures k + 1 < |steps| ==> NextJob(PackTail(steps[k + 1..]), Packed(Fold(steps, k, h).value))
                                == Some(StepJob(steps, k + 1, h))
    ensures k + 1 == |steps| ==> NextJob(PackTail(steps[k + 1..]), Packed(Fold(steps, k, h).value)) == None
  {
    if k + 1 < |steps| {
      var v := Fold(steps, k, h).value;
      var tail := steps[k + 1..];
      assert tail[0] == steps[k + 1];
      assert Rows(tail)[0] == Row(steps[k + 1]);
      assert Rows(tail)[1..] == Rows(steps[k + 2..]);
      RowMakesItsJob(steps[k + 1], Rows(tail)[1..], v);
    }
  }

  lemma StepCalls(steps: seq<Signature>, k: nat, h: Handler)
    requires k < |steps| && (k > 0 ==> Fold(steps, k - 1, h).Some?)
    ensures Call(StepJob(steps, k, h), h) == Fold(steps, k, h)
  {
    assert [] + steps[k].args == steps[k].args;
  }

  /** How many steps a chain gets through: all of them, or up to the first that fails. */
  function Reached(steps: seq<Signature>, from: nat, h: Handler): (n: nat)
    requires from < |steps|
    ensures from < n <= |steps|
    ensures forall k :: from <= k < n - 1 ==> Fold(steps, k, h).Some?
    ensures n < |steps| ==> Fold(steps, n - 1, h).None?
    decreases |steps| - from
  {
    if from + 1 == |steps| || Fold(steps, from, h).None? then from + 1 else Reached(steps, from + 1, h)
  }

  /** `t` is what steps `from` up to `n` should queue, ending in the fold's answer. */
  ghost predicate Follows(t: Trace, steps: seq<Signature>, from: nat, n: nat, h: Handler) {
    && from < n <= |steps| && |t.jobs| == n - from
    && (forall j :: 0 <= j < |t.jobs| ==> IsStepJob(t.jobs[j], steps, from + j, h))
    && t.last == Fold(steps, n - 1, h)
  }

  ghost predicate IsStepJob(job: NewJob, steps: seq<Signature>, i: nat, h: Handler) {
    i < |steps| && (i > 0 ==> Fold(steps, i - 1, h).Some?) && job == StepJob(steps, i, h)
  }

  lemma RunOneStep(steps: seq<Signature>, k: nat, h: Handler)
    requires Sendable(steps) && k < |steps| && (k > 0 ==> Fold(steps, k - 1, h).Some?)
    ensures var t := Run(StepJob(steps, k, h), h);
            if k + 1 == |steps| || Fold(steps, k, h).None? then t == Trace([StepJob(steps, k, h)], Fold(steps, k, h))
            else var rest := Run(StepJob(steps, k + 1, h), h);
                 t == Trace([StepJob(steps, k, h)] + rest.jobs, rest.last)
  {
    StepCalls(steps, k, h);
    if Fold(steps, k, h).Some? { OneHop(steps, k, h); }
  }

  lemma FollowsFromEarlier(job: NewJob, rest: Trace, steps: seq<Signature>, k: nat, n: nat, h: Handler)
    requires IsStepJob(job, steps, k, h) && Follows(rest, steps, k + 1, n, h)
    ensures Follows(Trace([job] + rest.jobs, rest.last), steps, k, n, h)
  {
    var t := Trace([job] + rest.jobs, rest.last);
    forall j | 0 <= j < |t.jobs| ensures IsStepJob(t.jobs[j], steps, k + j, h) {
      if j > 0 {
        assert t.jobs[j] == rest.jobs[j - 1];
        assert k + 1 + (j - 1) == k + j;
      }
    }
  }

  lemma {:induction false} RunFollowsTheFold(steps: seq<Signature>, k: nat, h: Handler)
    requires Sendable(steps) && k < |steps| && (k > 0 ==> Fold(steps, k - 1, h).Some?)
    ensures Follows(Run(StepJob(steps, k, h), h), steps, k, Reached(steps, k, h), h)
    decreases |steps| - k
  {
    RunOneStep(steps, k, h);
    assert IsStepJob(StepJob(steps, k, h), steps, k + 0, h);
    if k + 1 < |steps| && Fold(steps, k, h).Some? {
      RunFollowsTheFold(steps, k + 1, h);
      FollowsFromEarlier(StepJob(steps, k, h), Run(StepJob(steps, k + 1, h), h), steps, k, Reached(steps, k + 1, h), h);
    }
  }

  lemma SendIsTheFirstStep(steps: seq<Signature>, h: Handler)
    requires Sendable(steps)
    ensures Send(steps) == StepJob(steps, 0, h)
  {
    assert [] + steps[0].args == steps[0].args;
  }

  /** Sending a chain and letting the supervisor advance it queues exactly the fold's jobs:
      step `i`'s minted id, name, queue and timeout, the previous answer in front of its
      arguments exactly when it asked for it, and nothing after a step that failed. The last
      answer is the fold's, filed under the id the client already holds. */
  lemma ChainIsALeftFold(steps: seq<Signature>, h: Handler)
    requires Sendable(steps)
    ensures var t, n := Run(Send(steps), h), Reached(steps, 0, h);
            && Follows(t, steps, 0, n, h)
            && (t.last.Some? ==> n == |steps| && t.jobs[n - 1].id == steps[|steps| - 1].taskId)
  {
    SendIsTheFirstStep(steps, h);
    RunFollowsTheFold(steps, 0, h);
    var t, n := Run(Send(steps), h), Reached(steps, 0, h);
    assert IsStepJob(t.jobs[n - 1], steps, 0 + (n - 1), h);
  }
}
