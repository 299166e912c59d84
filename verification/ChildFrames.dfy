/** What a well-behaved child says about each task, in its own words, and what the supervisor makes
    of it. */
module ChildFrames {
  import opened Results
  import opened Msgpack
  import opened Supervision

  /** How a task can end in the child. */
  datatype Ending =
    | NoSuchTask(why: string)
    | Returned(result: Blob)
    | SoftTimedOut(why: string)
    | Rejected(why: string)
    | AskedAgain(why: string, delayMs: nat)
    | TimedOut(why: string)
    | Raised(kind: string, traceback: string)

  function Failure(taskId: nat, kind: string, why: string, directive: string, delayMs: nat): seq<Value> {
    [Str("Nack"), Int(taskId), Str(kind), Str(why), Str(directive), Int(delayMs)]
  }

  /** The frame the child sends for it. */
  function FrameFor(taskId: nat, e: Ending): seq<Value> {
    match e
    case NoSuchTask(why) => Failure(taskId, "UnknownTask", why, "", 0)
    case Returned(result) => [Str("Ack"), Int(taskId), Bin(result)]
    case SoftTimedOut(why) => Failure(taskId, "SoftTimeout", why, "", 0)
    case Rejected(why) => Failure(taskId, "Reject", why, "reject", 0)
    case AskedAgain(why, delayMs) => Failure(taskId, "Retry", why, "retry", delayMs)
    case TimedOut(why) => Failure(taskId, "TimeoutError", why, "", 0)
    case Raised(kind, traceback) => Failure(taskId, kind, traceback, "", 0)
  }

  /** What it is meant to come to: a success with its result; a failure under the retry policy; one
      that is not to be tried again; or one to be tried again after that long. */
  function Meant(e: Ending): Outcome {
    match e
    case NoSuchTask(why) => Nack("UnknownTask", why)
    case Returned(result) => Outcome(true, result, "", "", Policy)
    case SoftTimedOut(why) => Nack("SoftTimeout", why)
    case Rejected(why) => Outcome(false, Empty, "Reject", why, Reject)
    case AskedAgain(why, delayMs) => Outcome(false, Empty, "Retry", why, RetryAfter(delayMs))
    case TimedOut(why) => Nack("TimeoutError", why)
    case Raised(kind, traceback) => Nack(kind, traceback)
  }

  const READY: seq<Value> := [Str("Ready")]

  function ProgressFrame(taskId: nat, progress: Blob): seq<Value> {
    [Str("Progress"), Int(taskId), Bin(progress)]
  }

  /** Whatever way a task ends, the supervisor reads just what the child meant, for the same job; a
      delay, read into 32 bits of milliseconds, exactly when it fits them. */
  lemma WhatIsSentIsRead(taskId: nat, e: Ending)
    requires taskId < 0x1_0000_0000_0000_0000 && (e.AskedAgain? ==> e.delayMs < 0x1_0000_0000_0000_0000)
    ensures Read(FrameFor(taskId, e)) == Answer(taskId, Meant(e)) <==> (e.AskedAgain? ==> e.delayMs < 0x1_0000_0000)
    ensures var r := Read(FrameFor(taskId, e)); r.Answer? && r.taskId == taskId && r.outcome.ok == Meant(e).ok
  {
    assert AsStr(FrameFor(taskId, e)[0]) == Some(if e.Returned? then "Ack" else "Nack");
  }

  /** Its other frames are what they say, and none is too short, ends the loop, or is taken for an answer. */
  lemma TheOthersAreKnown(taskId: nat, progress: Blob)
    ensures Read(READY) == IsReady && Read(ProgressFrame(taskId, progress)) == IsProgress
  {
  }
}
