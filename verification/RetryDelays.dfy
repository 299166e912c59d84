/** The supervision machine's retries wait what the registered backoff says. */
module RetryDelays {
  import opened Supervision
  import opened ChildRuns
  import Backoff

  /** The backoff of every task by its registered policy, in whole milliseconds, over its ids' bytes. */
  function Registered(policy: string -> Backoff.Policy, utf8: string -> seq<Backoff.Byte>)
      : (string, nat, string) -> nat {
    (name, attempt, id) =>
      Backoff.DelayIsInTheTopHalf(policy(name), attempt, utf8(id));
      Backoff.Delay(policy(name), attempt, utf8(id)).Floor
  }

  /** Over every run, a failure that asked for no delay of its own is retried after its backoff: in the
      top half of the window its attempt has come to, or at once if its task asked for no backoff. */
  lemma RetriesWaitTheirBackoff(events: seq<Event>, cfg: Cfg, policy: string -> Backoff.Policy,
                                utf8: string -> seq<Backoff.Byte>, i: nat)
    requires cfg.backoff == Registered(policy, utf8)
    requires i < |Run(events, cfg).calls| && Run(events, cfg).calls[i].Retry?
    requires Run(events, cfg).calls[i].item.outcome.directive == Policy
    ensures var call := Run(events, cfg).calls[i];
            var job := call.item.job;
            var window := Backoff.Window(policy(job.job.name), job.attempt);
            && call.delayMs == Backoff.Delay(policy(job.job.name), job.attempt, utf8(job.job.id)).Floor
            && window / 2 <= call.delayMs <= window
            && (call.delayMs == 0 <==> policy(job.job.name).Never?)
  {
    EveryCallIsTheRightOne(events, cfg);
    var call := Run(events, cfg).calls[i];
    assert Right(call, Run(events, cfg).calls[..i], cfg);
    var job := call.item.job;
    Backoff.DelayIsInTheTopHalf(policy(job.job.name), job.attempt, utf8(job.job.id));
    Backoff.WindowIsASecondAtLeast(policy(job.job.name), job.attempt);
  }
}
