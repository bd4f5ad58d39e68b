/** The worker loop: claim one due run, drive it, claim again, whatever either of them comes to. */
module Worker {
  import opened Domain
  import opened Executor

  /** What a claim for one run can come to. */
  datatype Claim = ClaimFailed | NothingDue | Claimed(id: RunId)

  /** The runs claimed, in order. */
  function ClaimedRuns(claims: seq<Claim>): seq<RunId> {
    if claims == [] then []
    else ClaimedRuns(claims[..|claims| - 1]) + if claims[|claims| - 1].Claimed? then [claims[|claims| - 1].id] else []
  }

  class RunWorker {
    const executor: RunExecutor
    var idled: nat
    var escaped: nat

    constructor (executor: RunExecutor)
      ensures this.executor == executor && idled == 0 && escaped == 0
    {
      this.executor, idled, escaped := executor, 0, 0;
    }

    /** Work through what the store answers to one claim after the other until a stop is requested, at
        claim number `stop` or after the last answer. Every claimed run is loaded once, in order, nothing
        else is, each is driven to its end before the next, and neither a failed claim nor a drive that raises ends the loop. */
    method Run(claims: seq<Claim>, stop: nat)
      requires executor.Wired() && executor.ports.Valid() && executor.ports.drive.pc.Finished? && stop <= |claims|
      modifies this, executor.ports
      ensures executor.ports.loads == old(executor.ports.loads) + ClaimedRuns(claims[..stop])
      ensures executor.ports.Valid() && executor.ports.drive.pc.Finished?
      ensures idled == old(idled) + stop - |ClaimedRuns(claims[..stop])|
    {
      for i := 0 to stop
        invariant executor.ports.Valid() && executor.ports.drive.pc.Finished?
        invariant executor.ports.loads == old(executor.ports.loads) + ClaimedRuns(claims[..i])
        invariant idled == old(idled) + i - |ClaimedRuns(claims[..i])|
      {
        assert claims[..i + 1] == claims[..i] + [claims[i]] && claims[..i + 1][..i] == claims[..i];
        match claims[i]
        case ClaimFailed => Idle();
        case NothingDue => Idle();
        case Claimed(id) =>
          var raised, _ := executor.Handle(id);
          if raised {
            escaped := escaped + 1;
          }
      }
    }

    /** Wait one poll interval. */
    method Idle()
      modifies this`idled
      ensures idled == old(idled) + 1
    {
      idled := idled + 1;
    }
  }
}
