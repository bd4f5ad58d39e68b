/** The run driver: one `handle` call drives a run through as many steps as it can, and ends it or
    schedules it. Proved to make exactly the calls the machine of module Drives makes, with the run as
    it is written in place, so that whatever holds of the machine holds of it. */
module Executor {
  import opened Domain
  import opened Drives
  import opened Totality
  import opened WorkflowRuns
  import opened OutsidePorts
  import opened StepHandlers
  import opened Escalator

  /** The machine's failure, in the order the driver writes it: count first, then retry or give up. */
  lemma CountsFirst(d: Drive, s: StepName, e: Error, n: nat, counted: RunState)
    requires n == Attempts(d.run.state.books, s) + 1
    requires counted == d.run.state.(books := d.run.state.books.(attempts := d.run.state.books.attempts[s := n]))
    ensures var c := WithState(d, counted);
            Fail(d, s, e)
            == if PolicyFor(KindOf(e)).retryable && n <= d.run.maxRetries then
                 WithState(c, Forgotten(counted, s)).(pc := BackingOff(n))
               else Drives.Escalate(Drives.Ended(c, RunStatus.Failed, WithError(counted, s, e)), e, false)
  {
    hide Drives.Escalate;
  }

  lemma DeadlineIsARaise(d: Drive, s: StepName)
    ensures Fail(d, s, DeadlineExceeded) == React(d, s, Handled(d.run.state, Raises(DeadlineExceeded)))
  {
    hide Fail;
  }

  lemma ReactFromState(d: Drive, st: RunState, s: StepName, o: Outcome)
    ensures React(WithState(d, st), s, Handled(st, o)) == React(d, s, Handled(st, o))
  {
    hide Complete, Fail, Reject;
  }

  /** Two runs that differ in nothing but the working state. */
  predicate SameHead(a: Run, b: Run) {
    a.(state := b.state) == b
  }

  function Forgotten(st: RunState, s: StepName): RunState {
    var st' := ResetForRetry(st, s);
    st'.(books := st'.books.(attemptStartedAt := None))
  }

  class RunExecutor {
    const cfg: Settings
    const ports: Ports
    const handlers: StepHandlers
    const escalator: FailureEscalator

    ghost predicate Wired() {
      handlers.ports == ports && escalator.ports == ports && escalator.defaultTeam == cfg.defaultTeam
    }

    constructor (cfg: Settings, ports: Ports)
      ensures Wired() && this.cfg == cfg && this.ports == ports
    {
      this.cfg, this.ports := cfg, ports;
      handlers := new StepHandlers(ports);
      escalator := new FailureEscalator(ports, cfg.defaultTeam);
    }

    /** The machine has gone from `d`, which holds the run as it is written, to `next`. */
    ghost predicate At(d: Drive, next: Drive, run: WorkflowRun)
      reads ports, run
    {
      ports.Valid() && ports.drive == next && d.run == run.Value() && d.cfg == cfg && ports.start.cfg == cfg
    }

    /** The drive is over, and the run is what it ended with. */
    ghost predicate Ended(run: WorkflowRun)
      reads ports, run
    {
      ports.Valid() && ports.drive.pc.Finished? && ports.drive.run == run.Value()
    }

    /** A lost save is dropped; any other failure of a save raises. */
    method Save(run: WorkflowRun, ghost d: Drive) returns (raised: bool)
      requires d.pc.Saving? && At(d, d, run)
      modifies run, ports
      ensures ports.start == old(ports.start) && ports.loads == old(ports.loads)
            && run.Value().(version := d.run.version) == d.run
      ensures if raised then At(d, if d.pc.quiet then d.(pc := Finished) else Crash(d), run) else Ended(run)
    {
      hide Crash, IsTrace;
      var a := ports.Ask(SaveRun(run.Value()));
      if a.SaveOk? {
        run.version := run.version + 1;
      }
      return a.SaveFailed?;
    }

    /** Save on the crash path, where a second failure must not escape. */
    method SaveQuietly(run: WorkflowRun, ghost d: Drive)
      requires d.pc == Saving(true) && At(d, d, run)
      modifies run, ports
      ensures Ended(run) && ports.start == old(ports.start) && ports.loads == old(ports.loads)
    {
      var _ := Save(run, d);
    }

    method Schedule(run: WorkflowRun, delay: Time, ghost d: Drive) returns (raised: bool, ghost end: Drive)
      requires d.pc == Scheduling(delay) && At(d, d, run)
      modifies run, ports
      ensures ports.start == old(ports.start) && ports.loads == old(ports.loads)
      ensures if raised then At(end, Crash(end), run) else Ended(run)
    {
      hide Crash, IsTrace;
      var a := ports.Ask(ReadClock);
      run.scheduledAt := Some(a.now + delay);
      end := ports.drive;
      raised := Save(run, end);
    }

    /** A failed step is retried with backoff, or ends the run. */
    method OnStepError(run: WorkflowRun, step: StepName, error: Error, ghost d: Drive)
      returns (raised: bool, ghost end: Drive)
      requires Wired() && At(d, Fail(d, step, error), run)
      modifies run, ports
      ensures ports.start == old(ports.start) && ports.loads == old(ports.loads)
      ensures if raised then At(end, Crash(end), run) else Ended(run)
    {
      hide Fail, Drives.Escalate, Crash, IsTrace, WithError, ResetForRetry;
      var failed := (if step in run.stepAttempts then run.stepAttempts[step] else 0) + 1;
      run.stepAttempts := run.stepAttempts[step := failed];
      var kind := if error.StepFailure? then error.kind else Task;
      ghost var d' := WithState(d, run.State());
      CountsFirst(d, step, error, failed, run.State());
      if PolicyFor(kind).retryable && failed <= run.maxRetries {
        raised, end := Retry(run, step, failed, d');
      } else {
        raised, end := GiveUp(run, step, error, d');
      }
    }

    /** No retry is left, or none is any use. */
    method GiveUp(run: WorkflowRun, step: StepName, error: Error, ghost d: Drive)
      returns (raised: bool, ghost end: Drive)
      requires Wired()
      requires At(d, Drives.Escalate(Drives.Ended(d, RunStatus.Failed, WithError(d.run.state, step, error)), error, false), run)
      modifies run, ports
      ensures ports.start == old(ports.start) && ports.loads == old(ports.loads)
      ensures if raised then At(end, Crash(end), run) else Ended(run)
    {
      hide Crash, IsTrace, Drives.Escalate;
      run.errors := run.errors[step := error];
      run.status, run.scheduledAt := RunStatus.Failed, None;
      escalator.Escalate(run, error, false, Drives.Ended(d, RunStatus.Failed, WithError(d.run.state, step, error)));
      end := ports.drive;
      raised := Save(run, end);
    }

    method Retry(run: WorkflowRun, step: StepName, failed: nat, ghost d: Drive) returns (raised: bool, ghost end: Drive)
      requires Wired() && failed >= 1
      requires At(d, WithState(d, Forgotten(d.run.state, step)).(pc := BackingOff(failed)), run)
      modifies run, ports
      ensures ports.start == old(ports.start) && ports.loads == old(ports.loads)
      ensures if raised then At(end, Crash(end), run) else Ended(run)
    {
      hide Crash, IsTrace, ResetForRetry;
      handlers.ResetStepForRetry(run, step);
      run.attemptStartedAt := None;
      raised, end := BackOff(run, failed, WithState(d, Forgotten(d.run.state, step)).(pc := BackingOff(failed)));
    }

    method BackOff(run: WorkflowRun, failed: nat, ghost d: Drive) returns (raised: bool, ghost end: Drive)
      requires d.pc == BackingOff(failed) && failed >= 1 && At(d, d, run)
      modifies run, ports
      ensures ports.start == old(ports.start) && ports.loads == old(ports.loads)
      ensures if raised then At(end, Crash(end), run) else Ended(run)
    {
      hide Crash, IsTrace;
      var jitter := ports.Ask(DrawJitter);
      var backoff := cfg.retryBaseSeconds * Pow2(failed - 1) as real + jitter.seconds;
      assert backoff == Backoff(cfg.retryBaseSeconds, failed, jitter.seconds);
      raised, end := Schedule(run, backoff, d.(pc := Scheduling(backoff)));
    }
  
    /** The driving code itself failed. A run that already failed and escalated is only saved again. */
    method CrashRun(run: WorkflowRun, ghost d: Drive)
      requires Wired() && At(d, Crash(d), run)
      modifies run, ports
      ensures Ended(run) && ports.start == old(ports.start) && ports.loads == old(ports.loads)
    {
      hide Drives.Escalate, IsTrace;
      if run.status == RunStatus.Failed {
        SaveQuietly(run, d.(pc := Saving(true)));
        return;
      }
      if run.currentStep.Some? {
        run.errors := run.errors[run.currentStep.value := Unclassified];
      }
      run.status, run.scheduledAt := RunStatus.Failed, None;
      escalator.Escalate(run, Unclassified, true, d.(run := run.Value()));
      SaveQuietly(run, ports.drive);
    }

    /** The request was denied: no retry, no incident, but the resource is let go. */
    method RejectRun(run: WorkflowRun, step: StepName, ghost d: Drive) returns (raised: bool, ghost end: Drive)
      requires Wired() && At(d, Reject(d, step), run)
      modifies run, ports
      ensures ports.start == old(ports.start) && ports.loads == old(ports.loads)
      ensures if raised then At(end, Crash(end), run) else Ended(run)
    {
      hide Crash, IsTrace, Release;
      run.errors := run.errors[step := Denial];
      run.status, run.scheduledAt := Rejected, None;
      escalator.Reject(run, d.(run := run.Value()));
      end := ports.drive;
      raised := Save(run, end);
    }

    /** The log of started steps notes a step once, when it is first begun. */
    method NoteStart(run: WorkflowRun, step: StepName)
      requires ports.drive.pc == Begin(step) && At(ports.drive, ports.drive, run)
      modifies run, ports
      ensures ports.start == old(ports.start) && ports.loads == old(ports.loads) && At(ports.drive, ports.drive, run)
      ensures ports.drive.pc == if run.attemptStartedAt.Some? then CheckBudget(step, run.attemptStartedAt.value)
                                else StartAttempt(step)
      ensures SameHead(ports.drive.run, old(ports.drive.run))
    {
      hide IsTrace, React, FirstMove, Fail;
      var a := ports.Ask(ReadClock);
      if step !in run.stepStartedAt {
        run.stepStartedAt := run.stepStartedAt[step := a.now];
      }
    }

    /** The clock of an attempt runs from its first drive. */
    method NoteAttempt(run: WorkflowRun, step: StepName) returns (started: Time)
      requires At(ports.drive, ports.drive, run)
      requires ports.drive.pc == if run.attemptStartedAt.Some? then CheckBudget(step, run.attemptStartedAt.value)
                                 else StartAttempt(step)
      modifies run, ports
      ensures ports.start == old(ports.start) && ports.loads == old(ports.loads) && ports.drive.pc == CheckBudget(step, started)
      ensures At(ports.drive, ports.drive, run) && SameHead(ports.drive.run, old(ports.drive.run))
    {
      hide IsTrace, React, FirstMove, Fail;
      if run.attemptStartedAt.None? {
        var a := ports.Ask(ReadClock);
        run.attemptStartedAt := Some(a.now);
      }
      started := run.attemptStartedAt.value;
    }

    /** One attempt at a step: its clocks, its budget, its handler. */
    method AttemptStep(run: WorkflowRun, step: StepName) returns (r: Ending, ghost d: Drive)
      requires Wired() && ports.drive.pc == Begin(step) && At(ports.drive, ports.drive, run)
      modifies run, ports
      ensures ports.start == old(ports.start) && ports.loads == old(ports.loads)
      ensures At(d, React(d, step, Handled(run.State(), r)), run) && SameHead(d.run, old(ports.drive.run))
    {
      hide IsTrace, React, Fail, FirstMove;
      NoteStart(run, step);
      var started := NoteAttempt(run, step);
      d := ports.drive;
      var check := ports.Ask(ReadClock);
      if check.now - started > MaxDuration(step) {
        r := Raises(DeadlineExceeded);
        DeadlineIsARaise(d, step);
      } else {
        r := handlers.Execute(run, step, d);
        ReactFromState(d, run.State(), step, r);
        d := WithState(d, run.State());
      }
    }

    /** A step is done: on to the next one, or the run is complete. */
    method FinishStep(run: WorkflowRun, step: StepName, ghost d: Drive)
      returns (next: Option<StepName>, raised: bool, ghost end: Drive)
      requires At(d, Complete(d, step), run) && run.currentStep == Some(step)
      modifies run, ports
      ensures ports.start == old(ports.start) && ports.loads == old(ports.loads)
      ensures match next
              case Some(s) =>
                ports.drive.pc == Begin(s) && At(ports.drive, ports.drive, run) && run.currentStep == next
                && Rank(ports.drive) <= StepRank(run.runType, step) + 4
              case None => if raised then At(end, Crash(end), run) else Ended(run)
    {
      hide IsTrace, Crash, Rank, StepRank;
      CompleteRank(d, step);
      var plan := Plan(run.runType);
      run.stepAttempts := run.stepAttempts - {step};
      run.attemptStartedAt := None;
      end := WithState(d, run.State());
      next, raised := None, true;
      if InPlan(run.runType, step) {
        var idx := IndexInPlan(run.runType, step);
        if idx + 1 < |plan| {
          next := Some(plan[idx + 1]);
          run.currentStep := next;
        } else {
          raised, end := Conclude(run, end);
        }
      }
    }

    /** The last step is done: the run is complete. */
    method Conclude(run: WorkflowRun, ghost d: Drive) returns (raised: bool, ghost end: Drive)
      requires At(d, d.(run := d.run.(status := Completed, currentStep := None, scheduledAt := None), pc := Saving(false)), run)
      modifies run, ports
      ensures ports.start == old(ports.start) && ports.loads == old(ports.loads)
      ensures if raised then At(end, Crash(end), run) else Ended(run)
    {
      hide IsTrace, Crash;
      run.status, run.currentStep, run.scheduledAt := Completed, None, None;
      end := ports.drive;
      raised := Save(run, end);
    }

    /** Advance through synchronous steps until the run waits or ends. */
    method DriveRun(run: WorkflowRun) returns (raised: bool, ghost end: Drive)
      requires Wired() && ports.Valid() && ports.start.cfg == cfg
      requires !run.status.Terminal() && ports.drive == Start(cfg, run.Value())
      modifies run, ports
      ensures ports.start == old(ports.start) && ports.loads == old(ports.loads)
      ensures if raised then At(end, Crash(end), run) else Ended(run)
    {
      hide IsTrace, Complete, Fail, Crash, Reject, StepRank;
      var step := run.currentStep.GetOr(Plan(run.runType)[0]);
      run.status := Running;
      run.currentStep := Some(step);
      while true
        invariant ports.start == old(ports.start) && ports.loads == old(ports.loads)
        invariant ports.drive.pc == Begin(step) && At(ports.drive, ports.drive, run)
        invariant run.currentStep == Some(step)
        decreases Rank(ports.drive)
      {
        var r, d := AttemptStep(run, step);
        match r
        case Denies =>
          raised, end := RejectRun(run, step, d);
          return;
        case Raises(error) =>
          raised, end := OnStepError(run, step, error, d);
          return;
        case NotYet =>
          raised, end := Schedule(run, PollInterval(step), d.(pc := Scheduling(PollInterval(step))));
          return;
        case Done =>
          var next: Option<StepName>;
          next, raised, end := FinishStep(run, step, d);
          if next.None? {
            return;
          }
          step := next.value;
      }
    }
  
    /** Load a run and drive it. Only the load can raise: once a run is loaded, whatever its step, its
        handlers, the providers, the escalation and the saves come to, `handle` returns, having made the
        calls of one drive of that run from its start to its end, a bounded number of them, with at most
        one escalation. */
    method Handle(id: RunId) returns (raised: bool, ghost loaded: Loaded)
      requires Wired() && ports.Valid() && ports.drive.pc.Finished?
      modifies ports
      ensures ports.Valid() && ports.drive.pc.Finished? && ports.loads == old(ports.loads) + [id]
      ensures raised <==> loaded.LoadRaised?
      ensures loaded.Row? ==>
                loaded.run.id == id && IsTrace(Start(cfg, loaded.run), ports.log)
                && After(Start(cfg, loaded.run), ports.log).pc.Finished?
                && |ports.log| <= MOST_CALLS && After(Start(cfg, loaded.run), ports.log).escalations <= 1
    {
      hide IsTrace, Crash, Shape;
      var row := ports.Load(id, cfg);
      loaded := row;
      if row.LoadRaised? {
        return true, loaded;
      }
      if row.NoRow? || row.run.status.Terminal() {
        NothingToDrive(cfg, row);
        return false, loaded;
      }
      var run := new WorkflowRun(row.run);
      var failed, end := DriveRun(run);
      if failed {
        CrashRun(run, end);
      }
      OneEscalation(cfg, row.run, ports.log);
      return false, loaded;
    }
  }

  lemma OneEscalation(cfg: Settings, run: Run, es: seq<Event>)
    requires IsTrace(Start(cfg, run), es)
    ensures |es| <= MOST_CALLS && After(Start(cfg, run), es).escalations <= 1
  {
    hide Start, IsTrace, After;
    HandleIsTotal(cfg, run, es);
  }

  lemma NothingToDrive(cfg: Settings, row: Loaded)
    requires row.Row? ==> row.run.status.Terminal()
    ensures row.Row? ==> Start(cfg, row.run).pc.Finished? && Start(cfg, row.run).escalations == 0
    ensures row.Row? ==> IsTrace(Start(cfg, row.run), []) && After(Start(cfg, row.run), []) == Start(cfg, row.run)
  {
  }
}
