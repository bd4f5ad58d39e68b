/** What every committed row of a triggered run looks like, and what every drive of one keeps: the
    log of started steps, the attempt counters, the errors, the markers of earlier steps. */
module Bookkeeping {
  import opened Domain
  import opened Drives
  import opened StoredRows
  import opened Totality

  /** The plan position of a step. */
  function Pos(run: Run, s: StepName): nat {
    IndexInPlan(run.runType, s)
  }

  /** The markers that say how far a run has come: those of the first `i` steps of its plan are
      set, the later ones are not. Also what the trigger supplies for the run type. */
  predicate Markers(run: Run, i: nat) {
    var st := run.state;
    match run.runType
    case Resource =>
      st.resource.Some?
      && (st.ticket.Some? <==> i > 0)
      && (st.resourceConfigured <==> i > 1)
      && (i > 4 ==> st.engineRunId.Some?)
      && (i < 4 ==> st.engineRunId.None?)
      && (st.resourceFinalized <==> i > 5)
      && (st.ticketClosed <==> i > 6)
    case Automation =>
      st.resource.None? && st.ticket.Some? && !st.resourceConfigured
      && (i > 0 ==> st.engineRunId.Some?)
      && (st.ticketClosed <==> i > 1)
    case Legacy =>
      st.resource.None? && st.request.legacy.Some? && !st.resourceConfigured
      && (st.legacySubmitted <==> i > 0)
  }

  /** The log of started steps holds exactly the first `n` steps of the plan, in order of time, and
      nothing later than `now`. */
  ghost predicate StartedTo(t: RunType, log: map<StepName, Time>, n: nat, now: Time) {
    (forall s :: s in log <==> IndexInPlan(t, s) < n)
    && (forall s, s' :: s in log && s' in log && IndexInPlan(t, s) <= IndexInPlan(t, s') ==> log[s] <= log[s'])
    && (forall s :: s in log ==> log[s] <= now)
  }

  ghost predicate Started(run: Run, n: nat, now: Time) {
    StartedTo(run.runType, run.state.books.startedAt, n, now)
  }

  /** Attempts are counted for the step the run is at and for no other. */
  ghost predicate CountedFor(attempts: map<StepName, nat>, s: StepName, most: nat) {
    (forall t :: t in attempts ==> t == s) && (s in attempts ==> attempts[s] <= most)
  }

  ghost predicate Counted(run: Run, s: StepName, most: nat) {
    CountedFor(run.state.books.attempts, s, most)
  }

  /** A run under way at step `s`, which it has begun. */
  ghost predicate UnderWay(run: Run, s: StepName, now: Time) {
    && run.status == Running && run.currentStep == Some(s) && InPlan(run.runType, s)
    && Counted(run, s, run.maxRetries)
    && run.state.books.errors == map[]
    && Started(run, Pos(run, s) + 1, now)
    && (run.state.books.attemptStartedAt.Some? ==> run.state.books.attemptStartedAt.value <= now)
  }

  /** A run that has ended: nothing is scheduled any more, at most one step has an error, and the log
      of started steps reaches the step it ended at. */
  ghost predicate Over(run: Run, now: Time) {
    && run.status.Terminal() && run.scheduledAt == None
    && match run.currentStep
       case None =>
         run.status != Rejected && run.state.books.errors == map[] && run.state.books.attempts == map[]
         && Started(run, |Plan(run.runType)|, now)
         && (run.status == Completed ==> Markers(run, |Plan(run.runType)|))
       case Some(s) =>
         run.status != Completed && InPlan(run.runType, s)
         && Counted(run, s, run.maxRetries + 1)
         && (forall t :: t in run.state.books.errors <==> t == s)
         && Started(run, Pos(run, s) + 1, now)
         && (run.status == Rejected ==> s == AwaitApproval)
  }

  /** A stored row of a run made by `trigger` or `trigger_legacy`. */
  ghost predicate Row(run: Run, now: Time) {
    match run.status
    case Pending =>
      run.currentStep == None && run.scheduledAt.Some? && Markers(run, 0) && run.state.engineRunId.None?
      && run.state.books.attempts == map[] && run.state.books.errors == map[] && run.state.books.attemptStartedAt == None
      && Started(run, 0, now)
    case Running =>
      run.currentStep.Some? && run.scheduledAt.Some?
      && UnderWay(run, run.currentStep.value, now) && Markers(run, Pos(run, run.currentStep.value))
    case _ => Over(run, now)
  }

  /** The values a drive holds on to agree with its copy of the run. */
  predicate Holds(run: Run, pc: Pc) {
    var st := run.state;
    match pc
    case Begin(s) => run.currentStep == Some(s)
    case StartAttempt(s) => run.currentStep == Some(s) && st.books.attemptStartedAt.None?
    case CheckBudget(s, t) => run.currentStep == Some(s) && st.books.attemptStartedAt == Some(t)
    case BackingOff(n) => run.currentStep.Some? && n == Attempts(st.books, run.currentStep.value) && 1 <= n
    case Releasing(r, _) => ResourceInFlight(st) == Some(r)
    case Refusing(t) => st.ticket == Some(t)
    case Annotating(t, _, _) => st.ticket == Some(t)
    case _ =>
      InStep(pc) ==> run.currentStep == Some(StepOf(pc)) && st.books.attemptStartedAt.Some? && HoldsInStep(st, pc)
  }

  predicate HoldsInStep(st: RunState, pc: Pc)
    requires InStep(pc)
  {
    match pc
    case Ordering => st.ticket.None?
    case Configuring(r) => st.resource == Some(r) && !st.resourceConfigured
    case AwaitingApproval(t) => st.ticket == Some(t)
    case Validating(r) => st.resource == Some(r)
    case Triggering => st.engineRunId.None?
    case Querying(e) => st.engineRunId == Some(e)
    case FetchingOutput(e) => st.engineRunId == Some(e) && st.resource.Some?
    case FetchingFailure(e) => st.engineRunId == Some(e)
    case Finalizing(r) => st.resource == Some(r) && !st.request.operation.Delete? && !st.resourceFinalized
    case Retiring(r) => st.resource == Some(r) && st.request.operation.Delete? && !st.resourceFinalized
    case Removing(r) => st.resource == Some(r) && st.request.operation.Delete? && !st.resourceFinalized
    case Closing(t) => st.ticket == Some(t) && !st.ticketClosed
    case Submitting(p) => st.request.legacy == Some(p) && !st.legacySubmitted
  }

  /** At the head of the loop for the step the run is at, which it may have begun before. */
  ghost predicate AtHead(run: Run, now: Time) {
    && run.status == Running && run.currentStep.Some? && InPlan(run.runType, run.currentStep.value)
    && Counted(run, run.currentStep.value, run.maxRetries)
    && run.state.books.errors == map[]
    && (Started(run, Pos(run, run.currentStep.value), now)
        || Started(run, Pos(run, run.currentStep.value) + 1, now))
    && (run.state.books.attemptStartedAt.Some? ==> run.state.books.attemptStartedAt.value <= now)
    && Markers(run, Pos(run, run.currentStep.value))
  }

  /** At a step it has begun, with that step's work still to do. */
  ghost predicate AtStep(run: Run, now: Time) {
    && run.currentStep.Some? && UnderWay(run, run.currentStep.value, now)
    && Markers(run, Pos(run, run.currentStep.value))
  }

  /** Between two calls of a drive. */
  ghost predicate Driving(d: Drive, now: Time) {
    Holds(d.run, d.pc)
    && if d.pc.Finished? then true
       else if d.pc.Saving? then !d.run.status.Pending? && Row(d.run, now)
       else if d.pc.Begin? then AtHead(d.run, now)
       else if Escalating(d.pc) then Over(d.run, now)
       else AtStep(d.run, now)
  }

  // --- The log and the counters ---

  lemma StartedNext(t: RunType, log: map<StepName, Time>, s: StepName, before: Time, now: Time)
    requires InPlan(t, s) && before <= now
    requires StartedTo(t, log, IndexInPlan(t, s), before)
    ensures s !in log && StartedTo(t, log[s := now], IndexInPlan(t, s) + 1, now)
  {
  }

  lemma StartedAgain(t: RunType, log: map<StepName, Time>, s: StepName, before: Time, now: Time)
    requires InPlan(t, s) && before <= now
    requires StartedTo(t, log, IndexInPlan(t, s) + 1, before)
    ensures s in log && StartedTo(t, log, IndexInPlan(t, s) + 1, now)
  {
  }

  lemma CountedOnce(attempts: map<StepName, nat>, s: StepName, most: nat)
    requires CountedFor(attempts, s, most)
    ensures attempts - {s} == map[] && forall t, m: nat :: CountedFor(attempts - {s}, t, m)
    ensures var n := if s in attempts then attempts[s] + 1 else 1;
            n <= most + 1
            && forall m: nat {:trigger CountedFor(attempts[s := n], s, m)} :: n <= m ==> CountedFor(attempts[s := n], s, m)
  {
  }

  // --- A drive keeps it ---

  lemma StartKeeps(cfg: Settings, run: Run, now: Time)
    requires Row(run, now)
    ensures Driving(Start(cfg, run), now)
  {
    hide StartedTo;
  }

  lemma LoopKeeps(d: Drive, before: Time, now: Time)
    requires d.pc.Begin? || d.pc.StartAttempt?
    requires Driving(d, before) && before <= now
    ensures Driving(ResumeLoop(d, now), now)
  {
    hide CountedFor, IndexInPlan, StartedTo;
    var run := d.run;
    var log := run.state.books.startedAt;
    var s := d.pc.step;
    if d.pc.Begin? && Started(run, Pos(run, s), before) {
      StartedNext(run.runType, log, s, before, now);
    } else {
      StartedAgain(run.runType, log, s, before, now);
    }
  }

  lemma NextKeeps(d: Drive, s: StepName, now: Time)
    requires UnderWay(d.run, s, now) && Markers(d.run, Pos(d.run, s) + 1)
    requires Pos(d.run, s) + 1 < |Plan(d.run.runType)|
    ensures var run := d.run.(state := Settle(d.run.state, s));
            Driving(Enter(d.(run := run), Plan(run.runType)[Pos(d.run, s) + 1]), now)
  {
    hide StartedTo, HoldsInStep, CountedFor, Plan;
    CountedOnce(d.run.state.books.attempts, s, d.run.maxRetries);
    IndexIsPosition(d.run.runType, Pos(d.run, s) + 1);
  }

  lemma LastKeeps(run: Run, s: StepName, now: Time)
    requires UnderWay(run, s, now) && Pos(run, s) + 1 == |Plan(run.runType)|
    requires Markers(run, |Plan(run.runType)|)
    ensures Over(run.(state := Settle(run.state, s), status := Completed, currentStep := None,
                      scheduledAt := None), now)
  {
    hide StartedTo, CountedFor, Plan, IndexInPlan;
    CountedOnce(run.state.books.attempts, s, run.maxRetries);
  }

  lemma CompleteKeeps(d: Drive, s: StepName, now: Time)
    requires UnderWay(d.run, s, now) && Markers(d.run, Pos(d.run, s) + 1)
    ensures Driving(Complete(d, s), now)
  {
    hide StartedTo, CountedFor, HoldsInStep, Plan, IndexInPlan, Over, Settle, Markers, AtHead, AtStep, Crash;
    if Pos(d.run, s) + 1 < |Plan(d.run.runType)| {
      NextKeeps(d, s, now);
    } else {
      LastKeeps(d.run, s, now);
    }
  }

  lemma ReleaseKeeps(d: Drive, quiet: bool, now: Time)
    requires Over(d.run, now)
    ensures Driving(Release(d, quiet), now)
  {
    hide StartedTo, CountedFor, HoldsInStep, IndexInPlan, Markers;
  }

  lemma RefuseKeeps(d: Drive, now: Time)
    requires Over(d.run, now)
    ensures Driving(Refuse(d), now)
  {
    hide Release, StartedTo, CountedFor, HoldsInStep, IndexInPlan, Markers, Over, AtStep, AtHead;
    ReleaseKeeps(d, false, now);
  }

  lemma EscalateKeeps(d: Drive, e: Error, quiet: bool, now: Time)
    requires Over(d.run, now)
    ensures Driving(Escalate(d, e, quiet), now)
  {
    hide Refuse, StartedTo, CountedFor, HoldsInStep, IndexInPlan, Markers, Over, AtStep, AtHead;
    RefuseKeeps(d.(escalations := d.escalations + 1), now);
  }

  lemma RetryKeeps(d: Drive, s: StepName, now: Time)
    requires UnderWay(d.run, s, now) && Markers(d.run, Pos(d.run, s))
    requires Attempts(d.run.state.books, s) < d.run.maxRetries
    ensures AtStep(d.run.(state := RetryState(d.run.state, s)), now)
  {
    hide StartedTo, CountedFor;
    CountedOnce(d.run.state.books.attempts, s, d.run.maxRetries);
  }

  lemma FailedIsOver(d: Drive, s: StepName, e: Error, now: Time)
    requires UnderWay(d.run, s, now)
    ensures Over(Ended(d, RunStatus.Failed, FailedState(d.run.state, s, e)).run, now)
  {
    hide StartedTo, CountedFor, IndexInPlan;
    CountedOnce(d.run.state.books.attempts, s, d.run.maxRetries);
  }

  lemma FailKeeps(d: Drive, s: StepName, e: Error, now: Time)
    requires UnderWay(d.run, s, now) && Markers(d.run, Pos(d.run, s))
    ensures Driving(Fail(d, s, e), now)
  {
    hide StartedTo, CountedFor, Escalate, Markers, AtStep, AtHead, Row, Over, HoldsInStep;
    if MayRetry(d.run, s, e) {
      RetryKeeps(d, s, now);
    } else {
      FailedIsOver(d, s, e, now);
      EscalateKeeps(Ended(d, RunStatus.Failed, FailedState(d.run.state, s, e)), e, false, now);
    }
  }

  lemma RejectKeeps(d: Drive, now: Time)
    requires UnderWay(d.run, AwaitApproval, now)
    ensures Driving(Reject(d, AwaitApproval), now)
  {
    hide StartedTo, Driving, Release, IndexInPlan;
    ReleaseKeeps(Ended(d, Rejected, WithError(d.run.state, AwaitApproval, Denial)), false, now);
  }

  lemma CrashKeeps(d: Drive, now: Time)
    requires d.pc.Saving? && Row(d.run, now) && !d.run.status.Pending?
    ensures Driving(Crash(d), now)
  {
    hide StartedTo, Escalate, Markers, IndexInPlan;
    if d.run.status != RunStatus.Failed {
      var st := if d.run.currentStep.Some? then WithError(d.run.state, d.run.currentStep.value, Unclassified)
                else d.run.state;
      EscalateKeeps(Ended(d, RunStatus.Failed, st), Unclassified, true, now);
    }
  }

  /** What a handler's move leaves: the books untouched, and the marker of its step set exactly when
      the step is done. */
  ghost predicate MovedOn(run: Run, s: StepName, h: Handled) {
    h.st.books == run.state.books
    && Markers(run.(state := h.st), if h.outcome.Done? then Pos(run, s) + 1 else Pos(run, s))
    && match h.outcome
       case Asks(pc) => InStep(pc) && StepOf(pc) == s && HoldsInStep(h.st, pc)
       case Denies => s == AwaitApproval
       case _ => true
  }

  /** A handler's first move never fails an assertion of the source: the markers of the earlier steps
      are there. Only an engine type without an engine can make it raise. */
  lemma FirstMoveKeeps(d: Drive, now: Time)
    requires d.pc.CheckBudget? && Driving(d, now)
    ensures var s := d.pc.step; var h := FirstMove(d.run, s);
            MovedOn(d.run, s, h)
            && (h.outcome.Raises? ==> s == RunEngine && !d.run.state.request.workflow.engineType.Airflow?)
  {
    hide StartedTo, CountedFor, Plan;
  }

  lemma EarlyMoveKeeps(d: Drive, a: Answer, now: Time)
    requires d.pc.Ordering? || d.pc.Configuring? || d.pc.AwaitingApproval? || d.pc.Validating?
    requires Driving(d, now) && Fits(NextCall(d), a)
    ensures MovedOn(d.run, StepOf(d.pc), NextMove(d, a))
  {
    hide StartedTo, CountedFor, Plan, Rekey, FinalizeFields;
  }

  lemma EngineMoveKeeps(d: Drive, a: Answer, now: Time)
    requires d.pc.Triggering? || d.pc.Querying? || d.pc.FetchingOutput? || d.pc.FetchingFailure?
    requires Driving(d, now) && Fits(NextCall(d), a)
    ensures MovedOn(d.run, StepOf(d.pc), NextMove(d, a))
  {
    hide StartedTo, CountedFor, Plan, Rekey, FinalizeFields;
  }

  lemma LateMoveKeeps(d: Drive, a: Answer, now: Time)
    requires d.pc.Finalizing? || d.pc.Retiring? || d.pc.Removing? || d.pc.Closing? || d.pc.Submitting?
    requires Driving(d, now) && Fits(NextCall(d), a)
    ensures MovedOn(d.run, StepOf(d.pc), NextMove(d, a))
  {
    hide StartedTo, CountedFor, Plan, Rekey, FinalizeFields;
  }

  lemma NextMoveKeeps(d: Drive, a: Answer, now: Time)
    requires InStep(d.pc) && Driving(d, now) && Fits(NextCall(d), a)
    ensures MovedOn(d.run, StepOf(d.pc), NextMove(d, a))
  {
    hide Driving, MovedOn, NextMove, NextCall;
    if d.pc.Ordering? || d.pc.Configuring? || d.pc.AwaitingApproval? || d.pc.Validating? {
      EarlyMoveKeeps(d, a, now);
    } else if d.pc.Triggering? || d.pc.Querying? || d.pc.FetchingOutput? || d.pc.FetchingFailure? {
      EngineMoveKeeps(d, a, now);
    } else {
      LateMoveKeeps(d, a, now);
    }
  }

  lemma ReactKeeps(d: Drive, s: StepName, h: Handled, now: Time)
    requires UnderWay(d.run, s, now) && d.run.state.books.attemptStartedAt.Some?
    requires MovedOn(d.run, s, h)
    ensures Driving(React(d, s, h), now)
  {
    hide StartedTo, CountedFor, HoldsInStep, IndexInPlan, Plan, Complete, Fail, Reject, Markers, Over, Row;
    var d' := WithState(d, h.st);
    match h.outcome
    case Done => CompleteKeeps(d', s, now);
    case Raises(e) => FailKeeps(d', s, e, now);
    case Denies => RejectKeeps(d', now);
    case _ =>
  }

  lemma BudgetKeeps(d: Drive, now: Time)
    requires d.pc.CheckBudget? && Driving(d, now)
    ensures Driving(ResumeLoop(d, now), now)
  {
    hide Fail, React, FirstMove, MovedOn, Row, AtHead, Markers, StartedTo, CountedFor, IndexInPlan;
    FirstMoveKeeps(d, now);
    ReactKeeps(d, d.pc.step, FirstMove(d.run, d.pc.step), now);
    FailKeeps(d, d.pc.step, DeadlineExceeded, now);
  }

  lemma StepKeeps(d: Drive, a: Answer, now: Time)
    requires InStep(d.pc) && Driving(d, now) && Fits(NextCall(d), a)
    ensures Driving(React(d, StepOf(d.pc), NextMove(d, a)), now)
  {
    hide React, NextMove, MovedOn, Row, AtHead, Markers, StartedTo, CountedFor, IndexInPlan;
    NextMoveKeeps(d, a, now);
    ReactKeeps(d, StepOf(d.pc), NextMove(d, a), now);
  }

  lemma NotedKeeps(d: Drive, a: Answer, now: Time)
    requires Over(d.run, now)
    ensures Over(Noted(d, a).run, now)
    ensures Noted(d, a).run.status.Terminal() && Noted(d, a).run.state.ticket == d.run.state.ticket
  {
    hide StartedTo, CountedFor, IndexInPlan;
  }

  lemma EscalationKeeps(d: Drive, a: Answer, now: Time)
    requires Escalating(d.pc) && Driving(d, now) && Fits(NextCall(d), a)
    ensures Driving(ResumeEscalation(d, a), now)
  {
    hide Over, HoldsInStep, Refuse, Release, ResourceInFlight, AtHead, AtStep;
    NotedKeeps(d, a, now);
    RefuseKeeps(Noted(d, a), now);
    ReleaseKeeps(Noted(d, a), true, now);
    ReleaseKeeps(Noted(d, a), false, now);
  }

  lemma Later(run: Run, before: Time, now: Time)
    requires before <= now
    ensures Over(run, before) ==> Over(run, now)
    ensures AtStep(run, before) ==> AtStep(run, now)
    ensures AtHead(run, before) ==> AtHead(run, now)
    ensures Row(run, before) ==> Row(run, now)
  {
    hide CountedFor, Markers, IndexInPlan, Plan;
  }

  lemma DrivingLater(d: Drive, before: Time, now: Time)
    requires before <= now && Driving(d, before)
    ensures Driving(d, now)
  {
    hide Over, AtStep, AtHead, Row, Holds;
    Later(d.run, before, now);
  }

  lemma ScheduledKeeps(run: Run, t: Time, now: Time)
    requires AtStep(run, now)
    ensures run.status == Running && Row(run.(scheduledAt := Some(t)), now)
  {
    hide CountedFor, StartedTo, IndexInPlan, Plan;
  }

  /** Claims and wakes do not disturb the books. */
  lemma RowIgnoresSchedule(row: Run, t: Time, now: Time)
    requires Row(row, now) && !row.status.Terminal()
    ensures Row(row.(scheduledAt := Some(t)), now)
  {
    hide CountedFor, StartedTo, IndexInPlan, Plan;
  }

  /** What a drive saves is a row with its books in order. */
  lemma SavedRowKeeps(row: Run, run: Run, now: Time)
    requires Row(run, now) && !run.status.Pending? && SameRun(run, row)
    ensures Row(Saved(row, run), now)
  {
    hide CountedFor, StartedTo, IndexInPlan, Plan;
  }

  lemma TailKeeps(d: Drive, a: Answer, now: Time)
    requires d.pc.BackingOff? || d.pc.Scheduling? || d.pc.Saving?
    requires Driving(d, now) && Fits(NextCall(d), a)
    ensures Driving(Resume(d, a), now)
  {
    hide AtStep, AtHead, Over, Row, Crash, Backoff;
    if d.pc.Scheduling? {
      ScheduledKeeps(d.run, a.now + d.pc.delay, now);
    } else if d.pc.Saving? {
      CrashKeeps(d, now);
    }
  }

  /** Every call of a drive, whatever its answer, keeps the bookkeeping. */
  lemma ResumeKeeps(d: Drive, a: Answer, before: Time, now: Time)
    requires !d.pc.Finished? && Driving(d, before) && Fits(NextCall(d), a)
    requires before <= now && (a.Clock? ==> a.now == now)
    ensures Driving(Resume(d, a), now)
  {
    hide Driving, ResumeLoop, ResumeEscalation, NextMove, FirstMove, React, MovedOn, Fail;
    DrivingLater(d, before, now);
    if d.pc.Begin? || d.pc.StartAttempt? {
      LoopKeeps(d, before, now);
    } else if d.pc.CheckBudget? {
      BudgetKeeps(d, now);
    } else if InStep(d.pc) {
      StepKeeps(d, a, now);
    } else if Escalating(d.pc) {
      EscalationKeeps(d, a, now);
    } else {
      TailKeeps(d, a, now);
    }
  }
}
