/** What a run must have been told before it may act: no engine before an approval and a later
    eligible validation, nothing fulfilled before the engine run it holds answered success. The
    evidence is looked for in the whole log of the run's calls, by whichever drive made them. */
module Gates {
  import opened Domain
  import opened Drives
  import opened Bookkeeping

  predicate ApprovalAt(log: seq<Event>, i: nat, t: TicketRef) {
    i < |log| && log[i] == Event(PollApproval(t), Approval(Approved))
  }

  predicate EligibleAt(log: seq<Event>, i: nat) {
    i < |log| && log[i].call.ValidateRequest? && log[i].answer == Verdict(true)
  }

  ghost predicate HeardApproval(log: seq<Event>, t: TicketRef) {
    exists i: nat :: ApprovalAt(log, i, t)
  }

  /** The ticket was polled approved, and a later validation answered eligible. */
  ghost predicate Cleared(log: seq<Event>, t: TicketRef) {
    exists i: nat, j: nat :: i < j && ApprovalAt(log, i, t) && EligibleAt(log, j)
  }

  predicate SuccessAt(log: seq<Event>, i: nat, e: string) {
    i < |log| && log[i] == Event(QueryEngine(e), EngineStatus(EngineSucceeded))
  }

  ghost predicate HeardSuccess(log: seq<Event>, e: string) {
    exists i: nat :: SuccessAt(log, i, e)
  }

  /** What must be on the log of a run that has done the first `n` steps of its plan. */
  ghost predicate Evidence(run: Run, n: nat, log: seq<Event>) {
    EvidenceFor(run.runType, run.state.ticket, run.state.engineRunId, n, log)
  }

  ghost predicate EvidenceFor(t: RunType, ticket: Option<TicketRef>, engine: Option<string>, n: nat, log: seq<Event>) {
    match t
    case Resource =>
      && (n > 2 ==> ticket.Some? && HeardApproval(log, ticket.value))
      && (n > 3 ==> ticket.Some? && Cleared(log, ticket.value))
      && (n > 4 ==> engine.Some? && HeardSuccess(log, engine.value))
    case Automation => n > 0 ==> engine.Some? && HeardSuccess(log, engine.value)
    case Legacy => true
  }

  ghost predicate RowGate(run: Run, log: seq<Event>) {
    match run.status
    case Running => run.currentStep.Some? && Evidence(run, Pos(run, run.currentStep.value), log)
    case Completed => Evidence(run, |Plan(run.runType)|, log)
    case _ => true
  }

  ghost predicate DriveGate(d: Drive, log: seq<Event>) {
    if d.pc.Finished? then true
    else if Escalating(d.pc) then d.run.status.Failed? || d.run.status.Rejected?
    else if d.pc.Saving? then RowGate(d.run, log)
    else
      && d.run.currentStep.Some? && Evidence(d.run, Pos(d.run, d.run.currentStep.value), log)
      && (d.pc.FetchingOutput? ==> HeardSuccess(log, d.pc.engineRunId))
  }

  /** A write's flag says whether its state is one a run is still working in. */
  predicate FlagTellsState(f: Fields) {
    f.inProgress <==> f.state.Provisioning? || f.state.Updating? || f.state.Deleting?
  }

  /** The writes that only a fulfilled operation makes: a DELETE's mark, an UPDATE's new state, a CREATE's
      READY, a new vendor id. What a run that ends badly writes is not among them. */
  predicate Finalizes(op: Operation, f: Fields) {
    f.state.Deleted? || f.desired.Some? || f.rekeyTo.Some? || (f.state.Ready? && op.Create?)
  }

  /** The calls that need clearance, and the clearance each needs. */
  ghost predicate Allowed(d: Drive, c: Call, log: seq<Event>) {
    match c
    case TriggerEngine(_, _) =>
      d.run.runType.Resource? ==> d.run.state.ticket.Some? && Cleared(log, d.run.state.ticket.value)
    case CloseTicketAs(_, outcome) =>
      outcome.Successful? ==> d.run.state.engineRunId.Some? && HeardSuccess(log, d.run.state.engineRunId.value)
    case CreateRecord(_, fields, _) => FlagTellsState(fields)
    case UpdateRecord(_, fields) =>
      FlagTellsState(fields)
      && (Finalizes(d.run.state.request.operation, fields)
          ==> d.run.state.engineRunId.Some? && HeardSuccess(log, d.run.state.engineRunId.value))
    case _ => true
  }

  // --- Evidence only grows ---

  lemma EvidenceGrows(t: RunType, ticket: Option<TicketRef>, engine: Option<string>, n: nat, log: seq<Event>, e: Event)
    requires EvidenceFor(t, ticket, engine, n, log)
    ensures EvidenceFor(t, ticket, engine, n, log + [e])
  {
    forall t: TicketRef ensures HeardApproval(log, t) ==> HeardApproval(log + [e], t) {
      if HeardApproval(log, t) {
        var i: nat :| ApprovalAt(log, i, t);
        assert ApprovalAt(log + [e], i, t);
      }
    }
    forall t: TicketRef ensures Cleared(log, t) ==> Cleared(log + [e], t) {
      if Cleared(log, t) {
        var i: nat, j: nat :| i < j && ApprovalAt(log, i, t) && EligibleAt(log, j);
        assert ApprovalAt(log + [e], i, t) && EligibleAt(log + [e], j);
      }
    }
    forall r: string ensures HeardSuccess(log, r) ==> HeardSuccess(log + [e], r) {
      if HeardSuccess(log, r) {
        var i: nat :| SuccessAt(log, i, r);
        assert SuccessAt(log + [e], i, r);
      }
    }
  }

  lemma DriveGateGrows(d: Drive, log: seq<Event>, e: Event)
    requires DriveGate(d, log)
    ensures DriveGate(d, log + [e])
  {
    hide IndexInPlan, Plan;
    forall n: nat ensures Evidence(d.run, n, log) ==> Evidence(d.run, n, log + [e]) {
      if Evidence(d.run, n, log) {
        EvidenceGrows(d.run.runType, d.run.state.ticket, d.run.state.engineRunId, n, log, e);
      }
    }
    if d.pc.FetchingOutput? {
      EvidenceGrows(Automation, None, Some(d.pc.engineRunId), 1, log, e);
    }
  }

  lemma RowGateGrows(run: Run, log: seq<Event>, e: Event)
    requires RowGate(run, log)
    ensures RowGate(run, log + [e])
  {
    hide IndexInPlan, Plan;
    forall n: nat ensures Evidence(run, n, log) ==> Evidence(run, n, log + [e]) {
      if Evidence(run, n, log) {
        EvidenceGrows(run.runType, run.state.ticket, run.state.engineRunId, n, log, e);
      }
    }
  }

  // --- A drive keeps it ---

  lemma StartGate(cfg: Settings, run: Run, now: Time, log: seq<Event>)
    requires Row(run, now) && RowGate(run, log)
    ensures DriveGate(Start(cfg, run), log)
  {
    hide StartedTo, CountedFor, Over;
  }

  lemma EndingGate(d: Drive, e: Error, quiet: bool, log: seq<Event>)
    requires d.run.status.Failed? || d.run.status.Rejected?
    ensures DriveGate(Release(d, quiet), log) && DriveGate(Refuse(d), log) && DriveGate(Escalate(d, e, quiet), log)
  {
    hide Release, Refuse, Escalate, IndexInPlan, Plan, EvidenceFor;
    EndingsOnly(d, e, quiet);
  }

  lemma FailGate(d: Drive, s: StepName, e: Error, log: seq<Event>)
    requires d.run.currentStep == Some(s) && Evidence(d.run, Pos(d.run, s), log)
    ensures DriveGate(Fail(d, s, e), log)
  {
    hide Escalate, FailedState;
    if !MayRetry(d.run, s, e) {
      EndingGate(Ended(d, RunStatus.Failed, FailedState(d.run.state, s, e)), e, false, log);
    }
  }

  lemma CrashGate(d: Drive, log: seq<Event>)
    requires d.pc.Saving? && DriveGate(d, log)
    ensures DriveGate(Crash(d), log)
  {
    hide Escalate, WithError, EvidenceFor, IndexInPlan, Plan;
    var st := if d.run.currentStep.Some? then WithError(d.run.state, d.run.currentStep.value, Unclassified)
              else d.run.state;
    EndingGate(Ended(d, RunStatus.Failed, st), Unclassified, true, log);
  }

  lemma CompleteGate(d: Drive, s: StepName, log: seq<Event>)
    requires InPlan(d.run.runType, s) && Evidence(d.run, Pos(d.run, s) + 1, log)
    ensures DriveGate(Complete(d, s), log)
  {
    hide EvidenceFor, Plan, IndexInPlan, Crash;
    IndexIsPosition(d.run.runType, Pos(d.run, s));
    if Pos(d.run, s) + 1 < |Plan(d.run.runType)| {
      IndexIsPosition(d.run.runType, Pos(d.run, s) + 1);
    }
  }

  /** The evidence a handler's move needs, the new answer included. */
  ghost predicate MovedWithEvidence(run: Run, s: StepName, h: Handled, log: seq<Event>) {
    Evidence(run.(state := h.st), if h.outcome.Done? then Pos(run, s) + 1 else Pos(run, s), log)
    && (h.outcome.Asks? && h.outcome.pc.FetchingOutput? ==> HeardSuccess(log, h.outcome.pc.engineRunId))
  }

  lemma ReactGate(d: Drive, s: StepName, h: Handled, log: seq<Event>)
    requires d.run.currentStep == Some(s) && InPlan(d.run.runType, s) && MovedWithEvidence(d.run, s, h, log)
    requires h.outcome.Asks? ==> InStep(h.outcome.pc)
    ensures DriveGate(React(d, s, h), log)
  {
    hide EvidenceFor, Plan, IndexInPlan, Complete, Fail, Release, WithError;
    var d' := WithState(d, h.st);
    match h.outcome
    case Done => CompleteGate(d', s, log);
    case Raises(e) => FailGate(d', s, e, log);
    case Denies => EndingGate(Ended(d', Rejected, WithError(h.st, s, Denial)), Denial, false, log);
    case _ =>
  }

  lemma FirstMoveGate(d: Drive, now: Time, log: seq<Event>)
    requires d.pc.CheckBudget? && Driving(d, now) && DriveGate(d, log)
    ensures MovedWithEvidence(d.run, d.pc.step, FirstMove(d.run, d.pc.step), log)
  {
    hide StartedTo, CountedFor, Plan, HeardApproval, HeardSuccess, Cleared;
  }

  /** The answers that are evidence. */
  lemma AnswerIsEvidence(d: Drive, a: Answer, log: seq<Event>)
    requires InStep(d.pc) && Fits(NextCall(d), a)
    ensures var log' := log + [Event(NextCall(d), a)];
            && (d.pc.AwaitingApproval? && a == Approval(Approved) ==> HeardApproval(log', d.pc.ticket))
            && (d.pc.Validating? && a == Verdict(true) ==> forall t :: HeardApproval(log, t) ==> Cleared(log', t))
            && (d.pc.Querying? && a == EngineStatus(EngineSucceeded) ==> HeardSuccess(log', d.pc.engineRunId))
  {
    var log' := log + [Event(NextCall(d), a)];
    var n := |log|;
    if d.pc.AwaitingApproval? && a == Approval(Approved) {
      assert ApprovalAt(log', n, d.pc.ticket);
    } else if d.pc.Validating? && a == Verdict(true) {
      forall t | HeardApproval(log, t) ensures Cleared(log', t) {
        var i: nat :| ApprovalAt(log, i, t);
        assert ApprovalAt(log', i, t) && EligibleAt(log', n);
      }
    } else if d.pc.Querying? && a == EngineStatus(EngineSucceeded) {
      assert SuccessAt(log', n, d.pc.engineRunId);
    }
  }

  lemma EngineMoveGate(d: Drive, a: Answer, now: Time, log: seq<Event>)
    requires d.pc.Triggering? || d.pc.Querying? || d.pc.FetchingOutput? || d.pc.FetchingFailure?
    requires InStep(d.pc) && Driving(d, now) && Fits(NextCall(d), a) && DriveGate(d, log)
    ensures MovedWithEvidence(d.run, StepOf(d.pc), NextMove(d, a), log + [Event(NextCall(d), a)])
  {
    hide StartedTo, CountedFor, Plan, HeardApproval, HeardSuccess, Cleared, Rekey, FinalizeFields;
    AnswerIsEvidence(d, a, log);
    DriveGateGrows(d, log, Event(NextCall(d), a));
  }

  lemma ApprovalMoveGate(d: Drive, a: Answer, now: Time, log: seq<Event>)
    requires d.pc.AwaitingApproval? || d.pc.Validating?
    requires InStep(d.pc) && Driving(d, now) && Fits(NextCall(d), a) && DriveGate(d, log)
    ensures MovedWithEvidence(d.run, StepOf(d.pc), NextMove(d, a), log + [Event(NextCall(d), a)])
  {
    hide StartedTo, CountedFor, Plan, HeardApproval, HeardSuccess, Cleared, Rekey, FinalizeFields;
    AnswerIsEvidence(d, a, log);
    DriveGateGrows(d, log, Event(NextCall(d), a));
  }

  lemma EarlyMoveGate(d: Drive, a: Answer, now: Time, log: seq<Event>)
    requires d.pc.Ordering? || d.pc.Configuring?
    requires InStep(d.pc) && Driving(d, now) && Fits(NextCall(d), a) && DriveGate(d, log)
    ensures MovedWithEvidence(d.run, StepOf(d.pc), NextMove(d, a), log + [Event(NextCall(d), a)])
  {
    hide StartedTo, CountedFor, Plan, HeardApproval, HeardSuccess, Cleared, Rekey, FinalizeFields;
    AnswerIsEvidence(d, a, log);
    DriveGateGrows(d, log, Event(NextCall(d), a));
  }

  lemma LateMoveGate(d: Drive, a: Answer, now: Time, log: seq<Event>)
    requires d.pc.Finalizing? || d.pc.Retiring? || d.pc.Removing? || d.pc.Closing? || d.pc.Submitting?
    requires InStep(d.pc) && Driving(d, now) && Fits(NextCall(d), a) && DriveGate(d, log)
    ensures MovedWithEvidence(d.run, StepOf(d.pc), NextMove(d, a), log + [Event(NextCall(d), a)])
  {
    hide StartedTo, CountedFor, Plan, HeardApproval, HeardSuccess, Cleared, Rekey, FinalizeFields;
    AnswerIsEvidence(d, a, log);
    DriveGateGrows(d, log, Event(NextCall(d), a));
  }

  lemma NextMoveGate(d: Drive, a: Answer, now: Time, log: seq<Event>)
    requires InStep(d.pc) && Driving(d, now) && Fits(NextCall(d), a) && DriveGate(d, log)
    ensures MovedWithEvidence(d.run, StepOf(d.pc), NextMove(d, a), log + [Event(NextCall(d), a)])
  {
    hide DriveGate, Driving, MovedWithEvidence, NextMove, NextCall, Fits;
    if d.pc.Triggering? || d.pc.Querying? || d.pc.FetchingOutput? || d.pc.FetchingFailure? {
      EngineMoveGate(d, a, now, log);
    } else if d.pc.AwaitingApproval? || d.pc.Validating? {
      ApprovalMoveGate(d, a, now, log);
    } else if d.pc.Ordering? || d.pc.Configuring? {
      EarlyMoveGate(d, a, now, log);
    } else {
      LateMoveGate(d, a, now, log);
    }
  }

  /** The calls whose answer changes neither the ticket nor the engine run. */
  lemma PlainGate(d: Drive, a: Answer, now: Time, log: seq<Event>)
    requires !d.pc.Finished? && !d.pc.CheckBudget? && !InStep(d.pc) && !Escalating(d.pc)
    requires Driving(d, now) && Fits(NextCall(d), a) && DriveGate(d, log)
    ensures DriveGate(Resume(d, a), log)
  {
    hide EvidenceFor, Crash, StartedTo, CountedFor, Markers, Plan, IndexInPlan, Backoff, Over;
    if d.pc.Saving? {
      CrashGate(d, log);
    }
  }

  lemma EscalationGate(d: Drive, a: Answer, log: seq<Event>)
    requires Escalating(d.pc) && Fits(NextCall(d), a) && DriveGate(d, log)
    ensures DriveGate(ResumeEscalation(d, a), log)
  {
    hide EvidenceFor, Release, Refuse, Escalate, NextCall;
    var d' := Noted(d, a);
    EndingGate(d', Unclassified, false, log);
    EndingGate(d', Unclassified, true, log);
  }

  /** Every call of a drive, whatever its answer, keeps the evidence. */
  lemma ResumeGate(d: Drive, a: Answer, now: Time, log: seq<Event>)
    requires !d.pc.Finished? && Driving(d, now) && Fits(NextCall(d), a) && DriveGate(d, log)
    ensures DriveGate(Resume(d, a), log + [Event(NextCall(d), a)])
  {
    hide EvidenceFor, ResumeEscalation, NextMove, FirstMove, React, Fail, MovedWithEvidence, StartedTo,
         CountedFor, Markers, Plan, IndexInPlan, NextCall, Crash, Backoff, Row, Over, AtHead;
    var log' := log + [Event(NextCall(d), a)];
    DriveGateGrows(d, log, Event(NextCall(d), a));
    if d.pc.CheckBudget? {
      FirstMoveGate(d, now, log');
      FirstMoveAsks(d.run, d.pc.step);
      ReactGate(d, d.pc.step, FirstMove(d.run, d.pc.step), log');
      FailGate(d, d.pc.step, DeadlineExceeded, log');
    } else if InStep(d.pc) {
      NextMoveGate(d, a, now, log);
      NextMoveAsks(d, a);
      ReactGate(d, StepOf(d.pc), NextMove(d, a), log');
    } else if Escalating(d.pc) {
      EscalationGate(d, a, log');
    } else {
      PlainGate(d, a, now, log');
    }
  }

  /** So no drive makes a call it has no clearance for. */
  lemma GateOfCall(d: Drive, now: Time, log: seq<Event>)
    requires !d.pc.Finished? && Driving(d, now) && DriveGate(d, log)
    ensures Allowed(d, NextCall(d), log)
  {
    hide StartedTo, CountedFor, Plan, HeardApproval, HeardSuccess, Cleared, Rekey;
  }
}
