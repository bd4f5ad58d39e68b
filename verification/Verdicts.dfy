/** What an answer of the outside makes of a run: from the call that asks to the save, whatever else is answered. */
module Verdicts {
  import opened Domain
  import opened Drives
  import opened Totality
  import opened StoredRows
  import opened Bookkeeping
  import opened Escalation
  import opened Histories
  import opened Gates
  import opened Safety
  import opened Playback
  import opened PagingAgain

  // --- The engine run failed ---

  /** The kind of a failed engine run: what the engine reports; if that cannot be had, what it had reported before; and
      a task failure if it never did. */
  function KindReported(run: Run, detail: Answer): FailureKind {
    match detail
    case Failure(f) => f.kind
    case _ =>
      match run.state.engineFailure
      case Some(f) => f.kind
      case None => Task
  }

  lemma DetailRaises(d: Drive, e: string, detail: Answer)
    requires d.pc == FetchingFailure(e) && (detail.Failure? || detail.Raised?)
    ensures Fits(NextCall(d), detail)
    ensures var detailed := if detail.Failure? then Some(detail.failure) else d.run.state.engineFailure;
            Resume(d, detail) == Fail(WithState(d, d.run.state.(engineFailure := detailed)), RunEngine,
                                      StepFailure(KindReported(d.run, detail)))
  {
    hide Fail;
  }

  lemma EscalateCounts(d: Drive, e: Error, quiet: bool)
    ensures Escalate(d, e, quiet).run == d.run && Escalate(d, e, quiet).escalations == d.escalations + 1
    ensures Escalating(Escalate(d, e, quiet).pc) || Escalate(d, e, quiet).pc.Saving?
  {
  }

  /** What no retry can help: a refused request. */
  predicate Hopeless(e: Error) {
    e == StepFailure(Validation) || e == StepFailure(InfraPrecheck)
  }

  /** What a failure leaves of a run. */
  lemma FailsAs(d: Drive, s: StepName, e: Error)
    requires d.run.status.Running?
    ensures var d' := Fail(d, s, e); var refused := Hopeless(e);
            var failed := Attempts(d.run.state.books, s) + 1;
            && (d'.run.status.Running? <==> !refused && failed <= d.run.maxRetries)
            && (d'.run.status.Running? ==> d'.pc == BackingOff(failed) && d'.run.state.books.errors == d.run.state.books.errors)
            && (!d'.run.status.Running? ==>
                  d'.run.status.Failed? && d'.run.scheduledAt == None && d'.escalations == d.escalations + 1
                  && d'.run.state.books.errors == d.run.state.books.errors[s := e]
                  && d'.run.state.engineFailure == d.run.state.engineFailure)
            && Attempts(d'.run.state.books, s) == failed
  {
    hide Escalate;
    EscalateCounts(Ended(d, RunStatus.Failed, FailedState(d.run.state, s, e)), e, false);
  }

  // --- From there to the save ---

  /** What an escalation leaves alone. */
  predicate SameEnding(a: Run, b: Run) {
    a.id == b.id && a.status == b.status && a.scheduledAt == b.scheduledAt && a.currentStep == b.currentStep
    && a.state.books == b.state.books && a.state.engineFailure == b.state.engineFailure && a.state.ticket == b.state.ticket
  }

  lemma NotedKeepsEnding(d: Drive, a: Answer)
    requires Escalating(d.pc) && Fits(NextCall(d), a)
    ensures SameEnding(d.run, ResumeEscalation(d, a).run)
    ensures Escalating(ResumeEscalation(d, a).pc) || ResumeEscalation(d, a).pc.Saving?
  {
    hide NextCall, Release, Refuse, ResponsibleGroup;
    EndingsOnly(Noted(d, a), Unclassified, true);
    EndingsOnly(Noted(d, a), Unclassified, false);
  }

  lemma {:induction false} EscalationKeepsEnding(d: Drive, es: seq<Event>)
    requires (Escalating(d.pc) || d.pc.Saving?) && Through(d, es)
    ensures SameEnding(d.run, After(d, es).run)
    decreases |es|
  {
    hide ResumeEscalation, NextCall, Fits;
    if es != [] {
      if d.pc.Saving? {
        NothingLeft(d, es);
      } else {
        NotedKeepsEnding(d, es[0].answer);
        EscalationKeepsEnding(ResumeEscalation(d, es[0].answer), es[1..]);
      }
    }
  }

  /** A retry draws, looks at the clock, and saves. */
  lemma RetryWaits(d: Drive, es: seq<Event>)
    requires d.pc.BackingOff? && Through(d, es)
    ensures Pages(es) == [] && After(d, es).run == d.run.(scheduledAt := After(d, es).run.scheduledAt)
    ensures After(d, es).pc == Saving(false)
    ensures After(d, es).run.scheduledAt.Some?
  {
    hide Backoff;
    assert es != [];
    SchedulingWaits(Resume(d, es[0].answer), es[1..]);
  }

  lemma SchedulingWaits(d: Drive, es: seq<Event>)
    requires d.pc.Scheduling? && Through(d, es)
    ensures |es| == 1 && es[0].call.ReadClock? && es[0].answer.Clock?
    ensures Pages(es) == [] && After(d, es).run == d.run.(scheduledAt := Some(es[0].answer.now + d.pc.delay))
    ensures After(d, es).pc == Saving(false)
  {
    assert es != [];
    NothingLeft(Resume(d, es[0].answer), es[1..]);
  }

  /** A step that failed, up to the save: retried, or over and escalated as its kind asks. */
  lemma FailureEnds(d: Drive, s: StepName, e: Error, es: seq<Event>)
    requires d.run.status.Running? && Through(Fail(d, s, e), es)
    ensures var end := After(Fail(d, s, e), es).run; var refused := Hopeless(e);
            var retried := !refused && Attempts(d.run.state.books, s) < d.run.maxRetries;
            && (if retried then
                  end.status.Running? && end.scheduledAt.Some? && end.state.books.errors == d.run.state.books.errors
                else end.status.Failed? && end.scheduledAt == None
                     && end.state.books.errors == d.run.state.books.errors[s := e])
            && Attempts(end.state.books, s) == Attempts(d.run.state.books, s) + 1
            && After(Fail(d, s, e), es).pc == Saving(false)
            && (Pages(es) != [] <==> !refused && !retried)
            && (Pages(es) != [] ==>
                  Pages(es)[0].call.OpenIncident? && AsksTeam(d.run, e, d.cfg.defaultTeam, Pages(es)[0].call.group))
            && (!retried ==> LetsGo(d.run, es))
            && (refused ==> RefusesTicket(d.run.state.(books := end.state.books), es, end.state))
  {
    hide Escalate, LetsGo, AsksTeam, RefusesTicket;
    FailsAs(d, s, e);
    if Fail(d, s, e).run.status.Running? {
      RetryWaits(Fail(d, s, e), es);
    } else {
      var f := Ended(d, RunStatus.Failed, FailedState(d.run.state, s, e));
      EscalateCounts(f, e, false);
      EscalationKeepsEnding(Escalate(f, e, false), es);
      EscalationSaves(f, e, false, es);
      EscalationIsolatesFaults(f, e, false, es);
      FailedAsks(d, s, e, es);
    }
  }

  /** Counting the failure changes nothing that the escalation looks at. */
  lemma FailedAsks(d: Drive, s: StepName, e: Error, es: seq<Event>)
    ensures var f := Ended(d, RunStatus.Failed, FailedState(d.run.state, s, e)).run;
            && (forall group :: AsksTeam(f, e, d.cfg.defaultTeam, group) <==> AsksTeam(d.run, e, d.cfg.defaultTeam, group))
            && (LetsGo(f, es) <==> LetsGo(d.run, es))
  {
    var f := Ended(d, RunStatus.Failed, FailedState(d.run.state, s, e)).run;
    assert forall group :: NamesTeam(f, group) <==> NamesTeam(d.run, group);
  }

  /** A poll says FAILED, from there to the save: the run is retried exactly when the failure is a task failure and a retry
      is left; otherwise it ends FAILED with that failure on record, and an incident is asked for exactly when it is a task
      failure: of the team the engine's failure names, if it names one. */
  lemma FailedEngineRunEnds(d: Drive, e: string, detail: Answer, es: seq<Event>)
    requires d.pc == Querying(e) && d.run.status.Running? && (detail.Failure? || detail.Raised?)
    requires Fits(NextCall(d), EngineStatus(EngineFailed)) && !Resume(d, EngineStatus(EngineFailed)).pc.Finished?
    requires Fits(NextCall(Resume(d, EngineStatus(EngineFailed))), detail)
    requires Through(Resume(Resume(d, EngineStatus(EngineFailed)), detail), es)
    ensures var end := After(Resume(Resume(d, EngineStatus(EngineFailed)), detail), es).run;
            var kind := KindReported(d.run, detail);
            var retried := kind == Task && Attempts(d.run.state.books, RunEngine) < d.run.maxRetries;
            && (if retried then end.status.Running? && end.scheduledAt.Some?
                else end.status.Failed? && end.scheduledAt == None
                     && end.state.books.errors == d.run.state.books.errors[RunEngine := StepFailure(kind)])
            && Attempts(end.state.books, RunEngine) == Attempts(d.run.state.books, RunEngine) + 1
            && (Pages(es) != [] <==> kind == Task && !retried)
            && (Pages(es) != [] && detail.Failure? ==>
                  Pages(es)[0].call == OpenIncident(match detail.failure.responsibleGroup
                                                    case Some(g) => if g == "" then d.cfg.defaultTeam else g
                                                    case None => d.cfg.defaultTeam))
  {
    hide Fail, LetsGo, RefusesTicket, Resume, NextCall, Fits;
    var d1 := Resume(d, EngineStatus(EngineFailed));
    PollFails(d, e);
    DetailRaises(d1, e, detail);
    var detailed := if detail.Failure? then Some(detail.failure) else d.run.state.engineFailure;
    var d' := WithState(d1, d1.run.state.(engineFailure := detailed));
    FailureEnds(d', RunEngine, StepFailure(KindReported(d.run, detail)), es);
    if Pages(es) != [] && detail.Failure? {
      TeamNamed(d'.run, StepFailure(Task), d.cfg.defaultTeam, detail.failure, Pages(es)[0].call.group);
    }
  }

  lemma TeamNamed(run: Run, e: Error, defaultTeam: string, f: EngineFailure, group: string)
    requires e.StepFailure? && run.state.engineFailure == Some(f) && AsksTeam(run, e, defaultTeam, group)
    ensures group == match f.responsibleGroup
                     case Some(g) => if g == "" then defaultTeam else g
                     case None => defaultTeam
  {
    if f.responsibleGroup.Some? && f.responsibleGroup.value != "" {
      assert NamesTeam(run, f.responsibleGroup.value);
    }
  }

  lemma PollFails(d: Drive, e: string)
    requires d.pc == Querying(e)
    ensures Fits(NextCall(d), EngineStatus(EngineFailed))
    ensures Resume(d, EngineStatus(EngineFailed)) == d.(pc := FetchingFailure(e))
  {
    assert WithState(d, d.run.state) == d;
  }

  // --- Denied, refused, raised ---

  /** The approver says no: whatever is answered up to the save, the run ends REJECTED with nothing scheduled and the denial
      on record; no incident is asked for, no ticket closed, nothing is retried, and the resource is let go. */
  lemma DeniedEndsRejected(d: Drive, t: TicketRef, es: seq<Event>)
    requires d.pc == AwaitingApproval(t) && Through(d, es) && es[..1] == [Event(PollApproval(t), Approval(Denied))]
    ensures var end := After(d, es).run;
            && end.status == Rejected && end.scheduledAt == None && After(d, es).pc == Saving(false)
            && end.state.books == d.run.state.books.(errors := d.run.state.books.errors[AwaitApproval := Denial])
            && Pages(es) == [] && Closings(es) == [] && After(d, es).escalations == d.escalations
            && LetsGo(d.run, es)
  {
    hide LetsGo, Reject;
    assert es[0] == es[..1][0];
    DenialRejects(d);
    var d1 := Resume(d, Approval(Denied));
    RejectionOnlyLetsGo(d, AwaitApproval, es[1..]);
    RejectedEnds(d, AwaitApproval, es[1..]);
    FirstIsElsewhere(d.run, es, d.run.state);
  }

  lemma DenialRejects(d: Drive)
    requires d.pc.AwaitingApproval?
    ensures Fits(NextCall(d), Approval(Denied)) && Resume(d, Approval(Denied)) == Reject(d, AwaitApproval)
  {
    assert WithState(d, d.run.state) == d;
  }

  lemma RejectedEnds(d: Drive, s: StepName, es: seq<Event>)
    requires Through(Reject(d, s), es)
    ensures var end := After(Reject(d, s), es);
            && end.run.status == Rejected && end.run.scheduledAt == None && end.escalations == d.escalations
            && end.pc == Saving(false)
            && end.run.state.books == d.run.state.books.(errors := d.run.state.books.errors[s := Denial])
  {
    hide Resume;
    var r := Reject(d, s);
    if r.pc.Saving? {
      NothingLeft(r, es);
    } else {
      ReleasedNext(r, es);
    }
  }

  lemma ReleasedNext(d: Drive, es: seq<Event>)
    requires d.pc.Releasing? && Through(d, es)
    ensures After(d, es).run == d.run && After(d, es).escalations == d.escalations && After(d, es).pc == Saving(d.pc.quiet)
  {
    NothingLeft(Resume(d, es[0].answer), es[1..]);
  }

  /** The validator says no: the run is over at once and FAILED, whatever its retry budget; nobody is paged, the requester's
      ticket is closed as unsuccessful, and the resource is let go. */
  lemma RefusedEndsFailed(d: Drive, r: ResourceSpec, es: seq<Event>)
    requires d.pc == Validating(r) && d.run.status.Running? && Fits(NextCall(d), Verdict(false))
    requires Through(Resume(d, Verdict(false)), es)
    ensures var end := After(Resume(d, Verdict(false)), es).run;
            && end.status == RunStatus.Failed && end.scheduledAt == None
            && end.state.books.errors == d.run.state.books.errors[ValidateResource := StepFailure(InfraPrecheck)]
            && Pages(es) == [] && LetsGo(d.run, es)
            && RefusesTicket(d.run.state.(books := end.state.books), es, end.state)
  {
    hide LetsGo, RefusesTicket, Fail;
    RefusalFails(d);
    FailureEnds(d, ValidateResource, StepFailure(InfraPrecheck), es);
  }

  lemma RefusalFails(d: Drive)
    requires d.pc.Validating?
    ensures Fits(NextCall(d), Verdict(false))
    ensures Resume(d, Verdict(false)) == Fail(d, ValidateResource, StepFailure(InfraPrecheck))
  {
    hide Fail;
    assert WithState(d, d.run.state) == d;
  }

  /** The calls that may raise without failing their step: an output or a failure detail that cannot be read, and the mark on
      a record that is gone. */
  predicate MayRaise(pc: Pc, notFound: bool) {
    pc.FetchingOutput? || pc.FetchingFailure? || (pc.Retiring? && notFound)
  }

  /** Every other call of a handler that raises fails its step as an unclassified failure: counted, and up to the save retried
      while the budget lasts, or ended FAILED with an incident of the default team. */
  lemma RaisedEnds(d: Drive, notFound: bool, applied: bool, es: seq<Event>)
    requires InStep(d.pc) && !MayRaise(d.pc, notFound) && d.run.status.Running?
    requires Fits(NextCall(d), Raised(notFound, applied)) && Through(Resume(d, Raised(notFound, applied)), es)
    ensures var s := StepOf(d.pc); var end := After(Resume(d, Raised(notFound, applied)), es).run;
            var retried := Attempts(d.run.state.books, s) < d.run.maxRetries;
            && Attempts(end.state.books, s) == Attempts(d.run.state.books, s) + 1
            && (if retried then end.status.Running? && end.scheduledAt.Some?
                else end.status.Failed? && end.scheduledAt == None
                     && end.state.books.errors == d.run.state.books.errors[s := Unclassified])
            && (if retried then Pages(es) == [] else Pages(es) != [] && Pages(es)[0].call == OpenIncident(d.cfg.defaultTeam))
  {
    hide LetsGo, RefusesTicket, Fail;
    RaiseFails(d, notFound, applied);
    FailureEnds(d, StepOf(d.pc), Unclassified, es);
  }

  lemma RaiseFails(d: Drive, notFound: bool, applied: bool)
    requires InStep(d.pc) && !MayRaise(d.pc, notFound)
    requires Fits(NextCall(d), Raised(notFound, applied))
    ensures Resume(d, Raised(notFound, applied)) == Fail(d, StepOf(d.pc), Unclassified)
  {
    hide Fail, NextCall;
    assert WithState(d, d.run.state) == d;
  }

  // --- Not yet ---

  /** A pending approval is looked at again after thirty seconds, and nothing else changes. */
  lemma PendingPollsAgain(d: Drive, t: TicketRef, es: seq<Event>)
    requires d.pc == AwaitingApproval(t) && Through(d, es) && es[..1] == [Event(PollApproval(t), Approval(ApprovalPending))]
    ensures |es| == 2 && es[1].answer.Clock?
            && After(d, es).run == d.run.(scheduledAt := Some(es[1].answer.now + 30.0))
  {
    assert es[0] == es[..1][0];
    var d1 := Resume(d, Approval(ApprovalPending));
    assert WithState(d, d.run.state) == d;
    assert d1 == d.(pc := Scheduling(30.0));
    SchedulingWaits(d1, es[1..]);
  }

  /** An engine run under way is looked at again after fifteen seconds. */
  lemma EnginePollsAgain(d: Drive, e: string, es: seq<Event>)
    requires d.pc == Querying(e) && Through(d, es) && es[..1] == [Event(QueryEngine(e), EngineStatus(EngineInProgress))]
    ensures |es| == 2 && es[1].answer.Clock?
            && After(d, es).run == d.run.(scheduledAt := Some(es[1].answer.now + 15.0))
  {
    assert es[0] == es[..1][0];
    var d1 := Resume(d, EngineStatus(EngineInProgress));
    assert WithState(d, d.run.state) == d;
    assert d1 == d.(pc := Scheduling(15.0));
    SchedulingWaits(d1, es[1..]);
  }

  /** So is one that was just triggered, and the run holds it. */
  lemma TriggeredPollsLater(d: Drive, id: string, es: seq<Event>)
    requires d.pc == Triggering && Through(d, es) && es != [] && es[0].answer == EngineRun(id)
    ensures |es| == 2 && es[1].answer.Clock?
            && After(d, es).run
               == d.run.(scheduledAt := Some(es[1].answer.now + 15.0), state := d.run.state.(engineRunId := Some(id)))
  {
    var d' := WithState(d, d.run.state.(engineRunId := Some(id)));
    var d1 := Resume(d, EngineRun(id));
    assert d1 == d'.(pc := Scheduling(15.0));
    SchedulingWaits(d1, es[1..]);
  }

  /** An attempt has a week for an approval and an hour for anything else: up to and including that, and no longer, its
      handler gets to work. */
  lemma BudgetInSeconds(d: Drive, now: Time)
    requires d.pc.CheckBudget? && Driving(d, now)
    requires FirstMove(d.run, d.pc.step).outcome.Asks?
    ensures InStep(ResumeLoop(d, now).pc)
            <==> now - d.pc.started <= if d.pc.step.AwaitApproval? then 604800.0 else 3600.0
  {
    hide StartedTo, CountedFor, Markers, Fail, FirstMove;
    FirstMoveAsks(d.run, d.pc.step);
    FailLeavesStep(d, d.pc.step, DeadlineExceeded);
  }

  lemma FailLeavesStep(d: Drive, s: StepName, e: Error)
    ensures !InStep(Fail(d, s, e).pc)
  {
    hide Escalate, FailedState, RetryState;
    EscalateCounts(Ended(d, RunStatus.Failed, FailedState(d.run.state, s, e)), e, false);
  }

  /** What shows that a step was already taken. */
  predicate TakenAlready(st: RunState, s: StepName) {
    match s
    case CreateTicket => st.ticket.Some?
    case ConfigureResource => st.resourceConfigured
    case FinalizeResource => st.resourceFinalized || st.resource.None?
    case CloseTicket => st.ticketClosed
    case SubmitLegacy => st.legacySubmitted
    case _ => false
  }

  /** A step whose marker is set, on a run saved before or handed over by any other drive, is left without a call, the run as
      it was but for the step's bookkeeping: no second ticket, record, write, close or handover. */
  lemma TakenStepCallsNobody(d: Drive, now: Time)
    requires d.pc.CheckBudget? && now - d.pc.started <= MaxDuration(d.pc.step)
    requires TakenAlready(d.run.state, d.pc.step) && InPlan(d.run.runType, d.pc.step)
    ensures var d' := Resume(d, Clock(now));
            && (if IndexInPlan(d.run.runType, d.pc.step) + 1 < |Plan(d.run.runType)|
                then d'.pc == Begin(Plan(d.run.runType)[IndexInPlan(d.run.runType, d.pc.step) + 1])
                else d'.pc == Saving(false) && d'.run.status.Completed?)
            && d'.run.state == d.run.state.(books := d'.run.state.books)
            && Attempts(d'.run.state.books, d.pc.step) == 0
            && d'.run.state.books.startedAt == d.run.state.books.startedAt
            && d'.run.state.books.errors == d.run.state.books.errors
  {
    hide Crash, Plan, IndexInPlan, Fail;
    assert WithState(d, d.run.state) == d;
  }

  // --- What is kept of an answer ---

  function NamedBy(r: ResourceSpec, id: Option<string>): ResourceSpec {
    match id
    case Some(i) => if i == "" then r else r.(resourceId := i)
    case None => r
  }

  /** The ids a run is given are kept: its ticket, its record's own id when there is one, the runner's reference; the engine's
      output if it can be read, and if it cannot the step is done all the same. */
  lemma AnswersAreKept(d: Drive, a: Answer)
    requires InStep(d.pc) && Fits(NextCall(d), a)
    ensures var h := NextMove(d, a); var st := d.run.state;
            var read := a.Output? && a.output.Some?;
            && (d.pc.Ordering? && a.Ticket? ==> h == Handled(st.(ticket := Some(a.ref)), Done))
            && (d.pc.Configuring? && a.RecordId? ==>
                  h == Handled(st.(resourceConfigured := true, resource := Some(NamedBy(d.pc.resource, a.id))), Done))
            && (d.pc.Submitting? && a.Reference? ==>
                  h == Handled(st.(legacySubmitted := true, legacyReference := a.reference), Done))
            && (d.pc.FetchingOutput? ==>
                  h.outcome == Done
                  && h.st == if !read then st else st.(stepResults := st.stepResults[RunEngine := StepResult(a.output)]))
  {
    hide Rekey, FinalizeFields;
  }

  /** Where a finalized record is: at the id the engine reported, if it reported one that is not empty; else where it was. */
  lemma FinalizedWhereReported(d: Drive, r: ResourceSpec)
    requires d.pc == Finalizing(r)
    ensures Fits(NextCall(d), Acknowledged)
    ensures var results := d.run.state.stepResults; var st := NextMove(d, Acknowledged).st;
            var reported := if RunEngine in results then results[RunEngine].finalVendorId else None;
            && st.resourceFinalized && st.resource.Some?
            && st.resource.value == r.(vendorId := if reported.GetOr("") == "" then r.vendorId else reported.value)
            && NextCall(d).place == PlaceOf(r)
            && (NextCall(d).fields.rekeyTo.Some? <==> st.resource.value.vendorId != r.vendorId)
            && (NextCall(d).fields.rekeyTo.Some? ==> NextCall(d).fields.rekeyTo.value == st.resource.value.vendorId)
  {
  }

  /** A save that fails before the run had failed: up to the next save, which is a quiet one, the run is FAILED with an
      unclassified error at the step it was at, if any, and an incident of the default team is asked for. */
  lemma FailedSaveEnds(d: Drive, committed: bool, es: seq<Event>)
    requires d.pc == Saving(false) && !d.run.status.Failed? && Through(Resume(d, SaveFailed(committed)), es)
    ensures var end := After(Resume(d, SaveFailed(committed)), es);
            && end.pc == Saving(true) && end.run.status.Failed? && end.run.scheduledAt == None
            && end.run.state.books.errors == (match d.run.currentStep
                                              case Some(s) => d.run.state.books.errors[s := Unclassified]
                                              case None => d.run.state.books.errors)
            && Pages(es) != [] && Pages(es)[0].call == OpenIncident(d.cfg.defaultTeam) && Closings(es) == []
  {
    hide Escalate, LetsGo, RefusesTicket, Resume, Through;
    var st := if d.run.currentStep.Some? then WithError(d.run.state, d.run.currentStep.value, Unclassified) else d.run.state;
    var f := Ended(d, RunStatus.Failed, st);
    SaveFailedCrashes(d, committed);
    EscalateCounts(f, Unclassified, true);
    EscalationKeepsEnding(Escalate(f, Unclassified, true), es);
    EscalationIsolatesFaults(f, Unclassified, true, es);
    EscalationSaves(f, Unclassified, true, es);
  }

  lemma SaveFailedCrashes(d: Drive, committed: bool)
    requires d.pc == Saving(false)
    ensures Fits(NextCall(d), SaveFailed(committed)) && Resume(d, SaveFailed(committed)) == Crash(d)
  {
    hide Crash;
  }

  /** How the save at the end of an escalation is to take a failure of its own. */
  predicate SavesQuietly(pc: Pc, quiet: bool) {
    match pc
    case Paging(e, q) => q == quiet && !(q && e.StepFailure?)
    case Annotating(_, _, q) => q == quiet
    case Releasing(_, q) => q == quiet
    case Saving(q) => q == quiet
    case _ => !quiet
  }

  lemma QuietStays(d: Drive, quiet: bool, a: Answer)
    requires Escalating(d.pc) && SavesQuietly(d.pc, quiet) && Fits(NextCall(d), a)
    ensures SavesQuietly(ResumeEscalation(d, a).pc, quiet)
  {
    hide NextCall, ResponsibleGroup;
  }

  lemma {:induction false} QuietToTheEnd(d: Drive, quiet: bool, es: seq<Event>)
    requires (Escalating(d.pc) || d.pc.Saving?) && SavesQuietly(d.pc, quiet) && Through(d, es)
    ensures After(d, es).pc == Saving(quiet)
    decreases |es|
  {
    hide ResumeEscalation, NextCall, Fits;
    if es != [] {
      if d.pc.Saving? {
        NothingLeft(d, es);
      } else {
        QuietStays(d, quiet, es[0].answer);
        NotedKeepsEnding(d, es[0].answer);
        QuietToTheEnd(ResumeEscalation(d, es[0].answer), quiet, es[1..]);
      }
    }
  }

  lemma EscalationSaves(d: Drive, e: Error, quiet: bool, es: seq<Event>)
    requires Through(Escalate(d, e, quiet), es) && !(quiet && e.StepFailure?)
    ensures After(Escalate(d, e, quiet), es).pc == Saving(quiet)
  {
    QuietToTheEnd(Escalate(d, e, quiet), quiet, es);
  }
}
