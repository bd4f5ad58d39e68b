/** The step handlers: each looks at the run's markers, makes its provider calls, and writes what it
    learnt into the run. A handler is told apart from the machine only by when it does what: it writes
    the run in place, the machine keeps values; both make the same calls. */
module StepHandlers {
  import opened Domain
  import opened Drives
  import opened WorkflowRuns
  import opened OutsidePorts

  /** How a handler ended, as the machine sees it. */
  type Ending = o: Outcome | !o.Asks? witness Done

  // --- Between a handler and the machine ---

  lemma CrashForgetsPc(d: Drive, pc: Pc)
    ensures Crash(d.(pc := pc)) == Crash(d)
  {
  }

  lemma FailForgetsPc(d: Drive, pc: Pc, s: StepName, e: Error)
    ensures Fail(d.(pc := pc), s, e) == Fail(d, s, e)
  {
    hide FailedState, RetryState;
  }

  lemma CompleteForgetsPc(d: Drive, pc: Pc, s: StepName)
    ensures Complete(d.(pc := pc), s) == Complete(d, s)
  {
    hide Crash, Settle;
    CrashForgetsPc(d.(run := d.run.(state := Settle(d.run.state, s))), pc);
  }

  /** What the executor makes of a handler does not depend on the calls the handler made. */
  lemma ReactForgetsCalls(d: Drive, st: RunState, pc: Pc, s: StepName, h: Handled)
    ensures React(WithState(d, st).(pc := pc), s, h) == React(d, s, h)
  {
    hide Complete, Fail;
    var d' := WithState(d, h.st);
    CompleteForgetsPc(d', pc, s);
    if h.outcome.Raises? {
      FailForgetsPc(d', pc, s, h.outcome.error);
    }
  }

  /** A handler's call and its answer, seen from the machine. */
  lemma Answered(d: Drive, s: StepName, st: RunState, pc: Pc, a: Answer)
    requires InStep(pc) && StepOf(pc) == s
    ensures var p := React(d, s, Handled(st, Asks(pc)));
            && p == WithState(d, st).(pc := pc)
            && (Fits(NextCall(p), a) ==> Resume(p, a) == React(d, s, NextMove(p, a)))
  {
    hide NextMove, Complete, Fail, Reject, NextCall;
    var p := WithState(d, st).(pc := pc);
    if Fits(NextCall(p), a) {
      ReactForgetsCalls(d, st, pc, s, NextMove(p, a));
    }
  }

  // --- The handlers ---

  class StepHandlers {
    const ports: Ports

    constructor (ports: Ports)
      ensures this.ports == ports
    {
      this.ports := ports;
    }

    /** Before a handler runs: the machine has made of `d` what the handler's first move asks. */
    ghost predicate Before(d: Drive, s: StepName, run: WorkflowRun)
      reads ports, run
    {
      ports.Valid() && run.Value() == d.run && ports.drive == React(d, s, FirstMove(d.run, s))
    }

    /** After it: the run it wrote and the way it ended are what the machine goes on with. */
    ghost predicate After(d: Drive, s: StepName, run: WorkflowRun, r: Ending)
      reads ports, run
    {
      ports.Valid() && run.Value() == d.run.(state := run.State())
      && ports.drive == React(d, s, Handled(run.State(), r))
    }

    /** One call of a handler; the machine, which had stopped for it, goes on with the answer. */
    method Call(ghost d: Drive, ghost s: StepName, ghost st: RunState, ghost pc: Pc, c: Call) returns (a: Answer)
      requires ports.Valid() && InStep(pc) && StepOf(pc) == s
      requires ports.drive == React(d, s, Handled(st, Asks(pc))) && c == NextCall(WithState(d, st).(pc := pc))
      modifies ports
      ensures ports.Valid() && ports.start == old(ports.start) && ports.loads == old(ports.loads) && Fits(c, a)
      ensures ports.drive == React(d, s, NextMove(WithState(d, st).(pc := pc), a))
    {
      hide React, Resume, IsTrace, NextCall, NextMove;
      Answered(d, s, st, pc, SomeAnswer(c));
      a := ports.Ask(c);
      Answered(d, s, st, pc, a);
    }

    method CreateTicketStep(run: WorkflowRun, ghost d: Drive) returns (r: Ending)
      requires Before(d, CreateTicket, run)
      modifies run, ports
      ensures After(d, CreateTicket, run, r) && ports.start == old(ports.start) && ports.loads == old(ports.loads)
    {
      hide React, Resume, IsTrace;
      if run.ticket.Some? {
        return Done;
      }
      var a := Call(d, CreateTicket, run.State(), Ordering,
                    OpenTicket(run.request.workflow.templateId, run.request.ticketParams, StepKey(run.id, CreateTicket)));
      if a.Raised? {
        return Raises(Unclassified);
      }
      run.ticket := Some(a.ref);
      return Done;
    }

    /** Put the request on its resource. A CREATE's record lives under the run's own id until the run is
        finalized; an UPDATE's or DELETE's only changes its state. */
    method ConfigureResourceStep(run: WorkflowRun, ghost d: Drive) returns (r: Ending)
      requires Before(d, ConfigureResource, run)
      modifies run, ports
      ensures After(d, ConfigureResource, run, r) && ports.start == old(ports.start) && ports.loads == old(ports.loads)
    {
      hide React, Resume, IsTrace;
      if run.resourceConfigured {
        return Done;
      }
      if run.resource.None? {
        return Raises(Unclassified);
      }
      if run.request.operation.Create? {
        run.resource := Some(run.resource.value.(vendorId := run.id));
        r := CreateItsRecord(run, run.resource.value, d);
      } else {
        var resource := run.resource.value;
        var a := Call(d, ConfigureResource, run.State(), Configuring(resource),
                      UpdateRecord(PlaceOf(resource), StateFields(OperationState(run.request.operation))));
        if a.Raised? {
          return Raises(Unclassified);
        }
        run.resourceConfigured := true;
        return Done;
      }
    }

    method CreateItsRecord(run: WorkflowRun, resource: ResourceSpec, ghost d: Drive) returns (r: Ending)
      requires ports.Valid() && run.Value() == d.run.(state := run.State())
      requires run.resource == Some(resource) && run.request.operation.Create?
      requires ports.drive == React(d, ConfigureResource, Handled(run.State(), Asks(Configuring(resource))))
      modifies run, ports
      ensures After(d, ConfigureResource, run, r) && ports.start == old(ports.start) && ports.loads == old(ports.loads)
    {
      hide React, Resume, IsTrace;
      var a := Call(d, ConfigureResource, run.State(), Configuring(resource),
                    CreateRecord(PlaceOf(resource), StateFields(Provisioning).(desired := Some(resource.desired)),
                                 StepKey(run.id, ConfigureResource)));
      if a.Raised? {
        return Raises(Unclassified);
      }
      if a.id.Some? && a.id.value != "" {
        run.resource := Some(resource.(resourceId := a.id.value));
      }
      run.resourceConfigured := true;
      return Done;
    }

    method AwaitApprovalStep(run: WorkflowRun, ghost d: Drive) returns (r: Ending)
      requires Before(d, AwaitApproval, run)
      modifies run, ports
      ensures After(d, AwaitApproval, run, r) && ports.start == old(ports.start) && ports.loads == old(ports.loads)
    {
      hide React, Resume, IsTrace;
      if run.ticket.None? {
        return Raises(Unclassified);
      }
      var a := Call(d, AwaitApproval, run.State(), AwaitingApproval(run.ticket.value), PollApproval(run.ticket.value));
      if a.Raised? {
        return Raises(Unclassified);
      }
      if a.approval.Approved? {
        return Done;
      }
      return if a.approval.Denied? then Denies else NotYet;
    }

    method ValidateResourceStep(run: WorkflowRun, ghost d: Drive) returns (r: Ending)
      requires Before(d, ValidateResource, run)
      modifies run, ports
      ensures After(d, ValidateResource, run, r) && ports.start == old(ports.start) && ports.loads == old(ports.loads)
    {
      hide React, Resume, IsTrace;
      if run.resource.None? {
        return Raises(Unclassified);
      }
      var a := Call(d, ValidateResource, run.State(), Validating(run.resource.value),
                    ValidateRequest(PlaceOf(run.resource.value), run.request.operation));
      if a.Raised? {
        return Raises(Unclassified);
      }
      return if a.eligible then Done else Raises(StepFailure(InfraPrecheck));
    }

    /** Trigger the engine, then poll it. Only Airflow has a client. */
    method RunEngineStep(run: WorkflowRun, ghost d: Drive) returns (r: Ending)
      requires Before(d, RunEngine, run)
      modifies run, ports
      ensures After(d, RunEngine, run, r) && ports.start == old(ports.start) && ports.loads == old(ports.loads)
    {
      hide React, Resume, IsTrace;
      if !run.request.workflow.engineType.Airflow? {
        return Raises(Unclassified);
      }
      if run.engineRunId.None? {
        var attempt := if RunEngine in run.stepAttempts then run.stepAttempts[RunEngine] else 0;
        var a := Call(d, RunEngine, run.State(), Triggering,
                      TriggerEngine(run.request.workflowParams, EngineKey(run.id, attempt)));
        if a.Raised? {
          return Raises(Unclassified);
        }
        run.engineRunId := Some(a.runId);
        return NotYet;
      }
      r := PollEngine(run, run.engineRunId.value, d);
    }

    method PollEngine(run: WorkflowRun, engineRunId: string, ghost d: Drive) returns (r: Ending)
      requires ports.Valid() && run.Value() == d.run && run.engineRunId == Some(engineRunId)
      requires ports.drive == React(d, RunEngine, Handled(run.State(), Asks(Querying(engineRunId))))
      modifies run, ports
      ensures After(d, RunEngine, run, r) && ports.start == old(ports.start) && ports.loads == old(ports.loads)
    {
      hide React, Resume, IsTrace;
      var a := Call(d, RunEngine, run.State(), Querying(engineRunId), QueryEngine(engineRunId));
      if a.Raised? {
        return Raises(Unclassified);
      }
      match a.status
      case EngineSucceeded =>
        CaptureFinalVendorId(run, engineRunId, d);
        return Done;
      case EngineFailed =>
        var f := Call(d, RunEngine, run.State(), FetchingFailure(engineRunId), FetchFailure(engineRunId));
        if f.Failure? {
          run.engineFailure := Some(f.failure);
        }
        return Raises(StepFailure(if run.engineFailure.Some? then run.engineFailure.value.kind else Task));
      case EngineInProgress =>
        return NotYet;
    }

    /** The id the engine reports for what it provisioned, if it reports one that can be read. */
    method CaptureFinalVendorId(run: WorkflowRun, engineRunId: string, ghost d: Drive)
      requires ports.Valid() && run.Value() == d.run && run.engineRunId == Some(engineRunId)
      requires ports.drive == React(d, RunEngine, Handled(run.State(), if run.resource.None? then Done
                                                                      else Asks(FetchingOutput(engineRunId))))
      modifies run, ports
      ensures After(d, RunEngine, run, Done) && ports.start == old(ports.start) && ports.loads == old(ports.loads)
    {
      hide React, Resume, IsTrace;
      if run.resource.None? {
        return;
      }
      var a := Call(d, RunEngine, run.State(), FetchingOutput(engineRunId), FetchOutput(engineRunId));
      if a.Output? && a.output.Some? {
        run.stepResults := run.stepResults[RunEngine := StepResult(a.output)];
      }
    }

    method FinalizeResourceStep(run: WorkflowRun, ghost d: Drive) returns (r: Ending)
      requires Before(d, FinalizeResource, run)
      modifies run, ports
      ensures After(d, FinalizeResource, run, r) && ports.start == old(ports.start) && ports.loads == old(ports.loads)
    {
      hide React, Resume, IsTrace;
      if run.resource.None? || run.resourceFinalized {
        return Done;
      }
      var resource := run.resource.value;
      if run.request.operation.Delete? {
        r := FinalizeDelete(run, resource, d);
      } else {
        r := FinalizeChange(run, resource, d);
      }
    }

    /** Write the outcome on the record; one that moved to another id is followed there. */
    method FinalizeChange(run: WorkflowRun, resource: ResourceSpec, ghost d: Drive) returns (r: Ending)
      requires ports.Valid() && run.Value() == d.run && run.resource == Some(resource)
      requires ports.drive == React(d, FinalizeResource, Handled(run.State(), Asks(Finalizing(resource))))
      modifies run, ports
      ensures After(d, FinalizeResource, run, r) && ports.start == old(ports.start) && ports.loads == old(ports.loads)
    {
      hide React, Resume, IsTrace, FinalizeFields, Rekey;
      var fields := FinalFields(run, resource);
      var a := Call(d, FinalizeResource, run.State(), Finalizing(resource), UpdateRecord(PlaceOf(resource), fields));
      if a.Raised? {
        return Raises(Unclassified);
      }
      if fields.rekeyTo.Some? {
        run.resource := Some(resource.(vendorId := fields.rekeyTo.value));
      }
      run.resourceFinalized := true;
      return Done;
    }

    /** Mark the record deleted, then delete it. A record that is gone already needs no mark. */
    method FinalizeDelete(run: WorkflowRun, resource: ResourceSpec, ghost d: Drive) returns (r: Ending)
      requires ports.Valid() && run.Value() == d.run
      requires ports.drive == React(d, FinalizeResource, Handled(run.State(), Asks(Retiring(resource))))
      modifies run, ports
      ensures After(d, FinalizeResource, run, r) && ports.start == old(ports.start) && ports.loads == old(ports.loads)
    {
      hide React, Resume, IsTrace;
      var marked := Call(d, FinalizeResource, run.State(), Retiring(resource),
                         UpdateRecord(PlaceOf(resource), StateFields(Deleted)));
      if marked.Raised? && !marked.notFound {
        return Raises(Unclassified);
      }
      var removed := Call(d, FinalizeResource, run.State(), Removing(resource), DeleteRecord(PlaceOf(resource)));
      if removed.Raised? {
        return Raises(Unclassified);
      }
      run.resourceFinalized := true;
      return Done;
    }

    /** What finalizing writes on the record, built up field by field. */
    method FinalFields(run: WorkflowRun, resource: ResourceSpec) returns (fields: Fields)
      ensures fields == FinalizeFields(run.Value(), resource) && fields.rekeyTo == Rekey(run.Value(), resource)
    {
      fields := StateFields(Ready);
      if run.request.operation.Update? {
        fields := fields.(desired := Some(resource.desired));
      }
      if RunEngine in run.stepResults {
        var reported := run.stepResults[RunEngine].finalVendorId;
        if reported.Some? && reported.value != "" && reported.value != resource.vendorId {
          fields := fields.(rekeyTo := reported);
        }
      }
    }

    method CloseTicketStep(run: WorkflowRun, ghost d: Drive) returns (r: Ending)
      requires Before(d, CloseTicket, run)
      modifies run, ports
      ensures After(d, CloseTicket, run, r) && ports.start == old(ports.start) && ports.loads == old(ports.loads)
    {
      hide React, Resume, IsTrace;
      if run.ticketClosed {
        return Done;
      }
      if run.ticket.None? {
        return Raises(Unclassified);
      }
      var a := Call(d, CloseTicket, run.State(), Closing(run.ticket.value), CloseTicketAs(run.ticket.value, Successful));
      if a.Raised? {
        return Raises(Unclassified);
      }
      run.ticketClosed := true;
      return Done;
    }

    method SubmitLegacyStep(run: WorkflowRun, ghost d: Drive) returns (r: Ending)
      requires Before(d, SubmitLegacy, run)
      modifies run, ports
      ensures After(d, SubmitLegacy, run, r) && ports.start == old(ports.start) && ports.loads == old(ports.loads)
    {
      hide React, Resume, IsTrace;
      if run.legacySubmitted {
        return Done;
      }
      if run.request.legacy.None? {
        return Raises(Unclassified);
      }
      var a := Call(d, SubmitLegacy, run.State(), Submitting(run.request.legacy.value),
                    SubmitRequest(run.request.legacy.value, StepKey(run.id, SubmitLegacy)));
      if a.Raised? {
        return Raises(Unclassified);
      }
      run.legacyReference := a.reference;
      run.legacySubmitted := true;
      return Done;
    }

    /** The handler of a step. */
    method Execute(run: WorkflowRun, s: StepName, ghost d: Drive) returns (r: Ending)
      requires Before(d, s, run)
      modifies run, ports
      ensures After(d, s, run, r) && ports.start == old(ports.start) && ports.loads == old(ports.loads)
    {
      hide React, FirstMove, IsTrace;
      match s
      case CreateTicket => r := CreateTicketStep(run, d);
      case ConfigureResource => r := ConfigureResourceStep(run, d);
      case AwaitApproval => r := AwaitApprovalStep(run, d);
      case ValidateResource => r := ValidateResourceStep(run, d);
      case RunEngine => r := RunEngineStep(run, d);
      case FinalizeResource => r := FinalizeResourceStep(run, d);
      case CloseTicket => r := CloseTicketStep(run, d);
      case SubmitLegacy => r := SubmitLegacyStep(run, d);
    }

    /** A retried engine step forgets the engine run that failed; no other step has anything to forget. */
    method ResetStepForRetry(run: WorkflowRun, s: StepName)
      modifies run
      ensures run.Value() == old(run.Value()).(state := ResetForRetry(old(run.State()), s))
    {
      if s == RunEngine {
        run.engineRunId := None;
        run.engineFailure := None;
        run.stepResults := run.stepResults - {RunEngine};
      }
    }
  }
}
