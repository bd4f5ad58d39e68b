/** One drive of a run, as a machine that stops at every call it makes to the outside: the clock,
    the random source, a provider, or the run store. `NextCall` says which call the drive makes
    next, `Resume` how it goes on with the answer. Everything between two calls is in one `Resume`,
    so a process can be killed, or another drive can run, exactly between two of its steps.

    The executor, the step handlers and the escalator (Executor.dfy, StepHandlers.dfy,
    Escalator.dfy) are proved to follow this machine call by call. */
module Drives {
  import opened Domain

  // --- Calls and answers ---

  /** How a resource record is addressed at the resource manager. */
  datatype Place = Place(projectId: string, resourceType: string, vendorId: string)

  /** What one write puts on a record: always the state and the flag derived from it, sometimes the
      desired state, sometimes a new vendor id. */
  datatype Fields = Fields(
    state: ResourceState, inProgress: bool, desired: Option<Payload>, rekeyTo: Option<string>)

  datatype Call =
    | ReadClock
    | DrawJitter
    | OpenTicket(templateId: string, params: Payload, key: Key)
    | PollApproval(ticket: TicketRef)
    | CloseTicketAs(ticket: TicketRef, outcome: TicketOutcome)
    | AnnotateTicket(ticket: TicketRef, incidentId: string)
    | OpenIncident(group: string)
    | CloseIncident(incident: TicketRef, outcome: TicketOutcome)
    | CreateRecord(place: Place, fields: Fields, key: Key)
    | UpdateRecord(place: Place, fields: Fields)
    | DeleteRecord(place: Place)
    | ValidateRequest(place: Place, operation: Operation)
    | TriggerEngine(params: Payload, key: Key)
    | QueryEngine(engineRunId: string)
    | FetchFailure(engineRunId: string)
    | FetchOutput(engineRunId: string)
    | SubmitRequest(request: Payload, key: Key)
    | SaveRun(run: Run)

  /** A raised call may or may not have taken effect; the drive cannot tell. Likewise a save that
      failed may have been committed. */
  datatype Answer =
    | Clock(now: Time)
    | Jitter(seconds: real)
    | Raised(notFound: bool, applied: bool)
    | Ticket(ref: TicketRef)
    | Approval(approval: ApprovalStatus)
    | Acknowledged
    | RecordId(id: Option<string>)
    | Verdict(eligible: bool)
    | EngineRun(runId: string)
    | EngineStatus(status: EngineRunStatus)
    | Failure(failure: EngineFailure)
    | Output(output: Option<string>)
    | Reference(reference: Option<string>)
    | SaveOk
    | SaveStale
    | SaveFailed(committed: bool)

  /** The answers a call can get. */
  predicate Fits(c: Call, a: Answer) {
    match c
    case ReadClock => a.Clock?
    case DrawJitter => a.Jitter? && 1.0 <= a.seconds <= 5.0
    case OpenTicket(_, _, _) => a.Ticket? || a.Raised?
    case PollApproval(_) => a.Approval? || a.Raised?
    case CloseTicketAs(_, _) => a.Acknowledged? || a.Raised?
    case AnnotateTicket(_, _) => a.Acknowledged? || a.Raised?
    case OpenIncident(_) => a.Ticket? || a.Raised?
    case CloseIncident(_, _) => a.Acknowledged? || a.Raised?
    case CreateRecord(_, _, _) => a.RecordId? || a.Raised?
    case UpdateRecord(_, _) => a.Acknowledged? || a.Raised?
    case DeleteRecord(_) => a.Acknowledged? || a.Raised?
    case ValidateRequest(_, _) => a.Verdict? || a.Raised?
    case TriggerEngine(_, _) => a.EngineRun? || a.Raised?
    case QueryEngine(_) => a.EngineStatus? || a.Raised?
    case FetchFailure(_) => a.Failure? || a.Raised?
    case FetchOutput(_) => a.Output? || a.Raised?
    case SubmitRequest(_, _) => a.Reference? || a.Raised?
    case SaveRun(_) => a.SaveOk? || a.SaveStale? || a.SaveFailed?
  }

  datatype Event = Event(call: Call, answer: Answer)

  // --- The machine's states ---

  /** Where a drive stands: the call it is about to make, with the values it holds on to for it.
      `quiet` marks the crash path, on which a failing save is swallowed. */
  datatype Pc =
    // the head of the loop: three readings of the clock
    | Begin(step: StepName)
    | StartAttempt(step: StepName)
    | CheckBudget(step: StepName, started: Time)
    // inside a step handler
    | Ordering
    | Configuring(resource: ResourceSpec)
    | AwaitingApproval(ticket: TicketRef)
    | Validating(resource: ResourceSpec)
    | Triggering
    | Querying(engineRunId: string)
    | FetchingOutput(engineRunId: string)
    | FetchingFailure(engineRunId: string)
    | Finalizing(resource: ResourceSpec)
    | Retiring(resource: ResourceSpec)
    | Removing(resource: ResourceSpec)
    | Closing(ticket: TicketRef)
    | Submitting(request: Payload)
    // leaving the run for later
    | BackingOff(attempts: nat)
    | Scheduling(delay: Time)
    // escalating
    | Paging(error: Error, quiet: bool)
    | Documenting
    | Filing(incident: TicketRef)
    | Refusing(ticket: TicketRef)
    | Annotating(ticket: TicketRef, incidentId: string, quiet: bool)
    | Releasing(resource: ResourceSpec, quiet: bool)
    // ending
    | Saving(quiet: bool)
    | Finished

  datatype Drive = Drive(cfg: Settings, run: Run, pc: Pc, escalations: nat)

  function PlaceOf(r: ResourceSpec): Place {
    Place(r.projectId, r.resourceType, r.vendorId)
  }

  function StateFields(s: ResourceState): Fields {
    Fields(s, InFlight(s), None, None)
  }

  /** The id the engine reported, when it names another record than the one the run holds. */
  function Rekey(run: Run, r: ResourceSpec): Option<string> {
    if RunEngine in run.state.stepResults then
      var reported := run.state.stepResults[RunEngine].finalVendorId;
      if reported.Some? && reported.value != "" && reported.value != r.vendorId then reported else None
    else None
  }

  function FinalizeFields(run: Run, r: ResourceSpec): Fields {
    StateFields(Ready).(
      desired := if run.state.request.operation.Update? then Some(r.desired) else None,
      rekeyTo := Rekey(run, r))
  }

  /** The team an incident goes to: the one the engine named, else the default. */
  function ResponsibleGroup(d: Drive): string {
    match d.run.state.engineFailure
    case Some(f) =>
      if f.responsibleGroup.Some? && f.responsibleGroup.value != "" then f.responsibleGroup.value
      else d.cfg.defaultTeam
    case None => d.cfg.defaultTeam
  }

  function PagedGroup(d: Drive, e: Error): string {
    if e.StepFailure? then ResponsibleGroup(d) else d.cfg.defaultTeam
  }

  // --- What a drive calls next ---

  function NextCall(d: Drive): Call
    requires !d.pc.Finished?
  {
    var st := d.run.state;
    match d.pc
    case Begin(_) => ReadClock
    case StartAttempt(_) => ReadClock
    case CheckBudget(_, _) => ReadClock
    case Ordering => OpenTicket(st.request.workflow.templateId, st.request.ticketParams, IdemKey(d.run, CreateTicket))
    case Configuring(r) =>
      var fields := StateFields(OperationState(st.request.operation));
      if st.request.operation.Create? then
        CreateRecord(PlaceOf(r), fields.(desired := Some(r.desired)), IdemKey(d.run, ConfigureResource))
      else UpdateRecord(PlaceOf(r), fields)
    case AwaitingApproval(t) => PollApproval(t)
    case Validating(r) => ValidateRequest(PlaceOf(r), st.request.operation)
    case Triggering => TriggerEngine(st.request.workflowParams, EngineRunKey(d.run))
    case Querying(e) => QueryEngine(e)
    case FetchingOutput(e) => FetchOutput(e)
    case FetchingFailure(e) => FetchFailure(e)
    case Finalizing(r) => UpdateRecord(PlaceOf(r), FinalizeFields(d.run, r))
    case Retiring(r) => UpdateRecord(PlaceOf(r), StateFields(Deleted))
    case Removing(r) => DeleteRecord(PlaceOf(r))
    case Closing(t) => CloseTicketAs(t, Successful)
    case Submitting(p) => SubmitRequest(p, IdemKey(d.run, SubmitLegacy))
    case BackingOff(_) => DrawJitter
    case Scheduling(_) => ReadClock
    case Paging(e, _) => OpenIncident(PagedGroup(d, e))
    case Documenting => OpenIncident(d.cfg.defaultTeam)
    case Filing(i) => CloseIncident(i, Documentation)
    case Refusing(t) => CloseTicketAs(t, Unsuccessful)
    case Annotating(t, i, _) => AnnotateTicket(t, i)
    case Releasing(r, _) =>
      if st.request.operation.Create? then DeleteRecord(PlaceOf(r)) else UpdateRecord(PlaceOf(r), StateFields(Ready))
    case Saving(_) => SaveRun(d.run)
  }

  // --- Moves between calls ---

  /** The head of the loop for one step. */
  function Enter(d: Drive, s: StepName): Drive {
    d.(run := d.run.(currentStep := Some(s)), pc := Begin(s))
  }

  /** What `handle` does with a loaded run: a terminal one is left alone, any other is driven from
      the step it stopped at. */
  function Start(cfg: Settings, run: Run): Drive {
    if run.status.Terminal() then Drive(cfg, run, Finished, 0)
    else
      Enter(Drive(cfg, run.(status := Running), Finished, 0), run.currentStep.GetOr(Plan(run.runType)[0]))
  }

  /** What a step handler leaves behind when it stops: the run's state, and whether the step is
      done, must be polled again, failed, was denied, or needs one more call. */
  datatype Outcome = Done | NotYet | Raises(error: Error) | Denies | Asks(pc: Pc)

  datatype Handled = Handled(st: RunState, outcome: Outcome)

  /** A step handler up to its first call. */
  function FirstMove(run: Run, s: StepName): Handled {
    var st := run.state;
    match s
    case CreateTicket => Handled(st, if st.ticket.Some? then Done else Asks(Ordering))
    case ConfigureResource =>
      if st.resourceConfigured then Handled(st, Done)
      else if st.resource.None? then Handled(st, Raises(Unclassified))
      else if st.request.operation.Create? then
        var r := st.resource.value.(vendorId := run.id);
        Handled(st.(resource := Some(r)), Asks(Configuring(r)))
      else Handled(st, Asks(Configuring(st.resource.value)))
    case AwaitApproval =>
      Handled(st, if st.ticket.None? then Raises(Unclassified) else Asks(AwaitingApproval(st.ticket.value)))
    case ValidateResource =>
      Handled(st, if st.resource.None? then Raises(Unclassified) else Asks(Validating(st.resource.value)))
    case RunEngine =>
      Handled(st, if !st.request.workflow.engineType.Airflow? then Raises(Unclassified)
                  else if st.engineRunId.None? then Asks(Triggering)
                  else Asks(Querying(st.engineRunId.value)))
    case FinalizeResource =>
      Handled(st, if st.resource.None? || st.resourceFinalized then Done
                  else if st.request.operation.Delete? then Asks(Retiring(st.resource.value))
                  else Asks(Finalizing(st.resource.value)))
    case CloseTicket =>
      Handled(st, if st.ticketClosed then Done
                  else if st.ticket.None? then Raises(Unclassified)
                  else Asks(Closing(st.ticket.value)))
    case SubmitLegacy =>
      Handled(st, if st.legacySubmitted then Done
                  else if st.request.legacy.None? then Raises(Unclassified)
                  else Asks(Submitting(st.request.legacy.value)))
  }

  /** The bookkeeping of a finished step. */
  function Settle(st: RunState, s: StepName): RunState {
    st.(books := st.books.(attempts := st.books.attempts - {s}, attemptStartedAt := None))
  }

  /** A step is done: on to the next one, or the run is complete. A step that is not in the plan
      has no position in it, which crashes the drive. */
  function Complete(d: Drive, s: StepName): Drive {
    var run := d.run.(state := Settle(d.run.state, s));
    var i := IndexInPlan(run.runType, s);
    if !InPlan(run.runType, s) then Crash(d.(run := run))
    else if i + 1 < |Plan(run.runType)| then Enter(d.(run := run), Plan(run.runType)[i + 1])
    else d.(run := run.(status := Completed, currentStep := None, scheduledAt := None), pc := Saving(false))
  }

  function ResetForRetry(st: RunState, s: StepName): RunState {
    if s == RunEngine then
      st.(engineRunId := None, engineFailure := None, stepResults := st.stepResults - {RunEngine})
    else st
  }

  /** The state a failed attempt leaves when the step is retried, and when the run ends with it. */
  function RetryState(st: RunState, s: StepName): RunState {
    ResetForRetry(st, s).(books :=
      st.books.(attempts := st.books.attempts[s := Attempts(st.books, s) + 1], attemptStartedAt := None))
  }

  function FailedState(st: RunState, s: StepName, e: Error): RunState {
    WithError(st.(books := st.books.(attempts := st.books.attempts[s := Attempts(st.books, s) + 1])), s, e)
  }

  predicate MayRetry(run: Run, s: StepName, e: Error) {
    PolicyFor(KindOf(e)).retryable && Attempts(run.state.books, s) + 1 <= run.maxRetries
  }

  /** A step failed: retried with backoff while its kind allows it and retries are left, else the
      run is over and escalated. */
  function Fail(d: Drive, s: StepName, e: Error): Drive {
    if MayRetry(d.run, s, e) then
      WithState(d, RetryState(d.run.state, s)).(pc := BackingOff(Attempts(d.run.state.books, s) + 1))
    else Escalate(Ended(d, RunStatus.Failed, FailedState(d.run.state, s, e)), e, false)
  }

  /** A run that is over: nothing is scheduled for it any more. */
  function Ended(d: Drive, status: RunStatus, st: RunState): Drive {
    d.(run := d.run.(status := status, scheduledAt := None, state := st))
  }

  function WithError(st: RunState, s: StepName, e: Error): RunState {
    st.(books := st.books.(errors := st.books.errors[s := e]))
  }

  function Reject(d: Drive, s: StepName): Drive {
    Release(Ended(d, Rejected, WithError(d.run.state, s, Denial)), false)
  }

  /** A failure of the driving code itself. A drive that already failed and escalated only saves
      again. */
  function Crash(d: Drive): Drive {
    if d.run.status == RunStatus.Failed then d.(pc := Saving(true))
    else
      var st := if d.run.currentStep.Some? then WithError(d.run.state, d.run.currentStep.value, Unclassified)
                else d.run.state;
      Escalate(Ended(d, RunStatus.Failed, st), Unclassified, true)
  }

  function Escalate(d: Drive, e: Error, quiet: bool): Drive {
    var d' := d.(escalations := d.escalations + 1);
    if e.StepFailure? && !PolicyFor(e.kind).openIncident then Refuse(d')
    else d'.(pc := Paging(e, quiet))
  }

  /** Close the requester's ticket as unsuccessful, if there is one. */
  function Refuse(d: Drive): Drive {
    match d.run.state.ticket
    case Some(t) => d.(pc := Refusing(t))
    case None => Release(d, false)
  }

  /** The resource a run left in flight: one it configured and did not finalize. */
  function ResourceInFlight(st: RunState): Option<ResourceSpec> {
    if !st.resourceConfigured || st.resourceFinalized then None else st.resource
  }

  function Release(d: Drive, quiet: bool): Drive {
    match ResourceInFlight(d.run.state)
    case Some(r) => d.(pc := Releasing(r, quiet))
    case None => d.(pc := Saving(quiet))
  }

  // --- How a drive goes on with an answer ---

  function WithState(d: Drive, st: RunState): Drive {
    d.(run := d.run.(state := st))
  }

  /** At the head of the loop. */
  function ResumeLoop(d: Drive, now: Time): Drive
    requires d.pc.Begin? || d.pc.StartAttempt? || d.pc.CheckBudget?
  {
    var st := d.run.state;
    match d.pc
    case Begin(s) =>
      var books := if s in st.books.startedAt then st.books
                   else st.books.(startedAt := st.books.startedAt[s := now]);
      WithState(d, st.(books := books)).(pc := match books.attemptStartedAt
                               case Some(t) => CheckBudget(s, t)
                               case None => StartAttempt(s))
    case StartAttempt(s) =>
      WithState(d, st.(books := st.books.(attemptStartedAt := Some(now)))).(pc := CheckBudget(s, now))
    case CheckBudget(s, started) =>
      if now - started > MaxDuration(s) then Fail(d, s, DeadlineExceeded)
      else React(d, s, FirstMove(d.run, s))
  }

  predicate InStep(pc: Pc) {
    pc.Ordering? || pc.Configuring? || pc.AwaitingApproval? || pc.Validating? || pc.Triggering?
    || pc.Querying? || pc.FetchingOutput? || pc.FetchingFailure? || pc.Finalizing? || pc.Retiring?
    || pc.Removing? || pc.Closing? || pc.Submitting?
  }

  /** The step a handler's call belongs to. */
  function StepOf(pc: Pc): StepName
    requires InStep(pc)
  {
    match pc
    case Ordering => CreateTicket
    case Configuring(_) => ConfigureResource
    case AwaitingApproval(_) => AwaitApproval
    case Validating(_) => ValidateResource
    case Triggering => RunEngine
    case Querying(_) => RunEngine
    case FetchingOutput(_) => RunEngine
    case FetchingFailure(_) => RunEngine
    case Finalizing(_) => FinalizeResource
    case Retiring(_) => FinalizeResource
    case Removing(_) => FinalizeResource
    case Closing(_) => CloseTicket
    case Submitting(_) => SubmitLegacy
  }

  /** A raised call fails its step, except where the handler tolerates it: an output or a failure
      detail that cannot be read, and a record that is gone when it was about to be deleted. */
  predicate Tolerated(pc: Pc, a: Answer) {
    a.Raised? ==> pc.FetchingOutput? || pc.FetchingFailure? || (pc.Retiring? && a.notFound)
  }

  /** A step handler from one answer to its next call or its end. */
  function NextMove(d: Drive, a: Answer): Handled
    requires InStep(d.pc) && Fits(NextCall(d), a)
  {
    var st := d.run.state;
    if !Tolerated(d.pc, a) then Handled(st, Raises(Unclassified))
    else match d.pc
      case Ordering => Handled(st.(ticket := Some(a.ref)), Done)
      case Configuring(r) =>
        var r' := if a.RecordId? && a.id.Some? && a.id.value != "" then r.(resourceId := a.id.value) else r;
        Handled(st.(resource := Some(r'), resourceConfigured := true), Done)
      case AwaitingApproval(_) =>
        Handled(st, match a.approval case Approved => Done case Denied => Denies case ApprovalPending => NotYet)
      case Validating(_) => Handled(st, if a.eligible then Done else Raises(StepFailure(InfraPrecheck)))
      case Triggering => Handled(st.(engineRunId := Some(a.runId)), NotYet)
      case Querying(e) =>
        Handled(st, match a.status
                    case EngineSucceeded => if st.resource.None? then Done else Asks(FetchingOutput(e))
                    case EngineFailed => Asks(FetchingFailure(e))
                    case EngineInProgress => NotYet)
      case FetchingOutput(_) =>
        Handled(if a.Output? && a.output.Some? then
                  st.(stepResults := st.stepResults[RunEngine := StepResult(a.output)])
                else st, Done)
      case FetchingFailure(_) =>
        var detail := if a.Failure? then Some(a.failure) else st.engineFailure;
        Handled(st.(engineFailure := detail),
                Raises(StepFailure(if detail.Some? then detail.value.kind else Task)))
      case Finalizing(r) =>
        var r' := match Rekey(d.run, r) case Some(v) => r.(vendorId := v) case None => r;
        Handled(st.(resource := Some(r'), resourceFinalized := true), Done)
      case Retiring(r) => Handled(st, Asks(Removing(r)))
      case Removing(_) => Handled(st.(resourceFinalized := true), Done)
      case Closing(_) => Handled(st.(ticketClosed := true), Done)
      case Submitting(_) => Handled(st.(legacyReference := a.reference, legacySubmitted := true), Done)
  }

  /** What the executor makes of it. */
  function React(d: Drive, s: StepName, h: Handled): Drive {
    var d' := WithState(d, h.st);
    match h.outcome
    case Done => Complete(d', s)
    case NotYet => d'.(pc := Scheduling(PollInterval(s)))
    case Raises(e) => Fail(d', s, e)
    case Denies => Reject(d', s)
    case Asks(pc) => d'.(pc := pc)
  }

  predicate Escalating(pc: Pc) {
    pc.Paging? || pc.Documenting? || pc.Filing? || pc.Refusing? || pc.Annotating? || pc.Releasing?
  }

  /** What the escalator writes down of an answer: the main incident's id, the closed ticket. */
  function Noted(d: Drive, a: Answer): Drive {
    var st := d.run.state;
    if d.pc.Paging? && a.Ticket? then WithState(d, st.(incidentId := Some(a.ref.ticketId)))
    else if d.pc.Refusing? && a.Acknowledged? then WithState(d, st.(ticketClosed := true))
    else d
  }

  /** Inside the escalator, which swallows every failure: the ticket side and the resource side are
      guarded apart, so neither costs the other its update. */
  function ResumeEscalation(d: Drive, a: Answer): Drive
    requires Escalating(d.pc) && Fits(NextCall(d), a)
  {
    var d' := Noted(d, a);
    match d.pc
    case Paging(e, quiet) =>
      if a.Raised? then Release(d', quiet)
      else if e.StepFailure? then
        if ResponsibleGroup(d) == d.cfg.defaultTeam then Refuse(d') else d'.(pc := Documenting)
      else if d.run.state.ticket.Some? then
        d'.(pc := Annotating(d.run.state.ticket.value, a.ref.ticketId, quiet))
      else Release(d', quiet)
    case Documenting => if a.Raised? then Refuse(d') else d'.(pc := Filing(a.ref))
    case Filing(_) => Refuse(d')
    case Refusing(_) => Release(d', false)
    case Annotating(_, _, quiet) => Release(d', quiet)
    case Releasing(_, quiet) => d'.(pc := Saving(quiet))
  }

  function Backoff(base: real, k: nat, jitter: real): real
    requires k >= 1
  {
    base * Pow2(k - 1) as real + jitter
  }

  function Resume(d: Drive, a: Answer): Drive
    requires !d.pc.Finished? && Fits(NextCall(d), a)
  {
    if d.pc.Begin? || d.pc.StartAttempt? || d.pc.CheckBudget? then ResumeLoop(d, a.now)
    else if InStep(d.pc) then React(d, StepOf(d.pc), NextMove(d, a))
    else if Escalating(d.pc) then ResumeEscalation(d, a)
    else match d.pc
      case BackingOff(n) => d.(pc := Scheduling(Backoff(d.cfg.retryBaseSeconds, if n == 0 then 1 else n, a.seconds)))
      case Scheduling(delay) => d.(run := d.run.(scheduledAt := Some(a.now + delay)), pc := Saving(false))
      case Saving(quiet) =>
        if a.SaveOk? then d.(run := d.run.(version := d.run.version + 1), pc := Finished)
        else if a.SaveStale? || quiet then d.(pc := Finished)
        else Crash(d)
  }

  /** A drive reads the clock at the head of the loop and when it schedules itself, nowhere else. */
  lemma ReadsTheClock(d: Drive, a: Answer)
    requires !d.pc.Finished? && Fits(NextCall(d), a)
    ensures a.Clock? <==> d.pc.Begin? || d.pc.StartAttempt? || d.pc.CheckBudget? || d.pc.Scheduling?
  {
  }

  // --- Traces ---

  /** The events of a drive from `d` on: each call is the one the machine makes. */
  predicate IsTrace(d: Drive, es: seq<Event>)
    decreases |es|
  {
    es == [] ||
    (!d.pc.Finished? && es[0].call == NextCall(d) && Fits(es[0].call, es[0].answer)
     && IsTrace(Resume(d, es[0].answer), es[1..]))
  }

  /** Where the machine stands after those events. */
  function After(d: Drive, es: seq<Event>): Drive
    requires IsTrace(d, es)
    decreases |es|
  {
    if es == [] then d else After(Resume(d, es[0].answer), es[1..])
  }

  lemma {:induction false} TraceExtends(d: Drive, es: seq<Event>, e: Event)
    requires IsTrace(d, es)
    requires !After(d, es).pc.Finished? && e.call == NextCall(After(d, es)) && Fits(e.call, e.answer)
    decreases |es|
    ensures IsTrace(d, es + [e]) && After(d, es + [e]) == Resume(After(d, es), e.answer)
  {
    if es == [] {
      assert (es + [e])[1..] == [];
    } else {
      TraceExtends(Resume(d, es[0].answer), es[1..], e);
      assert (es + [e])[1..] == es[1..] + [e];
    }
  }

  lemma NoEvents(d: Drive)
    ensures IsTrace(d, []) && After(d, []) == d
  {
  }

  lemma TracePrepends(d: Drive, e: Event, es: seq<Event>)
    requires !d.pc.Finished? && e.call == NextCall(d) && Fits(e.call, e.answer) && IsTrace(Resume(d, e.answer), es)
    ensures IsTrace(d, [e] + es) && After(d, [e] + es) == After(Resume(d, e.answer), es)
  {
    hide Resume, NextCall, Fits;
    assert ([e] + es)[1..] == es;
  }

  lemma {:induction false} TraceJoins(d: Drive, a: seq<Event>, b: seq<Event>)
    requires IsTrace(d, a) && IsTrace(After(d, a), b)
    ensures IsTrace(d, a + b) && After(d, a + b) == After(After(d, a), b)
    decreases |a|
  {
    hide Resume, NextCall, Fits;
    if a == [] {
      assert a + b == b;
    } else {
      TraceJoins(Resume(d, a[0].answer), a[1..], b);
      assert (a + b)[1..] == a[1..] + b;
    }
  }

  // --- The ways into the escalator ---

  /** Escalating and releasing only choose the next call: the run itself is not touched. */
  lemma EndingsOnly(d: Drive, e: Error, quiet: bool)
    ensures forall d' :: d' == Release(d, quiet) || d' == Refuse(d) || d' == Escalate(d, e, quiet)
              ==> d'.run == d.run && d'.cfg == d.cfg && (Escalating(d'.pc) || d'.pc.Saving?)
  {
  }

  // --- Settings ---

  lemma FailKeepsCfg(d: Drive, s: StepName, e: Error)
    ensures Fail(d, s, e).cfg == d.cfg && Crash(d).cfg == d.cfg
  {
    hide FailedState, RetryState;
  }

  lemma ReactKeepsCfg(d: Drive, s: StepName, h: Handled)
    ensures React(d, s, h).cfg == d.cfg
  {
    hide Fail, Crash, Settle;
    var d' := WithState(d, h.st);
    FailKeepsCfg(WithState(d', Settle(h.st, s)), s, Unclassified);
    if h.outcome.Raises? {
      FailKeepsCfg(d', s, h.outcome.error);
    }
  }

  lemma EscalationKeepsCfg(d: Drive, a: Answer)
    requires Escalating(d.pc) && Fits(NextCall(d), a)
    ensures ResumeEscalation(d, a).cfg == d.cfg
  {
    hide NextCall, Release, Refuse, ResponsibleGroup;
    EndingsOnly(Noted(d, a), Unclassified, true);
    EndingsOnly(Noted(d, a), Unclassified, false);
  }

  /** No call changes what a drive was configured with. */
  lemma ResumeKeepsCfg(d: Drive, a: Answer)
    requires !d.pc.Finished? && Fits(NextCall(d), a)
    ensures Resume(d, a).cfg == d.cfg
  {
    hide NextCall, NextMove, FirstMove, React, Fail, Crash, ResumeEscalation, Backoff;
    if InStep(d.pc) {
      ReactKeepsCfg(d, StepOf(d.pc), NextMove(d, a));
    } else if d.pc.CheckBudget? {
      ReactKeepsCfg(d, d.pc.step, FirstMove(d.run, d.pc.step));
      FailKeepsCfg(d, d.pc.step, DeadlineExceeded);
    } else if Escalating(d.pc) {
      EscalationKeepsCfg(d, a);
    } else {
      FailKeepsCfg(d, CreateTicket, Unclassified);
    }
  }

  // --- The calls of one handler ---

  /** The calls a handler can still make after this one. */
  predicate LastCallOf(pc: Pc) {
    InStep(pc) && !pc.Querying? && !pc.Retiring?
  }

  lemma FirstMoveAsks(run: Run, s: StepName)
    ensures var o := FirstMove(run, s).outcome; o.Asks? ==> InStep(o.pc) && StepOf(o.pc) == s
  {
  }

  lemma NextMoveAsks(d: Drive, a: Answer)
    requires InStep(d.pc) && Fits(NextCall(d), a)
    ensures var o := NextMove(d, a).outcome;
            o.Asks? ==> !LastCallOf(d.pc) && LastCallOf(o.pc) && StepOf(o.pc) == StepOf(d.pc)
  {
    hide Rekey, FinalizeFields;
  }
}
