/** The vocabulary of the orchestrator: runs, their working state, the plan of each run type, and
    the policy table that decides what a failure costs. */
module Domain {

  datatype Option<+T> = None | Some(value: T) {
    function GetOr(default: T): T {
      match this
      case Some(v) => v
      case None => default
    }
  }

  /** Seconds on the one wall clock every worker reads. */
  type Time = real

  // --- Enums ---

  datatype RunType = Automation | Resource | Legacy

  datatype RunStatus = Pending | Running | Completed | Failed | Rejected {
    predicate Terminal() {
      Completed? || Failed? || Rejected?
    }
  }

  datatype StepName =
    | CreateTicket
    | ConfigureResource
    | AwaitApproval
    | ValidateResource
    | RunEngine
    | FinalizeResource
    | CloseTicket
    | SubmitLegacy

  datatype Operation = Create | Update | Delete

  datatype ResourceState = Provisioning | Updating | Deleting | Ready | Deleted

  datatype EngineType = Airflow | LegacyRunner

  datatype EngineRunStatus = EngineSucceeded | EngineFailed | EngineInProgress

  datatype ApprovalStatus = ApprovalPending | Approved | Denied

  datatype FailureKind = Validation | InfraPrecheck | Task

  datatype TicketOutcome = Successful | Unsuccessful | Documentation

  // --- Value objects ---

  /** Free-form payloads are passed through and never looked into. */
  datatype Payload = Payload(text: string)

  type RunId = string

  datatype TicketRef = TicketRef(ticketId: string, nativeId: string)

  datatype ResourceSpec = ResourceSpec(
    projectId: string, resourceType: string, vendorId: string, resourceId: string, desired: Payload)

  datatype ResolvedWorkflow = ResolvedWorkflow(identifier: string, engineType: EngineType, templateId: string)

  datatype EngineFailure = EngineFailure(
    failedTask: Option<string>, responsibleGroup: Option<string>, kind: FailureKind)

  datatype StepResult = StepResult(finalVendorId: Option<string>)

  /** What made a step or a drive fail, as far as retrying and escalating can tell. */
  datatype Error =
    | DeadlineExceeded
    | StepFailure(kind: FailureKind)
    | Denial
    | Unclassified

  /** The idempotency keys. A step's key is the same on every attempt; an engine run's key names
      the attempt, so that a retry starts a fresh engine run. */
  datatype Key = StepKey(run: RunId, step: StepName) | EngineKey(run: RunId, attempt: nat)

  /** What the trigger put on the run, never changed afterwards. */
  datatype Request = Request(
    workflow: ResolvedWorkflow,
    ticketParams: Payload,
    workflowParams: Payload,
    operation: Operation,
    legacy: Option<Payload>)

  /** Retry and deadline bookkeeping: failed attempts per step, the log of when each step first
      began, the clock of the current attempt, and the error a step ended the run with. */
  datatype Books = Books(
    attempts: map<StepName, nat>,
    startedAt: map<StepName, Time>,
    attemptStartedAt: Option<Time>,
    errors: map<StepName, Error>)

  /** The working state of a run. The flags, the ticket and the engine run id are the markers by
      which a re-driven step sees that its work was already done. */
  datatype RunState = RunState(
    request: Request,
    resource: Option<ResourceSpec>,
    ticket: Option<TicketRef>,
    engineRunId: Option<string>,
    resourceConfigured: bool,
    resourceFinalized: bool,
    ticketClosed: bool,
    legacySubmitted: bool,
    legacyReference: Option<string>,
    books: Books,
    stepResults: map<StepName, StepResult>,
    engineFailure: Option<EngineFailure>,
    incidentId: Option<string>)

  /** One run as a value: a stored row, or what a drive's own copy of it holds. */
  datatype Run = Run(
    id: RunId,
    runType: RunType,
    maxRetries: nat,
    createdAt: Time,
    status: RunStatus,
    currentStep: Option<StepName>,
    scheduledAt: Option<Time>,
    version: nat,
    state: RunState)

  datatype Settings = Settings(retryBaseSeconds: real, defaultTeam: string)

  // --- Plans ---

  function Plan(t: RunType): seq<StepName> {
    match t
    case Automation => [RunEngine, CloseTicket]
    case Resource => [CreateTicket, ConfigureResource, AwaitApproval, ValidateResource,
                      RunEngine, FinalizeResource, CloseTicket]
    case Legacy => [SubmitLegacy]
  }

  /** Where a step stands in its run type's plan; the plan's length when it is not there. */
  function IndexInPlan(t: RunType, s: StepName): (i: nat)
    ensures i <= |Plan(t)|
    ensures InPlan(t, s) <==> i < |Plan(t)|
    ensures i < |Plan(t)| ==> Plan(t)[i] == s
  {
    match t
    case Automation => if s == RunEngine then 0 else if s == CloseTicket then 1 else 2
    case Legacy => if s == SubmitLegacy then 0 else 1
    case Resource =>
      match s
      case CreateTicket => 0
      case ConfigureResource => 1
      case AwaitApproval => 2
      case ValidateResource => 3
      case RunEngine => 4
      case FinalizeResource => 5
      case CloseTicket => 6
      case SubmitLegacy => 7
  }

  predicate InPlan(t: RunType, s: StepName) {
    match t
    case Automation => s.RunEngine? || s.CloseTicket?
    case Resource => !s.SubmitLegacy?
    case Legacy => s.SubmitLegacy?
  }

  /** `IndexInPlan` is the one position of a step in a plan, as a search from the front finds it. */
  lemma IndexIsPosition(t: RunType, i: nat)
    requires i < |Plan(t)|
    ensures InPlan(t, Plan(t)[i]) && IndexInPlan(t, Plan(t)[i]) == i
    ensures forall s :: (InPlan(t, s) <==> s in Plan(t)) && (InPlan(t, s) <==> IndexInPlan(t, s) < |Plan(t)|)
  {
    forall s ensures InPlan(t, s) <==> s in Plan(t) {
      if s in Plan(t) {
        var j :| 0 <= j < |Plan(t)| && Plan(t)[j] == s;
        assert j == 0 || j == 1 || j == 2 || j == 3 || j == 4 || j == 5 || j == 6;
      }
    }
    assert i == 0 || i == 1 || i == 2 || i == 3 || i == 4 || i == 5 || i == 6;
  }

  function PollInterval(s: StepName): Time {
    if s == AwaitApproval then 30.0 else 15.0
  }

  /** The wall-clock budget of one attempt at a step, over all its polls. */
  function MaxDuration(s: StepName): Time {
    if s == AwaitApproval then 604800.0 else 3600.0
  }

  // --- Resource states ---

  predicate InFlight(s: ResourceState) {
    s == Provisioning || s == Updating || s == Deleting
  }

  function OperationState(op: Operation): ResourceState {
    match op
    case Create => Provisioning
    case Update => Updating
    case Delete => Deleting
  }

  // --- The failure policy table ---

  datatype FailurePolicy = FailurePolicy(retryable: bool, openIncident: bool)

  function PolicyFor(kind: FailureKind): FailurePolicy {
    match kind
    case Validation => FailurePolicy(false, false)
    case InfraPrecheck => FailurePolicy(false, false)
    case Task => FailurePolicy(true, true)
  }

  /** Only a classified failure has a kind of its own; everything else is a task failure. */
  function KindOf(e: Error): FailureKind {
    if e.StepFailure? then e.kind else Task
  }

  // --- Small accessors ---

  function Attempts(books: Books, s: StepName): nat {
    if s in books.attempts then books.attempts[s] else 0
  }

  function IdemKey(run: Run, s: StepName): Key {
    StepKey(run.id, s)
  }

  function EngineRunKey(run: Run): Key {
    EngineKey(run.id, Attempts(run.state.books, RunEngine))
  }

  function Pow2(n: nat): nat {
    if n == 0 then 1 else 2 * Pow2(n - 1)
  }
}
