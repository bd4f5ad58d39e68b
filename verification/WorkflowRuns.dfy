/** The run as the drive holds it: one object with its working state, its fields written in place. */
module WorkflowRuns {
  import opened Domain

  class WorkflowRun {
    const id: RunId
    const runType: RunType
    const maxRetries: nat
    const createdAt: Time
    const request: Request
    var status: RunStatus
    var currentStep: Option<StepName>
    var scheduledAt: Option<Time>
    var version: nat

    // the working state
    var resource: Option<ResourceSpec>
    var ticket: Option<TicketRef>
    var engineRunId: Option<string>
    var resourceConfigured: bool
    var resourceFinalized: bool
    var ticketClosed: bool
    var legacySubmitted: bool
    var legacyReference: Option<string>
    var stepAttempts: map<StepName, nat>
    var stepStartedAt: map<StepName, Time>
    var attemptStartedAt: Option<Time>
    var errors: map<StepName, Error>
    var stepResults: map<StepName, StepResult>
    var engineFailure: Option<EngineFailure>
    var incidentId: Option<string>

    /** A copy of a stored row. */
    constructor (row: Run)
      ensures Value() == row
    {
      id, runType, maxRetries, createdAt, request := row.id, row.runType, row.maxRetries, row.createdAt, row.state.request;
      status, currentStep, scheduledAt, version := row.status, row.currentStep, row.scheduledAt, row.version;
      resource, ticket, engineRunId := row.state.resource, row.state.ticket, row.state.engineRunId;
      resourceConfigured, resourceFinalized := row.state.resourceConfigured, row.state.resourceFinalized;
      ticketClosed, legacySubmitted := row.state.ticketClosed, row.state.legacySubmitted;
      legacyReference := row.state.legacyReference;
      stepAttempts, stepStartedAt := row.state.books.attempts, row.state.books.startedAt;
      attemptStartedAt, errors := row.state.books.attemptStartedAt, row.state.books.errors;
      stepResults, engineFailure, incidentId := row.state.stepResults, row.state.engineFailure, row.state.incidentId;
    }

    function State(): RunState
      reads this
    {
      RunState(request, resource, ticket, engineRunId, resourceConfigured, resourceFinalized, ticketClosed,
               legacySubmitted, legacyReference, Books(stepAttempts, stepStartedAt, attemptStartedAt, errors),
               stepResults, engineFailure, incidentId)
    }

    function Value(): Run
      reads this
    {
      Run(id, runType, maxRetries, createdAt, status, currentStep, scheduledAt, version, State())
    }
  }
}
