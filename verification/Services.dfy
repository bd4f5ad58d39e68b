/** How runs come to be, and how a callback makes a waiting one due. */
module Services {
  import opened Domain
  import opened StoredRows
  import opened Bookkeeping
  import opened Safety
  import opened Queue
  import opened RunStores

  /** A registered workflow. */
  datatype Workflow = Workflow(identifier: string, runType: RunType, engineType: EngineType, templateId: string)

  datatype TriggerError =
    | UnknownWorkflow
    | ResourceParamsRequired
    | ResourceVendorIdRequired
    | ResourceIdRequired
    | TicketRefRequired

  datatype Result<+T> = Ok(value: T) | Err(error: TriggerError)

  /** What a caller asks for. */
  datatype Order = Order(
    workflow: string, maxRetries: nat, ticketParams: Payload, workflowParams: Payload,
    resource: Option<ResourceSpec>, operation: Operation, ticket: Option<TicketRef>)

  /** A pending run, due at once, with nothing done. */
  function NewRun(id: RunId, t: RunType, maxRetries: nat, now: Time, request: Request,
                  resource: Option<ResourceSpec>, ticket: Option<TicketRef>): Run {
    Run(id, t, maxRetries, now, Pending, None, Some(now), 1,
        RunState(request, resource, ticket, None, false, false, false, false, None,
                 Books(map[], map[], None, map[]), map[], None, None))
  }

  /** A run on which nothing has been done yet: pending, created and due now, its log and its markers empty. */
  predicate Unstarted(run: Run, now: Time) {
    && run.status == Pending && run.currentStep == None && run.version == 1
    && run.scheduledAt == Some(now) && run.createdAt == now
    && run.state.engineRunId == None && !run.state.resourceConfigured && !run.state.resourceFinalized
    && !run.state.ticketClosed && !run.state.legacySubmitted && run.state.legacyReference == None
    && run.state.books == Books(map[], map[], None, map[]) && run.state.stepResults == map[]
    && run.state.engineFailure == None && run.state.incidentId == None
  }

  /** A run as `Trigger` stores it: it carries its resource or its ticket, and never a legacy request. */
  predicate MadeByTrigger(run: Run, now: Time) {
    run == NewRun(run.id, run.runType, run.maxRetries, now, run.state.request, run.state.resource, run.state.ticket)
    && run.state.request.legacy.None?
    && match run.runType
       case Resource => run.state.resource.Some? && run.state.ticket.None?
       case Automation => run.state.resource.None? && run.state.ticket.Some?
       case Legacy => run.state.resource.None? && run.state.ticket.None?
  }

  /** What keeps an order from being taken. */
  predicate Refused(wf: Workflow, o: Order, e: TriggerError) {
    match e
    case UnknownWorkflow => false
    case ResourceParamsRequired => wf.runType.Resource? && o.resource.None?
    case ResourceVendorIdRequired =>
      wf.runType.Resource? && o.resource.Some? && !o.operation.Create? && o.resource.value.vendorId == ""
    case ResourceIdRequired =>
      wf.runType.Resource? && o.resource.Some? && !o.operation.Create? && o.resource.value.vendorId != ""
      && o.resource.value.resourceId == ""
    case TicketRefRequired => wf.runType.Automation? && o.ticket.None?
  }

  /** The run an order makes: a resource run carries its resource, an automation run its ticket. */
  predicate RunOf(run: Run, wf: Workflow, o: Order) {
    run.runType == wf.runType && run.maxRetries == o.maxRetries
    && run.state.request == Request(ResolvedWorkflow(wf.identifier, wf.engineType, wf.templateId), o.ticketParams,
                                    o.workflowParams, o.operation, None)
    && run.state.resource == (if wf.runType.Resource? then o.resource else None)
    && run.state.ticket == (if wf.runType.Automation? then o.ticket else None)
  }

  class WorkflowRunService {
    const runs: RunStore
    const workflows: map<string, Workflow>

    constructor (runs: RunStore, workflows: map<string, Workflow>)
      ensures this.runs == runs && this.workflows == workflows
    {
      this.runs, this.workflows := runs, workflows;
    }

    /** Validate an order, then store its run. A refused order stores nothing; a stored run carries
        what its type needs, but for a workflow registered with run type LEGACY, whose request only `TriggerLegacy`
        puts on a run. */
    method Trigger(o: Order, id: RunId, now: Time) returns (r: Result<Run>)
      requires runs.Valid() && id !in runs.rows
      modifies runs
      ensures runs.Valid()
      ensures r.Err? && r.error.UnknownWorkflow? <==> o.workflow !in workflows
      ensures r.Err? && !r.error.UnknownWorkflow? ==> Refused(workflows[o.workflow], o, r.error)
      ensures r.Ok? ==> forall e :: !Refused(workflows[o.workflow], o, e)
      ensures r.Err? ==> runs.rows == old(runs.rows)
      ensures r.Ok? ==>
                r.value.id == id && RunOf(r.value, workflows[o.workflow], o) && Unstarted(r.value, now)
                && runs.rows == old(runs.rows)[id := r.value]
                && MadeByTrigger(r.value, now)
    {
      if o.workflow !in workflows {
        return Err(UnknownWorkflow);
      }
      var wf := workflows[o.workflow];
      if wf.runType.Resource? {
        if o.resource.None? {
          return Err(ResourceParamsRequired);
        }
        if !o.operation.Create? && o.resource.value.vendorId == "" {
          return Err(ResourceVendorIdRequired);
        }
        if !o.operation.Create? && o.resource.value.resourceId == "" {
          return Err(ResourceIdRequired);
        }
      }
      if wf.runType.Automation? && o.ticket.None? {
        return Err(TicketRefRequired);
      }
      var request := Request(ResolvedWorkflow(wf.identifier, wf.engineType, wf.templateId), o.ticketParams,
                             o.workflowParams, o.operation, None);
      var run := NewRun(id, wf.runType, o.maxRetries, now, request,
                        if wf.runType.Resource? then o.resource else None,
                        if wf.runType.Automation? then o.ticket else None);
      runs.Create(run);
      return Ok(run);
    }

    /** A legacy request becomes a run of its own kind, with no registered workflow behind it. */
    method TriggerLegacy(flowType: string, request: Payload, maxRetries: nat, id: RunId, now: Time) returns (run: Run)
      requires runs.Valid() && id !in runs.rows
      modifies runs
      ensures runs.Valid() && runs.rows == old(runs.rows)[id := run] && run.id == id
      ensures run.runType.Legacy? && run.maxRetries == maxRetries && Unstarted(run, now) && Triggered(run, now)
      ensures run.state.request
              == Request(ResolvedWorkflow(flowType, LegacyRunner, ""), Payload(""), Payload(""), Create, Some(request))
      ensures run.state.resource == None && run.state.ticket == None
    {
      var what := Request(ResolvedWorkflow(flowType, LegacyRunner, ""), Payload(""), Payload(""), Create, Some(request));
      run := NewRun(id, Legacy, maxRetries, now, what, None, None);
      runs.Create(run);
      NewRunIsTriggered(id, Legacy, maxRetries, now, what, None, None);
    }
  }

  /** A new run is a triggered one exactly when it carries what its type needs. */
  lemma NewRunIsTriggered(id: RunId, t: RunType, maxRetries: nat, now: Time, request: Request,
                          resource: Option<ResourceSpec>, ticket: Option<TicketRef>)
    ensures Triggered(NewRun(id, t, maxRetries, now, request, resource, ticket), now)
            <==> match t
                 case Resource => resource.Some? && ticket.None?
                 case Automation => resource.None? && ticket.Some?
                 case Legacy => resource.None? && request.legacy.Some?
  {
  }

  // --- Callbacks ---

  /** The stored rows after waking these runs, and how many of them were there to wake. */
  function AllWoken(rows: Rows, ids: seq<RunId>, now: Time): Rows {
    map id | id in rows :: if id in ids then Woken(rows[id], now) else rows[id]
  }

  predicate Wakeable(rows: Rows, id: RunId) {
    id in rows && !rows[id].status.Terminal()
  }

  function CountWakeable(rows: Rows, ids: seq<RunId>): nat {
    if ids == [] then 0
    else CountWakeable(rows, ids[..|ids| - 1]) + if Wakeable(rows, ids[|ids| - 1]) then 1 else 0
  }

  class RunCallbackService {
    const runs: RunStore

    constructor (runs: RunStore)
      ensures this.runs == runs
    {
      this.runs := runs;
    }

    /** Make the waiting runs among these due now, and count them. */
    method WakeAll(ids: seq<RunId>, now: Time) returns (woken: nat)
      requires runs.Valid()
      modifies runs
      ensures runs.Valid() && runs.rows == AllWoken(old(runs.rows), ids, now)
      ensures woken == CountWakeable(old(runs.rows), ids)
    {
      woken := 0;
      for i := 0 to |ids|
        invariant runs.Valid() && runs.rows == AllWoken(old(runs.rows), ids[..i], now)
        invariant woken == CountWakeable(old(runs.rows), ids[..i])
      {
        assert ids[..i + 1] == ids[..i] + [ids[i]] && ids[..i + 1][..i] == ids[..i];
        var one := runs.Wake(ids[i], now);
        if one {
          woken := woken + 1;
        }
      }
      assert ids[..|ids|] == ids;
    }
  }
}
