/** A resource run that is approved, eligible and whose engine run succeeds ends in the same world
    however often its drives are killed, and wherever: the world only ever stands at one of the stages
    of the uninterrupted run, and a completed run has reached the last. */
module CrashEquivalence {
  import opened Domain
  import opened Drives
  import opened Providers
  import opened Totality
  import opened StoredRows
  import opened Bookkeeping
  import opened Termination

  /** A run as triggered, the world it started in, and the ticket the ticket system names by its key. */
  datatype Job = Job(first: Run, w0: World, ticket: TicketRef)

  function Op(j: Job): Operation {
    j.first.state.request.operation
  }

  /** Where the run's record is from configure on. */
  function Home(j: Job): Place
    requires j.first.state.resource.Some?
  {
    var r := j.first.state.resource.value;
    PlaceOf(if Op(j).Create? then r.(vendorId := j.first.id) else r)
  }

  predicate JobOk(j: Job) {
    j.first.runType.Resource? && j.first.state.request.workflow.engineType.Airflow?
    && j.first.state.resource.Some?
    && if Op(j).Create? then Home(j) !in j.w0.records && StepKey(j.first.id, ConfigureResource) !in j.w0.created
       else Home(j) in j.w0.records
  }

  // --- The stages of the uninterrupted run ---

  /** The record while the run works on it, and when it is marked for deletion or done. */
  function RecordAt(j: Job, s: ResourceState): Record
    requires JobOk(j)
  {
    var spec := j.first.state.resource.value;
    var desired := if Op(j).Create? || (Op(j).Update? && s.Ready?) then spec.desired else j.w0.records[Home(j)].desired;
    Record(s, InFlight(s), desired)
  }

  function RecordsAt(j: Job, k: nat): map<Place, Record>
    requires JobOk(j)
  {
    if k < 2 then j.w0.records
    else if k < 4 || (k == 4 && !Op(j).Delete?) then
      var working := if Op(j).Create? then Provisioning else if Op(j).Update? then Updating else Deleting;
      j.w0.records[Home(j) := RecordAt(j, working)]
    else if k == 4 then j.w0.records[Home(j) := RecordAt(j, Deleted)]
    else if Op(j).Delete? then j.w0.records - {Home(j)}
    else j.w0.records[Home(j) := RecordAt(j, Ready)]
  }

  /** The world after the first `k` effects: ticket ordered, record configured, engine triggered, record
      marked deleted (a DELETE only), record finalized, ticket closed as successful. */
  function Stage(j: Job, k: nat): World
    requires JobOk(j)
  {
    var id := j.first.id;
    World(
      if k >= 1 then j.w0.tickets + {StepKey(id, CreateTicket)} else j.w0.tickets,
      if k >= 6 then j.w0.closed[j.ticket := Successful] else j.w0.closed,
      RecordsAt(j, k),
      if k >= 2 && Op(j).Create? then j.w0.created + {StepKey(id, ConfigureResource)} else j.w0.created,
      if k >= 3 then j.w0.engineRuns + {EngineKey(id, 0)} else j.w0.engineRuns,
      j.w0.submitted)
  }

  // --- Answers without a fault ---

  /** The ticket system answers a key with its one ticket, the engine says success or not yet, the
      approver yes or not yet, nothing raises but a write to a record that is gone, every save goes
      through, and no step runs out of its budget. */
  predicate Good(j: Job, d: Drive, w: World, a: Answer)
    requires !d.pc.Finished? && Fits(NextCall(d), a)
  {
    (d.pc.CheckBudget? ==> a.now - d.pc.started <= MaxDuration(d.pc.step))
    && match NextCall(d)
       case OpenTicket(_, _, _) => a == Ticket(j.ticket)
       case PollApproval(_) => a.Approval? && !a.approval.Denied?
       case ValidateRequest(_, _) => a == Verdict(true)
       case QueryEngine(_) => a.EngineStatus? && !a.status.EngineFailed?
       case FetchOutput(_) => a == Output(None)
       case UpdateRecord(p, _) => if p in w.records then a.Acknowledged? else a.Raised? && a.notFound
       case SaveRun(_) => a.SaveOk?
       case _ => !a.Raised?
  }

  /** The approver and the engine have made up their minds. */
  predicate Decided(a: Answer) {
    a != Approval(ApprovalPending) && a != EngineStatus(EngineInProgress)
  }

  // --- What every drive keeps ---

  /** How many effects the markers of a run vouch for. */
  function Known(st: RunState): nat {
    if st.ticketClosed then 6 else if st.resourceFinalized then 5 else if st.engineRunId.Some? then 3
    else if st.resourceConfigured then 2 else if st.ticket.Some? then 1 else 0
  }

  /** The effect a call makes. */
  function StageOf(pc: Pc): nat {
    match pc
    case Ordering => 1
    case Configuring(_) => 2
    case Triggering => 3
    case Retiring(_) => 4
    case Finalizing(_) => 5
    case Removing(_) => 5
    case Closing(_) => 6
    case _ => 0
  }

  function Reaches(k: nat, pc: Pc): nat {
    if StageOf(pc) > k then StageOf(pc) else k
  }

  /** What the run carries is what it was triggered with: nothing failed, nothing was re-keyed. */
  predicate OnCourse(j: Job, run: Run)
    requires JobOk(j)
  {
    run.id == j.first.id && run.runType.Resource? && !run.status.Failed? && !run.status.Rejected?
    && StateOnCourse(j, run.state)
  }

  predicate StateOnCourse(j: Job, st: RunState)
    requires JobOk(j)
  {
    st.request == j.first.state.request && st.books.attempts == map[] && RunEngine !in st.stepResults
    && (st.ticket.Some? ==> st.ticket.value == j.ticket)
    && st.resource.Some? && st.resource.value.desired == j.first.state.resource.value.desired
    && (PlaceOf(st.resource.value) == Home(j) || !st.resourceConfigured)
    && st.resource.value.projectId == Home(j).projectId && st.resource.value.resourceType == Home(j).resourceType
    && (!Op(j).Create? ==> PlaceOf(st.resource.value) == Home(j))
  }

  /** `early` while the stored row does not hold the engine run: until then nothing past it happens. */
  predicate Within(k: nat, st: RunState, early: bool) {
    Known(st) <= k <= (if early then 3 else 6) && (!early ==> st.engineRunId.Some?)
  }

  predicate DriveOn(j: Job, d: Drive, k: nat, early: bool)
    requires JobOk(j)
  {
    && OnCourse(j, d.run) && Within(k, d.run.state, early)
    && !Escalating(d.pc) && !d.pc.BackingOff? && !d.pc.FetchingFailure?
    && (d.pc.Removing? ==> k >= 4)
    && (d.pc.Configuring? ==> PlaceOf(d.run.state.resource.value) == Home(j))
    && (early && d.run.state.engineRunId.Some? ==> d.pc.Scheduling? || d.pc.Saving? || d.pc.Finished?)
    && (d.run.status.Completed? ==> k == 6)
  }

  predicate RowOn(j: Job, row: Run, k: nat)
    requires JobOk(j)
  {
    OnCourse(j, row) && Within(k, row.state, row.state.engineRunId.None?) && (row.status.Completed? ==> k == 6)
  }

  // --- Every effect is made at most once ---

  predicate Faultless(j: Job, d: Drive, w: World, a: Answer)
    requires JobOk(j) && InStep(d.pc)
  {
    Fits(NextCall(d), a) && Good(j, d, w, a) && HoldsInStep(d.run.state, d.pc)
  }

  lemma OrderOnce(j: Job, d: Drive, k: nat, a: Answer)
    requires JobOk(j) && d.pc.Ordering? && OnCourse(j, d.run) && Faultless(j, d, Stage(j, k), a)
    ensures Next(Stage(j, k), Event(NextCall(d), a)) == Stage(j, Reaches(k, d.pc))
  {
  }

  lemma ConfigureOnce(j: Job, d: Drive, k: nat, a: Answer)
    requires JobOk(j) && d.pc.Configuring? && OnCourse(j, d.run) && Faultless(j, d, Stage(j, k), a)
    requires 1 <= k <= 3 && PlaceOf(d.pc.resource) == Home(j)
    ensures !a.Raised? && Next(Stage(j, k), Event(NextCall(d), a)) == Stage(j, Reaches(k, d.pc))
  {
  }

  lemma TriggerOnce(j: Job, d: Drive, k: nat, a: Answer)
    requires JobOk(j) && d.pc.Triggering? && OnCourse(j, d.run) && Faultless(j, d, Stage(j, k), a)
    requires 2 <= k <= 3
    ensures Next(Stage(j, k), Event(NextCall(d), a)) == Stage(j, Reaches(k, d.pc))
  {
  }

  lemma FinalizeOnce(j: Job, d: Drive, k: nat, a: Answer)
    requires JobOk(j) && d.pc.Finalizing? && OnCourse(j, d.run) && Faultless(j, d, Stage(j, k), a)
    requires 3 <= k <= 6 && PlaceOf(d.pc.resource) == Home(j)
    ensures !a.Raised? && Rekey(d.run, d.pc.resource).None?
    ensures Next(Stage(j, k), Event(NextCall(d), a)) == Stage(j, Reaches(k, d.pc))
  {
  }

  lemma RetireOnce(j: Job, d: Drive, k: nat, a: Answer)
    requires JobOk(j) && d.pc.Retiring? && OnCourse(j, d.run) && Faultless(j, d, Stage(j, k), a)
    requires 3 <= k <= 6 && PlaceOf(d.pc.resource) == Home(j)
    ensures Tolerated(d.pc, a) && Next(Stage(j, k), Event(NextCall(d), a)) == Stage(j, Reaches(k, d.pc))
  {
  }

  lemma RemoveOnce(j: Job, d: Drive, k: nat, a: Answer)
    requires JobOk(j) && d.pc.Removing? && OnCourse(j, d.run) && Faultless(j, d, Stage(j, k), a)
    requires 4 <= k <= 6 && PlaceOf(d.pc.resource) == Home(j)
    ensures Next(Stage(j, k), Event(NextCall(d), a)) == Stage(j, Reaches(k, d.pc))
  {
  }

  lemma CloseOnce(j: Job, d: Drive, k: nat, a: Answer)
    requires JobOk(j) && d.pc.Closing? && OnCourse(j, d.run) && Faultless(j, d, Stage(j, k), a)
    requires 5 <= k <= 6
    ensures Next(Stage(j, k), Event(NextCall(d), a)) == Stage(j, Reaches(k, d.pc))
  {
  }

  /** Any other call changes nothing. */
  lemma OthersChangeNothing(d: Drive, w: World, a: Answer)
    requires !d.pc.Finished? && StageOf(d.pc) == 0 && !Escalating(d.pc) && !d.pc.Submitting?
    ensures Next(w, Event(NextCall(d), a)) == w
  {
  }

  /** Each call of a drive makes its effect if it is not made yet, and changes nothing if it is. */
  lemma EffectOnce(j: Job, d: Drive, k: nat, early: bool, a: Answer, now: Time)
    requires JobOk(j) && InStep(d.pc) && Driving(d, now) && DriveOn(j, d, k, early)
    requires Faultless(j, d, Stage(j, k), a)
    ensures Next(Stage(j, k), Event(NextCall(d), a)) == Stage(j, Reaches(k, d.pc))
    ensures Tolerated(d.pc, a) && (d.pc.Finalizing? ==> Rekey(d.run, d.pc.resource).None?)
  {
    hide Stage, Next, Rekey, StartedTo, CountedFor, Plan, NextCall, Good, JobOk;
    if d.pc.Ordering? {
      OrderOnce(j, d, k, a);
    } else if d.pc.Configuring? {
      ConfigureOnce(j, d, k, a);
    } else if d.pc.Triggering? {
      TriggerOnce(j, d, k, a);
    } else if d.pc.Finalizing? {
      FinalizeOnce(j, d, k, a);
    } else if d.pc.Retiring? {
      RetireOnce(j, d, k, a);
    } else if d.pc.Removing? {
      RemoveOnce(j, d, k, a);
    } else if d.pc.Closing? {
      CloseOnce(j, d, k, a);
    } else {
      OthersChangeNothing(d, Stage(j, k), a);
    }
    if !d.pc.Configuring? && !d.pc.Finalizing? && !d.pc.Retiring? {
      NothingRaises(j, d, Stage(j, k), a);
    }
  }

  lemma NothingRaises(j: Job, d: Drive, w: World, a: Answer)
    requires JobOk(j) && InStep(d.pc) && Faultless(j, d, w, a)
    requires !d.pc.Configuring? && !d.pc.Finalizing? && !d.pc.Retiring?
    ensures !a.Raised?
  {
    hide Home, PlaceOf, JobOk;
  }

  /** What a handler's move leaves of it. */
  predicate MovedOnCourse(j: Job, h: Handled, k: nat, early: bool)
    requires JobOk(j)
  {
    StateOnCourse(j, h.st) && Within(k, h.st, early)
    && !h.outcome.Raises? && !h.outcome.Denies?
    && (early && h.st.engineRunId.Some? ==> h.outcome.NotYet?)
    && match h.outcome
       case Asks(pc) =>
         InStep(pc) && !pc.FetchingFailure? && (pc.Removing? ==> k >= 4)
               && (pc.Configuring? ==> PlaceOf(h.st.resource.value) == Home(j))
       case _ => true
  }

  lemma FirstMoveOnCourse(j: Job, d: Drive, k: nat, early: bool, now: Time)
    requires JobOk(j) && d.pc.CheckBudget? && Driving(d, now) && DriveOn(j, d, k, early)
    ensures MovedOnCourse(j, FirstMove(d.run, d.pc.step), k, early)
  {
    hide StartedTo, CountedFor, Plan;
    FirstMoveKeeps(d, now);
  }

  lemma EarlyMoveOnCourse(j: Job, d: Drive, k: nat, early: bool, a: Answer, now: Time)
    requires d.pc.Ordering? || d.pc.Configuring? || d.pc.AwaitingApproval? || d.pc.Validating?
    requires JobOk(j) && InStep(d.pc) && Driving(d, now) && DriveOn(j, d, k, early)
    requires Faultless(j, d, Stage(j, k), a)
    ensures MovedOnCourse(j, NextMove(d, a), Reaches(k, d.pc), early)
  {
    hide StartedTo, CountedFor, Plan, Rekey, Stage;
    EffectOnce(j, d, k, early, a, now);
  }
  lemma EngineMoveOnCourse(j: Job, d: Drive, k: nat, early: bool, a: Answer, now: Time)
    requires d.pc.Triggering? || d.pc.Querying? || d.pc.FetchingOutput? || d.pc.FetchingFailure?
    requires JobOk(j) && InStep(d.pc) && Driving(d, now) && DriveOn(j, d, k, early)
    requires Faultless(j, d, Stage(j, k), a)
    ensures MovedOnCourse(j, NextMove(d, a), Reaches(k, d.pc), early)
  {
    hide StartedTo, CountedFor, Plan, Rekey, Stage;
    EffectOnce(j, d, k, early, a, now);
  }
  lemma LateMoveOnCourse(j: Job, d: Drive, k: nat, early: bool, a: Answer, now: Time)
    requires d.pc.Finalizing? || d.pc.Retiring? || d.pc.Removing? || d.pc.Closing?
    requires JobOk(j) && InStep(d.pc) && Driving(d, now) && DriveOn(j, d, k, early)
    requires Faultless(j, d, Stage(j, k), a)
    ensures MovedOnCourse(j, NextMove(d, a), Reaches(k, d.pc), early)
  {
    hide StartedTo, CountedFor, Plan, Rekey, Stage;
    EffectOnce(j, d, k, early, a, now);
  }
  lemma NextMoveOnCourse(j: Job, d: Drive, k: nat, early: bool, a: Answer, now: Time)
    requires JobOk(j) && InStep(d.pc) && Driving(d, now) && DriveOn(j, d, k, early)
    requires Faultless(j, d, Stage(j, k), a)
    ensures MovedOnCourse(j, NextMove(d, a), Reaches(k, d.pc), early)
  {
    hide MovedOnCourse, Within, StateOnCourse, NextMove, NextCall, Faultless, StartedTo, CountedFor, Plan;
    if d.pc.Ordering? || d.pc.Configuring? || d.pc.AwaitingApproval? || d.pc.Validating? {
      EarlyMoveOnCourse(j, d, k, early, a, now);
    } else if d.pc.Triggering? || d.pc.Querying? || d.pc.FetchingOutput? || d.pc.FetchingFailure? {
      EngineMoveOnCourse(j, d, k, early, a, now);
    } else {
      LateMoveOnCourse(j, d, k, early, a, now);
    }
  }

  // --- A drive stays on course ---

  lemma CompleteOnCourse(j: Job, d: Drive, s: StepName, k: nat, early: bool)
    requires JobOk(j) && OnCourse(j, d.run) && d.run.status.Running? && InPlan(d.run.runType, s)
    requires Within(k, d.run.state, early) && Markers(d.run, Pos(d.run, s) + 1)
    requires early ==> d.run.state.engineRunId.None?
    ensures DriveOn(j, Complete(d, s), k, early) && !Complete(d, s).pc.Scheduling? && !Complete(d, s).pc.Finished?
    ensures Complete(d, s).pc.Saving? ==> Complete(d, s).run.status.Completed?
  {
    hide PlaceOf, Crash;
    assert d.run.state.books.attempts - {s} == map[];
  }

  lemma ReactOnCourse(j: Job, d: Drive, s: StepName, h: Handled, k: nat, early: bool)
    requires JobOk(j) && OnCourse(j, d.run) && d.run.status.Running? && InPlan(d.run.runType, s)
    requires MovedOnCourse(j, h, k, early) && MovedOn(d.run, s, h)
    ensures DriveOn(j, React(d, s, h), k, early)
    ensures React(d, s, h).pc.Scheduling? ==> h.outcome.NotYet?
    ensures React(d, s, h).pc.Saving? ==> React(d, s, h).run.status.Completed?
    ensures !React(d, s, h).pc.Finished?
  {
    hide StateOnCourse, Complete, Within, Markers, Fail, Reject, HoldsInStep, IndexInPlan;
    if h.outcome.Done? {
      CompleteOnCourse(j, WithState(d, h.st), s, k, early);
    }
  }

  /** A drive that is told to wait only by the engine run it has just triggered. */
  predicate Pressing(d: Drive, early: bool) {
    d.pc.Scheduling? || ((d.pc.Saving? || d.pc.Finished?) && !d.run.status.Completed?)
    ==> early && d.run.state.engineRunId.Some?
  }

  lemma StepOnCourse(j: Job, d: Drive, k: nat, early: bool, a: Answer, now: Time)
    requires JobOk(j) && InStep(d.pc) && Driving(d, now) && DriveOn(j, d, k, early)
    requires Fits(NextCall(d), a) && Good(j, d, Stage(j, k), a)
    ensures Next(Stage(j, k), Event(NextCall(d), a)) == Stage(j, Reaches(k, d.pc))
    ensures DriveOn(j, React(d, StepOf(d.pc), NextMove(d, a)), Reaches(k, d.pc), early)
    ensures Decided(a) ==> Pressing(React(d, StepOf(d.pc), NextMove(d, a)), early)
  {
    hide Stage, Next, React, NextMove, NextCall, Good, MovedOn, MovedOnCourse, StateOnCourse, StartedTo, CountedFor, Markers;
    EffectOnce(j, d, k, early, a, now);
    NextMoveOnCourse(j, d, k, early, a, now);
    NextMoveKeeps(d, a, now);
    ReactOnCourse(j, d, StepOf(d.pc), NextMove(d, a), Reaches(k, d.pc), early);
    if Decided(a) {
      OnlyTriggeringWaits(d, a, now, early);
    }
  }

  lemma OnlyTriggeringWaits(d: Drive, a: Answer, now: Time, early: bool)
    requires InStep(d.pc) && Driving(d, now) && Fits(NextCall(d), a) && Decided(a)
    ensures NextMove(d, a).outcome.NotYet? ==>
              d.run.state.engineRunId.None? && React(d, StepOf(d.pc), NextMove(d, a)).run.state.engineRunId.Some?
  {
    hide Rekey, FinalizeFields, StartedTo, CountedFor, Markers;
  }

  lemma LoopOnCourse(j: Job, d: Drive, k: nat, early: bool, a: Answer, now: Time)
    requires JobOk(j) && (d.pc.Begin? || d.pc.StartAttempt? || d.pc.CheckBudget?)
    requires Driving(d, now) && DriveOn(j, d, k, early)
    requires Fits(NextCall(d), a) && Good(j, d, Stage(j, k), a)
    ensures DriveOn(j, ResumeLoop(d, a.now), k, early) && Pressing(ResumeLoop(d, a.now), early)
  {
    hide Stage, React, FirstMove, NextCall, MovedOn, MovedOnCourse, StartedTo, CountedFor, Markers, PlaceOf, Home;
    if d.pc.CheckBudget? {
      FirstMoveOnCourse(j, d, k, early, now);
      FirstMoveKeeps(d, now);
      ReactOnCourse(j, d, d.pc.step, FirstMove(d.run, d.pc.step), k, early);
      FirstMoveNeverWaits(d.run, d.pc.step);
    }
  }

  lemma FirstMoveNeverWaits(run: Run, s: StepName)
    ensures !FirstMove(run, s).outcome.NotYet?
  {
  }

  lemma TailOnCourse(j: Job, d: Drive, k: nat, early: bool, a: Answer)
    requires JobOk(j) && (d.pc.Scheduling? || d.pc.Saving?) && DriveOn(j, d, k, early)
    requires Fits(NextCall(d), a) && Good(j, d, Stage(j, k), a)
    ensures DriveOn(j, Resume(d, a), k, early) && (Pressing(d, early) ==> Pressing(Resume(d, a), early))
  {
    hide Stage, StateOnCourse, Backoff, Within;
  }

  /** Every call of a faultless drive: its effect is made, or was, and the drive stays on course. */
  lemma ResumeOnCourse(j: Job, d: Drive, k: nat, early: bool, a: Answer, before: Time, now: Time)
    requires JobOk(j) && !d.pc.Finished? && Driving(d, before) && DriveOn(j, d, k, early)
    requires before <= now && (a.Clock? ==> a.now == now)
    requires Fits(NextCall(d), a) && Good(j, d, Stage(j, k), a)
    ensures Next(Stage(j, k), Event(NextCall(d), a)) == Stage(j, Reaches(k, d.pc))
    ensures DriveOn(j, Resume(d, a), Reaches(k, d.pc), early)
    ensures Decided(a) && Pressing(d, early) ==> Pressing(Resume(d, a), early)
  {
    hide Stage, Next, React, NextMove, NextCall, Driving, DriveOn, Good, ResumeLoop, Backoff, Pressing, Crash;
    DrivingLater(d, before, now);
    PcOnCourse(j, d, k, early);
    if InStep(d.pc) {
      StepOnCourse(j, d, k, early, a, now);
    } else {
      OthersChangeNothing(d, Stage(j, k), a);
      if d.pc.Scheduling? || d.pc.Saving? {
        TailOnCourse(j, d, k, early, a);
      } else {
        LoopOnCourse(j, d, k, early, a, now);
      }
    }
  }

  lemma PcOnCourse(j: Job, d: Drive, k: nat, early: bool)
    requires JobOk(j) && DriveOn(j, d, k, early)
    ensures !Escalating(d.pc) && !d.pc.BackingOff?
  {
  }

  // --- A whole drive, killed or not ---

  ghost predicate FaultlessTrace(j: Job, d: Drive, w: World, es: seq<Event>)
    requires IsTrace(d, es)
    decreases |es|
  {
    es == []
    || (Good(j, d, w, es[0].answer) && FaultlessTrace(j, Resume(d, es[0].answer), Next(w, es[0]), es[1..]))
  }

  predicate AllDecided(es: seq<Event>) {
    forall i :: 0 <= i < |es| ==> Decided(es[i].answer)
  }

  /** The stage the world has reached after these events. */
  function Progress(d: Drive, k: nat, es: seq<Event>): nat
    requires IsTrace(d, es)
    decreases |es|
  {
    if es == [] then k else Progress(Resume(d, es[0].answer), Reaches(k, d.pc), es[1..])
  }

  /** What a drive saved is a row with its books in order. */
  lemma SavesARow(j: Job, d: Drive, k: nat, early: bool, a: Answer, now: Time)
    requires JobOk(j) && !d.pc.Finished? && Driving(d, now) && DriveOn(j, d, k, early)
    requires Fits(NextCall(d), a) && Good(j, d, Stage(j, k), a)
    ensures Resume(d, a).pc.Finished? ==> Row(Resume(d, a).run, now)
  {
    hide Row, Within, OnCourse, Stage;
    if d.pc.Saving? {
      SavedRowKeeps(d.run, d.run, now);
    } else {
      FinishedOnlySaves(d, a);
    }
  }

  lemma {:induction false} TraceOnCourse(j: Job, d: Drive, k: nat, early: bool, es: seq<Event>, now: Time)
    requires JobOk(j) && Driving(d, now) && DriveOn(j, d, k, early)
    requires IsTrace(d, es) && Paced(es, now) && FaultlessTrace(j, d, Stage(j, k), es)
    requires d.pc.Finished? ==> Row(d.run, now)
    ensures Onward(Stage(j, k), es) == Stage(j, Progress(d, k, es)) && k <= Progress(d, k, es)
    ensures DriveOn(j, After(d, es), Progress(d, k, es), early)
    ensures AllDecided(es) && Pressing(d, early) ==> Pressing(After(d, es), early)
    ensures After(d, es).pc.Finished? ==> Row(After(d, es).run, LastTime(es, now))
    decreases |es|
  {
    hide Stage, Driving, DriveOn, Resume, NextCall, Fits, Next, Good, Row, Pressing, Decided, StageOf;
    if es != [] {
      var a := es[0].answer;
      var t := if a.Clock? then a.now else now;
      ResumeOnCourse(j, d, k, early, a, now, t);
      ResumeKeeps(d, a, now, t);
      DrivingLater(d, now, t);
      SavesARow(j, d, k, early, a, t);
      TraceOnCourse(j, Resume(d, a), Reaches(k, d.pc), early, es[1..], t);
    }
  }

  /** One drive of a stored row: what it loaded, when, and all it heard until it ended or was killed. */
  datatype Attempt = Attempt(base: Run, from: Time, es: seq<Event>)

  /** A faultless drive of a row. What it loads is the row but for the schedule, which claims and wakes
      move. It may stop anywhere. */
  ghost predicate AttemptOn(cfg: Settings, j: Job, row: Run, w: World, at: Attempt) {
    && at.base.(scheduledAt := row.scheduledAt) == row && (at.base.scheduledAt.Some? <==> row.scheduledAt.Some?)
    && IsTrace(Start(cfg, at.base), at.es) && Paced(at.es, at.from)
    && FaultlessTrace(j, Start(cfg, at.base), w, at.es)
  }

  /** The row afterwards: what the drive saved, if it came to that. */
  function RowAfter(cfg: Settings, at: Attempt): Run
    requires IsTrace(Start(cfg, at.base), at.es)
  {
    var d := After(Start(cfg, at.base), at.es);
    if d.pc.Finished? then d.run else at.base
  }

  lemma StartOnCourse(cfg: Settings, j: Job, row: Run, base: Run, k: nat, now: Time)
    requires JobOk(j) && RowOn(j, row, k) && Row(row, now)
    requires base.(scheduledAt := row.scheduledAt) == row && (base.scheduledAt.Some? <==> row.scheduledAt.Some?)
    ensures Row(base, now) && RowOn(j, base, k)
    ensures Driving(Start(cfg, base), now) && DriveOn(j, Start(cfg, base), k, base.state.engineRunId.None?)
    ensures Pressing(Start(cfg, base), base.state.engineRunId.None?)
    ensures Start(cfg, base).pc.Finished? ==> Start(cfg, base).run == base
  {
    hide Within, StateOnCourse, StartedTo, CountedFor, Markers, IndexInPlan;
    if row.scheduledAt.Some? {
      assert base == row.(scheduledAt := base.scheduledAt);
      RowIgnoresSchedule(row, base.scheduledAt.value, now);
    } else {
      assert base == row;
    }
    StartKeeps(cfg, base, now);
  }

  lemma EndOnCourse(j: Job, d: Drive, base: Run, k: nat, k': nat)
    requires JobOk(j) && DriveOn(j, d, k', base.state.engineRunId.None?) && RowOn(j, base, k) && k <= k'
    ensures d.pc.Finished? ==> RowOn(j, d.run, k')
    ensures !base.status.Completed? ==> RowOn(j, base, k')
  {
    hide StateOnCourse;
  }

  /** One drive, killed or not, takes the world from stage to stage and keeps the row on course. */
  lemma AttemptOnCourse(cfg: Settings, j: Job, row: Run, k: nat, at: Attempt, now: Time)
    requires JobOk(j) && RowOn(j, row, k) && Row(row, now) && now <= at.from
    requires AttemptOn(cfg, j, row, Stage(j, k), at)
    ensures var k' := Progress(Start(cfg, at.base), k, at.es); var row' := RowAfter(cfg, at);
            && Onward(Stage(j, k), at.es) == Stage(j, k') && k <= k' && RowOn(j, row', k')
            && Row(row', LastTime(at.es, at.from))
            && (AllDecided(at.es) && After(Start(cfg, at.base), at.es).pc.Finished? ==>
                  row'.status.Completed? || (at.base.state.engineRunId.None? && row'.state.engineRunId.Some?))
  {
    hide Stage, Row, RowOn, DriveOn, Driving, Start, Within, Markers, Resume, NextCall, Fits, Next, Good;
    var d := Start(cfg, at.base);
    Later(row, now, at.from);
    StartOnCourse(cfg, j, row, at.base, k, at.from);
    TraceOnCourse(j, d, k, at.base.state.engineRunId.None?, at.es, at.from);
    EndOnCourse(j, After(d, at.es), at.base, k, Progress(d, k, at.es));
    PacedGoesOn(at.es, at.from);
    Later(at.base, at.from, LastTime(at.es, at.from));
    CompletedStays(cfg, j, at, k);
  }

  lemma CompletedStays(cfg: Settings, j: Job, at: Attempt, k: nat)
    requires IsTrace(Start(cfg, at.base), at.es)
    ensures at.base.status.Completed? ==> After(Start(cfg, at.base), at.es).pc.Finished?
  {
  }

  lemma {:induction false} PacedGoesOn(es: seq<Event>, from: Time)
    requires Paced(es, from)
    ensures from <= LastTime(es, from)
    decreases |es|
  {
    if es != [] {
      PacedGoesOn(es[1..], if es[0].answer.Clock? then es[0].answer.now else from);
    }
  }

  // --- Any number of kills ---

  /** Drives one after the other, each faultless for as long as it lives. */
  ghost predicate Attempts(cfg: Settings, j: Job, row: Run, w: World, now: Time, ats: seq<Attempt>)
    decreases |ats|
  {
    ats == []
    || (now <= ats[0].from && AttemptOn(cfg, j, row, w, ats[0])
        && Attempts(cfg, j, RowAfter(cfg, ats[0]), Onward(w, ats[0].es), LastTime(ats[0].es, ats[0].from), ats[1..]))
  }

  /** The row, the world and the clock after them. */
  function Finally(cfg: Settings, j: Job, row: Run, w: World, now: Time, ats: seq<Attempt>): (Run, World, Time)
    requires Attempts(cfg, j, row, w, now, ats)
    decreases |ats|
  {
    if ats == [] then (row, w, now)
    else Finally(cfg, j, RowAfter(cfg, ats[0]), Onward(w, ats[0].es), LastTime(ats[0].es, ats[0].from), ats[1..])
  }

  lemma {:induction false} AttemptsOnCourse(cfg: Settings, j: Job, row: Run, k: nat, now: Time, ats: seq<Attempt>)
    returns (k': nat)
    requires JobOk(j) && RowOn(j, row, k) && Row(row, now) && Attempts(cfg, j, row, Stage(j, k), now, ats)
    ensures var (row', w', now') := Finally(cfg, j, row, Stage(j, k), now, ats);
            k <= k' && w' == Stage(j, k') && RowOn(j, row', k') && Row(row', now')
    decreases |ats|
  {
    hide Stage, Row, RowOn, Start, RowAfter, Onward, LastTime, Progress, After, IsTrace;
    if ats == [] {
      k' := k;
    } else {
      AttemptOnCourse(cfg, j, row, k, ats[0], now);
      k' := AttemptsOnCourse(cfg, j, RowAfter(cfg, ats[0]), Progress(Start(cfg, ats[0].base), k, ats[0].es),
                             LastTime(ats[0].es, ats[0].from), ats[1..]);
    }
  }

  /** The uninterrupted run's own world. */
  function Goal(j: Job): World
    requires JobOk(j)
  {
    Stage(j, 6)
  }

  lemma FreshOnCourse(j: Job, now: Time)
    requires JobOk(j) && j.first.status.Pending? && Row(j.first, now) && RunEngine !in j.first.state.stepResults
    ensures RowOn(j, j.first, 0) && Stage(j, 0) == j.w0
  {
    hide StartedTo;
  }

  /** Whatever kills there are, wherever they fall, the run never fails, the world only ever stands at a
      stage of the uninterrupted run, and once the run is over it is COMPLETED and the world is the
      uninterrupted run's: same tickets, same ticket state, same records, same engine runs. */
  lemma KillsDoNotShow(cfg: Settings, j: Job, now: Time, ats: seq<Attempt>)
    requires JobOk(j) && j.first.status.Pending? && Row(j.first, now) && RunEngine !in j.first.state.stepResults
    requires Attempts(cfg, j, j.first, j.w0, now, ats)
    ensures var (row, w, _) := Finally(cfg, j, j.first, j.w0, now, ats);
            && (exists k: nat :: k <= 6 && w == Stage(j, k))
            && !row.status.Failed? && !row.status.Rejected?
            && (row.status.Completed? ==> w == Goal(j))
  {
    hide Stage, Row, JobOk, AttemptOn;
    FreshOnCourse(j, now);
    var k := AttemptsOnCourse(cfg, j, j.first, 0, now, ats);
  }

  // --- Two drives that are not killed ---

  /** The current attempt is within its step's budget. */
  predicate InTime(run: Run, now: Time) {
    run.state.books.attemptStartedAt.Some? && run.currentStep.Some?
    ==> now - run.state.books.attemptStartedAt.value <= MaxDuration(run.currentStep.value)
  }

  /** The faultless answer of an outside that has made up its mind. */
  function GoodAnswer(j: Job, d: Drive, w: World, now: Time): Answer
    requires !d.pc.Finished?
  {
    match NextCall(d)
    case ReadClock => Clock(now)
    case DrawJitter => Jitter(1.0)
    case OpenTicket(_, _, _) => Ticket(j.ticket)
    case PollApproval(_) => Approval(Approved)
    case OpenIncident(_) => Ticket(j.ticket)
    case CreateRecord(_, _, _) => RecordId(None)
    case UpdateRecord(p, _) => if p in w.records then Acknowledged else Raised(true, false)
    case ValidateRequest(_, _) => Verdict(true)
    case TriggerEngine(_, _) => EngineRun("")
    case QueryEngine(_) => EngineStatus(EngineSucceeded)
    case FetchFailure(_) => Failure(EngineFailure(None, None, Task))
    case FetchOutput(_) => Output(None)
    case SubmitRequest(_, _) => Reference(None)
    case SaveRun(_) => SaveOk
    case _ => Acknowledged
  }

  lemma GoodAnswerIsGood(j: Job, d: Drive, w: World, now: Time)
    requires !d.pc.Finished? && Driving(d, now) && InTime(d.run, now)
    ensures var a := GoodAnswer(j, d, w, now);
            Fits(NextCall(d), a) && Good(j, d, w, a) && Decided(a) && (a.Clock? ==> a.now == now)
  {
    hide StartedTo, CountedFor, Markers, AtStep, AtHead, Row, Over, Rekey, HoldsInStep;
  }

  lemma StaysInTime(d: Drive, a: Answer, now: Time)
    requires !d.pc.Finished? && Driving(d, now) && InTime(d.run, now) && !Escalating(d.pc) && !d.pc.BackingOff?
    requires Fits(NextCall(d), a) && (a.Clock? ==> a.now == now)
    ensures !Escalating(Resume(d, a).pc) ==> InTime(Resume(d, a).run, now)
  {
    hide StartedTo, CountedFor, Markers, Rekey, FinalizeFields, Row, Over, FirstMove, NextMove, React, Fail, Crash,
         HoldsInStep, NextCall;
    ReadsTheClock(d, a);
    if InStep(d.pc) {
      NextMoveBooks(d, a);
      ReactInTime(d, StepOf(d.pc), NextMove(d, a), now);
    } else if d.pc.CheckBudget? {
      FirstMoveBooks(d.run, d.pc.step);
      ReactInTime(d, d.pc.step, FirstMove(d.run, d.pc.step), now);
      FailInTime(d, d.pc.step, DeadlineExceeded, now);
    } else if d.pc.Saving? {
      CrashInTime(d, now);
    }
  }

  lemma CrashInTime(d: Drive, now: Time)
    requires InTime(d.run, now)
    ensures InTime(Crash(d).run, now)
  {
    hide Escalate;
    var st := if d.run.currentStep.Some? then WithError(d.run.state, d.run.currentStep.value, Unclassified)
              else d.run.state;
    EndingsOnly(Ended(d, RunStatus.Failed, st), Unclassified, true);
  }

  lemma FailInTime(d: Drive, s: StepName, e: Error, now: Time)
    requires InTime(d.run, now)
    ensures InTime(Fail(d, s, e).run, now)
  {
    hide Escalate;
    EndingsOnly(Ended(d, RunStatus.Failed, FailedState(d.run.state, s, e)), e, false);
  }

  lemma ReactInTime(d: Drive, s: StepName, h: Handled, now: Time)
    requires InTime(d.run, now) && h.st.books == d.run.state.books
    ensures InTime(React(d, s, h).run, now)
  {
    hide Fail, Release, Plan, IndexInPlan, Crash;
    var d' := WithState(d, h.st);
    CrashInTime(WithState(d', Settle(h.st, s)), now);
    EndingsOnly(Ended(d', Rejected, WithError(h.st, s, Denial)), Denial, false);
    if h.outcome.Raises? {
      FailInTime(d', s, h.outcome.error, now);
    }
  }

  /** A drive that is left alone gets to its end without a fault, within one instant. */
  lemma DriveToTheEnd(j: Job, d: Drive, k: nat, early: bool, now: Time) returns (es: seq<Event>)
    requires JobOk(j) && Driving(d, now) && DriveOn(j, d, k, early) && InTime(d.run, now)
    ensures IsTrace(d, es) && Paced(es, now) && FaultlessTrace(j, d, Stage(j, k), es) && AllDecided(es)
    ensures After(d, es).pc.Finished? && LastTime(es, now) == now && InTime(After(d, es).run, now)
    decreases Rank(d)
  {
    hide Driving, DriveOn, Stage, Good, Fits, NextCall, Resume, InTime, Rank, Decided, Next, GoodAnswer;
    if d.pc.Finished? {
      es := [];
    } else {
      var a := GoodAnswer(j, d, Stage(j, k), now);
      GoodAnswerIsGood(j, d, Stage(j, k), now);
      PcOnCourse(j, d, k, early);
      StaysInTime(d, a, now);
      RankFalls(d, a);
      ResumeOnCourse(j, d, k, early, a, now, now);
      ResumeKeeps(d, a, now, now);
      PcOnCourse(j, Resume(d, a), Reaches(k, d.pc), early);
      var more := DriveToTheEnd(j, Resume(d, a), Reaches(k, d.pc), early, now);
      es := [Event(NextCall(d), a)] + more;
      assert es[1..] == more;
    }
  }

  lemma StartInTime(cfg: Settings, row: Run, now: Time)
    requires Row(row, now) && InTime(row, now)
    ensures InTime(Start(cfg, row).run, now)
  {
    hide StartedTo, CountedFor, Markers, Over;
  }

  /** One drive of a row that is left alone completes the run, or triggers its engine. */
  lemma OneDriveOn(cfg: Settings, j: Job, row: Run, k: nat, now: Time) returns (at: Attempt)
    requires JobOk(j) && RowOn(j, row, k) && Row(row, now) && InTime(row, now)
    ensures AttemptOn(cfg, j, row, Stage(j, k), at) && at.from == now && LastTime(at.es, now) == now
    ensures InTime(RowAfter(cfg, at), now)
    ensures var row' := RowAfter(cfg, at);
            row'.status.Completed? || (row.state.engineRunId.None? && row'.state.engineRunId.Some?)
  {
    hide Stage, Row, RowOn, Driving, DriveOn, Markers, Within, JobOk, StateOnCourse;
    StartOnCourse(cfg, j, row, row, k, now);
    StartInTime(cfg, row, now);
    var es := DriveToTheEnd(j, Start(cfg, row), k, row.state.engineRunId.None?, now);
    at := Attempt(row, now, es);
    AttemptOnCourse(cfg, j, row, k, at, now);
  }

  lemma Chain(cfg: Settings, j: Job, row: Run, w: World, now: Time, ats: seq<Attempt>, at: Attempt)
    requires Attempts(cfg, j, row, w, now, ats)
    requires var (row', w', now') := Finally(cfg, j, row, w, now, ats); now' <= at.from && AttemptOn(cfg, j, row', w', at)
    ensures Attempts(cfg, j, row, w, now, ats + [at])
    ensures Finally(cfg, j, row, w, now, ats + [at])
            == var (_, w', _) := Finally(cfg, j, row, w, now, ats);
               (RowAfter(cfg, at), Onward(w', at.es), LastTime(at.es, at.from))
    decreases |ats|
  {
    hide RowAfter, Onward, LastTime, FaultlessTrace, Paced, Start;
    if ats == [] {
      assert ([] + [at])[1..] == [];
      assert Attempts(cfg, j, RowAfter(cfg, at), Onward(w, at.es), LastTime(at.es, at.from), []);
    } else {
      Chain(cfg, j, RowAfter(cfg, ats[0]), Onward(w, ats[0].es), LastTime(ats[0].es, ats[0].from), ats[1..], at);
      assert (ats + [at])[1..] == ats[1..] + [at];
    }
  }

  /** The attempt a row is at has not run out of its budget, at the time of the next drive. */
  ghost predicate DrivableAt(row: Run, now: Time, at: Time) {
    now <= at && InTime(row, at)
  }

  /** However many kills there have been, two drives that are left alone bring the run to its end, and
      the world to the uninterrupted run's: the first triggers the engine run, if it still has to, and
      the second, which the engine's callback may wake at once, completes the run. */
  lemma TwoDrivesSuffice(cfg: Settings, j: Job, now: Time, ats: seq<Attempt>, at: Time)
    returns (one: Attempt, two: Attempt)
    requires JobOk(j) && j.first.status.Pending? && Row(j.first, now) && RunEngine !in j.first.state.stepResults
    requires Attempts(cfg, j, j.first, j.w0, now, ats)
    requires var (row, _, now') := Finally(cfg, j, j.first, j.w0, now, ats); DrivableAt(row, now', at)
    ensures Attempts(cfg, j, j.first, j.w0, now, ats + [one] + [two])
    ensures var (row, w, _) := Finally(cfg, j, j.first, j.w0, now, ats + [one] + [two]);
            row.status.Completed? && w == Goal(j)
  {
    hide Stage, Row, JobOk, AttemptOn, OnCourse, RowAfter, Attempts, Finally, InTime;
    FreshOnCourse(j, now);
    var k := AttemptsOnCourse(cfg, j, j.first, 0, now, ats);
    var (row, w, now') := Finally(cfg, j, j.first, j.w0, now, ats);
    Later(row, now', at);
    one := OneDriveOn(cfg, j, row, k, at);
    Chain(cfg, j, j.first, j.w0, now, ats, one);
    var k1 := AttemptsOnCourse(cfg, j, j.first, 0, now, ats + [one]);
    var (row1, w1, _) := Finally(cfg, j, j.first, j.w0, now, ats + [one]);
    two := OneDriveOn(cfg, j, row1, k1, at);
    Chain(cfg, j, j.first, j.w0, now, ats + [one], two);
    KillsDoNotShow(cfg, j, now, ats + [one] + [two]);
  }
}
