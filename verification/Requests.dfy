/** Every call a run makes asks for what the run was triggered for: over every history, each call on the log carries the
    request's own template, parameters, operation, place and state, and the ticket and incidents it names are the run's. */
module Requests {
  import opened Domain
  import opened Drives
  import opened Totality
  import opened StoredRows
  import opened Bookkeeping
  import opened Gates
  import opened Histories
  import opened Safety
  import opened Playback

  // --- What a run was triggered for ---

  /** The run is about what it was triggered for; the record's ids may be filled in, nothing else changes. */
  predicate AsTriggered(first: Run, run: Run) {
    && run.id == first.id && run.runType == first.runType && run.state.request == first.state.request
    && (run.state.resource.Some? <==> first.state.resource.Some?)
    && (run.state.resource.Some? ==> Describes(first.state.resource.value, run.state.resource.value))
  }

  predicate Describes(asked: ResourceSpec, r: ResourceSpec) {
    r.projectId == asked.projectId && r.resourceType == asked.resourceType && r.desired == asked.desired
  }

  predicate OrderedAt(log: seq<Event>, i: nat, t: TicketRef) {
    i < |log| && log[i].call.OpenTicket? && log[i].answer == Ticket(t)
  }

  /** The run's ticket: the one it was triggered with, or one it was given for an order. */
  ghost predicate TicketKnown(first: Run, t: TicketRef, log: seq<Event>) {
    first.state.ticket == Some(t) || exists i: nat :: OrderedAt(log, i, t)
  }

  predicate OpenedAt(log: seq<Event>, i: nat, ref: TicketRef) {
    i < |log| && log[i].call.OpenIncident? && log[i].answer == Ticket(ref)
  }

  ghost predicate IncidentOpened(log: seq<Event>, ref: TicketRef) {
    exists i: nat :: OpenedAt(log, i, ref)
  }

  ghost predicate IncidentNamed(log: seq<Event>, id: string) {
    exists ref: TicketRef :: ref.ticketId == id && IncidentOpened(log, ref)
  }

  predicate OnPlace(first: Run, p: Place) {
    first.state.resource.Some? && p.projectId == first.state.resource.value.projectId
    && p.resourceType == first.state.resource.value.resourceType
  }

  /** The writes each operation makes on its record: first its own state of being worked on, in the end READY, or the mark
      of a deletion. */
  predicate WritesFor(first: Run, f: Fields)
    requires first.state.resource.Some?
  {
    var desired := first.state.resource.value.desired;
    match first.state.request.operation
    case Create => f.state == Ready && !f.inProgress && f.desired == None
    case Update =>
      f == Fields(Updating, true, None, None) || f == Fields(Ready, false, None, None)
      || (f.state == Ready && !f.inProgress && f.desired == Some(desired))
    case Delete =>
      f == Fields(Deleting, true, None, None) || f == Fields(Deleted, false, None, None)
      || f == Fields(Ready, false, None, None)
  }

  /** The call asks for what the run was triggered for. */
  ghost predicate AsksFor(first: Run, c: Call, before: seq<Event>) {
    var request := first.state.request;
    match c
    case OpenTicket(template, params, key) =>
      template == request.workflow.templateId && params == request.ticketParams && key == StepKey(first.id, CreateTicket)
    case PollApproval(t) => TicketKnown(first, t, before)
    case CloseTicketAs(t, outcome) => TicketKnown(first, t, before) && (outcome == Successful || outcome == Unsuccessful)
    case AnnotateTicket(t, incident) => TicketKnown(first, t, before) && IncidentNamed(before, incident)
    case CloseIncident(ref, outcome) => IncidentOpened(before, ref) && outcome == Documentation
    case CreateRecord(p, f, key) =>
      request.operation == Create && first.state.resource.Some?
      && p == Place(first.state.resource.value.projectId, first.state.resource.value.resourceType, first.id)
      && f == Fields(Provisioning, true, Some(first.state.resource.value.desired), None)
      && key == StepKey(first.id, ConfigureResource)
    case UpdateRecord(p, f) => OnPlace(first, p) && WritesFor(first, f)
    case DeleteRecord(p) => OnPlace(first, p) && request.operation != Update
    case ValidateRequest(p, op) => OnPlace(first, p) && op == request.operation
    case TriggerEngine(params, key) => params == request.workflowParams && key.EngineKey? && key.run == first.id
    case SubmitRequest(r, key) => request.legacy == Some(r) && key == StepKey(first.id, SubmitLegacy)
    case SaveRun(run) => run.id == first.id
    case _ => true
  }

  // --- What a drive keeps ---

  ghost predicate KnownFor(first: Run, ticket: Option<TicketRef>, log: seq<Event>) {
    ticket.Some? ==> TicketKnown(first, ticket.value, log)
  }

  ghost predicate HoldsKnown(pc: Pc, log: seq<Event>) {
    (pc.Filing? ==> IncidentOpened(log, pc.incident)) && (pc.Annotating? ==> IncidentNamed(log, pc.incidentId))
  }

  predicate NamesOwn(first: Run, pc: Pc) {
    pc.Configuring? && first.state.request.operation.Create? ==> pc.resource.vendorId == first.id
  }

  ghost predicate DriveAsTriggered(first: Run, d: Drive, log: seq<Event>) {
    d.pc.Finished?
    || (AsTriggered(first, d.run) && KnownFor(first, d.run.state.ticket, log) && HoldsKnown(d.pc, log) && NamesOwn(first, d.pc))
  }

  lemma KnownGrows(first: Run, log: seq<Event>, e: Event)
    ensures forall t :: TicketKnown(first, t, log) ==> TicketKnown(first, t, log + [e])
    ensures forall ref :: IncidentOpened(log, ref) ==> IncidentOpened(log + [e], ref)
    ensures forall id :: IncidentNamed(log, id) ==> IncidentNamed(log + [e], id)
  {
    forall t ensures TicketKnown(first, t, log) ==> TicketKnown(first, t, log + [e]) {
      if i: nat :| OrderedAt(log, i, t) {
        assert OrderedAt(log + [e], i, t);
      }
    }
    forall ref ensures IncidentOpened(log, ref) ==> IncidentOpened(log + [e], ref) {
      if i: nat :| OpenedAt(log, i, ref) {
        assert OpenedAt(log + [e], i, ref);
      }
    }
    forall id ensures IncidentNamed(log, id) ==> IncidentNamed(log + [e], id) {
      if ref: TicketRef :| ref.ticketId == id && IncidentOpened(log, ref) {
        assert IncidentOpened(log + [e], ref);
      }
    }
  }

  /** What only a handler changes. */
  predicate SameOwn(a: Run, b: Run) {
    a.id == b.id && a.runType == b.runType && a.state.request == b.state.request && a.state.resource == b.state.resource
    && a.state.ticket == b.state.ticket
  }

  predicate Plain(pc: Pc) {
    !pc.Configuring? && !pc.Filing? && !pc.Annotating?
  }

  lemma FailOwn(d: Drive, s: StepName, e: Error)
    ensures SameOwn(d.run, Fail(d, s, e).run) && Plain(Fail(d, s, e).pc)
  {
    hide FailedState, RetryState;
    OwnFailed(d.run.state, s, e);
  }

  lemma OwnFailed(st: RunState, s: StepName, e: Error)
    ensures forall st' :: st' == FailedState(st, s, e) || st' == RetryState(st, s) ==>
              st'.request == st.request && st'.resource == st.resource && st'.ticket == st.ticket
  {
  }

  lemma CrashOwn(d: Drive)
    ensures SameOwn(d.run, Crash(d).run) && Plain(Crash(d).pc)
  {
  }

  lemma EndingsPlain(d: Drive)
    ensures Plain(Release(d, true).pc) && Plain(Release(d, false).pc) && Plain(Refuse(d).pc)
    ensures Release(d, true).run == d.run && Release(d, false).run == d.run && Refuse(d).run == d.run
  {
  }

  lemma CompleteOwn(d: Drive, s: StepName)
    ensures SameOwn(d.run, Complete(d, s).run) && Plain(Complete(d, s).pc)
  {
    hide Crash, Plan, IndexInPlan;
    CrashOwn(d.(run := d.run.(state := Settle(d.run.state, s))));
  }

  lemma ReactOwn(d: Drive, s: StepName, h: Handled)
    requires h.outcome.Asks? ==> InStep(h.outcome.pc)
    ensures SameOwn(WithState(d, h.st).run, React(d, s, h).run)
    ensures Plain(React(d, s, h).pc) || h.outcome == Asks(React(d, s, h).pc)
  {
    hide Fail, Complete, Release;
    var d' := WithState(d, h.st);
    CompleteOwn(d', s);
    EndingsPlain(Ended(d', Rejected, WithError(h.st, s, Denial)));
    if h.outcome.Raises? {
      FailOwn(d', s, h.outcome.error);
    }
  }

  lemma FirstMoveOwn(first: Run, run: Run, s: StepName)
    requires AsTriggered(first, run)
    ensures var h := FirstMove(run, s);
            AsTriggered(first, run.(state := h.st)) && h.st.ticket == run.state.ticket
            && (h.outcome.Asks? ==> NamesOwn(first, h.outcome.pc))
  {
  }

  lemma NextMoveOwn(first: Run, d: Drive, a: Answer)
    requires InStep(d.pc) && Fits(NextCall(d), a) && HoldsInStep(d.run.state, d.pc) && AsTriggered(first, d.run)
    ensures AsTriggered(first, d.run.(state := NextMove(d, a).st))
    ensures var st := NextMove(d, a).st;
            st.ticket == (if d.pc.Ordering? && a.Ticket? then Some(a.ref) else d.run.state.ticket)
  {
    hide FinalizeFields;
  }

  lemma StepAsTriggered(first: Run, d: Drive, a: Answer, now: Time, log: seq<Event>)
    requires InStep(d.pc) && Driving(d, now) && Fits(NextCall(d), a) && DriveAsTriggered(first, d, log)
    ensures DriveAsTriggered(first, React(d, StepOf(d.pc), NextMove(d, a)), log + [Event(NextCall(d), a)])
  {
    hide React, NextMove, StartedTo, CountedFor, Markers, Plan, IndexInPlan, Describes, TicketKnown, HoldsInStep;
    var log' := log + [Event(NextCall(d), a)];
    KnownGrows(first, log, Event(NextCall(d), a));
    NextMoveOwn(first, d, a);
    NextMoveAsks(d, a);
    ReactOwn(d, StepOf(d.pc), NextMove(d, a));
    if d.pc.Ordering? && a.Ticket? {
      OrderIsKnown(first, d, a, log);
    }
  }

  lemma OrderIsKnown(first: Run, d: Drive, a: Answer, log: seq<Event>)
    requires d.pc.Ordering? && a.Ticket?
    ensures TicketKnown(first, a.ref, log + [Event(NextCall(d), a)])
  {
    assert OrderedAt(log + [Event(NextCall(d), a)], |log|, a.ref);
  }

  /** The answers of the escalator. */
  lemma EscalationAsTriggered(first: Run, d: Drive, a: Answer, log: seq<Event>)
    requires Escalating(d.pc) && Fits(NextCall(d), a) && DriveAsTriggered(first, d, log)
    ensures DriveAsTriggered(first, ResumeEscalation(d, a), log + [Event(NextCall(d), a)])
  {
    hide Release, Refuse, ResponsibleGroup, Describes, TicketKnown;
    var log' := log + [Event(NextCall(d), a)];
    KnownGrows(first, log, Event(NextCall(d), a));
    EndingsPlain(Noted(d, a));
    if (d.pc.Paging? || d.pc.Documenting?) && a.Ticket? {
      assert OpenedAt(log', |log|, a.ref);
      assert IncidentOpened(log', a.ref) && a.ref.ticketId == a.ref.ticketId;
      assert IncidentNamed(log', a.ref.ticketId);
    }
  }

  lemma TailAsTriggered(first: Run, d: Drive, a: Answer, log: seq<Event>)
    requires !d.pc.Finished? && !InStep(d.pc) && !Escalating(d.pc) && !d.pc.CheckBudget?
    requires Fits(NextCall(d), a) && DriveAsTriggered(first, d, log)
    ensures DriveAsTriggered(first, Resume(d, a), log)
  {
    hide Crash, Backoff, Describes, TicketKnown;
    CrashOwn(d);
  }

  lemma CheckAsTriggered(first: Run, d: Drive, a: Answer, log: seq<Event>)
    requires d.pc.CheckBudget? && Fits(NextCall(d), a) && DriveAsTriggered(first, d, log)
    ensures DriveAsTriggered(first, ResumeLoop(d, a.now), log)
  {
    hide React, Fail, FirstMove, Describes, TicketKnown;
    FirstMoveOwn(first, d.run, d.pc.step);
    FirstMoveAsks(d.run, d.pc.step);
    ReactOwn(d, d.pc.step, FirstMove(d.run, d.pc.step));
    FailOwn(d, d.pc.step, DeadlineExceeded);
  }

  lemma ResumeAsTriggered(first: Run, d: Drive, a: Answer, now: Time, log: seq<Event>)
    requires !d.pc.Finished? && Driving(d, now) && Fits(NextCall(d), a) && DriveAsTriggered(first, d, log)
    ensures DriveAsTriggered(first, Resume(d, a), log + [Event(NextCall(d), a)])
  {
    hide React, NextMove, ResumeLoop, ResumeEscalation, Crash, Backoff, AsTriggered, TicketKnown, Driving, NextCall;
    ReadsTheClock(d, a);
    if InStep(d.pc) {
      StepAsTriggered(first, d, a, now, log);
    } else if Escalating(d.pc) {
      EscalationAsTriggered(first, d, a, log);
    } else {
      KnownGrows(first, log, Event(NextCall(d), a));
      if d.pc.CheckBudget? {
        CheckAsTriggered(first, d, a, log);
      } else {
        TailAsTriggered(first, d, a, log);
      }
    }
  }

  /** So the next call asks for what the run was triggered for. */
  lemma NextAsksFor(first: Run, d: Drive, now: Time, log: seq<Event>)
    requires !d.pc.Finished? && Driving(d, now) && DriveAsTriggered(first, d, log)
    ensures AsksFor(first, NextCall(d), log)
  {
    hide StartedTo, CountedFor, Markers, Plan, IndexInPlan, TicketKnown, IncidentOpened, IncidentNamed;
  }

  // --- Over every history ---

  ghost predicate AllAsk(first: Run, log: seq<Event>) {
    forall i :: 0 <= i < |log| ==> AsksFor(first, log[i].call, log[..i])
  }

  ghost predicate AllAsTriggered(first: Run, s: System) {
    && AsTriggered(first, s.row) && KnownFor(first, s.row.state.ticket, s.log) && AllAsk(first, s.log)
    && forall w :: w in s.flights ==> DriveAsTriggered(first, s.flights[w].drive, s.log)
  }

  lemma LoadAsTriggered(first: Run, cfg: Settings, row: Run, log: seq<Event>)
    requires AsTriggered(first, row) && KnownFor(first, row.state.ticket, log)
    ensures DriveAsTriggered(first, Start(cfg, row), log)
  {
    hide TicketKnown, Describes;
  }

  lemma SavedAsTriggered(first: Run, row: Run, run: Run)
    requires AsTriggered(first, run) && SameRun(run, row)
    ensures AsTriggered(first, Saved(row, run)) && Saved(row, run).state.ticket == run.state.ticket
  {
  }

  lemma GrowsForAll(first: Run, s: System, e: Event)
    requires AllAsTriggered(first, s) && AsksFor(first, e.call, s.log)
    ensures AllAsk(first, s.log + [e]) && KnownFor(first, s.row.state.ticket, s.log + [e])
    ensures forall w :: w in s.flights ==> DriveAsTriggered(first, s.flights[w].drive, s.log + [e])
  {
    hide AsTriggered, TicketKnown, IncidentOpened, IncidentNamed, AsksFor;
    KnownGrows(first, s.log, e);
    var log' := s.log + [e];
    forall i | 0 <= i < |log'| ensures AsksFor(first, log'[i].call, log'[..i]) {
      assert if i < |s.log| then log'[..i] == s.log[..i] else log'[..i] == s.log;
    }
    forall w | w in s.flights ensures DriveAsTriggered(first, s.flights[w].drive, log') {
      assert DriveAsTriggered(first, s.flights[w].drive, s.log);
    }
  }

  lemma HearAsTriggered(first: Run, s: System, w: nat, a: Answer)
    requires Enabled(s, Hear(w, a)) && Chained(first, s) && Safe(s) && AllAsTriggered(first, s)
    ensures AllAsTriggered(first, Apply(s, Hear(w, a)))
  {
    hide Row, RowGate, Driving, DriveGate, Justified, KeysBounded, NextCall, Fits, Resume, Serial, IsTrace, After, Start,
         Shape, LogGrew, AsTriggered, KnownFor, HoldsKnown, AllAsk;
    var f := s.flights[w];
    var e := Event(NextCall(f.drive), a);
    NextAsksFor(first, f.drive, s.now, s.log);
    GrowsForAll(first, s, e);
    ResumeAsTriggered(first, f.drive, a, s.now, s.log);
    if f.drive.pc.Saving? && Applied(a) {
      SavedAsTriggered(first, s.row, f.drive.run);
      KnownStays(first, f.drive.run.state.ticket, s.log, e);
    }
  }

  lemma KnownStays(first: Run, ticket: Option<TicketRef>, log: seq<Event>, e: Event)
    requires KnownFor(first, ticket, log)
    ensures KnownFor(first, ticket, log + [e])
  {
    KnownGrows(first, log, e);
  }

  lemma QuietAsTriggered(first: Run, s: System, m: Move)
    requires Enabled(s, m) && !m.Hear? && AllAsTriggered(first, s)
    ensures AllAsTriggered(first, Apply(s, m))
  {
    hide Heard, Start, NextCall, Fits, Describes, KnownFor, AllAsk, HoldsKnown;
    LoadAsTriggered(first, s.cfg, s.row, s.log);
  }

  lemma {:induction false} HistoriesAsTriggered(first: Run, s: System, ms: seq<Move>)
    requires Legal(s, ms) && Chained(first, s) && Safe(s) && AllAsTriggered(first, s)
    ensures AllAsTriggered(first, Reached(s, ms))
    decreases |ms|
  {
    hide Chained, Safe, AllAsTriggered, Enabled, Apply;
    if ms != [] {
      HistoriesAreSafe(first, s, [ms[0]]);
      assert Reached(s, [ms[0]]) == Apply(s, ms[0]) by { assert [ms[0]][1..] == []; }
      if ms[0].Hear? {
        HearAsTriggered(first, s, ms[0].worker, ms[0].answer);
      } else {
        QuietAsTriggered(first, s, ms[0]);
      }
      HistoriesAsTriggered(first, Apply(s, ms[0]), ms[1..]);
    }
  }

  /** Over every history, whatever overlaps, dies or fails: each call asks for what the run was triggered for. An order
      carries its template and parameters under the run's key; a CREATE's record is made PROVISIONING, with the state asked
      for, under the run's id; an UPDATE marks its record UPDATING and a DELETE marks it DELETING; the engine, the
      validator and the legacy runner get the request's own parameters; and every ticket and incident closed or noted on is
      one the run was given before. */
  lemma EveryCallAsksForTheRequest(cfg: Settings, first: Run, now: Time, ms: seq<Move>)
    requires Triggered(first, now) && Legal(Fresh(cfg, first, now), ms)
    ensures AllAsk(first, Reached(Fresh(cfg, first, now), ms).log)
  {
    hide Row, RowGate, SafeFlight, Justified, KeysBounded, Legal;
    FreshIsSafe(cfg, first, now);
    HistoriesAsTriggered(first, Fresh(cfg, first, now), ms);
  }
}
