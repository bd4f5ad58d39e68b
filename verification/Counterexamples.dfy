/** Histories that show what the source's own comments suggest and its code does not keep. When it does keep it is the
    subject of Incidents, EngineRuns, LeftInFlight, Leases and LegacyTrigger. */
module Counterexamples {
  import opened Domain
  import opened Drives
  import opened Totality
  import opened Providers
  import opened StoredRows
  import opened Escalation
  import opened Histories
  import opened Playback
  import opened Incidents
  import opened Bookkeeping
  import opened Gates
  import opened Safety
  import opened PagingAgain
  import opened EngineRuns
  import opened LeftInFlight

  // --- Finalizing again after a crash ---

  /** The finalizing write of a CREATE or UPDATE may be repeated, and then changes nothing, exactly when it
      does not move the record. A write that moved it is told "not found" the second time, and that
      fails the step, which may be its last attempt. */
  lemma FinalizingRepeatsUnlessMoved(d: Drive, r: ResourceSpec, w: World)
    requires d.pc == Finalizing(r) && PlaceOf(r) in w.records
    ensures var w' := Effect(w, NextCall(d));
            && (Rekey(d.run, r).None? <==> PlaceOf(r) in w'.records)
            && (Rekey(d.run, r).None? ==> Effect(w', NextCall(d)) == w')
            && (Rekey(d.run, r).Some? ==>
                  forall a :: Fits(NextCall(d), a) && Truthful(w', Event(NextCall(d), a)) ==>
                    NextMove(d, a) == Handled(d.run.state, Raises(Unclassified)))
  {
    var w' := Effect(w, NextCall(d));
    if Rekey(d.run, r).None? {
      assert Effect(w', NextCall(d)).records == w'.records;
    }
  }

  // --- One poll, one save, one configure write ---

  /** One poll: it keeps the engine run exactly when it does not raise into a retry, which forgets the run and takes
      another key. The other ways to lose an engine run are in module EngineRuns. */
  lemma PollKeepsEngineRun(d: Drive, e: string, a: Answer)
    requires d.pc == Querying(e) && d.run.state.engineRunId == Some(e) && InPlan(d.run.runType, RunEngine)
    requires Fits(NextCall(d), a)
    ensures Resume(d, a).run.state.engineRunId == Some(e) <==> !(a.Raised? && MayRetry(d.run, RunEngine, Unclassified))
    ensures a.Raised? && MayRetry(d.run, RunEngine, Unclassified) ==>
              Resume(d, a).run.state.engineRunId == None && EngineRunKey(Resume(d, a).run) != EngineRunKey(d.run)
  {
    hide Escalate, Plan, IndexInPlan;
    EndingsOnly(Ended(d, RunStatus.Failed, FailedState(d.run.state, RunEngine, Unclassified)), Unclassified, false);
  }

  /** One save: it is followed by an incident exactly when it failed and the drive had not failed the run. The drive then
      holds the run as FAILED, whatever is stored: if the failed save had gone through, the row stays what it says, and
      the drive's next save is stale. */
  lemma FailedSaveEscalates(d: Drive, a: Answer)
    requires d.pc == Saving(false) && Fits(NextCall(d), a)
    ensures Resume(d, a).pc.Paging? <==> a.SaveFailed? && !d.run.status.Failed?
    ensures Resume(d, a).pc.Paging? ==> Resume(d, a).run.status.Failed? && Resume(d, a).escalations == d.escalations + 1
  {
  }

  /** One configure write that raises on the last attempt: nothing is released after it, whether it took effect or not,
      whatever the operation, since the run does not count the record as configured. */
  lemma ConfigureFailsUnreleased(d: Drive, notFound: bool, applied: bool, es: seq<Event>)
    requires d.pc.Configuring? && !d.run.state.resourceConfigured && !MayRetry(d.run, ConfigureResource, Unclassified)
    requires Through(Resume(d, Raised(notFound, applied)), es)
    ensures ResourceCalls(es) == []
  {
    hide Escalate, PagesRight, RefusesTicket, IsTrace, After;
    var f := Ended(d, RunStatus.Failed, FailedState(d.run.state, ConfigureResource, Unclassified));
    assert Resume(d, Raised(notFound, applied)) == Escalate(f, Unclassified, false);
    EscalationIsolatesFaults(f, Unclassified, false, es);
    assert LetsGo(f.run, es) ==> ResourceCalls(es) == [] by {
      assert ResourceInFlight(f.run.state) == None;
    }
  }

  // --- A wake defeats the lease ---

  /** A wake of a run that is being driven makes it claimable at once: two drives of it are under way. */
  lemma WakeDefeatsLease(cfg: Settings, row: Run, now: Time, lease: Time)
    requires !row.status.Terminal() && Due(row, now) && lease > 0.0
    ensures var ms := [Claim(lease), Load(0), Wake, Claim(lease), Load(1)];
            && Legal(Fresh(cfg, row, now), ms)
            && var s := Reached(Fresh(cfg, row, now), ms);
               0 in s.flights && !s.flights[0].drive.pc.Finished? && 1 in s.flights && !s.flights[1].drive.pc.Finished?
  {
    hide Plan, Heard;
    var s0 := Fresh(cfg, row, now);
    var s1 := Apply(s0, Claim(lease));
    var s2 := Apply(s1, Load(0));
    var s3 := Apply(s2, Wake);
    var s4 := Apply(s3, Claim(lease));
    var s5 := Apply(s4, Load(1));
    assert Legal(s5, []) && Reached(s5, []) == s5;
    Prepend(s4, Load(1), []);
    Prepend(s3, Claim(lease), [Load(1)]);
    Prepend(s2, Wake, [Claim(lease), Load(1)]);
    Prepend(s1, Load(0), [Wake, Claim(lease), Load(1)]);
    Prepend(s0, Claim(lease), [Load(0), Wake, Claim(lease), Load(1)]);
  }

  // --- Two incidents for one failure ---

  /** A drive killed before its save leaves no trace in the store, so the next one can do all of it again:
      whatever it had asked of the outside, an incident too, is asked twice. */
  lemma KilledDriveRepeats(s: System, w: nat, es: seq<Event>)
    requires w !in s.flights && IsTrace(Start(s.cfg, s.row), es) && NoSaveAt(es, s.now)
    ensures var ms := KilledDrive(w, es) + KilledDrive(w, es);
            Legal(s, ms) && Reached(s, ms) == s.(log := s.log + es + es)
  {
    hide Start, IsTrace, KilledDrive;
    KilledDriveLeaves(s, w, es);
    KilledDriveLeaves(s.(log := s.log + es), w, es);
    Concatenate(s, KilledDrive(w, es), KilledDrive(w, es));
  }

  lemma AtTheHandover(cfg: Settings, row: Run, now: Time) returns (d1: Drive, d2: Drive, d3: Drive)
    requires row.status.Pending? && row.runType.Legacy? && row.maxRetries == 0 && Row(row, now)
    ensures Start(cfg, row).pc == Begin(SubmitLegacy) && d1 == Resume(Start(cfg, row), Clock(now))
    ensures d1.pc == StartAttempt(SubmitLegacy) && d2 == Resume(d1, Clock(now))
    ensures d2.pc == CheckBudget(SubmitLegacy, now) && d3 == Resume(d2, Clock(now))
    ensures row.state.request.legacy.Some? && d3.pc == Submitting(row.state.request.legacy.value)
    ensures d3.run.id == row.id && d3.run.maxRetries == 0 && d3.cfg == cfg && d3.run.runType.Legacy?
    ensures d3.run.version == row.version
  {
    hide Start, ResumeLoop, Row;
    d1, d2, d3 := LoopsToTheHandover(cfg, row, now);
    LoopIsResume(Start(cfg, row), d1, d2, now);
  }

  lemma LoopsToTheHandover(cfg: Settings, row: Run, now: Time) returns (d1: Drive, d2: Drive, d3: Drive)
    requires row.status.Pending? && row.runType.Legacy? && row.maxRetries == 0 && Row(row, now)
    ensures Start(cfg, row).pc == Begin(SubmitLegacy) && d1 == ResumeLoop(Start(cfg, row), now)
    ensures d1.pc == StartAttempt(SubmitLegacy) && d2 == ResumeLoop(d1, now)
    ensures d2.pc == CheckBudget(SubmitLegacy, now) && d3 == ResumeLoop(d2, now)
    ensures row.state.request.legacy.Some? && d3.pc == Submitting(row.state.request.legacy.value)
    ensures d3.run.id == row.id && d3.run.maxRetries == 0 && d3.cfg == cfg && d3.run.runType.Legacy?
    ensures d3.run.version == row.version
  {
    hide Fail, Complete, StartedTo, CountedFor;
    d1 := ResumeLoop(Start(cfg, row), now);
    d2 := ResumeLoop(d1, now);
    d3 := ResumeLoop(d2, now);
  }

  lemma HandoverPages(d: Drive)
    requires d.pc.Submitting? && d.run.maxRetries == 0
    ensures var d' := Resume(d, Raised(false, false));
            d'.pc == Paging(Unclassified, false) && d'.cfg == d.cfg && d'.run.id == d.run.id
  {
  }

  /** What a drive of a legacy run without retries hears if the handover raises and the incident is opened. */
  lemma HandoverRaises(cfg: Settings, row: Run, now: Time, incident: TicketRef) returns (es: seq<Event>)
    requires row.status.Pending? && row.runType.Legacy? && row.maxRetries == 0 && Row(row, now)
    ensures IsTrace(Start(cfg, row), es) && NoSaveAt(es, now) && |Pages(es)| == 1
  {
    hide Row, Start, Resume, IsTrace, Release;
    var d0 := Start(cfg, row);
    var d1, d2, d3 := AtTheHandover(cfg, row, now);
    HandoverPages(d3);
    var d4 := Resume(d3, Raised(false, false));
    var d5 := Resume(d4, Ticket(incident));
    NoEvents(d5);
    var clock := Event(ReadClock, Clock(now));
    var submit := Event(NextCall(d3), Raised(false, false));
    var page := Event(NextCall(d4), Ticket(incident));
    TracePrepends(d4, page, []);
    assert [page] + [] == [page];
    TracePrepends(d3, submit, [page]);
    TracePrepends(d2, clock, [submit] + [page]);
    TracePrepends(d1, clock, [clock] + ([submit] + [page]));
    TracePrepends(d0, clock, [clock] + ([clock] + ([submit] + [page])));
    es := [clock] + ([clock] + ([clock] + ([submit] + [page])));
    var quiet := [clock, clock, clock, submit];
    assert es == quiet + [page];
    PagesJoin(quiet, [page]);
    QuietPages(quiet);
    PagesOfOne(page);
  }

  /** What it hears if the handover is accepted: it is about to save the run as COMPLETED. */
  lemma HandoverAccepted(cfg: Settings, row: Run, now: Time) returns (es: seq<Event>)
    requires row.status.Pending? && row.runType.Legacy? && row.maxRetries == 0 && Row(row, now)
    ensures IsTrace(Start(cfg, row), es) && NoSaveAt(es, now)
    ensures var d := After(Start(cfg, row), es); d.pc.Saving? && d.run.status.Completed? && d.run.version == row.version
  {
    hide Row, Start, Resume, IsTrace;
    var d0 := Start(cfg, row);
    var d1, d2, d3 := AtTheHandover(cfg, row, now);
    var d4 := Resume(d3, Reference(None));
    HandoverCompletes(d3);
    NoEvents(d4);
    var clock := Event(ReadClock, Clock(now));
    var submit := Event(NextCall(d3), Reference(None));
    TracePrepends(d3, submit, []);
    TracePrepends(d2, clock, [submit] + []);
    TracePrepends(d1, clock, [clock] + ([submit] + []));
    TracePrepends(d0, clock, [clock] + ([clock] + ([submit] + [])));
    es := [clock] + ([clock] + ([clock] + ([submit] + [])));
  }

  lemma HandoverCompletes(d: Drive)
    requires d.pc.Submitting? && d.run.runType.Legacy?
    ensures Fits(NextCall(d), Reference(None))
    ensures var d' := Resume(d, Reference(None));
            d'.pc.Saving? && d'.run.status.Completed? && d'.run.version == d.run.version
  {
  }

  /** A legacy run without retries whose handover raises: killed after its incident is opened, and again, it
      has two incidents. */
  lemma TwoIncidentsForOneRun(cfg: Settings, row: Run, now: Time, incident: TicketRef) returns (ms: seq<Move>)
    requires row.status.Pending? && row.runType.Legacy? && row.maxRetries == 0 && Row(row, now)
    ensures Legal(Fresh(cfg, row, now), ms)
    ensures |Pages(Reached(Fresh(cfg, row, now), ms).log)| == 2
  {
    hide KilledDrive, Row, Start, IsTrace;
    var es := HandoverRaises(cfg, row, now, incident);
    ms := KilledDrive(0, es) + KilledDrive(0, es);
    KilledDriveRepeats(Fresh(cfg, row, now), 0, es);
    assert [] + es + es == es + es;
    PagesJoin(es, es);
  }

  /** A drive that is killed once it has paged, and a second drive that completes the run: COMPLETED, with an
      incident, though no save failed and no drives overlapped. */
  lemma DeathPagesACompletedRun(cfg: Settings, row: Run, now: Time, incident: TicketRef) returns (ms: seq<Move>)
    requires row.status.Pending? && row.runType.Legacy? && row.maxRetries == 0 && Row(row, now)
    ensures Legal(Fresh(cfg, row, now), ms)
    ensures var s := Reached(Fresh(cfg, row, now), ms); s.row.status.Completed? && Pages(s.log) != []
  {
    hide KilledDrive, SavedDrive, Row, Start, IsTrace, After;
    var s0 := Fresh(cfg, row, now);
    var lost := HandoverRaises(cfg, row, now, incident);
    KilledDriveLeaves(s0, 0, lost);
    var s1 := Reached(s0, KilledDrive(0, lost));
    var done := HandoverAccepted(cfg, row, now);
    SavedDriveStores(s1, 0, done);
    ms := KilledDrive(0, lost) + SavedDrive(0, done);
    Concatenate(s0, KilledDrive(0, lost), SavedDrive(0, done));
    assert [] + lost == lost;
    PagesJoin(lost, done);
    PagesJoin(lost + done, [Event(SaveRun(After(Start(cfg, row), done).run), SaveOk)]);
  }

  /** Two overlapping drives, one that pages and one that completes the run: COMPLETED, with an incident, though no
      save failed and no drive died. */
  lemma OverlapPagesACompletedRun(cfg: Settings, row: Run, now: Time, incident: TicketRef) returns (ms: seq<Move>)
    requires row.status.Pending? && row.runType.Legacy? && row.maxRetries == 0 && Row(row, now)
    ensures Legal(Fresh(cfg, row, now), ms)
    ensures var s := Reached(Fresh(cfg, row, now), ms); s.row.status.Completed? && Pages(s.log) != []
  {
    hide HeardBy, Row, Start, IsTrace, After, Enabled, Apply;
    var s0 := Fresh(cfg, row, now);
    var lost := HandoverRaises(cfg, row, now, incident);
    var done := HandoverAccepted(cfg, row, now);
    Loads(s0, 0);
    var s1 := Apply(s0, Load(0));
    NoMoves(s1);
    Prepend(s0, Load(0), []);
    Loads(s1, 1);
    var s2 := Apply(s1, Load(1));
    Append(s0, [Load(0)] + [], Load(1));
    Plays(s2, 1, lost);
    Concatenate(s0, [Load(0)] + [] + [Load(1)], HeardBy(1, lost));
    var s3 := Reached(s2, HeardBy(1, lost));
    Plays(s3, 0, done);
    Concatenate(s0, [Load(0)] + [] + [Load(1)] + HeardBy(1, lost), HeardBy(0, done));
    var s4 := Reached(s3, HeardBy(0, done));
    Saves(s4, 0);
    ms := [Load(0)] + [] + [Load(1)] + HeardBy(1, lost) + HeardBy(0, done) + [Hear(0, SaveOk)];
    Append(s0, [Load(0)] + [] + [Load(1)] + HeardBy(1, lost) + HeardBy(0, done), Hear(0, SaveOk));
    assert [] + lost == lost;
    PagesJoin(lost, done);
    PagesJoin(lost + done, [Event(SaveRun(s4.flights[0].drive.run), SaveOk)]);
  }

  /** Two overlapping drives ask the outside for the same things twice. */
  lemma OverlappingDrivesRepeat(s: System, v: nat, w: nat, es: seq<Event>)
    requires v != w && v !in s.flights && w !in s.flights && IsTrace(Start(s.cfg, s.row), es) && NoSaveAt(es, s.now)
    ensures var ms := [Load(v)] + HeardBy(v, es) + ([Load(w)] + HeardBy(w, es));
            Legal(s, ms) && Reached(s, ms).log == s.log + es + es
  {
    hide Start, IsTrace, HeardBy, Enabled, Apply, NoSaveAt, AllCareful;
    LoadedAndHeard(s, v, es);
    var s' := Reached(s, [Load(v)] + HeardBy(v, es));
    LoadedAndHeard(s', w, es);
    Concatenate(s, [Load(v)] + HeardBy(v, es), [Load(w)] + HeardBy(w, es));
  }

  // --- A failed save defeats the lease ---

  /** A save that failed though it went through: the row is due at the poll it schedules, while the drive goes on to
      escalate within its lease. Another drive starts beside it, with no wake and no drive longer than its lease. */
  lemma FailedSaveDefeatsLease(cfg: Settings, row: Run, now: Time, lease: Time) returns (ms: seq<Move>)
    requires Triggered(row, now) && ToTrigger(row, 0, now) && Due(row, now) && lease > PollInterval(RunEngine)
    ensures Legal(Fresh(cfg, row, now), ms)
    ensures var s := Reached(Fresh(cfg, row, now), ms);
            UnderWayIn(s, 0) && UnderWayIn(s, 1) && s.now < now + lease && Wake !in ms
  {
    hide ToTrigger, Start, IsTrace, After, HeardBy, NoSaveAt, Row, Enabled, Apply, AllCareful, Resume;
    var s0 := Fresh(cfg, row, now);
    Claims(s0, lease);
    Append(s0, [], Claim(lease));
    var m1 := [] + [Claim(lease)];
    var s1 := Apply(s0, Claim(lease));
    ClaimedToTrigger(row, now, lease);
    var es := TriggersNow(cfg, s1.row, 0, now, "");
    var d := After(Start(cfg, s1.row), es);
    SchedulesNow(d, now);
    var clock := Event(ReadClock, Clock(now));
    TraceExtends(Start(cfg, s1.row), es, clock);
    OneClockMore(es, now);
    LoadedAndHeard(s1, 0, es + [clock]);
    var m2 := m1 + ([Load(0)] + HeardBy(0, es + [clock]));
    Concatenate(s0, m1, [Load(0)] + HeardBy(0, es + [clock]));
    var s2 := Reached(s0, m2);
    FailsItsSave(s2, 0);
    Append(s0, m2, Hear(0, SaveFailed(true)));
    var s3 := Apply(s2, Hear(0, SaveFailed(true)));
    var later := now + PollInterval(RunEngine);
    Ticks(s3, later);
    Append(s0, m2 + [Hear(0, SaveFailed(true))], Tick(later));
    var s4 := Apply(s3, Tick(later));
    Claims(s4, lease);
    Append(s0, m2 + [Hear(0, SaveFailed(true))] + [Tick(later)], Claim(lease));
    var s5 := Apply(s4, Claim(lease));
    Loads(s5, 1);
    UnderWayIsUnfinished(cfg, s5.row);
    ms := m2 + [Hear(0, SaveFailed(true))] + [Tick(later)] + [Claim(lease)] + [Load(1)];
    Append(s0, m2 + [Hear(0, SaveFailed(true))] + [Tick(later)] + [Claim(lease)], Load(1));
    NothingWakes(0, es + [clock]);
  }

  lemma Claims(s: System, lease: Time)
    requires Due(s.row, s.now)
    ensures Enabled(s, Claim(lease)) && Apply(s, Claim(lease)) == s.(row := Claimed(s.row, s.now, lease))
  {
    hide Heard;
  }

  lemma ClaimedToTrigger(row: Run, now: Time, lease: Time)
    requires ToTrigger(row, 0, now)
    ensures ToTrigger(Claimed(row, now, lease), 0, now)
  {
    hide Row;
    RowIgnoresSchedule(row, now + lease, now);
  }

  /** A save that went through and failed all the same: the row is stored, and the drive goes on to escalate. */
  lemma FailsItsSave(s: System, w: nat)
    requires w in s.flights && s.flights[w].drive.pc == Saving(false) && s.row.version == s.flights[w].drive.run.version
    requires s.flights[w].drive.run.status.Running?
    ensures Enabled(s, Hear(w, SaveFailed(true)))
    ensures var s' := Apply(s, Hear(w, SaveFailed(true)));
            s'.row == Saved(s.row, s.flights[w].drive.run) && s'.now == s.now && s'.cfg == s.cfg
            && s'.flights.Keys == s.flights.Keys && !s'.flights[w].drive.pc.Finished?
  {
    FailedSaveEscalates(s.flights[w].drive, SaveFailed(true));
  }

  lemma {:induction false} NothingWakes(w: nat, es: seq<Event>)
    ensures Wake !in HeardBy(w, es)
  {
    if es != [] {
      NothingWakes(w, es[1..]);
    }
  }

  // --- A record that moved, and a drive that died ---

  /** A CREATE that waits for its engine run, in time: its record is where it was created. */
  ghost predicate WaitsForEngine(row: Run, e: string, now: Time) {
    && Row(row, now) && row.status.Running? && row.runType.Resource? && row.currentStep == Some(RunEngine)
    && row.state.request.operation.Create? && row.state.request.workflow.engineType.Airflow?
    && row.state.engineRunId == Some(e) && row.state.books.attemptStartedAt.Some?
    && now - row.state.books.attemptStartedAt.value <= MaxDuration(RunEngine)
  }

  /** To the poll, to the reported id, and to the finalizing write. */
  lemma ToThePoll(cfg: Settings, row: Run, e: string, now: Time) returns (d1: Drive, d2: Drive)
    requires WaitsForEngine(row, e, now)
    ensures Start(cfg, row).pc.Begin? && d1 == Resume(Start(cfg, row), Clock(now)) && d1.pc.CheckBudget?
    ensures d2 == Resume(d1, Clock(now)) && d2.pc == Querying(e) && PollState(d2, row)
  {
    hide StartedTo, CountedFor, Fail, Complete;
    d1 := Resume(Start(cfg, row), Clock(now));
    d2 := Resume(d1, Clock(now));
  }

  predicate PollState(d: Drive, row: Run) {
    d.run.currentStep == Some(RunEngine) && d.run.runType.Resource? && d.run.state.resource == row.state.resource
    && row.state.resource.Some? && !d.run.state.resourceFinalized && d.run.state.request == row.state.request
  }

  lemma PollSucceeds(d: Drive, row: Run, e: string)
    requires d.pc == Querying(e) && PollState(d, row)
    ensures Resume(d, EngineStatus(EngineSucceeded)) == d.(pc := FetchingOutput(e))
  {
    hide Fail, Complete;
    assert WithState(d, d.run.state) == d;
  }

  lemma ReportsTheMove(d: Drive, row: Run, e: string, v: string)
    requires d.pc == FetchingOutput(e) && PollState(d, row)
    ensures ToFinalize(Resume(d, Output(Some(v))), row, v)
  {
    hide Fail;
  }

  predicate ToFinalize(d: Drive, row: Run, v: string) {
    d.pc == Begin(FinalizeResource) && d.run.currentStep == Some(FinalizeResource) && d.run.state.books.attemptStartedAt.None?
    && d.run.state.resource == row.state.resource && row.state.resource.Some? && !d.run.state.resourceFinalized
    && d.run.state.request == row.state.request
    && RunEngine in d.run.state.stepResults && d.run.state.stepResults[RunEngine].finalVendorId == Some(v)
  }

  lemma ToTheMove(d: Drive, row: Run, v: string, now: Time) returns (d5: Drive, d6: Drive, d7: Drive)
    requires ToFinalize(d, row, v) && row.state.request.operation.Create?
    requires v != "" && v != row.state.resource.value.vendorId
    ensures d5 == ResumeLoop(d, now) && d5.pc.StartAttempt? && d6 == ResumeLoop(d5, now) && d6.pc.CheckBudget?
    ensures d7 == ResumeLoop(d6, now) && d7.pc == Finalizing(row.state.resource.value)
    ensures Rekey(d7.run, row.state.resource.value) == Some(v) && d7.run.currentStep == Some(FinalizeResource)
  {
    hide Fail, Complete;
    d5 := ResumeLoop(d, now);
    d6 := ResumeLoop(d5, now);
    d7 := ResumeLoop(d6, now);
  }

  /** What such a drive hears up to its finalizing write, which would move the record to `v`. */
  lemma HearsOfTheMove(cfg: Settings, row: Run, e: string, v: string, now: Time) returns (es: seq<Event>)
    requires WaitsForEngine(row, e, now) && v != "" && row.state.resource.Some? && v != row.state.resource.value.vendorId
    ensures IsTrace(Start(cfg, row), es) && NoSaveAt(es, now) && forall i :: 0 <= i < |es| ==> !OnResource(es[i].call)
    ensures var d := After(Start(cfg, row), es);
            d.pc == Finalizing(row.state.resource.value) && Rekey(d.run, row.state.resource.value) == Some(v)
            && d.run.currentStep == Some(FinalizeResource)
  {
    hide Start, Resume, ResumeLoop, IsTrace, After, Row, Rekey;
    var d1, d2 := ToThePoll(cfg, row, e, now);
    IsCreate(row, e, now);
    PollSucceeds(d2, row, e);
    var d3 := Resume(d2, EngineStatus(EngineSucceeded));
    ReportsTheMove(d3, row, e, v);
    var d4 := Resume(d3, Output(Some(v)));
    var d5, d6, d7 := ToTheMove(d4, row, v, now);
    var clock := Event(ReadClock, Clock(now));
    var poll := Event(QueryEngine(e), EngineStatus(EngineSucceeded));
    var report := Event(FetchOutput(e), Output(Some(v)));
    ThreeClocks(d4, d5, d6, d7, now);
    TracePrepends(d3, report, Clocks(now));
    TracePrepends(d2, poll, [report] + Clocks(now));
    TracePrepends(d1, clock, [poll] + ([report] + Clocks(now)));
    TracePrepends(Start(cfg, row), clock, [clock] + ([poll] + ([report] + Clocks(now))));
    es := [clock] + ([clock] + ([poll] + ([report] + Clocks(now))));
  }

  lemma IsCreate(row: Run, e: string, now: Time)
    requires WaitsForEngine(row, e, now)
    ensures row.state.request.operation.Create? && Row(row, now)
  {
  }

  /** A CREATE whose engine run reports another id: its drive moves the record and is killed before it saves; the next
      drive writes to the old place, is truthfully told that nothing is there, and its step has failed though nothing ever
      did. */
  lemma MovedThenNotFound(s: System, e: string, v: string, w0: World) returns (ms: seq<Move>)
    requires WaitsForEngine(s.row, e, s.now) && v != "" && s.row.state.resource.Some?
          && v != s.row.state.resource.value.vendorId
    requires 0 !in s.flights && PlaceOf(s.row.state.resource.value) in Onward(w0, s.log).records
    ensures Legal(s, ms)
    ensures var s' := Reached(s, ms); var home := PlaceOf(s.row.state.resource.value); var n := |s'.log| - 1;
            && s'.row == s.row && n >= 0 && 0 in s'.flights
            && home !in Onward(w0, s'.log[..n]).records && home.(vendorId := v) in Onward(w0, s'.log[..n]).records
            && s'.log[n].call.UpdateRecord? && s'.log[n].call.place == home && s'.log[n].answer == Raised(true, false)
            && Attempts(s'.flights[0].drive.run.state.books, FinalizeResource) >= 1
  {
    hide Start, IsTrace, After, HeardBy, NoSaveAt, Row, Enabled, Apply, KilledDrive, Rekey, FinalizeFields,
         AllCareful, WaitsForEngine, NextCall, Fits,
         Next, Resume, OnResource;
    var r := s.row.state.resource.value;
    var es := HearsOfTheMove(s.cfg, s.row, e, v, s.now);
    var d := After(Start(s.cfg, s.row), es);
    MovesAway(d, r, v, Onward(w0, s.log));
    var moves := Event(NextCall(d), Acknowledged);
    var refused := Event(NextCall(d), Raised(true, false));
    TraceExtends(Start(s.cfg, s.row), es, moves);
    OneWriteMore(es, moves, s.now);
    KilledDriveLeaves(s, 0, es + [moves]);
    TraceExtends(Start(s.cfg, s.row), es, refused);
    OneWriteMore(es, refused, s.now);
    var s1 := Reached(s, KilledDrive(0, es + [moves]));
    LoadedAndHeard(s1, 0, es + [refused]);
    ms := KilledDrive(0, es + [moves]) + ([Load(0)] + HeardBy(0, es + [refused]));
    Concatenate(s, KilledDrive(0, es + [moves]), [Load(0)] + HeardBy(0, es + [refused]));
    LogSplits(s.log, es, moves, refused);
    WorldAfterMove(w0, s.log, es, moves);
    RefusedFails(d);
  }

  lemma LogSplits(log: seq<Event>, es: seq<Event>, moves: Event, refused: Event)
    ensures var all := log + (es + [moves]) + (es + [refused]); var n := |all| - 1;
            n >= 0 && all[n] == refused && all[..n] == log + es + [moves] + es
  {
    var all := log + (es + [moves]) + (es + [refused]);
    assert all == (log + es + [moves] + es) + [refused];
  }

  lemma OneWriteMore(es: seq<Event>, e: Event, now: Time)
    requires NoSaveAt(es, now) && !e.call.SaveRun? && !e.answer.Clock?
    ensures NoSaveAt(es + [e], now)
  {
  }

  /** The finalizing write that moves a record leaves it at the new place and nothing at the old. */
  lemma MovesAway(d: Drive, r: ResourceSpec, v: string, w: World)
    requires d.pc == Finalizing(r) && Rekey(d.run, r) == Some(v) && PlaceOf(r) in w.records && v != r.vendorId
    ensures Fits(NextCall(d), Acknowledged) && Fits(NextCall(d), Raised(true, false))
    ensures NextCall(d).UpdateRecord? && NextCall(d).place == PlaceOf(r)
    ensures var w' := Next(w, Event(NextCall(d), Acknowledged));
            PlaceOf(r) !in w'.records && PlaceOf(r).(vendorId := v) in w'.records
  {
    hide Rekey;
  }

  /** Only the write between the two rounds of questions touches the records. */
  lemma WorldAfterMove(w0: World, log: seq<Event>, es: seq<Event>, moves: Event)
    requires forall i :: 0 <= i < |es| ==> !OnResource(es[i].call)
    requires moves.call.UpdateRecord?
    ensures Onward(w0, log + es + [moves] + es).records == Next(Onward(w0, log), moves).records
  {
    OnwardJoins(w0, log, es);
    OthersLeaveRecords(Onward(w0, log), es);
    OnwardExtends(w0, log + es, moves);
    OnwardJoins(w0, log + es + [moves], es);
    OthersLeaveRecords(Onward(w0, log + es + [moves]), es);
  }

  lemma {:induction false} OnwardJoins(w: World, a: seq<Event>, b: seq<Event>)
    ensures Onward(w, a + b) == Onward(Onward(w, a), b)
    decreases |a|
  {
    hide Next;
    if a == [] {
      assert a + b == b;
    } else {
      assert (a + b)[1..] == a[1..] + b;
      OnwardJoins(Next(w, a[0]), a[1..], b);
    }
  }

  lemma RefusedFails(d: Drive)
    requires d.pc.Finalizing?
    ensures Fits(NextCall(d), Raised(true, false))
          && Attempts(Resume(d, Raised(true, false)).run.state.books, FinalizeResource) >= 1
  {
    hide Rekey, Escalate;
    EndingsOnly(Ended(d, RunStatus.Failed, FailedState(d.run.state, FinalizeResource, Unclassified)), Unclassified, false);
  }
}
