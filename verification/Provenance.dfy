/** Where what a run knows of its engine comes from: the engine run it polls was triggered under the key
    of its current attempt, and the failure and the record id it acts on were reported by that engine
    run. Nothing of a failed attempt leaks into the next. */
module Provenance {
  import opened Domain
  import opened Drives
  import opened Totality
  import opened StoredRows
  import opened Bookkeeping
  import opened Gates
  import opened Histories
  import opened Safety

  predicate TriggeredAt(log: seq<Event>, i: nat, key: Key, e: string) {
    i < |log| && log[i].call.TriggerEngine? && log[i].call.key == key && log[i].answer == EngineRun(e)
  }

  predicate FailureAt(log: seq<Event>, i: nat, e: string, f: EngineFailure) {
    i < |log| && log[i] == Event(FetchFailure(e), Failure(f))
  }

  predicate OutputAt(log: seq<Event>, i: nat, e: string, v: Option<string>) {
    i < |log| && log[i] == Event(FetchOutput(e), Output(v))
  }

  /** The engine run held, if any, was triggered under this attempt's key. */
  ghost predicate HeldRun(id: RunId, engine: Option<string>, attempt: nat, log: seq<Event>) {
    engine.Some? ==> exists i: nat :: TriggeredAt(log, i, EngineKey(id, attempt), engine.value)
  }

  ghost predicate FailureOf(engine: Option<string>, failure: Option<EngineFailure>, log: seq<Event>) {
    failure.Some? ==> engine.Some? && exists i: nat :: FailureAt(log, i, engine.value, failure.value)
  }

  ghost predicate OutputOf(engine: Option<string>, results: map<StepName, StepResult>, log: seq<Event>) {
    RunEngine in results ==>
      engine.Some? && exists i: nat :: OutputAt(log, i, engine.value, results[RunEngine].finalVendorId)
  }

  /** What the engine is on record to have reported was reported by the engine run held. */
  ghost predicate Reports(st: RunState, log: seq<Event>) {
    FailureOf(st.engineRunId, st.engineFailure, log) && OutputOf(st.engineRunId, st.stepResults, log)
  }

  /** Up to RUN_ENGINE, the engine run held is the current attempt's. */
  ghost predicate Holding(run: Run, log: seq<Event>) {
    run.status.Running? && run.currentStep.Some? && Pos(run, run.currentStep.value) <= Pos(run, RunEngine) ==>
      HeldRun(run.id, run.state.engineRunId, Attempts(run.state.books, RunEngine), log)
  }

  ghost predicate Sourced(run: Run, log: seq<Event>) {
    Reports(run.state, log) && Holding(run, log)
  }

  ghost predicate DriveSourced(d: Drive, log: seq<Event>) {
    d.pc.Finished? || Sourced(d.run, log)
  }

  // --- The log only grows ---

  lemma SourcesGrow(id: RunId, attempt: nat, engine: Option<string>, failure: Option<EngineFailure>,
                    results: map<StepName, StepResult>, log: seq<Event>, e: Event)
    ensures HeldRun(id, engine, attempt, log) ==> HeldRun(id, engine, attempt, log + [e])
    ensures FailureOf(engine, failure, log) ==> FailureOf(engine, failure, log + [e])
    ensures OutputOf(engine, results, log) ==> OutputOf(engine, results, log + [e])
  {
    if engine.Some? {
      if i: nat :| TriggeredAt(log, i, EngineKey(id, attempt), engine.value) {
        assert TriggeredAt(log + [e], i, EngineKey(id, attempt), engine.value);
      }
      if failure.Some? {
        if i: nat :| FailureAt(log, i, engine.value, failure.value) {
          assert FailureAt(log + [e], i, engine.value, failure.value);
        }
      }
      if RunEngine in results {
        if i: nat :| OutputAt(log, i, engine.value, results[RunEngine].finalVendorId) {
          assert OutputAt(log + [e], i, engine.value, results[RunEngine].finalVendorId);
        }
      }
    }
  }

  lemma SourcedGrows(run: Run, log: seq<Event>, e: Event)
    requires Sourced(run, log)
    ensures Sourced(run, log + [e])
  {
    hide HeldRun, FailureOf, OutputOf, IndexInPlan, Plan;
    var st := run.state;
    SourcesGrow(run.id, Attempts(st.books, RunEngine), st.engineRunId, st.engineFailure, st.stepResults, log, e);
  }

  // --- A drive keeps it ---

  lemma CompleteSourced(d: Drive, s: StepName, log: seq<Event>)
    requires InPlan(d.run.runType, s) && d.run.currentStep == Some(s) && d.run.status.Running? && Sourced(d.run, log)
    ensures Sourced(Complete(d, s).run, log)
  {
    hide HeldRun, FailureOf, OutputOf, Plan, IndexInPlan, Crash;
    if Pos(d.run, s) + 1 < |Plan(d.run.runType)| {
      IndexIsPosition(d.run.runType, Pos(d.run, s) + 1);
      if s == RunEngine {
        assert Pos(d.run, s) == Pos(d.run, RunEngine);
      }
    }
  }

  lemma EndedSourced(d: Drive, s: StepName, e: Error, log: seq<Event>)
    requires Reports(d.run.state, log)
    ensures Sourced(Ended(d, RunStatus.Failed, FailedState(d.run.state, s, e)).run, log)
    ensures Sourced(Ended(d, Rejected, WithError(d.run.state, s, e)).run, log)
    ensures Sourced(Ended(d, RunStatus.Failed, d.run.state).run, log)
    ensures Sourced(Ended(d, RunStatus.Failed, WithError(d.run.state, s, e)).run, log)
  {
    hide HeldRun, FailureOf, OutputOf, Plan, IndexInPlan;
  }

  lemma FailSourced(d: Drive, s: StepName, e: Error, log: seq<Event>)
    requires d.run.currentStep == Some(s) && d.run.status.Running? && Sourced(d.run, log)
    ensures Sourced(Fail(d, s, e).run, log)
  {
    hide Escalate, FailedState, OutputOf, FailureOf;
    if MayRetry(d.run, s, e) {
      RetrySourced(d.run, s, log);
    } else {
      EndedSourced(d, s, e, log);
      EndingsOnly(Ended(d, RunStatus.Failed, FailedState(d.run.state, s, e)), e, false);
    }
  }

  /** A retried engine step starts with nothing of the failed attempt. */
  lemma RetrySourced(run: Run, s: StepName, log: seq<Event>)
    requires run.currentStep == Some(s) && run.status.Running? && Sourced(run, log)
    ensures Sourced(run.(state := RetryState(run.state, s)), log)
    ensures s == RunEngine ==>
              var st := RetryState(run.state, s);
              st.engineRunId.None? && st.engineFailure.None? && RunEngine !in st.stepResults
  {
    hide Plan, IndexInPlan;
  }

  /** What a handler's move leaves of it, the new answer included. */
  ghost predicate MovedSourced(run: Run, h: Handled, log: seq<Event>) {
    h.st.books == run.state.books && Sourced(run.(state := h.st), log)
  }

  lemma ReactSourced(d: Drive, s: StepName, h: Handled, log: seq<Event>)
    requires InPlan(d.run.runType, s) && d.run.currentStep == Some(s) && d.run.status.Running?
    requires MovedSourced(d.run, h, log)
    ensures Sourced(React(d, s, h).run, log)
  {
    hide Sourced, Complete, Fail, Release, Plan, IndexInPlan;
    var d' := WithState(d, h.st);
    assert Reports(h.st, log) by { SourcedReports(d'.run, log); }
    match h.outcome
    case Done => CompleteSourced(d', s, log);
    case Raises(e) => FailSourced(d', s, e, log);
    case Denies =>
      EndedSourced(d', s, Denial, log);
      EndingsOnly(Ended(d', Rejected, WithError(h.st, s, Denial)), Denial, false);
    case _ =>
  }

  lemma SourcedReports(run: Run, log: seq<Event>)
    requires Sourced(run, log)
    ensures Reports(run.state, log)
  {
  }

  lemma FirstMoveSourced(run: Run, s: StepName, log: seq<Event>)
    requires Sourced(run, log)
    ensures MovedSourced(run, FirstMove(run, s), log)
  {
    hide HeldRun, FailureOf, OutputOf, Plan, IndexInPlan;
  }

  predicate AtEngine(pc: Pc) {
    pc.Triggering? || pc.FetchingOutput? || pc.FetchingFailure?
  }

  lemma OtherMoveSourced(d: Drive, a: Answer, log: seq<Event>)
    requires InStep(d.pc) && !AtEngine(d.pc) && Fits(NextCall(d), a) && Sourced(d.run, log)
    ensures MovedSourced(d.run, NextMove(d, a), log)
  {
    hide HeldRun, FailureOf, OutputOf, Plan, IndexInPlan, Rekey, FinalizeFields;
  }

  lemma EngineMoveSourced(d: Drive, a: Answer, log: seq<Event>)
    requires AtEngine(d.pc) && Fits(NextCall(d), a) && HoldsInStep(d.run.state, d.pc)
    requires Sourced(d.run, log + [Event(NextCall(d), a)])
    ensures MovedSourced(d.run, NextMove(d, a), log + [Event(NextCall(d), a)])
  {
    hide Plan, IndexInPlan;
    var log' := log + [Event(NextCall(d), a)];
    if d.pc.Triggering? && a.EngineRun? {
      assert TriggeredAt(log', |log|, EngineRunKey(d.run), a.runId);
    } else if d.pc.FetchingOutput? && a.Output? {
      assert OutputAt(log', |log|, d.pc.engineRunId, a.output);
    } else if d.pc.FetchingFailure? && a.Failure? {
      assert FailureAt(log', |log|, d.pc.engineRunId, a.failure);
    }
  }

  lemma StartSourced(cfg: Settings, run: Run, now: Time, log: seq<Event>)
    requires Row(run, now) && Sourced(run, log)
    ensures DriveSourced(Start(cfg, run), log)
  {
    hide StartedTo, CountedFor, Over, Plan, IndexInPlan, Markers, FailureOf, OutputOf;
  }

  lemma CrashSourced(d: Drive, log: seq<Event>)
    requires Sourced(d.run, log)
    ensures Sourced(Crash(d).run, log)
  {
    hide Escalate, WithError, Sourced;
    var st := if d.run.currentStep.Some? then WithError(d.run.state, d.run.currentStep.value, Unclassified)
              else d.run.state;
    SourcedReports(d.run, log);
    EndedSourced(d, d.run.currentStep.GetOr(RunEngine), Unclassified, log);
    EndingsOnly(Ended(d, RunStatus.Failed, st), Unclassified, true);
  }

  /** Nothing of the run's engine, step or status differs. */
  predicate SameSources(a: Run, b: Run) {
    a.id == b.id && a.runType == b.runType && a.status == b.status && a.currentStep == b.currentStep
    && a.state.engineRunId == b.state.engineRunId && a.state.engineFailure == b.state.engineFailure
    && a.state.stepResults == b.state.stepResults && a.state.books.attempts == b.state.books.attempts
  }

  lemma SameIsSourced(a: Run, b: Run, log: seq<Event>)
    requires SameSources(a, b) && Sourced(a, log)
    ensures Sourced(b, log)
  {
    hide HeldRun, FailureOf, OutputOf, IndexInPlan;
  }

  lemma HeadKeepsSources(d: Drive, a: Answer)
    requires (d.pc.Begin? || d.pc.StartAttempt? || d.pc.BackingOff? || d.pc.Scheduling?) && Fits(NextCall(d), a)
    ensures SameSources(d.run, Resume(d, a).run)
  {
    hide Backoff;
  }

  lemma EscalationKeepsSources(d: Drive, a: Answer)
    requires Escalating(d.pc) && Fits(NextCall(d), a)
    ensures SameSources(d.run, ResumeEscalation(d, a).run)
  {
    hide Release, Refuse, NextCall, ResponsibleGroup;
    EndingsOnly(Noted(d, a), Unclassified, true);
    EndingsOnly(Noted(d, a), Unclassified, false);
  }

  lemma SavingSourced(d: Drive, a: Answer, log: seq<Event>)
    requires d.pc.Saving? && Fits(NextCall(d), a) && Sourced(d.run, log)
    ensures DriveSourced(Resume(d, a), log)
  {
    hide Sourced, Crash;
    CrashSourced(d, log);
  }

  lemma PlainSourced(d: Drive, a: Answer, log: seq<Event>)
    requires !d.pc.Finished? && !d.pc.CheckBudget? && !InStep(d.pc) && Fits(NextCall(d), a) && Sourced(d.run, log)
    ensures DriveSourced(Resume(d, a), log)
  {
    hide Sourced, SameSources, NextCall, Crash, Backoff, ResumeEscalation, ResumeLoop;
    if d.pc.Saving? {
      SavingSourced(d, a, log);
    } else {
      if Escalating(d.pc) {
        EscalationKeepsSources(d, a);
      } else {
        HeadKeepsSources(d, a);
      }
      SameIsSourced(d.run, Resume(d, a).run, log);
    }
  }

  /** Every call of a drive, whatever its answer, keeps the sources. */
  lemma ResumeSourced(d: Drive, a: Answer, now: Time, log: seq<Event>)
    requires !d.pc.Finished? && Driving(d, now) && Fits(NextCall(d), a) && DriveSourced(d, log)
    ensures DriveSourced(Resume(d, a), log + [Event(NextCall(d), a)])
  {
    hide Sourced, MovedSourced, NextMove, FirstMove, React, Fail, StartedTo, CountedFor, Markers, Plan, IndexInPlan,
         NextCall, Row, Over, AtHead, ResumeEscalation;
    var log' := log + [Event(NextCall(d), a)];
    SourcedGrows(d.run, log, Event(NextCall(d), a));
    if d.pc.CheckBudget? {
      FirstMoveSourced(d.run, d.pc.step, log');
      ReactSourced(d, d.pc.step, FirstMove(d.run, d.pc.step), log');
      FailSourced(d, d.pc.step, DeadlineExceeded, log');
    } else if InStep(d.pc) {
      if AtEngine(d.pc) {
        EngineMoveSourced(d, a, log);
      } else {
        OtherMoveSourced(d, a, log');
      }
      ReactSourced(d, StepOf(d.pc), NextMove(d, a), log');
    } else {
      PlainSourced(d, a, log');
    }
  }

  // --- Over every history ---

  ghost predicate AllSourced(s: System) {
    Sourced(s.row, s.log) && forall w :: w in s.flights ==> DriveSourced(s.flights[w].drive, s.log)
  }

  lemma NudgedSourced(row: Run, t: Option<Time>, log: seq<Event>)
    requires Sourced(row, log)
    ensures Sourced(row.(scheduledAt := t), log)
  {
    hide HeldRun, FailureOf, OutputOf, Plan, IndexInPlan;
  }

  lemma SavedSourced(row: Run, run: Run, log: seq<Event>)
    requires Sourced(run, log) && SameRun(run, row)
    ensures Sourced(Saved(row, run), log)
  {
    hide HeldRun, FailureOf, OutputOf, Plan, IndexInPlan;
  }

  lemma HearKeepsSources(first: Run, s: System, w: nat, a: Answer)
    requires Enabled(s, Hear(w, a)) && Chained(first, s) && Safe(s) && AllSourced(s)
    ensures AllSourced(Apply(s, Hear(w, a)))
  {
    hide Row, RowGate, Driving, DriveGate, Justified, KeysBounded, NextCall, Fits, Resume, Serial, IsTrace, After, Start,
         Shape, LogGrew, Sourced;
    var f := s.flights[w];
    var e := Event(NextCall(f.drive), a);
    ResumeSourced(f.drive, a, s.now, s.log);
    SourcedGrows(s.row, s.log, e);
    forall v | v in s.flights ensures DriveSourced(s.flights[v].drive, s.log + [e]) {
      if !s.flights[v].drive.pc.Finished? {
        SourcedGrows(s.flights[v].drive.run, s.log, e);
      }
    }
    if f.drive.pc.Saving? && Applied(a) {
      SourcedGrows(f.drive.run, s.log, e);
      SavedSourced(s.row, f.drive.run, s.log + [e]);
    }
  }

  lemma MoveKeepsSources(first: Run, s: System, m: Move)
    requires Enabled(s, m) && Chained(first, s) && Safe(s) && AllSourced(s)
    ensures AllSourced(Apply(s, m))
  {
    hide Row, RowGate, SafeFlight, Justified, KeysBounded, NextCall, Fits, Resume, Serial, FlightOk, Start, Sourced, Heard;
    match m
    case Hear(w, a) => HearKeepsSources(first, s, w, a);
    case Claim(lease) => NudgedSourced(s.row, Some(s.now + lease), s.log);
    case Wake => NudgedSourced(s.row, Some(s.now), s.log);
    case Load(_) => StartSourced(s.cfg, s.row, s.now, s.log);
    case _ =>
  }

  lemma {:induction false} HistoriesAreSourced(first: Run, s: System, ms: seq<Move>)
    requires Legal(s, ms) && Chained(first, s) && Safe(s) && AllSourced(s)
    ensures Safe(Reached(s, ms)) && AllSourced(Reached(s, ms))
    decreases |ms|
  {
    hide Chained, Safe, AllSourced, Enabled, Apply;
    if ms != [] {
      HistoriesAreSafe(first, s, [ms[0]]);
      assert Reached(s, [ms[0]]) == Apply(s, ms[0]) by { assert [ms[0]][1..] == []; }
      MoveKeepsSources(first, s, ms[0]);
      HistoriesAreSourced(first, Apply(s, ms[0]), ms[1..]);
    }
  }

  /** A run as the triggers make it has heard nothing of an engine yet. */
  predicate EngineUnheard(run: Run) {
    run.state.engineRunId.None? && run.state.engineFailure.None? && RunEngine !in run.state.stepResults
  }

  /** What a drive about to make a call may rely on. */
  ghost predicate ActsOnItsOwnEngineRun(d: Drive, log: seq<Event>) {
    var engine := d.run.state.engineRunId;
    match d.pc
    case Querying(e) => exists i: nat :: TriggeredAt(log, i, EngineRunKey(d.run), e)
    case Finalizing(r) =>
      Rekey(d.run, r).Some? ==> engine.Some? && exists i: nat :: OutputAt(log, i, engine.value, Rekey(d.run, r))
    case Paging(e, _) =>
      PagedGroup(d, e) != d.cfg.defaultTeam ==>
        engine.Some? && exists i: nat, f: EngineFailure ::
          FailureAt(log, i, engine.value, f) && f.responsibleGroup == Some(PagedGroup(d, e))
    case _ => true
  }

  lemma ActsOnSources(d: Drive, now: Time, log: seq<Event>)
    requires !d.pc.Finished? && Driving(d, now) && DriveSourced(d, log)
    ensures ActsOnItsOwnEngineRun(d, log)
  {
    hide StartedTo, CountedFor, Plan, Markers, Row, Over;
    var st := d.run.state;
    var group := if d.pc.Paging? then PagedGroup(d, d.pc.error) else d.cfg.defaultTeam;
    if group != d.cfg.defaultTeam {
      var i: nat :| FailureAt(log, i, st.engineRunId.value, st.engineFailure.value);
      assert FailureAt(log, i, st.engineRunId.value, st.engineFailure.value)
             && st.engineFailure.value.responsibleGroup == Some(group);
    }
    if d.pc.Querying? {
      assert d.run.currentStep == Some(RunEngine) && d.run.status.Running?;
      var i: nat :| TriggeredAt(log, i, EngineKey(d.run.id, Attempts(st.books, RunEngine)), st.engineRunId.value);
      assert TriggeredAt(log, i, EngineRunKey(d.run), d.pc.engineRunId);
    }
    if d.pc.Finalizing? && Rekey(d.run, d.pc.resource).Some? {
      var i: nat :| OutputAt(log, i, st.engineRunId.value, st.stepResults[RunEngine].finalVendorId);
      assert OutputAt(log, i, st.engineRunId.value, Rekey(d.run, d.pc.resource));
    }
  }

  /** In no history, overlaps and crashes included, does a drive act on another attempt's engine run: the run it
      polls was triggered under its current attempt's key, a record is moved only to the id that engine run
      reported, and another team than the default one is paged only if that engine run's failure named it. */
  lemma EveryDriveActsOnItsOwnEngineRun(cfg: Settings, first: Run, now: Time, ms: seq<Move>, w: nat)
    requires Triggered(first, now) && EngineUnheard(first) && Legal(Fresh(cfg, first, now), ms)
    requires var s := Reached(Fresh(cfg, first, now), ms); w in s.flights && !s.flights[w].drive.pc.Finished?
    ensures var s := Reached(Fresh(cfg, first, now), ms); ActsOnItsOwnEngineRun(s.flights[w].drive, s.log)
  {
    hide Chained, Row, RowGate, KeysBounded, Justified, Legal, Driving, DriveGate, ActsOnItsOwnEngineRun, DriveSourced;
    FreshIsSafe(cfg, first, now);
    HistoriesAreSourced(first, Fresh(cfg, first, now), ms);
    var s := Reached(Fresh(cfg, first, now), ms);
    ActsOnSources(s.flights[w].drive, s.now, s.log);
  }
}
