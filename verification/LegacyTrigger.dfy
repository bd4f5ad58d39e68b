/** The runs that `Trigger` stores: no handler's assertion ever fires in them, but for a workflow registered with run
    type LEGACY, whose runs can only fail. */
module LegacyTrigger {
  import opened Domain
  import opened Drives
  import opened Totality
  import opened StoredRows
  import opened Bookkeeping
  import opened Gates
  import opened Histories
  import opened Safety
  import opened Services
  import opened Playback

  /** A handler is about to find missing what the trigger should have put on the run. */
  predicate AssertFires(d: Drive) {
    d.pc.CheckBudget? && FirstMove(d.run, d.pc.step).outcome == Raises(Unclassified)
    && !(d.pc.step.RunEngine? && !d.run.state.request.workflow.engineType.Airflow?)
  }

  ghost predicate FiresIn(cfg: Settings, run: Run, now: Time, ms: seq<Move>, w: nat) {
    Legal(Fresh(cfg, run, now), ms)
    && var s := Reached(Fresh(cfg, run, now), ms);
       w in s.flights && AssertFires(s.flights[w].drive)
  }

  // --- A legacy run without its request ---

  predicate Stuck(run: Run) {
    run.runType.Legacy? && run.state.request.legacy.None? && !run.state.legacySubmitted && run.state.resource.None?
    && !run.status.Completed? && !run.status.Rejected?
    && (run.currentStep == None || run.currentStep == Some(SubmitLegacy))
  }

  predicate DriveStuck(d: Drive) {
    Stuck(d.run) && !InStep(d.pc)
    && (d.pc.Begin? || d.pc.StartAttempt? || d.pc.CheckBudget? ==> d.pc.step == SubmitLegacy)
  }

  lemma FailStuck(d: Drive, s: StepName, e: Error)
    requires Stuck(d.run)
    ensures DriveStuck(Fail(d, s, e))
  {
    hide Escalate;
    EndingsOnly(Ended(d, RunStatus.Failed, FailedState(d.run.state, s, e)), e, false);
  }

  lemma CrashStuck(d: Drive)
    requires Stuck(d.run)
    ensures DriveStuck(Crash(d))
  {
    hide Escalate;
    var st := if d.run.currentStep.Some? then WithError(d.run.state, d.run.currentStep.value, Unclassified)
              else d.run.state;
    EndingsOnly(Ended(d, RunStatus.Failed, st), Unclassified, true);
  }

  lemma LoopStuck(d: Drive, now: Time)
    requires DriveStuck(d) && (d.pc.Begin? || d.pc.StartAttempt? || d.pc.CheckBudget?)
    ensures DriveStuck(ResumeLoop(d, now))
  {
    hide Fail, Complete;
    FailStuck(d, SubmitLegacy, DeadlineExceeded);
    FailStuck(d, SubmitLegacy, Unclassified);
    assert WithState(d, d.run.state) == d;
  }

  lemma EscalatingStuck(d: Drive, a: Answer)
    requires DriveStuck(d) && Escalating(d.pc) && Fits(NextCall(d), a)
    ensures DriveStuck(ResumeEscalation(d, a))
  {
    hide NextCall, Release, Refuse, ResponsibleGroup;
    EndingsOnly(Noted(d, a), Unclassified, true);
    EndingsOnly(Noted(d, a), Unclassified, false);
  }

  lemma ResumeStuck(d: Drive, a: Answer)
    requires !d.pc.Finished? && DriveStuck(d) && Fits(NextCall(d), a)
    ensures DriveStuck(Resume(d, a))
  {
    hide NextCall, Crash, Backoff, ResumeLoop, ResumeEscalation;
    ReadsTheClock(d, a);
    if d.pc.Begin? || d.pc.StartAttempt? || d.pc.CheckBudget? {
      LoopStuck(d, a.now);
    } else if Escalating(d.pc) {
      EscalatingStuck(d, a);
    } else {
      CrashStuck(d);
    }
  }

  ghost predicate AllStuck(s: System) {
    Stuck(s.row) && forall w :: w in s.flights ==> DriveStuck(s.flights[w].drive)
  }

  lemma MoveStuck(first: Run, s: System, m: Move)
    requires Enabled(s, m) && Chained(first, s) && AllStuck(s)
    ensures AllStuck(Apply(s, m))
  {
    hide Serial, IsTrace, After, Shape, LogGrew, Resume, NextCall, Fits;
    if m.Hear? {
      ResumeStuck(s.flights[m.worker].drive, m.answer);
    }
  }

  lemma {:induction false} HistoriesStuck(first: Run, s: System, ms: seq<Move>)
    requires Legal(s, ms) && Chained(first, s) && AllStuck(s)
    ensures AllStuck(Reached(s, ms))
    decreases |ms|
  {
    hide Chained, AllStuck, Enabled, Apply;
    if ms != [] {
      HistoriesAreSerial(first, s, [ms[0]]);
      assert Reached(s, [ms[0]]) == Apply(s, ms[0]) by { assert [ms[0]][1..] == []; }
      MoveStuck(first, s, ms[0]);
      HistoriesStuck(first, Apply(s, ms[0]), ms[1..]);
    }
  }

  /** Every history of such a run that ends it ends it FAILED. */
  lemma LegacyByTriggerFails(cfg: Settings, run: Run, now: Time, ms: seq<Move>)
    requires MadeByTrigger(run, now) && run.runType.Legacy? && Legal(Fresh(cfg, run, now), ms)
    ensures var row := Reached(Fresh(cfg, run, now), ms).row; row.status.Terminal() ==> row.status.Failed?
  {
    hide Enabled, Apply, OneDrive, FlightOk;
    HistoriesStuck(run, Fresh(cfg, run, now), ms);
  }

  lemma LegacyFires(cfg: Settings, run: Run, now: Time)
    requires MadeByTrigger(run, now) && run.runType.Legacy?
    ensures exists ms, w :: FiresIn(cfg, run, now, ms, w)
  {
    hide Enabled, Apply, Legal, Reached;
    var s0 := Fresh(cfg, run, now);
    var d0 := Start(cfg, run);
    var d1 := Resume(d0, Clock(now));
    var d2 := Resume(d1, Clock(now));
    assert d1.pc.StartAttempt? && AssertFires(d2);
    Loads(s0, 0);
    var s1 := Apply(s0, Load(0));
    Hears(s1, 0, Clock(now));
    var s2 := Apply(s1, Hear(0, Clock(now)));
    Hears(s2, 0, Clock(now));
    var s3 := Apply(s2, Hear(0, Clock(now)));
    NoMoves(s0);
    Append(s0, [], Load(0));
    Append(s0, [] + [Load(0)], Hear(0, Clock(now)));
    Append(s0, [] + [Load(0)] + [Hear(0, Clock(now))], Hear(0, Clock(now)));
    assert FiresIn(cfg, run, now, [] + [Load(0)] + [Hear(0, Clock(now))] + [Hear(0, Clock(now))], 0);
  }

  /** Of the runs that `Trigger` stores, a handler's assertion can fire exactly in those whose workflow is registered with
      run type LEGACY. */
  lemma AssertsFireExactlyForLegacy(cfg: Settings, run: Run, now: Time)
    requires MadeByTrigger(run, now)
    ensures (exists ms, w :: FiresIn(cfg, run, now, ms, w)) <==> run.runType.Legacy?
  {
    hide FiresIn;
    if run.runType.Legacy? {
      LegacyFires(cfg, run, now);
    } else if ms, w :| FiresIn(cfg, run, now, ms, w) {
      NewRunIsTriggered(run.id, run.runType, run.maxRetries, now, run.state.request, run.state.resource, run.state.ticket);
      NoneFires(cfg, run, now, ms, w);
    }
  }

  lemma NoneFires(cfg: Settings, run: Run, now: Time, ms: seq<Move>, w: nat)
    requires Triggered(run, now)
    ensures !FiresIn(cfg, run, now, ms, w)
  {
    hide Row, Enabled, Apply, FirstMove;
    if FiresIn(cfg, run, now, ms, w) {
      AssertsNeverFire(cfg, run, now, ms, w);
    }
  }
}
