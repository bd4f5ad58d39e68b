/** When a run starts another engine run while the one before it may still be going. */
module EngineRuns {
  import opened Domain
  import opened Drives
  import opened Totality
  import opened StoredRows
  import opened Bookkeeping
  import opened Termination
  import opened Providers
  import opened Histories
  import opened Gates
  import opened Playback
  import opened Escalation
  import opened Retries
  import opened Safety
  import opened PagingAgain

  // --- How an attempt at RUN_ENGINE ends ---

  /** The attempt fails though no poll said the engine run had failed: out of its budget, no client for the
      engine, or a trigger or a poll that raised. */
  predicate FailsUnpolled(d: Drive, a: Answer)
    requires !d.pc.Finished? && Fits(NextCall(d), a)
  {
    (d.pc.CheckBudget? && d.pc.step == RunEngine
     && (a.now - d.pc.started > MaxDuration(RunEngine) || !d.run.state.request.workflow.engineType.Airflow?))
    || ((d.pc.Triggering? || d.pc.Querying?) && a.Raised?)
  }

  /** A poll says the engine run has failed. */
  predicate PollsFailed(d: Drive, a: Answer) {
    d.pc.Querying? && a == EngineStatus(EngineFailed)
  }

  predicate FailedUnpolled(d: Drive, es: seq<Event>)
    requires IsTrace(d, es)
    decreases |es|
  {
    es != [] && (FailsUnpolled(d, es[0].answer) || FailedUnpolled(Resume(d, es[0].answer), es[1..]))
  }

  predicate PolledFailed(d: Drive, es: seq<Event>)
    requires IsTrace(d, es)
    decreases |es|
  {
    es != [] && (PollsFailed(d, es[0].answer) || PolledFailed(Resume(d, es[0].answer), es[1..]))
  }

  /** The attempt a run at or before RUN_ENGINE is at. */
  function Attempt(run: Run): nat {
    Attempts(run.state.books, RunEngine)
  }

  /** The run waits for another attempt at RUN_ENGINE, after attempt `k`. */
  predicate Retrying(run: Run, k: nat) {
    run.status.Running? && run.currentStep == Some(RunEngine) && Attempt(run) == k + 1
  }

  // --- Along a drive ---

  /** Not past RUN_ENGINE without the attempt it began with. */
  predicate AtAttempt(run: Run, k: nat) {
    run.status.Running? && run.currentStep.Some?
    && (Pos(run, run.currentStep.value) <= Pos(run, RunEngine) ==> Attempt(run) == k)
  }

  /** `u`: the attempt failed unpolled, `p`: a poll said its engine run failed, so far. */
  predicate Sofar(d: Drive, k: nat, u: bool, p: bool) {
    if d.run.status.Terminal() then u ==> k + 1 > d.run.maxRetries
    else if d.pc.BackingOff? || d.pc.Scheduling? || d.pc.Saving? then
      if Retrying(d.run, k) then u != p && k + 1 <= d.run.maxRetries else !u && !p
    else AtAttempt(d.run, k) && !u && (p <==> d.pc.FetchingFailure?)
  }

  lemma FailSofar(d: Drive, s: StepName, e: Error, k: nat, u: bool, p: bool)
    requires AtAttempt(d.run, k) && d.run.currentStep == Some(s) && InPlan(d.run.runType, s)
    requires if s == RunEngine then u != p && (u ==> !e.StepFailure?) else !u && !p
    ensures Sofar(Fail(d, s, e), k, u, p)
  {
    hide Escalate, Plan;
    EndingsOnly(Ended(d, RunStatus.Failed, FailedState(d.run.state, s, e)), e, false);
  }

  lemma CompleteSofar(d: Drive, s: StepName, k: nat)
    requires AtAttempt(d.run, k) && d.run.currentStep == Some(s) && InPlan(d.run.runType, s)
    ensures Sofar(Complete(d, s), k, false, false)
  {
    hide Crash;
    if Pos(d.run, s) + 1 < |Plan(d.run.runType)| {
      IndexIsPosition(d.run.runType, Pos(d.run, s) + 1);
    }
  }

  lemma ReactSofar(d: Drive, s: StepName, h: Handled, k: nat, u: bool, p: bool)
    requires AtAttempt(d.run, k) && d.run.currentStep == Some(s) && InPlan(d.run.runType, s)
    requires h.st.books == d.run.state.books
    requires match h.outcome
             case Raises(e) => if s == RunEngine then u != p && (u ==> !e.StepFailure?) else !u && !p
             case Asks(pc) => InStep(pc) && !u && (p <==> pc.FetchingFailure?)
             case _ => !u && !p
    ensures Sofar(React(d, s, h), k, u, p)
  {
    hide Fail, Complete, Release, Plan;
    var d' := WithState(d, h.st);
    match h.outcome
    case Done => CompleteSofar(d', s, k);
    case Raises(e) => FailSofar(d', s, e, k, u, p);
    case Denies => EndingsOnly(Ended(d', Rejected, WithError(h.st, s, Denial)), Denial, false);
    case _ =>
  }

  lemma LoopSofar(d: Drive, a: Answer, k: nat, now: Time)
    requires (d.pc.Begin? || d.pc.StartAttempt? || d.pc.CheckBudget?) && Driving(d, now) && Fits(NextCall(d), a)
    requires Sofar(d, k, false, false)
    ensures Sofar(ResumeLoop(d, a.now), k, FailsUnpolled(d, a), false)
  {
    hide React, Fail, StartedTo, CountedFor, Plan, Row, Over, FirstMove;
    if d.pc.CheckBudget? {
      var h := FirstMove(d.run, d.pc.step);
      FirstMoveKeeps(d, now);
      FirstMoveBooks(d.run, d.pc.step);
      FirstMoveAsks(d.run, d.pc.step);
      EngineFirst(d.run);
      FirstIsNoReport(d.run, d.pc.step);
      if d.pc.step == RunEngine && FailsUnpolled(d, a) {
        FailSofar(d, RunEngine, DeadlineExceeded, k, true, false);
      } else if a.now - d.pc.started > MaxDuration(d.pc.step) {
        FailSofar(d, d.pc.step, DeadlineExceeded, k, false, false);
      }
      if a.now - d.pc.started <= MaxDuration(d.pc.step) {
        ReactSofar(d, d.pc.step, h, k, FailsUnpolled(d, a), false);
      }
    }
  }

  lemma FirstIsNoReport(run: Run, s: StepName)
    ensures var o := FirstMove(run, s).outcome;
            (o.Asks? ==> !o.pc.FetchingFailure?) && (o.Raises? ==> o.error.Unclassified?) && !o.NotYet? && !o.Denies?
  {
  }

  lemma EngineFirst(run: Run)
    ensures FirstMove(run, RunEngine).outcome.Raises? <==> !run.state.request.workflow.engineType.Airflow?
  {
  }

  lemma StepSofar(d: Drive, a: Answer, k: nat, p: bool, now: Time)
    requires InStep(d.pc) && Driving(d, now) && Fits(NextCall(d), a) && Sofar(d, k, false, p)
    ensures Sofar(React(d, StepOf(d.pc), NextMove(d, a)), k, FailsUnpolled(d, a), p || PollsFailed(d, a))
  {
    hide React, StartedTo, CountedFor, Plan, Row, Over, NextMove, HoldsInStep, Markers;
    NextMoveBooks(d, a);
    MoveVerdict(d, a);
    ReactSofar(d, StepOf(d.pc), NextMove(d, a), k, FailsUnpolled(d, a), p || PollsFailed(d, a));
  }

  lemma MoveVerdict(d: Drive, a: Answer)
    requires InStep(d.pc) && Fits(NextCall(d), a)
    ensures var u, p := FailsUnpolled(d, a), d.pc.FetchingFailure? || PollsFailed(d, a);
            var o := NextMove(d, a).outcome;
            match o
            case Raises(e) => if StepOf(d.pc) == RunEngine then u != p && (u ==> !e.StepFailure?) else !u && !p
            case Asks(pc) => InStep(pc) && !u && (p <==> pc.FetchingFailure?)
            case _ => !u && !p
  {
    hide Rekey, FinalizeFields;
  }

  lemma EscalatingSofar(d: Drive, a: Answer, k: nat, u: bool, p: bool)
    requires Escalating(d.pc) && Fits(NextCall(d), a) && Shape(d) && Sofar(d, k, u, p)
    ensures Sofar(ResumeEscalation(d, a), k, u, p)
  {
    hide Release, Refuse, NextCall, ResponsibleGroup, Retrying, AtAttempt;
    EndingsOnly(Noted(d, a), Unclassified, true);
    EndingsOnly(Noted(d, a), Unclassified, false);
  }

  lemma TailSofar(d: Drive, a: Answer, k: nat, u: bool, p: bool)
    requires (d.pc.BackingOff? || d.pc.Scheduling?) && Fits(NextCall(d), a) && Sofar(d, k, u, p)
    ensures Sofar(Resume(d, a), k, u, p)
  {
    hide Backoff;
  }

  lemma ResumeSofar(d: Drive, a: Answer, k: nat, u: bool, p: bool, now: Time)
    requires !d.pc.Finished? && !d.pc.Saving? && Driving(d, now) && Shape(d) && Fits(NextCall(d), a) && Sofar(d, k, u, p)
    ensures Sofar(Resume(d, a), k, u || FailsUnpolled(d, a), p || PollsFailed(d, a))
  {
    hide React, NextMove, ResumeLoop, ResumeEscalation, Driving, NextCall;
    if InStep(d.pc) {
      StepSofar(d, a, k, p, now);
    } else if Escalating(d.pc) {
      EscalatingSofar(d, a, k, u, p);
    } else if d.pc.BackingOff? || d.pc.Scheduling? {
      TailSofar(d, a, k, u, p);
    } else {
      LoopSofar(d, a, k, now);
    }
  }

  lemma {:induction false} TraceSofar(d: Drive, es: seq<Event>, k: nat, u: bool, p: bool, now: Time)
    requires IsTrace(d, es) && Paced(es, now) && Driving(d, now) && Shape(d) && Sofar(d, k, u, p)
    requires forall i :: 0 <= i < |es| ==> !es[i].call.SaveRun?
    ensures Sofar(After(d, es), k, u || FailedUnpolled(d, es), p || PolledFailed(d, es))
    decreases |es|
  {
    hide Resume, Fits, Driving, Shape, Sofar;
    if es != [] {
      var a := es[0].answer;
      var t := if a.Clock? then a.now else now;
      assert !es[0].call.SaveRun?;
      DrivingLater(d, now, t);
      ResumeSofar(d, a, k, u, p, t);
      ResumeKeeps(d, a, now, t);
      ResumeShape(d, a);
      TraceSofar(Resume(d, a), es[1..], k, u || FailsUnpolled(d, a), p || PollsFailed(d, a), t);
    }
  }

  predicate NothingSaved(es: seq<Event>) {
    forall i :: 0 <= i < |es| ==> !es[i].call.SaveRun?
  }

  /** One drive, up to its save, of a run at attempt `k`: it leaves the run to another attempt, though no poll said the
      engine run had failed, exactly when the attempt failed unpolled and a retry is left. A poll that does say so
      ends the attempt. */
  lemma AttemptEndsUnpolled(cfg: Settings, base: Run, es: seq<Event>, now: Time)
    requires Row(base, now) && !base.status.Terminal() && Paced(es, now) && NothingSaved(es)
    requires IsTrace(Start(cfg, base), es) && After(Start(cfg, base), es).pc.Saving?
    ensures var d := Start(cfg, base); var run := After(d, es).run; var k := Attempt(base);
            && (Retrying(run, k) && !PolledFailed(d, es) <==> FailedUnpolled(d, es) && k + 1 <= base.maxRetries)
            && (PolledFailed(d, es) ==> Retrying(run, k) || run.status.Terminal())
            && (Retrying(run, k) ==> EngineRunKey(run) == EngineKey(base.id, k + 1))
  {
    hide Row, Start, IsTrace, After, Driving, Shape, LogGrew, FailedUnpolled, PolledFailed;
    var d := Start(cfg, base);
    StartKeeps(cfg, base, now);
    StartShape(cfg, base);
    StartKept(cfg, base);
    StartSofar(cfg, base, now);
    TraceSofar(d, es, Attempt(base), false, false, now);
    TraceKept(base, d, es);
  }

  lemma StartSofar(cfg: Settings, base: Run, now: Time)
    requires Row(base, now) && !base.status.Terminal()
    ensures Sofar(Start(cfg, base), Attempt(base), false, false)
  {
    hide StartedTo, CountedFor, Markers, Over;
  }

  // --- A whole attempt, over all its drives ---

  /** Turns `i` to `n` are drives of one attempt at RUN_ENGINE, or of the steps before it: none but the last leaves
      the run to another. */
  ghost predicate OneAttempt(rows: seq<Run>, ts: seq<Turn>, i: nat, n: nat) {
    i <= n < |ts| && |rows| == |ts| + 1
    && (forall m :: i <= m <= n ==> Attempt(rows[m]) == Attempt(rows[i]))
    && (forall m :: i < m <= n ==> !Retrying(rows[m], Attempt(rows[i])))
  }

  ghost predicate TurnPolledFailed(cfg: Settings, t: Turn) {
    IsTrace(Start(cfg, t.base), t.es) && PolledFailed(Start(cfg, t.base), t.es)
  }

  ghost predicate TurnFailedUnpolled(cfg: Settings, t: Turn) {
    IsTrace(Start(cfg, t.base), t.es) && FailedUnpolled(Start(cfg, t.base), t.es)
  }

  /** A trigger under this attempt's key took effect: its engine run is there, whatever the drive was told. */
  ghost predicate Started(ts: seq<Turn>, i: nat, n: nat, key: Key)
    requires n < |ts|
  {
    exists m, j :: i <= m <= n && 0 <= j < |ts[m].es| && Triggers(ts[m].es[j], key)
  }

  predicate Triggers(e: Event, key: Key) {
    e.call.TriggerEngine? && e.call.key == key && Took(e.answer)
  }

  /** The engine run of the attempt was started and never polled FAILED, and the run goes on to another. */
  ghost predicate LeftGoing(cfg: Settings, rows: seq<Run>, ts: seq<Turn>, i: nat, n: nat)
    requires OneAttempt(rows, ts, i, n)
  {
    var k := Attempt(rows[i]);
    Started(ts, i, n, EngineKey(rows[i].id, k)) && Retrying(rows[n + 1], k)
    && forall m :: i <= m <= n ==> !TurnPolledFailed(cfg, ts[m])
  }

  /** A run goes on to another engine run while the one before may still be going exactly when that one was started,
      the attempt's last drive failed it without a poll that said FAILED (out of its budget, or a trigger or poll that
      raised), and a retry was left. The next engine run has another key. */
  lemma EngineRunsOverlapExactlyWhen(cfg: Settings, rows: seq<Run>, ts: seq<Turn>, now: Time, i: nat, n: nat)
    requires Turns(cfg, rows, ts) && Row(rows[0], now) && (ts != [] ==> now <= ts[0].from) && OneAttempt(rows, ts, i, n)
    ensures LeftGoing(cfg, rows, ts, i, n)
            <==> Started(ts, i, n, EngineKey(rows[i].id, Attempt(rows[i])))
                 && TurnFailedUnpolled(cfg, ts[n]) && Attempt(rows[i]) + 1 <= rows[n].maxRetries
    ensures Retrying(rows[n + 1], Attempt(rows[i])) ==>
              EngineRunKey(rows[n + 1]) == EngineKey(rows[n].id, Attempt(rows[i]) + 1)
  {
    hide Row, Started, Retrying, Attempt, TurnOn, TurnPolledFailed, TurnFailedUnpolled;
    forall m | i <= m <= n ensures TurnEnds(cfg, rows[m], ts[m], rows[m + 1]) && !rows[m].status.Terminal() {
      assert TurnOn(cfg, rows[m], ts[m], rows[m + 1]);
      TurnsSpend(cfg, rows, ts, now, m);
      var before := if m == 0 then now else LastTime(ts[m - 1].es, ts[m - 1].from);
      if m > 0 {
        assert LastTime(ts[m - 1].es, ts[m - 1].from) <= ts[m - 1 + 1].from;
      }
      OneTurnEnds(cfg, rows[m], ts[m], rows[m + 1], before);
    }
    forall m | i <= m < n ensures !TurnPolledFailed(cfg, ts[m]) {
      assert TurnEnds(cfg, rows[m], ts[m], rows[m + 1]) && !rows[m + 1].status.Terminal();
    }
    assert TurnEnds(cfg, rows[n], ts[n], rows[n + 1]);
  }

  ghost predicate TurnEnds(cfg: Settings, row: Run, t: Turn, after: Run) {
    var k := Attempt(row);
    && (Retrying(after, k) && !TurnPolledFailed(cfg, t) <==> TurnFailedUnpolled(cfg, t) && k + 1 <= row.maxRetries)
    && (TurnPolledFailed(cfg, t) ==> Retrying(after, k) || after.status.Terminal())
    && (Retrying(after, k) ==> EngineRunKey(after) == EngineKey(row.id, k + 1))
  }

  lemma OneTurnEnds(cfg: Settings, row: Run, t: Turn, after: Run, now: Time)
    requires TurnOn(cfg, row, t, after) && Row(row, now) && now <= t.from
    ensures TurnEnds(cfg, row, t, after) && !row.status.Terminal()
  {
    hide Row, Start, IsTrace, After, FailedUnpolled, PolledFailed, LogGrew;
    var d := Start(cfg, t.base);
    Later(row, now, t.from);
    RowIgnoresSchedule(row, t.base.scheduledAt.value, t.from);
    assert t.base == row.(scheduledAt := t.base.scheduledAt);
    AttemptEndsUnpolled(cfg, t.base, t.es, t.from);
    StartKept(cfg, t.base);
    TraceKept(t.base, d, t.es);
  }

  // --- Two engine runs at once ---

  lemma {:induction false} TriggersCount(w: World, es: seq<Event>, i: nat, key: Key)
    requires i < |es| && Triggers(es[i], key)
    ensures key in Onward(w, es).engineRuns
    decreases |es|
  {
    if i == 0 {
      EnginesStay(Next(w, es[0]), es[1..]);
    } else {
      TriggersCount(Next(w, es[0]), es[1..], i - 1, key);
    }
  }

  lemma {:induction false} EnginesStay(w: World, es: seq<Event>)
    ensures w.engineRuns <= Onward(w, es).engineRuns
    decreases |es|
  {
    if es != [] {
      EnginesStay(Next(w, es[0]), es[1..]);
    }
  }

  /** A run about to trigger its engine for attempt `k`. */
  ghost predicate ToTrigger(row: Run, k: nat, now: Time) {
    && Row(row, now) && !row.status.Terminal() && row.runType.Automation?
    && (row.currentStep == Some(RunEngine) || row.currentStep == None)
    && row.state.request.workflow.engineType.Airflow? && row.state.engineRunId.None?
    && row.state.books.attemptStartedAt.None? && Attempt(row) == k
  }

  lemma ClocksToTrigger(cfg: Settings, row: Run, k: nat, now: Time) returns (d1: Drive, d2: Drive, d: Drive)
    requires ToTrigger(row, k, now)
    ensures Start(cfg, row).pc == Begin(RunEngine) && d1 == Resume(Start(cfg, row), Clock(now))
    ensures d1.pc == StartAttempt(RunEngine) && d2 == Resume(d1, Clock(now))
    ensures d2.pc == CheckBudget(RunEngine, now) && d == Resume(d2, Clock(now))
    ensures AtTrigger(cfg, row, k, now, d)
  {
    hide Fail, Complete, StartedTo, CountedFor, LogGrew;
    d1 := Resume(Start(cfg, row), Clock(now));
    d2 := Resume(d1, Clock(now));
    d := Resume(d2, Clock(now));
  }

  predicate AtTrigger(cfg: Settings, row: Run, k: nat, now: Time, d: Drive) {
    && d.pc.Triggering? && d.cfg == cfg && d.run.currentStep == Some(RunEngine) && d.run.status.Running?
    && d.run.id == row.id && d.run.runType == row.runType && d.run.maxRetries == row.maxRetries
    && d.run.state.request == row.state.request && d.run.version == row.version && Attempt(d.run) == k
    && d.run.state.engineRunId.None? && d.run.state.books.attemptStartedAt == Some(now)
  }

  /** Three readings of the clock bring it to the trigger. */
  lemma ToTheTrigger(cfg: Settings, row: Run, k: nat, now: Time) returns (d: Drive)
    requires ToTrigger(row, k, now)
    ensures IsTrace(Start(cfg, row), Clocks(now)) && After(Start(cfg, row), Clocks(now)) == d
    ensures AtTrigger(cfg, row, k, now, d)
  {
    hide Start, Resume, ResumeLoop, IsTrace, After, ToTrigger, AtTrigger;
    var d1, d2;
    d1, d2, d := ClocksToTrigger(cfg, row, k, now);
    LoopIsResume(Start(cfg, row), d1, d2, now);
    ThreeClocks(Start(cfg, row), d1, d2, d, now);
  }

  /** The trigger is answered: the drive goes on to wait for the engine run. */
  lemma TriggerAnswered(cfg: Settings, row: Run, k: nat, now: Time, d: Drive, e: string)
    requires AtTrigger(cfg, row, k, now, d)
    ensures Fits(NextCall(d), EngineRun(e)) && NextCall(d).TriggerEngine? && NextCall(d).key == EngineKey(row.id, k)
    ensures var d' := Resume(d, EngineRun(e));
            d'.pc == Scheduling(PollInterval(RunEngine)) && d'.cfg == d.cfg
            && d'.run == d.run.(state := d.run.state.(engineRunId := Some(e)))
  {
  }

  predicate NoPolls(es: seq<Event>) {
    forall i :: 0 <= i < |es| ==> !es[i].call.QueryEngine?
  }

  /** The drive that triggers, as far as the engine's answer. */
  lemma TriggersNow(cfg: Settings, row: Run, k: nat, now: Time, e: string) returns (es: seq<Event>)
    requires ToTrigger(row, k, now)
    ensures IsTrace(Start(cfg, row), es) && NoSaveAt(es, now) && NoPolls(es)
    ensures |es| == 4 && Triggers(es[3], EngineKey(row.id, k))
    ensures var d := After(Start(cfg, row), es);
            d.pc == Scheduling(PollInterval(RunEngine)) && d.cfg == cfg && d.run.version == row.version && d.run.id == row.id
            && d.run.runType == row.runType && d.run.maxRetries == row.maxRetries && d.run.state.request == row.state.request
            && d.run.status.Running? && d.run.currentStep == Some(RunEngine) && Attempt(d.run) == k
            && d.run.state.books.attemptStartedAt == Some(now) && d.run.state.engineRunId == Some(e)
  {
    hide Start, Resume, IsTrace, After, ToTrigger, Row;
    var d := ToTheTrigger(cfg, row, k, now);
    TriggerAnswered(cfg, row, k, now, d, e);
    es := Clocks(now) + [Event(NextCall(d), EngineRun(e))];
    TraceExtends(Start(cfg, row), Clocks(now), Event(NextCall(d), EngineRun(e)));
  }

  /** A failed attempt at RUN_ENGINE, retried and about to be saved. */
  lemma RetriedFrom(cfg: Settings, row: Run, es: seq<Event>, f: Drive, e: Error, now: Time) returns (all: seq<Event>)
    requires IsTrace(Start(cfg, row), es) && After(Start(cfg, row), es) == Fail(f, RunEngine, e)
          && NoSaveAt(es, now) && NoPolls(es)
    requires (e.DeadlineExceeded? || e.Unclassified?) && Attempt(f.run) + 1 <= f.run.maxRetries && f.run.status.Running?
    requires f.run.version == row.version && f.run.currentStep == Some(RunEngine)
    ensures IsTrace(Start(cfg, row), all) && NoSaveAt(all, now) && NoPolls(all) && |all| > |es| && all[..|es|] == es
    ensures var d := After(Start(cfg, row), all);
            d.pc.Saving? && d.run == f.run.(state := RetryState(f.run.state, RunEngine), scheduledAt := d.run.scheduledAt)
            && Attempt(d.run) == Attempt(f.run) + 1
  {
    hide Start, IsTrace, After, Fail, RetryState, Backoff;
    var tail := [Event(DrawJitter, Jitter(1.0)), Event(ReadClock, Clock(now))];
    RetryIsDueAfterBackoff(f, RunEngine, e, 1.0, now);
    TraceJoins(Start(cfg, row), es, tail);
    all := es + tail;
  }

  /** The row a retried engine attempt leaves is about to trigger the next. */
  lemma RetryIsToTrigger(row: Run, f: Drive, saved: Run, k: nat, now: Time)
    requires row.runType.Automation? && row.state.request.workflow.engineType.Airflow?
    requires f.run.runType == row.runType && f.run.state.request == row.state.request
    requires f.run.status.Running? && f.run.currentStep == Some(RunEngine) && Attempt(f.run) == k
    requires saved == f.run.(state := RetryState(f.run.state, RunEngine), scheduledAt := saved.scheduledAt)
    requires SameRun(saved, row) && Row(Saved(row, saved), now)
    ensures ToTrigger(Saved(row, saved), k + 1, now)
  {
    hide Row;
  }

  /** A history with two engine runs started and never polled. */
  ghost predicate TwoStarted(s: System, w0: World, id: RunId) {
    && EngineKey(id, 0) in Onward(w0, s.log).engineRuns && EngineKey(id, 1) in Onward(w0, s.log).engineRuns
    && NoPolls(s.log)
  }

  /** Over what was there: one drive saved, with a first trigger among its events, and another that triggers again. */
  lemma TriggersTwice(s0: System, ms: seq<Move>, id: RunId, i: nat, w0: World) returns (all: seq<Move>)
    requires Legal(s0, ms) && var s := Reached(s0, ms);
             0 !in s.flights && ToTrigger(s.row, 1, s.now) && s.row.id == id
             && NoPolls(s.log) && i < |s.log| && Triggers(s.log[i], EngineKey(id, 0))
    ensures Legal(s0, all) && TwoStarted(Reached(s0, all), w0, id)
  {
    hide ToTrigger, Start, IsTrace, After, HeardBy, Triggers, NoSaveAt;
    var s := Reached(s0, ms);
    var es := TriggersNow(s.cfg, s.row, 1, s.now, "");
    LoadedAndHeard(s, 0, es);
    all := ms + ([Load(0)] + HeardBy(0, es));
    Concatenate(s0, ms, [Load(0)] + HeardBy(0, es));
    var log := s.log + es;
    assert log[i] == s.log[i] && log[|s.log| + 3] == es[3];
    TriggersCount(w0, log, i, EngineKey(id, 0));
    TriggersCount(w0, log, |s.log| + 3, EngineKey(id, 1));
  }

  /** A trigger that raised took effect all the same: the retry starts a second engine run beside the first. */
  lemma RaisedTriggerLeavesTwo(cfg: Settings, row: Run, now: Time, w0: World) returns (ms: seq<Move>)
    requires Triggered(row, now) && ToTrigger(row, 0, now) && row.maxRetries >= 1
    ensures Legal(Fresh(cfg, row, now), ms) && TwoStarted(Reached(Fresh(cfg, row, now), ms), w0, row.id)
  {
    hide ToTrigger, Start, IsTrace, After, HeardBy, NoSaveAt, Row, SavedDrive, Resume, Fail, LogGrew, Chained, Safe;
    var s0 := Fresh(cfg, row, now);
    var d := ToTheTrigger(cfg, row, 0, now);
    FirstCallRaises(d, RunEngine, true);
    var trigger := Event(NextCall(d), Raised(false, true));
    var f := WithState(d, d.run.state);
    TraceExtends(Start(cfg, row), Clocks(now), trigger);
    var es := Clocks(now) + [trigger];
    assert NoSaveAt(es, now) && NoPolls(es) by { ClocksAndOne(now, trigger); }
    IsAutomation(row, 0, now);
    var all := RetriedFrom(cfg, row, es, f, Unclassified, now);
    FreshIsSafe(cfg, row, now);
    RetryStored(row, s0, all, f);
    assert [] + all == all;
    assert all[3] == all[..|es|][3] == trigger;
    TriggerCalls(cfg, row, 0, now, d);
    ms := TriggersTwice(s0, SavedDrive(0, all), row.id, 3, w0);
  }

  lemma TriggerCalls(cfg: Settings, row: Run, k: nat, now: Time, d: Drive)
    requires AtTrigger(cfg, row, k, now, d)
    ensures Triggers(Event(NextCall(d), Raised(false, true)), EngineKey(row.id, k))
  {
  }

  lemma ClocksAndOne(now: Time, e: Event)
    requires !e.call.SaveRun? && !e.call.QueryEngine? && !e.answer.Clock?
    ensures NoSaveAt(Clocks(now) + [e], now) && NoPolls(Clocks(now) + [e])
  {
  }

  lemma IsAutomation(row: Run, k: nat, now: Time)
    requires ToTrigger(row, k, now)
    ensures row.runType.Automation? && row.state.request.workflow.engineType.Airflow? && !row.status.Terminal() && Row(row, now)
    ensures Attempt(row) == k
  {
  }

  /** A drive's retry is saved: the row is about to trigger again. */
  lemma RetryStored(first: Run, s: System, all: seq<Event>, f: Drive)
    requires Chained(first, s) && Safe(s) && 0 !in s.flights && NoPolls(s.log)
    requires s.row.runType.Automation? && s.row.state.request.workflow.engineType.Airflow? && !s.row.status.Terminal()
    requires IsTrace(Start(s.cfg, s.row), all) && NoSaveAt(all, s.now) && NoPolls(all)
    requires f.run.runType == s.row.runType && f.run.state.request == s.row.state.request && f.run.version == s.row.version
    requires f.run.status.Running? && f.run.currentStep == Some(RunEngine) && Attempt(f.run) == 0
    requires var d := After(Start(s.cfg, s.row), all);
             d.pc.Saving? && d.run == f.run.(state := RetryState(f.run.state, RunEngine), scheduledAt := d.run.scheduledAt)
    ensures Legal(s, SavedDrive(0, all))
    ensures var s' := Reached(s, SavedDrive(0, all));
            0 !in s'.flights && ToTrigger(s'.row, 1, s'.now) && s'.row.id == s.row.id && NoPolls(s'.log)
            && |s'.log| > |s.log + all| && s'.log[..|s.log + all|] == s.log + all
  {
    hide ToTrigger, Start, IsTrace, After, HeardBy, NoSaveAt, Row, SavedDrive, RetryState, RowGate, SafeFlight, Justified,
         KeysBounded, LogGrew, Chained;
    var saved := After(Start(s.cfg, s.row), all).run;
    SavedDriveStores(s, 0, all);
    HistoriesAreSafe(first, s, SavedDrive(0, all));
    StartKept(s.cfg, s.row);
    TraceKept(s.row, Start(s.cfg, s.row), all);
    RetryIsToTrigger(s.row, f, saved, 0, s.now);
  }

  // --- Out of its budget ---

  /** A row that waits for the engine run its only attempt has triggered at `since`. */
  ghost predicate Waiting(row: Run, since: Time, now: Time) {
    && Row(row, now) && row.status.Running? && row.runType.Automation? && row.currentStep == Some(RunEngine)
    && row.state.request.workflow.engineType.Airflow? && row.state.books.attemptStartedAt == Some(since) && Attempt(row) == 0
  }

  /** Loaded too late, it fails without looking at its engine run. */
  lemma TooLate(cfg: Settings, row: Run, since: Time, now: Time) returns (f: Drive, es: seq<Event>)
    requires Waiting(row, since, now) && now - since > MaxDuration(RunEngine)
    ensures IsTrace(Start(cfg, row), es) && NoSaveAt(es, now) && NoPolls(es)
    ensures After(Start(cfg, row), es) == Fail(f, RunEngine, DeadlineExceeded)
    ensures f.run.runType == row.runType && f.run.state.request == row.state.request && f.run.version == row.version
    ensures f.run.status.Running? && f.run.currentStep == Some(RunEngine) && Attempt(f.run) == 0
          && f.run.maxRetries == row.maxRetries
  {
    hide Fail, IsTrace, After;
    var clock := Event(ReadClock, Clock(now));
    f := ClockToCheck(cfg, row, since, now);
    NoEvents(Resume(f, Clock(now)));
    TracePrepends(f, clock, []);
    assert [clock] + [] == [clock];
    TracePrepends(Start(cfg, row), clock, [clock]);
    es := [clock] + [clock];
  }

  lemma ClockToCheck(cfg: Settings, row: Run, since: Time, now: Time) returns (d: Drive)
    requires Waiting(row, since, now)
    ensures Start(cfg, row).pc.Begin? && d == Resume(Start(cfg, row), Clock(now)) && d.pc == CheckBudget(RunEngine, since)
    ensures d.run.runType == row.runType && d.run.state.request == row.state.request && d.run.version == row.version
    ensures d.run.status.Running? && d.run.currentStep == Some(RunEngine) && Attempt(d.run) == 0
          && d.run.maxRetries == row.maxRetries
  {
    hide StartedTo, CountedFor, Markers;
    d := Resume(Start(cfg, row), Clock(now));
  }

  /** The drive that triggers and leaves the run waiting is saved. */
  lemma TriggerStored(first: Run, s: System) returns (all: seq<Event>)
    requires Chained(first, s) && Safe(s) && 0 !in s.flights && s.log == [] && ToTrigger(s.row, 0, s.now)
    ensures Legal(s, SavedDrive(0, all))
    ensures var s' := Reached(s, SavedDrive(0, all));
            s'.flights == s.flights && s'.now == s.now && s'.cfg == s.cfg && s'.row.id == s.row.id
            && s'.row.maxRetries == s.row.maxRetries && Waiting(s'.row, s.now, s.now)
            && NoPolls(s'.log) && |s'.log| > 3 && Triggers(s'.log[3], EngineKey(s.row.id, 0))
  {
    hide Start, IsTrace, After, HeardBy, NoSaveAt, Row, SavedDrive, Resume, RowGate, SafeFlight, Justified,
         KeysBounded, LogGrew, Chained,
         Triggers, ToTrigger;
    var es := TriggersNow(s.cfg, s.row, 0, s.now, "");
    var clock := Event(ReadClock, Clock(s.now));
    var d := After(Start(s.cfg, s.row), es);
    SchedulesNow(d, s.now);
    TraceExtends(Start(s.cfg, s.row), es, clock);
    all := es + [clock];
    assert NoSaveAt(all, s.now) by { OneClockMore(es, s.now); }
    SavedDriveStores(s, 0, all);
    HistoriesAreSafe(first, s, SavedDrive(0, all));
    IsAutomation(s.row, 0, s.now);
    assert [] + all == all;
  }

  lemma OneClockMore(es: seq<Event>, now: Time)
    requires NoSaveAt(es, now)
    ensures NoSaveAt(es + [Event(ReadClock, Clock(now))], now)
  {
  }

  lemma SchedulesNow(d: Drive, now: Time)
    requires d.pc.Scheduling?
    ensures NextCall(d) == ReadClock && Fits(ReadClock, Clock(now))
    ensures var d' := Resume(d, Clock(now)); d'.pc == Saving(false) && d'.run == d.run.(scheduledAt := Some(now + d.pc.delay))
  {
  }

  lemma Ticks(s: System, to: Time)
    requires s.now <= to
    ensures Enabled(s, Tick(to)) && Apply(s, Tick(to)) == s.(now := to)
  {
  }

  /** An engine run that takes longer than the step's budget is left going: the retry starts a second one beside it,
      though it was never polled. */
  lemma DeadlineLeavesTwo(cfg: Settings, row: Run, now: Time, w0: World) returns (ms: seq<Move>)
    requires Triggered(row, now) && ToTrigger(row, 0, now) && row.maxRetries >= 1
    ensures Legal(Fresh(cfg, row, now), ms) && TwoStarted(Reached(Fresh(cfg, row, now), ms), w0, row.id)
  {
    hide ToTrigger, Start, IsTrace, After, HeardBy, NoSaveAt, Row, SavedDrive, Resume, Fail, LogGrew, Chained, Safe,
         Enabled, Apply,
         Triggers, Waiting;
    var s0 := Fresh(cfg, row, now);
    FreshIsSafe(cfg, row, now);
    var one := TriggerStored(row, s0);
    var ms1 := SavedDrive(0, one);
    var s1 := Reached(s0, ms1);
    var later := now + MaxDuration(RunEngine) + 1.0;
    Ticks(s1, later);
    Append(s0, ms1, Tick(later));
    var ms2 := ms1 + [Tick(later)];
    var s2 := Reached(s0, ms2);
    HistoriesAreSafe(row, s0, ms2);
    StillWaiting(s1.row, now, s2);
    var f, es := TooLate(cfg, s2.row, now, later);
    var two := RetriedFrom(cfg, s2.row, es, f, DeadlineExceeded, later);
    IsWaiting(s2.row, now, later);
    RetryStored(row, s2, two, f);
    var ms3 := ms2 + SavedDrive(0, two);
    Concatenate(s0, ms2, SavedDrive(0, two));
    assert s2.log[3] == (s2.log + two)[3];
    ms := TriggersTwice(s0, ms3, row.id, 3, w0);
  }

  lemma StillWaiting(row: Run, since: Time, s: System)
    requires Waiting(row, since, since) && s.row == row && Safe(s)
    ensures Waiting(s.row, since, s.now)
  {
    hide Row;
  }

  lemma IsWaiting(row: Run, since: Time, now: Time)
    requires Waiting(row, since, now)
    ensures row.runType.Automation? && row.state.request.workflow.engineType.Airflow? && !row.status.Terminal()
  {
  }
}
