/** Without wakes, crashes and failed saves every run ends, after a number of `handle` calls that can
    be computed from its plan, its retry budget and the steps' budgets and poll intervals. */
module Termination {
  import opened Domain
  import opened Drives
  import opened StoredRows
  import opened Totality
  import opened Bookkeeping

  // --- The measure ---

  /** How many `handle` calls can end at one attempt of a step: its polls, and the call that finds the
      budget spent. */
  function CallsPerAttempt(s: StepName): nat {
    (MaxDuration(s) / PollInterval(s)).Floor + 2
  }

  /** The calls still to come at an attempt that began at `started`, if the next is at `at`. */
  function CallsLeft(s: StepName, started: Option<Time>, at: Time): nat {
    match started
    case None => CallsPerAttempt(s)
    case Some(t) =>
      if at < t then CallsPerAttempt(s)
      else if at - t > MaxDuration(s) then 1
      else ((MaxDuration(s) - (at - t)) / PollInterval(s)).Floor + 2
  }

  /** The calls that can end at the steps of a plan from position `i` on. */
  function PlanBudget(t: RunType, i: nat, maxRetries: nat): nat
    decreases |Plan(t)| - i
  {
    if i >= |Plan(t)| then 0
    else AllAttempts(maxRetries + 1, CallsPerAttempt(Plan(t)[i])) + PlanBudget(t, i + 1, maxRetries)
  }

  function AllAttempts(attempts: nat, calls: nat): nat {
    attempts * calls
  }

  function Times(n: int, k: int): int {
    n * k
  }

  /** Steps left, then retries left, then polls left: the calls still to come for a run at step `s`,
      if the next is at `at`. */
  function Ahead(run: Run, s: StepName, at: Time): int {
    PlanBudget(run.runType, Pos(run, s) + 1, run.maxRetries)
    + Times(run.maxRetries - Attempts(run.state.books, s), CallsPerAttempt(s))
    + CallsLeft(s, run.state.books.attemptStartedAt, at)
  }

  /** The calls still to come for a stored row. */
  function Measure(row: Run): int {
    if row.status.Terminal() || row.scheduledAt.None? then 0
    else if row.currentStep.None? then PlanBudget(row.runType, 0, row.maxRetries)
    else Ahead(row, row.currentStep.value, row.scheduledAt.value)
  }

  // --- One turn ---

  /** The clock never goes back while a drive reads it. */
  predicate Paced(es: seq<Event>, from: Time)
    decreases |es|
  {
    es == [] ||
    (if es[0].answer.Clock? then from <= es[0].answer.now && Paced(es[1..], es[0].answer.now)
     else Paced(es[1..], from))
  }

  function LastTime(es: seq<Event>, from: Time): Time
    decreases |es|
  {
    if es == [] then from
    else LastTime(es[1..], if es[0].answer.Clock? then es[0].answer.now else from)
  }

  /** One `handle` call: what it loaded, when it started, what it heard until its one save. */
  datatype Turn = Turn(base: Run, from: Time, es: seq<Event>)

  /** A turn on a stored row that is due, up to its successful save. What it loads is the row but for
      the schedule, which its claim has moved. */
  ghost predicate TurnOn(cfg: Settings, row: Run, t: Turn, after: Run) {
    && !row.status.Terminal() && row.scheduledAt.Some? && row.scheduledAt.value <= t.from
    && t.base.(scheduledAt := row.scheduledAt) == row && t.base.scheduledAt.Some?
    && IsTrace(Start(cfg, t.base), t.es) && Paced(t.es, t.from)
    && (forall i :: 0 <= i < |t.es| ==> !t.es[i].call.SaveRun?)
    && After(Start(cfg, t.base), t.es).pc.Saving?
    && after == Saved(t.base, After(Start(cfg, t.base), t.es).run)
  }

  // --- Arithmetic of the measure ---

  lemma FreshAttempt(s: StepName, at: Time)
    ensures CallsLeft(s, Some(at), at) == CallsPerAttempt(s)
  {
  }

  lemma CallsLeftFalls(s: StepName, started: Option<Time>, at: Time, later: Time)
    requires at <= later
    ensures 1 <= CallsLeft(s, started, later) <= CallsLeft(s, started, at) <= CallsPerAttempt(s)
  {
  }

  /** A poll costs a call: the next look comes at least one interval after a look in time. */
  lemma PollSpendsACall(s: StepName, started: Time, checked: Time, now: Time)
    requires started <= checked <= now && checked - started <= MaxDuration(s)
    ensures CallsLeft(s, Some(started), now + PollInterval(s)) < CallsLeft(s, Some(started), checked)
  {
    CallsLeftFalls(s, Some(started), checked + PollInterval(s), now + PollInterval(s));
    var left := MaxDuration(s) - (checked - started);
    assert (left - PollInterval(s)) / PollInterval(s) == left / PollInterval(s) - 1.0;
    assert (left / PollInterval(s) - 1.0).Floor == (left / PollInterval(s)).Floor - 1;
  }

  lemma OneStepOfBudget(t: RunType, s: StepName, maxRetries: nat)
    requires InPlan(t, s)
    ensures PlanBudget(t, IndexInPlan(t, s), maxRetries)
            == Times(maxRetries, CallsPerAttempt(s)) + CallsPerAttempt(s) + PlanBudget(t, IndexInPlan(t, s) + 1, maxRetries)
  {
    hide CallsPerAttempt;
  }

  lemma OneRetry(n: int, k: nat)
    requires n >= 1
    ensures Times(n, k) == Times(n - 1, k) + k && Times(n - 1, k) >= 0
  {
  }

  // --- What a drive spends ---

  /** A drive has not used up more than `m` calls, and any way it ends now uses up one. `checked` is
      the last reading of the clock. */
  ghost predicate Spends(d: Drive, m: int, checked: Time) {
    var run := d.run;
    if d.pc.Finished? then true
    else if d.pc.Saving? || Escalating(d.pc) then run.status.Terminal() || (d.pc.Saving? && Measure(run) < m)
    else
      run.currentStep.Some?
      && var s := run.currentStep.value;
         var started := run.state.books.attemptStartedAt;
         var inTime := started.Some? && started.value <= checked && checked - started.value <= MaxDuration(s);
         if d.pc.BackingOff? then started.None? && Ahead(run, s, checked) < m
         else if d.pc.Scheduling? then
           (started.None? && Ahead(run, s, checked) < m)
           || (inTime && d.pc.delay == PollInterval(s) && Ahead(run, s, checked) <= m)
         else Ahead(run, s, checked) <= m && (InStep(d.pc) ==> inTime)
  }

  lemma StartSpends(cfg: Settings, row: Run, t: Turn, now: Time)
    requires Row(row, now) && !row.status.Terminal() && row.scheduledAt.value <= t.from
    requires t.base.(scheduledAt := row.scheduledAt) == row && t.base.scheduledAt.Some?
    ensures Spends(Start(cfg, t.base), Measure(row), t.from)
  {
    hide StartedTo, CountedFor, CallsPerAttempt, CallsLeft, IndexInPlan, Plan, PlanBudget, Markers;
    if row.status.Pending? {
      assert |Plan(row.runType)| > 0 by { PlanNotEmpty(row.runType); }
      var s := Plan(row.runType)[0];
      IndexIsPosition(row.runType, 0);
      OneStepOfBudget(row.runType, s, row.maxRetries);
      assert CallsLeft(s, None, t.from) == CallsPerAttempt(s) by { CallsLeftNone(s, t.from); }
    } else {
      CallsLeftFalls(row.currentStep.value, row.state.books.attemptStartedAt, row.scheduledAt.value, t.from);
    }
  }

  lemma PlanNotEmpty(t: RunType)
    ensures |Plan(t)| > 0
  {
  }

  lemma CallsLeftNone(s: StepName, at: Time)
    ensures CallsLeft(s, None, at) == CallsPerAttempt(s)
  {
  }

  lemma BeginSpends(d: Drive, m: int, checked: Time, now: Time)
    requires d.pc.Begin? && Driving(d, checked) && Spends(d, m, checked) && checked <= now
    ensures Spends(ResumeLoop(d, now), m, now)
  {
    hide StartedTo, CountedFor, CallsPerAttempt, CallsLeft, IndexInPlan, Plan, PlanBudget, Markers;
    var s := d.run.currentStep.value;
    CallsLeftFalls(s, d.run.state.books.attemptStartedAt, checked, now);
    FreshAttempt(s, now);
    CallsLeftNone(s, checked);
  }

  lemma AttemptSpends(d: Drive, m: int, checked: Time, now: Time)
    requires d.pc.StartAttempt? && Driving(d, checked) && Spends(d, m, checked) && checked <= now
    ensures Spends(ResumeLoop(d, now), m, now)
  {
    hide StartedTo, CountedFor, CallsPerAttempt, CallsLeft, IndexInPlan, Plan, PlanBudget, Markers;
    var s := d.run.currentStep.value;
    CallsLeftFalls(s, d.run.state.books.attemptStartedAt, checked, now);
    FreshAttempt(s, now);
    CallsLeftNone(s, checked);
  }

  lemma LoopSpends(d: Drive, m: int, checked: Time, now: Time)
    requires (d.pc.Begin? || d.pc.StartAttempt?) && Driving(d, checked) && Spends(d, m, checked) && checked <= now
    ensures Spends(ResumeLoop(d, now), m, now)
  {
    hide Driving, Spends;
    if d.pc.Begin? {
      BeginSpends(d, m, checked, now);
    } else {
      AttemptSpends(d, m, checked, now);
    }
  }

  lemma CompleteSpends(d: Drive, s: StepName, m: int, checked: Time)
    requires UnderWay(d.run, s, checked) && Ahead(d.run, s, checked) <= m
    ensures Spends(Complete(d, s), m, checked)
  {
    hide StartedTo, CallsPerAttempt, CallsLeft, IndexInPlan, Plan, PlanBudget, Markers, Crash;
    CountedOnce(d.run.state.books.attempts, s, d.run.maxRetries);
    OneRetry(d.run.maxRetries - Attempts(d.run.state.books, s) + 1, CallsPerAttempt(s));
    IndexIsPosition(d.run.runType, Pos(d.run, s));
    if Pos(d.run, s) + 1 < |Plan(d.run.runType)| {
      var next := Plan(d.run.runType)[Pos(d.run, s) + 1];
      IndexIsPosition(d.run.runType, Pos(d.run, s) + 1);
      OneStepOfBudget(d.run.runType, next, d.run.maxRetries);
      CallsLeftNone(next, checked);
    }
  }

  /** A retry uses up an attempt. */
  lemma RetrySpends(d: Drive, s: StepName, e: Error, m: int, checked: Time)
    requires UnderWay(d.run, s, checked) && Ahead(d.run, s, checked) <= m && MayRetry(d.run, s, e)
    ensures Spends(Fail(d, s, e), m, checked)
  {
    hide StartedTo, CountedFor, CallsPerAttempt, CallsLeft, IndexInPlan, Plan, PlanBudget, Markers;
    CallsLeftFalls(s, d.run.state.books.attemptStartedAt, checked, checked);
    CallsLeftNone(s, checked);
    OneRetry(d.run.maxRetries - Attempts(d.run.state.books, s), CallsPerAttempt(s));
  }

  lemma FailSpends(d: Drive, s: StepName, e: Error, m: int, checked: Time)
    requires UnderWay(d.run, s, checked) && Ahead(d.run, s, checked) <= m
    ensures Spends(Fail(d, s, e), m, checked)
  {
    hide UnderWay, Ahead, Escalate, FailedState;
    if MayRetry(d.run, s, e) {
      RetrySpends(d, s, e, m, checked);
    } else {
      EndingsOnly(Ended(d, RunStatus.Failed, FailedState(d.run.state, s, e)), e, false);
    }
  }

  lemma ReactSpends(d: Drive, s: StepName, h: Handled, m: int, checked: Time)
    requires UnderWay(d.run, s, checked) && Ahead(d.run, s, checked) <= m
    requires h.st.books == d.run.state.books && (h.outcome.Asks? ==> InStep(h.outcome.pc))
    requires var t := d.run.state.books.attemptStartedAt;
             t.Some? && t.value <= checked && checked - t.value <= MaxDuration(s)
    ensures Spends(React(d, s, h), m, checked)
  {
    hide StartedTo, CountedFor, CallsPerAttempt, CallsLeft, IndexInPlan, Plan, PlanBudget, Complete, Fail, Release;
    var d' := WithState(d, h.st);
    EndingsOnly(Ended(d', Rejected, WithError(h.st, s, Denial)), Denial, false);
    match h.outcome
    case Done => CompleteSpends(d', s, m, checked);
    case Raises(e) => FailSpends(d', s, e, m, checked);
    case _ =>
  }

  lemma BudgetSpends(d: Drive, m: int, checked: Time, now: Time)
    requires d.pc.CheckBudget? && Driving(d, checked) && Spends(d, m, checked) && checked <= now
    ensures Spends(ResumeLoop(d, now), m, now)
  {
    hide StartedTo, CountedFor, CallsPerAttempt, CallsLeft, IndexInPlan, Plan, PlanBudget, Fail, React, FirstMove,
         Markers, MovedOn;
    var s := d.pc.step;
    DrivingLater(d, checked, now);
    CallsLeftFalls(s, d.run.state.books.attemptStartedAt, checked, now);
    if now - d.pc.started > MaxDuration(s) {
      FailSpends(d, s, DeadlineExceeded, m, now);
    } else {
      FirstMoveKeeps(d, now);
      FirstMoveAsks(d.run, s);
      FirstMoveBooks(d.run, s);
      ReactSpends(d, s, FirstMove(d.run, s), m, now);
    }
  }

  lemma FirstMoveBooks(run: Run, s: StepName)
    ensures FirstMove(run, s).st.books == run.state.books
  {
  }

  lemma NextMoveBooks(d: Drive, a: Answer)
    requires InStep(d.pc) && Fits(NextCall(d), a)
    ensures NextMove(d, a).st.books == d.run.state.books
  {
    hide NextMove;
    MovesKept(d, a);
  }

  lemma StepSpends(d: Drive, a: Answer, m: int, checked: Time)
    requires InStep(d.pc) && Driving(d, checked) && Spends(d, m, checked) && Fits(NextCall(d), a)
    ensures Spends(React(d, StepOf(d.pc), NextMove(d, a)), m, checked)
  {
    hide StartedTo, CountedFor, CallsPerAttempt, CallsLeft, IndexInPlan, Plan, PlanBudget, React, NextMove, Markers,
         HoldsInStep, NextCall;
    NextMoveAsks(d, a);
    NextMoveBooks(d, a);
    ReactSpends(d, StepOf(d.pc), NextMove(d, a), m, checked);
  }

  lemma SchedulingSpends(d: Drive, m: int, checked: Time, now: Time)
    requires d.pc.Scheduling? && Driving(d, checked) && Spends(d, m, checked) && checked <= now
    ensures Measure(d.run.(scheduledAt := Some(now + d.pc.delay))) < m
  {
    hide StartedTo, CountedFor, CallsPerAttempt, CallsLeft, IndexInPlan, Plan, PlanBudget, Markers;
    var s := d.run.currentStep.value;
    var started := d.run.state.books.attemptStartedAt;
    if started.Some? {
      PollSpendsACall(s, started.value, checked, now);
    } else {
      CallsLeftNone(s, checked);
      CallsLeftNone(s, now + d.pc.delay);
    }
  }

  lemma EscalationSpends(d: Drive, a: Answer, m: int, checked: Time)
    requires Escalating(d.pc) && Fits(NextCall(d), a) && Spends(d, m, checked)
    ensures Spends(ResumeEscalation(d, a), m, checked)
  {
    hide Ahead, Measure, Release, Refuse, NextCall;
    EndingsOnly(Noted(d, a), Unclassified, true);
    EndingsOnly(Noted(d, a), Unclassified, false);
  }

  lemma TailSpends(d: Drive, a: Answer, m: int, checked: Time, now: Time)
    requires d.pc.BackingOff? || d.pc.Scheduling?
    requires Fits(NextCall(d), a) && Driving(d, checked) && Spends(d, m, checked)
    requires checked <= now && now == if a.Clock? then a.now else checked
    ensures Spends(Resume(d, a), m, now)
  {
    hide Ahead, Measure, Backoff, AtStep, AtHead, Row;
    if d.pc.Scheduling? {
      SchedulingSpends(d, m, checked, now);
    }
  }

  /** No answer but a failed save makes a drive spend more than one call. */
  lemma ResumeSpends(d: Drive, a: Answer, m: int, checked: Time, now: Time)
    requires !d.pc.Finished? && !d.pc.Saving? && Fits(NextCall(d), a)
    requires Driving(d, checked) && Spends(d, m, checked)
    requires checked <= now && now == if a.Clock? then a.now else checked
    ensures Spends(Resume(d, a), m, now)
  {
    hide Driving, Spends, NextMove, React, Fits, NextCall;
    ReadsTheClock(d, a);
    if d.pc.Begin? || d.pc.StartAttempt? {
      LoopSpends(d, m, checked, now);
    } else if d.pc.CheckBudget? {
      BudgetSpends(d, m, checked, now);
    } else if InStep(d.pc) {
      StepSpends(d, a, m, checked);
    } else if Escalating(d.pc) {
      EscalationSpends(d, a, m, checked);
    } else {
      TailSpends(d, a, m, checked, now);
    }
  }

  // --- The bound ---

  /** A drive that has heard everything but failed saves: its books are in order, and ending now would
      spend a call. */
  lemma {:induction false} TraceSpends(d: Drive, es: seq<Event>, m: int, checked: Time)
    requires IsTrace(d, es) && Paced(es, checked) && Driving(d, checked) && Spends(d, m, checked)
    requires forall i :: 0 <= i < |es| ==> !es[i].call.SaveRun?
    ensures Driving(After(d, es), LastTime(es, checked)) && Spends(After(d, es), m, LastTime(es, checked))
    decreases |es|
  {
    hide Driving, Spends, Resume, Fits;
    if es != [] {
      var now := if es[0].answer.Clock? then es[0].answer.now else checked;
      assert !es[0].call.SaveRun?;
      assert !d.pc.Saving?;
      ResumeKeeps(d, es[0].answer, checked, now);
      ResumeSpends(d, es[0].answer, m, checked, now);
      TraceSpends(Resume(d, es[0].answer), es[1..], m, now);
    }
  }

  /** Every turn leaves the run over, or with fewer calls still to come. */
  lemma TurnSpends(cfg: Settings, row: Run, t: Turn, after: Run, now: Time)
    requires TurnOn(cfg, row, t, after) && Row(row, now) && now <= t.from
    ensures Row(after, LastTime(t.es, t.from))
    ensures after.status.Terminal() || (after.scheduledAt.Some? && 0 <= Measure(after) < Measure(row))
  {
    hide Row, Start, Spends, Measure, Markers, PlanBudget, Fits, NextCall, Resume, LogGrew;
    var d := After(Start(cfg, t.base), t.es);
    var end := LastTime(t.es, t.from);
    Later(row, now, t.from);
    RowIgnoresSchedule(row, t.base.scheduledAt.value, t.from);
    assert t.base == row.(scheduledAt := t.base.scheduledAt);
    StartKeeps(cfg, t.base, t.from);
    StartSpends(cfg, row, t, t.from);
    TraceSpends(Start(cfg, t.base), t.es, Measure(row), t.from);
    StartKept(cfg, t.base);
    TraceKept(t.base, Start(cfg, t.base), t.es);
    SavedRowKeeps(t.base, d.run, end);
    SpentAtTheEnd(d, after, Measure(row), end);
    MeasureIsNatural(after, end);
  }

  lemma SpentAtTheEnd(d: Drive, after: Run, m: int, now: Time)
    requires d.pc.Saving? && Driving(d, now) && Spends(d, m, now)
    requires SameRun(d.run, after) && after == Saved(after, d.run).(version := after.version)
    ensures after.status.Terminal() || (after.scheduledAt.Some? && Measure(after) < m)
  {
    hide StartedTo, CountedFor, CallsPerAttempt, CallsLeft, PlanBudget, IndexInPlan, Plan;
  }

  lemma MeasureIsNatural(row: Run, now: Time)
    requires Row(row, now)
    ensures Measure(row) >= 0
  {
    hide StartedTo, Markers, CallsPerAttempt, CallsLeft, PlanBudget, IndexInPlan, Plan;
    if row.status.Running? {
      OneRetry(row.maxRetries - Attempts(row.state.books, row.currentStep.value) + 1,
               CallsPerAttempt(row.currentStep.value));
    }
  }

  /** Turns one after the other: each on the row the one before it saved, none before it is due. */
  ghost predicate Turns(cfg: Settings, rows: seq<Run>, ts: seq<Turn>) {
    |rows| == |ts| + 1
    && (forall i :: 0 <= i < |ts| ==> TurnOn(cfg, rows[i], ts[i], rows[i + 1]))
    && (forall i :: 0 <= i < |ts| - 1 ==> LastTime(ts[i].es, ts[i].from) <= ts[i + 1].from)
  }

  lemma {:induction false} TurnsSpend(cfg: Settings, rows: seq<Run>, ts: seq<Turn>, now: Time, n: nat)
    requires Turns(cfg, rows, ts) && n <= |ts| && Row(rows[0], now) && (ts != [] ==> now <= ts[0].from)
    ensures var now' := if n == 0 then now else LastTime(ts[n - 1].es, ts[n - 1].from); Row(rows[n], now')
    ensures rows[n].status.Terminal() || n + Measure(rows[n]) <= Measure(rows[0])
    ensures rows[n].status.Terminal() ==> n == 0 || n - 1 < Measure(rows[0])
  {
    hide Row, Measure;
    if n > 0 {
      TurnsSpend(cfg, rows, ts, now, n - 1);
      var before := if n == 1 then now else LastTime(ts[n - 2].es, ts[n - 2].from);
      assert TurnOn(cfg, rows[n - 1], ts[n - 1], rows[n]);
      if n > 1 {
        assert LastTime(ts[n - 2].es, ts[n - 2].from) <= ts[n - 2 + 1].from;
      }
      TurnSpends(cfg, rows[n - 1], ts[n - 1], rows[n], before);
      MeasureIsPositive(rows[n - 1], before);
    }
  }

  lemma MeasureIsPositive(row: Run, now: Time)
    requires Row(row, now) && !row.status.Terminal()
    ensures Measure(row) >= 1
  {
    hide StartedTo, Markers, CallsPerAttempt, CallsLeft, PlanBudget, IndexInPlan, Plan;
    if row.status.Running? {
      var s := row.currentStep.value;
      OneRetry(row.maxRetries - Attempts(row.state.books, s) + 1, CallsPerAttempt(s));
      CallsLeftFalls(s, row.state.books.attemptStartedAt, row.scheduledAt.value, row.scheduledAt.value);
    } else {
      assert PlanBudget(row.runType, 0, row.maxRetries) >= 1 by { PlanBudgetPositive(row.runType, row.maxRetries); }
    }
  }

  lemma PlanBudgetPositive(t: RunType, maxRetries: nat)
    ensures PlanBudget(t, 0, maxRetries) >= 1
  {
    PlanNotEmpty(t);
    IndexIsPosition(t, 0);
    OneStepOfBudget(t, Plan(t)[0], maxRetries);
    OneRetry(maxRetries + 1, CallsPerAttempt(Plan(t)[0]));
  }

  /** Without wakes, crashes and failed saves a triggered run is over after as many `handle` calls as
      its plan allows: for each step, one per poll and one more, for each attempt. */
  lemma RunsEnd(cfg: Settings, rows: seq<Run>, ts: seq<Turn>, now: Time)
    requires Turns(cfg, rows, ts) && Row(rows[0], now) && rows[0].status.Pending? && (ts != [] ==> now <= ts[0].from)
    ensures |ts| <= PlanBudget(rows[0].runType, 0, rows[0].maxRetries)
    ensures |ts| == PlanBudget(rows[0].runType, 0, rows[0].maxRetries) ==> rows[|ts|].status.Terminal()
  {
    hide Row, TurnOn, PlanBudget;
    assert Measure(rows[0]) == PlanBudget(rows[0].runType, 0, rows[0].maxRetries) by { PendingMeasure(rows[0], now); }
    TurnsSpend(cfg, rows, ts, now, |ts|);
    var last := if ts == [] then now else LastTime(ts[|ts| - 1].es, ts[|ts| - 1].from);
    if !rows[|ts|].status.Terminal() {
      MeasureIsPositive(rows[|ts|], last);
    }
  }

  lemma PendingMeasure(row: Run, now: Time)
    requires Row(row, now) && row.status.Pending?
    ensures Measure(row) == PlanBudget(row.runType, 0, row.maxRetries)
  {
  }

  /** The bound in numbers, for the default retry budget of three. */
  lemma BoundInNumbers()
    ensures PlanBudget(Resource, 0, 3) == 4 * (6 * 242 + 20162)
    ensures PlanBudget(Automation, 0, 3) == 4 * (2 * 242)
    ensures PlanBudget(Legacy, 0, 3) == 4 * 242
  {
    assert forall s :: CallsPerAttempt(s) == if s.AwaitApproval? then 20162 else 242;
    assert PlanBudget(Resource, 7, 3) == 0;
    assert PlanBudget(Resource, 4, 3) == 4 * 3 * 242;
    assert PlanBudget(Resource, 2, 3) == 4 * (4 * 242 + 20162);
  }
}
