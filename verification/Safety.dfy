/** What holds in every reachable state of a triggered run, over every history: its bookkeeping, the
    evidence behind every call it makes, and how many engine runs it can start. */
module Safety {
  import opened Domain
  import opened Collections
  import opened Drives
  import opened Totality
  import opened StoredRows
  import opened Bookkeeping
  import opened Gates
  import opened Histories

  /** Every engine key presented so far names this run and an attempt within its retry budget. */
  predicate KeysBounded(id: RunId, most: nat, log: seq<Event>) {
    forall i :: 0 <= i < |log| && log[i].call.TriggerEngine? ==>
      log[i].call.key.EngineKey? && log[i].call.key.run == id && log[i].call.key.attempt <= most
  }

  /** The evidence a call on the log needs, among the events before it. */
  ghost predicate JustifiedCall(t: RunType, op: Operation, c: Call, before: seq<Event>) {
    match c
    case TriggerEngine(_, _) => t.Resource? ==> exists ticket :: Cleared(before, ticket)
    case CloseTicketAs(_, outcome) => outcome.Successful? ==> exists e :: HeardSuccess(before, e)
    case CreateRecord(_, fields, _) => FlagTellsState(fields)
    case UpdateRecord(_, fields) =>
      FlagTellsState(fields)
      && (Finalizes(op, fields) ==> exists e :: HeardSuccess(before, e))
    case _ => true
  }

  ghost predicate Justified(t: RunType, op: Operation, log: seq<Event>) {
    forall i :: 0 <= i < |log| ==> JustifiedCall(t, op, log[i].call, log[..i])
  }

  ghost predicate SafeFlight(s: System, f: Flight) {
    Driving(f.drive, s.now) && DriveGate(f.drive, s.log)
  }

  ghost predicate Safe(s: System) {
    && Row(s.row, s.now) && RowGate(s.row, s.log)
    && (forall w :: w in s.flights ==> SafeFlight(s, s.flights[w]))
    && KeysBounded(s.row.id, s.row.maxRetries, s.log) && Justified(s.row.runType, s.row.state.request.operation, s.log)
  }

  // --- Every move keeps it ---

  lemma TickKeepsSafe(s: System, m: Move)
    requires m.Tick? && Enabled(s, m) && Safe(s)
    ensures Safe(Apply(s, m))
  {
    hide Row, RowGate, Driving, DriveGate, JustifiedCall, KeysBounded;
    Later(s.row, s.now, m.to);
    forall w | w in s.flights ensures Driving(s.flights[w].drive, m.to) {
      DrivingLater(s.flights[w].drive, s.now, m.to);
    }
  }

  lemma NudgeKeepsSafe(s: System, m: Move)
    requires (m.Claim? || m.Wake?) && Enabled(s, m) && Safe(s)
    requires s.row.status.Terminal() <==> s.row.scheduledAt.None?
    ensures Safe(Apply(s, m))
  {
    hide Row, EvidenceFor, Driving, DriveGate, JustifiedCall, KeysBounded, IndexInPlan, Plan;
    if !s.row.status.Terminal() {
      RowIgnoresSchedule(s.row, Apply(s, m).row.scheduledAt.value, s.now);
    }
  }

  lemma LoadKeepsSafe(s: System, m: Move)
    requires (m.Load? || m.Die?) && Enabled(s, m) && Safe(s)
    ensures Safe(Apply(s, m))
  {
    hide Row, RowGate, Driving, DriveGate, JustifiedCall, KeysBounded, Start;
    if m.Load? {
      StartKeeps(s.cfg, s.row, s.now);
      StartGate(s.cfg, s.row, s.now, s.log);
    }
  }

  /** A run's engine key carries its current attempt, which is within the budget while it runs. */
  lemma KeyOfCall(d: Drive, now: Time)
    requires !d.pc.Finished? && Driving(d, now) && NextCall(d).TriggerEngine?
    ensures NextCall(d).key == EngineKey(d.run.id, Attempts(d.run.state.books, RunEngine))
    ensures Attempts(d.run.state.books, RunEngine) <= d.run.maxRetries
  {
    hide StartedTo, Markers, HoldsInStep, IndexInPlan, Plan, Row, Over;
  }

  lemma CallIsJustified(d: Drive, now: Time, log: seq<Event>)
    requires !d.pc.Finished? && Driving(d, now) && DriveGate(d, log)
    ensures JustifiedCall(d.run.runType, d.run.state.request.operation, NextCall(d), log)
  {
    hide Driving, DriveGate, NextCall, Cleared, HeardSuccess;
    GateOfCall(d, now, log);
  }

  lemma LogKeepsSafe(row: Run, d: Drive, a: Answer, now: Time, log: seq<Event>)
    requires !d.pc.Finished? && Driving(d, now) && DriveGate(d, log) && SameRun(d.run, row)
    requires KeysBounded(row.id, row.maxRetries, log) && Justified(row.runType, row.state.request.operation, log)
    ensures var log' := log + [Event(NextCall(d), a)];
            KeysBounded(row.id, row.maxRetries, log')
            && Justified(row.runType, row.state.request.operation, log')
  {
    hide Driving, DriveGate, JustifiedCall, NextCall;
    var log' := log + [Event(NextCall(d), a)];
    CallIsJustified(d, now, log);
    if NextCall(d).TriggerEngine? {
      KeyOfCall(d, now);
    }
    forall i | 0 <= i < |log'| ensures JustifiedCall(row.runType, row.state.request.operation, log'[i].call, log'[..i]) {
      if i < |log| {
        assert log'[..i] == log[..i];
      } else {
        assert log'[..i] == log;
      }
    }
  }

  lemma SavedRowIsSafe(row: Run, d: Drive, now: Time, log: seq<Event>)
    requires d.pc.Saving? && Driving(d, now) && DriveGate(d, log) && SameRun(d.run, row)
    ensures Row(Saved(row, d.run), now) && RowGate(Saved(row, d.run), log)
  {
    hide Row, IndexInPlan, Plan, EvidenceFor;
    SavedRowKeeps(row, d.run, now);
  }

  lemma FlightStaysSafe(s: System, f: Flight, e: Event)
    requires SafeFlight(s, f)
    ensures Driving(f.drive, s.now) && DriveGate(f.drive, s.log + [e])
  {
    hide Driving, DriveGate;
    DriveGateGrows(f.drive, s.log, e);
  }

  lemma HearKeepsSafe(first: Run, s: System, w: nat, a: Answer)
    requires Enabled(s, Hear(w, a)) && Safe(s) && Chained(first, s)
    ensures Safe(Apply(s, Hear(w, a)))
  {
    hide Row, RowGate, Driving, DriveGate, JustifiedCall, KeysBounded, Justified, NextCall, Fits, Resume, Serial,
         IsTrace, After, Start, Shape, LogGrew;
    var f := s.flights[w];
    var e := Event(NextCall(f.drive), a);
    ResumeKeeps(f.drive, a, s.now, s.now);
    ResumeGate(f.drive, a, s.now, s.log);
    LogKeepsSafe(s.row, f.drive, a, s.now, s.log);
    RowGateGrows(s.row, s.log, e);
    forall v | v in s.flights ensures Driving(s.flights[v].drive, s.now) && DriveGate(s.flights[v].drive, s.log + [e]) {
      FlightStaysSafe(s, s.flights[v], e);
    }
    if f.drive.pc.Saving? && Applied(a) {
      SavedRowIsSafe(s.row, f.drive, s.now, s.log);
      RowGateGrows(Saved(s.row, f.drive.run), s.log, e);
    }
  }

  // --- Over every history ---

  lemma MoveKeepsSafe(first: Run, s: System, m: Move)
    requires Enabled(s, m) && Safe(s) && Chained(first, s)
    ensures Safe(Apply(s, m))
  {
    hide Safe, FlightOk, Enabled, Apply, Serial;
    match m
    case Tick(_) => TickKeepsSafe(s, m);
    case Claim(_) => NudgeKeepsSafe(s, m);
    case Wake => NudgeKeepsSafe(s, m);
    case Hear(w, a) => HearKeepsSafe(first, s, w, a);
    case _ => LoadKeepsSafe(s, m);
  }

  lemma {:induction false} HistoriesAreSafe(first: Run, s: System, ms: seq<Move>)
    requires Legal(s, ms) && Chained(first, s) && Safe(s)
    ensures Chained(first, Reached(s, ms)) && Safe(Reached(s, ms))
    decreases |ms|
  {
    hide Chained, Safe, Enabled, Apply;
    if ms != [] {
      HistoriesAreSerial(first, s, [ms[0]]);
      assert Reached(s, [ms[0]]) == Apply(s, ms[0]) by { assert [ms[0]][1..] == []; }
      MoveKeepsSafe(first, s, ms[0]);
      HistoriesAreSafe(first, Apply(s, ms[0]), ms[1..]);
    }
  }

  /** A run as `trigger` and `trigger_legacy` create it: pending, due at once, nothing done. */
  ghost predicate Triggered(run: Run, now: Time) {
    run.status.Pending? && Row(run, now)
  }

  lemma FreshIsSafe(cfg: Settings, first: Run, now: Time)
    requires Triggered(first, now)
    ensures Chained(first, Fresh(cfg, first, now)) && Safe(Fresh(cfg, first, now))
  {
    hide StartedTo, Markers;
  }

  /** Gate safety over whole histories, overlapping drives and crashes included: an engine is
      triggered for a resource run only after its ticket was polled approved and a later validation
      answered eligible; no ticket is closed successful and no record is marked deleted or given an
      update's desired state before a poll of an engine run answered success; and whatever is written
      to a record, its flag tells its state. */
  lemma EveryCallIsJustified(cfg: Settings, first: Run, now: Time, ms: seq<Move>)
    requires Triggered(first, now) && Legal(Fresh(cfg, first, now), ms)
    ensures Justified(first.runType, first.state.request.operation, Reached(Fresh(cfg, first, now), ms).log)
  {
    hide Chained, Row, RowGate, SafeFlight, KeysBounded, Justified, Legal;
    FreshIsSafe(cfg, first, now);
    HistoriesAreSafe(first, Fresh(cfg, first, now), ms);
    RunStays(first, Fresh(cfg, first, now), ms);
  }

  /** The same for the call a drive is about to make: it is its own ticket that was approved, and the
      engine run it holds that answered success. */
  lemma EveryDriveIsCleared(cfg: Settings, first: Run, now: Time, ms: seq<Move>, w: nat)
    requires Triggered(first, now) && Legal(Fresh(cfg, first, now), ms)
    requires var s := Reached(Fresh(cfg, first, now), ms);
             w in s.flights && !s.flights[w].drive.pc.Finished?
    ensures var s := Reached(Fresh(cfg, first, now), ms); var d := s.flights[w].drive;
            Allowed(d, NextCall(d), s.log)
  {
    hide Chained, Row, RowGate, KeysBounded, Justified, Legal, Driving, DriveGate, Allowed;
    FreshIsSafe(cfg, first, now);
    HistoriesAreSafe(first, Fresh(cfg, first, now), ms);
    var s := Reached(Fresh(cfg, first, now), ms);
    GateOfCall(s.flights[w].drive, s.now, s.log);
  }

  /** A completed run with an engine step was told of an engine run's success. */
  lemma CompletedMeansSuccess(cfg: Settings, first: Run, now: Time, ms: seq<Move>)
    requires Triggered(first, now) && !first.runType.Legacy? && Legal(Fresh(cfg, first, now), ms)
    ensures var s := Reached(Fresh(cfg, first, now), ms);
            s.row.status.Completed? ==> s.row.state.engineRunId.Some? && HeardSuccess(s.log, s.row.state.engineRunId.value)
  {
    hide Chained, Row, SafeFlight, KeysBounded, Justified, Legal, HeardSuccess, Cleared;
    FreshIsSafe(cfg, first, now);
    HistoriesAreSafe(first, Fresh(cfg, first, now), ms);
    RunStays(first, Fresh(cfg, first, now), ms);
  }

  lemma MoveKeepsRun(first: Run, s: System, m: Move)
    requires Enabled(s, m) && Chained(first, s)
    ensures SameRun(Apply(s, m).row, s.row)
  {
    hide Start, NextCall, Fits, Resume, Serial, IsTrace, After, Shape, LogGrew;
  }

  lemma {:induction false} RunStays(first: Run, s: System, ms: seq<Move>)
    requires Legal(s, ms) && Chained(first, s)
    ensures SameRun(Reached(s, ms).row, s.row)
    decreases |ms|
  {
    hide Enabled, Chained, Apply;
    if ms != [] {
      MoveKeepsRun(first, s, ms[0]);
      HistoriesAreSerial(first, s, [ms[0]]);
      assert Reached(s, [ms[0]]) == Apply(s, ms[0]) by { assert [ms[0]][1..] == []; }
      RunStays(first, Apply(s, ms[0]), ms[1..]);
    }
  }

  // --- Engine runs ---

  /** The engine runs a key-deduplicating engine has started for what is on the log. */
  function EngineKeys(log: seq<Event>): set<Key> {
    set i | 0 <= i < |log| && log[i].call.TriggerEngine? :: log[i].call.key
  }

  function AttemptKeys(id: RunId, most: nat): set<Key> {
    set a: nat | 0 <= a <= most :: EngineKey(id, a)
  }

  lemma {:induction false} AttemptKeysSize(id: RunId, most: nat)
    ensures |AttemptKeys(id, most)| == most + 1
  {
    if most == 0 {
      assert AttemptKeys(id, 0) == {EngineKey(id, 0)};
    } else {
      AttemptKeysSize(id, most - 1);
      assert AttemptKeys(id, most) == AttemptKeys(id, most - 1) + {EngineKey(id, most)};
    }
  }

  /** Over all interleavings, crashes and stale saves: no more engine runs than one per attempt. */
  lemma EngineRunsAreBounded(cfg: Settings, first: Run, now: Time, ms: seq<Move>)
    requires Triggered(first, now) && Legal(Fresh(cfg, first, now), ms)
    ensures |EngineKeys(Reached(Fresh(cfg, first, now), ms).log)| <= first.maxRetries + 1
  {
    hide Chained, Row, RowGate, SafeFlight, Justified, Legal;
    FreshIsSafe(cfg, first, now);
    HistoriesAreSafe(first, Fresh(cfg, first, now), ms);
    RunStays(first, Fresh(cfg, first, now), ms);
    var log := Reached(Fresh(cfg, first, now), ms).log;
    assert EngineKeys(log) <= AttemptKeys(first.id, first.maxRetries) by {
      forall k | k in EngineKeys(log) ensures k in AttemptKeys(first.id, first.maxRetries) {
        var i :| 0 <= i < |log| && log[i].call.TriggerEngine? && log[i].call.key == k;
        assert k == EngineKey(first.id, k.attempt);
      }
    }
    AttemptKeysSize(first.id, first.maxRetries);
    SubsetSize(EngineKeys(log), AttemptKeys(first.id, first.maxRetries));
  }

  // --- Bookkeeping ---

  /** Every committed row has its books in order, and no later move rewrites a start time. */
  lemma BooksAreInOrder(cfg: Settings, first: Run, now: Time, ms: seq<Move>, m: Move)
    requires Triggered(first, now) && Legal(Fresh(cfg, first, now), ms)
    requires Enabled(Reached(Fresh(cfg, first, now), ms), m)
    ensures var s := Reached(Fresh(cfg, first, now), ms);
            && Row(s.row, s.now)
            && LogGrew(s.row.state.books.startedAt, Apply(s, m).row.state.books.startedAt)
  {
    hide Row, RowGate, SafeFlight, Justified, KeysBounded, Legal, Resume, NextCall, Fits, Start, IsTrace, After, Serial;
    FreshIsSafe(cfg, first, now);
    HistoriesAreSafe(first, Fresh(cfg, first, now), ms);
    var s := Reached(Fresh(cfg, first, now), ms);
    if m.Hear? && s.flights[m.worker].drive.pc.Saving? && Applied(m.answer) {
      CommitsFromCurrentRow(s, m.worker, m.answer);
    }
  }

  /** Whoever reads a row: a run still going has no error and, for its current step only, no more failed
      attempts than its budget; a run that is over has at most one error, so there is no question which came
      last. */
  lemma RowsReadClearly(row: Run, now: Time)
    requires Row(row, now)
    ensures !row.status.Terminal() ==> row.state.books.errors == map[]
    ensures |row.state.books.errors| <= 1 && |row.state.books.attempts| <= 1
    ensures !row.status.Terminal() ==>
              forall s :: s in row.state.books.attempts ==>
                row.currentStep == Some(s) && row.state.books.attempts[s] <= row.maxRetries
  {
    hide StartedTo, Markers;
    var books := row.state.books;
    match row.currentStep
    case None =>
    case Some(s) =>
      assert books.errors.Keys <= {s} && books.attempts.Keys <= {s};
      SubsetSize(books.errors.Keys, {s});
      SubsetSize(books.attempts.Keys, {s});
  }

  /** No assertion of a handler fires in any drive of any history: the markers the earlier steps leave are
      there. What a handler can still refuse by itself is an engine type that has no engine. */
  lemma AssertsNeverFire(cfg: Settings, first: Run, now: Time, ms: seq<Move>, w: nat)
    requires Triggered(first, now) && Legal(Fresh(cfg, first, now), ms)
    requires var s := Reached(Fresh(cfg, first, now), ms); w in s.flights && s.flights[w].drive.pc.CheckBudget?
    ensures var d := Reached(Fresh(cfg, first, now), ms).flights[w].drive;
            FirstMove(d.run, d.pc.step).outcome.Raises?
            ==> d.pc.step == RunEngine && !d.run.state.request.workflow.engineType.Airflow?
  {
    hide Chained, Row, RowGate, KeysBounded, Justified, Legal, Driving, DriveGate, MovedOn, FirstMove;
    FreshIsSafe(cfg, first, now);
    HistoriesAreSafe(first, Fresh(cfg, first, now), ms);
    var s := Reached(Fresh(cfg, first, now), ms);
    FirstMoveKeeps(s.flights[w].drive, s.now);
  }
}
