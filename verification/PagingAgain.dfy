/** Any run that is not over can still be failed and paged, by answers alone: so a run can get another incident
    whenever the failure it was paged for was not stored. */
module PagingAgain {
  import opened Domain
  import opened Drives
  import opened Totality
  import opened StoredRows
  import opened Bookkeeping
  import opened Escalation
  import opened Histories
  import opened Gates
  import opened Safety
  import opened Playback
  import opened Incidents
  import opened Retries

  /** The step a row is driven from. */
  function StepOfRow(row: Run): StepName {
    row.currentStep.GetOr(Plan(row.runType)[0])
  }

  function RetriesLeft(row: Run): int {
    row.maxRetries - Attempts(row.state.books, StepOfRow(row))
  }

  /** A step failing that has an attempt of its own, and a failure that is not a refused request. */
  predicate Failing(d: Drive, s: StepName, e: Error, row: Run, cfg: Settings) {
    && (e.DeadlineExceeded? || e.Unclassified?)
    && s == StepOfRow(row) && d.run.currentStep == Some(s) && d.run.status.Running? && d.cfg == cfg
    && d.run.maxRetries == row.maxRetries && d.run.version == row.version
    && Attempts(d.run.state.books, s) == Attempts(row.state.books, s)
  }

  /** What a handler finds at its step is work to do. */
  lemma HasWork(d: Drive, now: Time)
    requires d.pc.CheckBudget? && Driving(d, now)
    ensures var h := FirstMove(d.run, d.pc.step);
            (h.outcome.Asks? && FirstCall(h.outcome.pc)
                  && StepOf(h.outcome.pc) == d.pc.step) || h.outcome == Raises(Unclassified)
    ensures FirstMove(d.run, d.pc.step).st.books == d.run.state.books
  {
    hide StartedTo, CountedFor, Plan;
    FirstMoveAsks(d.run, d.pc.step);
  }

  /** From the budget check on: past it, or the handler raises, or its first call does. */
  lemma FailsFromCheck(d: Drive, row: Run, now: Time) returns (es: seq<Event>, f: Drive, e: Error)
    requires d.pc.CheckBudget? && Driving(d, now) && Failing(d, d.pc.step, Unclassified, row, d.cfg)
    ensures IsTrace(d, es) && NoSaveAt(es, now) && Pages(es) == []
    ensures Failing(f, d.pc.step, e, row, d.cfg) && After(d, es) == Fail(f, d.pc.step, e)
  {
    hide StartedTo, CountedFor, Markers, Fail, FirstMove, Complete, Reject, Row, Over, AtStep, AtHead;
    var s := d.pc.step;
    var clock := Event(ReadClock, Clock(now));
    var d1 := Resume(d, Clock(now));
    HasWork(d, now);
    var h := FirstMove(d.run, s);
    NoEvents(d1);
    if now - d.pc.started > MaxDuration(s) || h.outcome.Raises? {
      f, e := if now - d.pc.started > MaxDuration(s) then d else WithState(d, h.st),
              if now - d.pc.started > MaxDuration(s) then DeadlineExceeded else Unclassified;
      TracePrepends(d, clock, []);
      es := [clock] + [];
      QuietPages(es);
    } else {
      var refusal := Event(NextCall(d1), Raised(false, false));
      f, e := WithState(d1, d1.run.state), Unclassified;
      FirstCallRaises(d1, s, false);
      NoEvents(Resume(d1, Raised(false, false)));
      TracePrepends(d1, refusal, []);
      TracePrepends(d, clock, [refusal] + []);
      es := [clock] + ([refusal] + []);
      QuietPages(es);
    }
  }

  /** A handler's first call that raises fails its step, whether it took effect or not. */
  lemma FirstCallRaises(d: Drive, s: StepName, applied: bool)
    requires InStep(d.pc) && StepOf(d.pc) == s && FirstCall(d.pc)
    ensures Fits(NextCall(d), Raised(false, applied)) && !NextCall(d).SaveRun? && !NextCall(d).OpenIncident?
    ensures Resume(d, Raised(false, applied)) == Fail(WithState(d, d.run.state), s, Unclassified)
  {
    hide Fail, Rekey, FinalizeFields;
  }

  /** The calls a handler may begin with. */
  predicate FirstCall(pc: Pc) {
    InStep(pc) && !pc.FetchingOutput? && !pc.FetchingFailure?
  }

  /** From the load on. */
  lemma FailsAtOnce(cfg: Settings, row: Run, now: Time) returns (es: seq<Event>, f: Drive, e: Error)
    requires Row(row, now) && !row.status.Terminal()
    ensures IsTrace(Start(cfg, row), es) && NoSaveAt(es, now) && Pages(es) == []
    ensures Failing(f, StepOfRow(row), e, row, cfg) && After(Start(cfg, row), es) == Fail(f, StepOfRow(row), e)
  {
    hide StartedTo, CountedFor, Markers, Fail, FirstMove, React, Row, Over, AtStep, AtHead;
    var s := StepOfRow(row);
    var clock := Event(ReadClock, Clock(now));
    var d := Start(cfg, row);
    StartKeeps(cfg, row, now);
    HeadOf(cfg, row, now);
    var d1 := Resume(d, Clock(now));
    ResumeKeeps(d, Clock(now), now, now);
    if d1.pc.StartAttempt? {
      var d2 := Resume(d1, Clock(now));
      ResumeKeeps(d1, Clock(now), now, now);
      var more;
      more, f, e := FailsFromCheck(d2, row, now);
      TracePrepends(d1, clock, more);
      TracePrepends(d, clock, [clock] + more);
      es := [clock] + ([clock] + more);
      PagesJoin([clock], [clock] + more);
      PagesJoin([clock], more);
    } else {
      var more;
      more, f, e := FailsFromCheck(d1, row, now);
      TracePrepends(d, clock, more);
      es := [clock] + more;
      PagesJoin([clock], more);
    }
    QuietPages([clock]);
  }

  lemma HeadOf(cfg: Settings, row: Run, now: Time)
    requires Row(row, now) && !row.status.Terminal()
    ensures var d := Start(cfg, row); var d1 := Resume(d, Clock(now)); var s := StepOfRow(row);
            && d.pc == Begin(s) && Failing(d, s, Unclassified, row, cfg)
            && Failing(d1, s, Unclassified, row, cfg)
            && (d1.pc == StartAttempt(s) || (d1.pc.CheckBudget? && d1.pc.step == s))
            && (d1.pc == StartAttempt(s) ==>
                  var d2 := Resume(d1, Clock(now));
                  d2.pc == CheckBudget(s, now) && Failing(d2, s, Unclassified, row, cfg))
  {
    hide StartedTo, CountedFor, Markers, Over;
  }

  // --- Carefully ---

  lemma {:induction false} CarefulJoins(s: System, a: seq<Move>, b: seq<Move>)
    requires Legal(s, a) && AllCareful(s, a) && AllCareful(Reached(s, a), b)
    ensures AllCareful(s, a + b)
    decreases |a|
  {
    hide Careful, Apply, Enabled;
    if a == [] {
      assert a + b == b;
    } else {
      CarefulJoins(Apply(s, a[0]), a[1..], b);
      assert (a + b)[1..] == a[1..] + b;
    }
  }

  lemma {:induction false} PlaysCarefully(s: System, w: nat, es: seq<Event>)
    requires w in s.flights && IsTrace(s.flights[w].drive, es) && NoSaveAt(es, s.now)
    ensures AllCareful(s, HeardBy(w, es))
    decreases |es|
  {
    hide IsTrace, Enabled, Apply, NoSaveAt, Further;
    if es != [] {
      PlaysOne(s, w, es);
      NoSaveAnswer(s, w, es);
      PlaysCarefully(Apply(s, Hear(w, es[0].answer)), w, es[1..]);
    }
  }

  lemma NoSaveAnswer(s: System, w: nat, es: seq<Event>)
    requires es != [] && w in s.flights && IsTrace(s.flights[w].drive, es) && NoSaveAt(es, s.now)
    ensures !es[0].answer.SaveFailed?
  {
    hide Resume, NextCall, Fits;
    assert !es[0].call.SaveRun?;
    OnlySavesFail(es[0].call, es[0].answer);
  }

  lemma OnlySavesFail(c: Call, a: Answer)
    requires Fits(c, a) && !c.SaveRun?
    ensures !a.SaveFailed?
  {
  }

  lemma OneCareful(s: System, m: Move)
    requires Careful(s, m)
    ensures AllCareful(s, [m])
  {
    hide Careful, Apply, Enabled;
    assert [m][1..] == [];
  }

  /** Loading a run and hearing answers; careful if nobody else drives it. */
  lemma LoadedAndHeard(s: System, w: nat, es: seq<Event>)
    requires w !in s.flights && IsTrace(Start(s.cfg, s.row), es) && NoSaveAt(es, s.now)
    ensures Legal(s, [Load(w)] + HeardBy(w, es)) && (Idle(s) ==> AllCareful(s, [Load(w)] + HeardBy(w, es)))
    ensures Reached(s, [Load(w)] + HeardBy(w, es))
            == s.(flights := s.flights[w := Flight(s.row, es, After(Start(s.cfg, s.row), es), 0)], log := s.log + es)
  {
    hide Start, IsTrace, HeardBy, Enabled, Apply, NoSaveAt, After, UnderWayIn;
    Loads(s, w);
    var s1 := Apply(s, Load(w));
    Plays(s1, w, es);
    Prepend(s, Load(w), HeardBy(w, es));
    if Idle(s) {
      PlaysCarefully(s1, w, es);
      OneCareful(s, Load(w));
      assert Legal(s, [Load(w)]) && Reached(s, [Load(w)]) == s1 by {
        Prepend(s, Load(w), []);
        assert [Load(w)] + [] == [Load(w)];
      }
      CarefulJoins(s, [Load(w)], HeardBy(w, es));
    }
    assert [] + es == es;
    assert s.flights[w := Flight(s.row, [], Start(s.cfg, s.row), 0)][w := Flight(s.row, es, After(Start(s.cfg, s.row), es), 0)]
           == s.flights[w := Flight(s.row, es, After(Start(s.cfg, s.row), es), 0)];
  }

  /** A worker that has loaded and heard, and saves, and is done. */
  lemma SavedAndDone(s: System, w: nat, es: seq<Event>)
    requires w !in s.flights && IsTrace(Start(s.cfg, s.row), es) && NoSaveAt(es, s.now)
    requires var d := After(Start(s.cfg, s.row), es); d.pc.Saving? && d.run.version == s.row.version
    ensures Legal(s, SavedDrive(w, es)) && (Idle(s) ==> AllCareful(s, SavedDrive(w, es)))
  {
    hide Start, IsTrace, HeardBy, Enabled, Apply, NoSaveAt, After, Resume, NextCall, Fits;
    SavedDriveStores(s, w, es);
    if Idle(s) {
      LoadedAndHeard(s, w, es);
      var ms := [Load(w)] + HeardBy(w, es);
      var s2 := Reached(s, ms);
      Saves(s2, w);
      var s3 := Apply(s2, Hear(w, SaveOk));
      Append(s, ms, Hear(w, SaveOk));
      OneCareful(s2, Hear(w, SaveOk));
      CarefulJoins(s, ms, [Hear(w, SaveOk)]);
      Dies(s3, w);
      OneCareful(s3, Die(w));
      CarefulJoins(s, ms + [Hear(w, SaveOk)], [Die(w)]);
      assert SavedDrive(w, es) == ms + [Hear(w, SaveOk)] + [Die(w)];
    }
  }

  // --- The next incident ---

  lemma FailedThenPages(f: Drive, s: StepName, e: Error, ref: TicketRef)
    requires (e.DeadlineExceeded? || e.Unclassified?) && !MayRetry(f.run, s, e)
    ensures var d := Fail(f, s, e); d.pc.Paging? && NextCall(d).OpenIncident? && Fits(NextCall(d), Ticket(ref))
    ensures var d := Fail(f, s, e); var page := Event(NextCall(d), Ticket(ref));
            IsTrace(d, [page]) && Pages([page]) == [page]
  {
    var d := Fail(f, s, e);
    var page := Event(NextCall(d), Ticket(ref));
    NoEvents(Resume(d, Ticket(ref)));
    TracePrepends(d, page, []);
    assert [page] + [] == [page];
    PagesOfOne(page);
  }

  /** A retry, saved: the row is due again, one attempt further. */
  lemma RetrySaved(first: Run, s: System, w: nat, f: Drive, e: Error, es: seq<Event>) returns (ms: seq<Move>)
    requires w !in s.flights && Row(s.row, s.now) && !s.row.status.Terminal()
    requires IsTrace(Start(s.cfg, s.row), es) && NoSaveAt(es, s.now) && Pages(es) == []
    requires Failing(f, StepOfRow(s.row), e, s.row, s.cfg) && After(Start(s.cfg, s.row), es) == Fail(f, StepOfRow(s.row), e)
    requires MayRetry(f.run, StepOfRow(s.row), e)
    ensures Legal(s, ms) && (Idle(s) ==> AllCareful(s, ms))
    ensures var s' := Reached(s, ms);
            && Pages(s'.log) == Pages(s.log) && s'.flights == s.flights && s'.now == s.now && s'.cfg == s.cfg
            && !s'.row.status.Terminal() && RetriesLeft(s'.row) == RetriesLeft(s.row) - 1 >= 0
  {
    hide Start, IsTrace, After, Row, NoSaveAt, AllCareful, Legal, Reached, Fail, SavedDrive, Backoff;
    var step := StepOfRow(s.row);
    var jitter := Event(DrawJitter, Jitter(1.0));
    var clock := Event(ReadClock, Clock(s.now));
    RetryIsDueAfterBackoff(f, step, e, 1.0, s.now);
    TraceJoins(Start(s.cfg, s.row), es, [jitter, clock]);
    var all := es + [jitter, clock];
    assert NoSaveAt(all, s.now) by { QuietTail(es, jitter, clock, s.now); }
    ms := SavedDrive(w, all);
    SavedDriveStores(s, w, all);
    SavedAndDone(s, w, all);
    var run := After(Start(s.cfg, s.row), all).run;
    PagesJoin(s.log, all);
    PagesJoin(s.log + all, [Event(SaveRun(run), SaveOk)]);
    PagesJoin(es, [jitter, clock]);
    QuietPages([jitter, clock]);
    QuietPages([Event(SaveRun(run), SaveOk)]);
    assert Pages(s.log) + ([] + []) + [] == Pages(s.log);
  }

  lemma QuietTail(es: seq<Event>, jitter: Event, clock: Event, now: Time)
    requires NoSaveAt(es, now) && jitter == Event(DrawJitter, Jitter(1.0)) && clock == Event(ReadClock, Clock(now))
    ensures NoSaveAt(es + [jitter, clock], now)
  {
  }

  /** From any state of any history in which the run is not over, there are answers that page its failure; and if
      nobody drives the run, carefully: no save fails, no drives overlap, none dies. */
  lemma AnyUnfinishedRunCanPage(first: Run, s: System, w: nat, ref: TicketRef) returns (ms: seq<Move>)
    requires Chained(first, s) && Safe(s) && !s.row.status.Terminal() && w !in s.flights
    ensures Legal(s, ms) && (Idle(s) ==> AllCareful(s, ms))
    ensures var s' := Reached(s, ms);
            |Pages(s'.log)| == |Pages(s.log)| + 1 && Pages(s'.log)[|Pages(s.log)|].answer == Ticket(ref)
    decreases if RetriesLeft(s.row) < 0 then 0 else RetriesLeft(s.row)
  {
    hide Chained, Row, RowGate, SafeFlight, Justified, KeysBounded, Start, IsTrace, After, NoSaveAt, Fail, AllCareful,
         Legal, Reached, HeardBy, NextCall, Fits;
    var step := StepOfRow(s.row);
    var es, f, e := FailsAtOnce(s.cfg, s.row, s.now);
    if MayRetry(f.run, step, e) {
      var retry := RetrySaved(first, s, w, f, e, es);
      HistoriesAreSafe(first, s, retry);
      var more := AnyUnfinishedRunCanPage(first, Reached(s, retry), w, ref);
      ms := retry + more;
      Concatenate(s, retry, more);
      if Idle(s) {
        IdleSame(s, Reached(s, retry));
        CarefulJoins(s, retry, more);
      }
    } else {
      var d := Fail(f, step, e);
      FailedThenPages(f, step, e, ref);
      var page := Event(NextCall(d), Ticket(ref));
      TraceJoins(Start(s.cfg, s.row), es, [page]);
      assert NoSaveAt(es + [page], s.now) by { PageIsNoSave(es, page, s.now); }
      ms := [Load(w)] + HeardBy(w, es + [page]);
      LoadedAndHeard(s, w, es + [page]);
      PagesJoin(es, [page]);
      PagesJoin(s.log, es + [page]);
    }
  }

  lemma PageIsNoSave(es: seq<Event>, page: Event, now: Time)
    requires NoSaveAt(es, now) && page.call.OpenIncident? && page.answer.Ticket?
    ensures NoSaveAt(es + [page], now)
  {
  }

  lemma IdleSame(s: System, s': System)
    requires s.flights == s'.flights
    ensures Idle(s) ==> Idle(s')
  {
    if Idle(s) {
      assert forall w :: UnderWayIn(s', w) <==> UnderWayIn(s, w);
    }
  }

  /** Whatever the run and its type, and however it came there: a drive that is killed once it has paged, while the
      run is not stored as over, lets the run be paged again; and if it was the only drive, carefully. So of the
      conditions for one incident, that no drive dies between asking for one and its save cannot go. */
  lemma KilledOncePagedPagesAgain(cfg: Settings, first: Run, now: Time, ms: seq<Move>, w: nat, ref: TicketRef)
    returns (more: seq<Move>)
    requires Triggered(first, now) && Legal(Fresh(cfg, first, now), ms)
    requires var s := Reached(Fresh(cfg, first, now), ms);
             UnderWayIn(s, w) && Pages(s.flights[w].heard) != [] && !s.row.status.Terminal()
    ensures var s := Reached(Fresh(cfg, first, now), ms); var killed := s.(flights := s.flights - {w});
            && Legal(s, [Die(w)] + more)
            && (Idle(killed) ==> AllCareful(killed, more))
            && |Pages(Reached(s, [Die(w)] + more).log)| == |Pages(s.log)| + 1
  {
    hide Row, RowGate, SafeFlight, Justified, KeysBounded, Enabled, Apply, AllCareful;
    FreshIsSafe(cfg, first, now);
    HistoriesAreSafe(first, Fresh(cfg, first, now), ms);
    var s := Reached(Fresh(cfg, first, now), ms);
    Dies(s, w);
    var killed := s.(flights := s.flights - {w});
    KilledIsSafe(first, s, w);
    more := AnyUnfinishedRunCanPage(first, killed, w, ref);
    Prepend(s, Die(w), more);
  }

  lemma KilledIsSafe(first: Run, s: System, w: nat)
    requires Chained(first, s) && Safe(s) && w in s.flights
    ensures Chained(first, s.(flights := s.flights - {w})) && Safe(s.(flights := s.flights - {w}))
  {
    Dies(s, w);
    ReadKeepsChain(first, s, Die(w));
    LoadKeepsSafe(s, Die(w));
  }
}
