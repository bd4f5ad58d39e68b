/** How many incidents a run opens, over whole histories: one while drives neither overlap, nor die once they
    have asked for one, nor fail to save; and without that, exactly when the failure that was paged was lost. */
module Incidents {
  import opened Domain
  import opened Drives
  import opened Totality
  import opened StoredRows
  import opened Bookkeeping
  import opened Escalation
  import opened Histories
  import opened Gates
  import opened Safety
  import opened Playback

  // --- The incidents of one drive ---

  /** At most one incident, and perhaps the default team's own record of another team's. */
  predicate OneIncident(pages: seq<Event>, defaultTeam: string) {
    |pages| <= 2
    && (forall i :: 0 <= i < |pages| ==> pages[i].call.OpenIncident?)
    && (|pages| == 2 ==> pages[0].call.group != defaultTeam && pages[1].call.group == defaultTeam)
  }

  /** What a drive has asked for so far: nothing until it pages, and then as its place in the escalation says. */
  predicate PagedSo(d: Drive, pages: seq<Event>) {
    OneIncident(pages, d.cfg.defaultTeam)
    && (d.escalations == 0 || d.pc.Paging? ==> pages == [])
    && (d.pc.Paging? ==> d.escalations > 0)
    && (d.pc.Documenting? ==> d.escalations > 0 && |pages| == 1 && pages[0].call.group != d.cfg.defaultTeam)
  }

  lemma PagesStep(d: Drive, a: Answer, pages: seq<Event>)
    requires !d.pc.Finished? && Fits(NextCall(d), a) && Shape(d) && PagedSo(d, pages)
    ensures PagedSo(Resume(d, a), pages + PagesOf(Event(NextCall(d), a)))
  {
    hide NextMove, FirstMove, React, Fail, Crash, Release, Refuse, Backoff, ResponsibleGroup;
    ResumeKeepsCfg(d, a);
    if d.pc.Paging? || d.pc.Documenting? {
      PagesAnswered(d, a, pages);
    } else {
      assert pages + PagesOf(Event(NextCall(d), a)) == pages;
      QuietStep(d, a, pages);
    }
  }

  lemma PagesAnswered(d: Drive, a: Answer, pages: seq<Event>)
    requires (d.pc.Paging? || d.pc.Documenting?) && Fits(NextCall(d), a) && Shape(d) && PagedSo(d, pages)
    ensures PagedSo(Resume(d, a), pages + PagesOf(Event(NextCall(d), a)))
  {
    hide Release, Refuse;
    EndsQuietly(Noted(d, a));
    EndsQuietly(d);
  }

  /** On from `d` without an incident in sight. */
  predicate Quiet(d: Drive, d': Drive) {
    d'.cfg == d.cfg && d'.escalations == d.escalations && !d'.pc.Paging? && !d'.pc.Documenting?
  }

  lemma EndsQuietly(d: Drive)
    ensures Quiet(d, Release(d, true)) && Quiet(d, Release(d, false)) && Quiet(d, Refuse(d))
  {
  }

  /** A call that opens no incident: the drive is not about to page either, or it starts to escalate. */
  lemma QuietStep(d: Drive, a: Answer, pages: seq<Event>)
    requires !d.pc.Finished? && !d.pc.Paging? && !d.pc.Documenting? && Fits(NextCall(d), a) && Shape(d) && PagedSo(d, pages)
    ensures PagedSo(Resume(d, a), pages)
  {
    hide NextMove, FirstMove, React, Fail, Crash, Release, Refuse, Backoff, NextCall;
    ResumeKeepsCfg(d, a);
    if InStep(d.pc) {
      NextMoveAsks(d, a);
      ReactEscalates(d, StepOf(d.pc), NextMove(d, a));
    } else if d.pc.CheckBudget? {
      FirstMoveAsks(d.run, d.pc.step);
      ReactEscalates(d, d.pc.step, FirstMove(d.run, d.pc.step));
      FailEscalates(d, d.pc.step, DeadlineExceeded);
    } else if Escalating(d.pc) {
      EndsQuietly(Noted(d, a));
    } else if d.pc.Saving? {
      CrashEscalates(d);
    }
  }

  /** A failure that escalates counts it, and has not paged yet. */
  predicate Begun(d: Drive, d': Drive) {
    !d'.pc.Documenting? && d'.escalations >= d.escalations && (d'.pc.Paging? ==> d'.escalations == d.escalations + 1)
  }

  lemma FailEscalates(d: Drive, s: StepName, e: Error)
    ensures Begun(d, Fail(d, s, e))
  {
    hide FailedState, RetryState;
  }

  lemma CrashEscalates(d: Drive)
    ensures Begun(d, Crash(d)) && (d.run.status.Failed? ==> !Crash(d).pc.Paging?)
  {
    hide WithError;
  }

  lemma ReactEscalates(d: Drive, s: StepName, h: Handled)
    requires h.outcome.Asks? ==> InStep(h.outcome.pc)
    ensures Begun(d, React(d, s, h))
  {
    hide Fail, Crash, Settle, Release, Plan, IndexInPlan, WithError;
    var d' := WithState(d, h.st);
    CrashEscalates(WithState(d', Settle(h.st, s)));
    EndsQuietly(Ended(d', Rejected, WithError(h.st, s, Denial)));
    if h.outcome.Raises? {
      FailEscalates(d', s, h.outcome.error);
    }
  }

  lemma {:induction false} TracePages(d: Drive, es: seq<Event>, pages: seq<Event>)
    requires IsTrace(d, es) && Shape(d) && PagedSo(d, pages)
    ensures PagedSo(After(d, es), pages + Pages(es)) && After(d, es).cfg == d.cfg
    decreases |es|
  {
    hide Resume, NextCall, Fits, Shape, PagedSo;
    if es == [] {
      assert pages + Pages(es) == pages;
    } else {
      PagesStep(d, es[0].answer, pages);
      ResumeShape(d, es[0].answer);
      ResumeKeepsCfg(d, es[0].answer);
      TracePages(Resume(d, es[0].answer), es[1..], pages + PagesOf(es[0]));
      assert pages + Pages(es) == pages + PagesOf(es[0]) + Pages(es[1..]);
    }
  }

  /** Whatever a drive hears, it asks for at most one incident, and perhaps the default team's record of it. */
  lemma OneIncidentPerDrive(cfg: Settings, run: Run, es: seq<Event>)
    requires IsTrace(Start(cfg, run), es)
    ensures OneIncident(Pages(es), cfg.defaultTeam)
    ensures Pages(es) != [] ==> After(Start(cfg, run), es).escalations > 0
  {
    hide IsTrace, After, Shape;
    StartShape(cfg, run);
    assert PagedSo(Start(cfg, run), []);
    TracePages(Start(cfg, run), es, []);
    assert [] + Pages(es) == Pages(es);
  }

  // --- One incident per run ---

  predicate UnderWayIn(s: System, w: nat) {
    w in s.flights && !s.flights[w].drive.pc.Finished?
  }

  ghost predicate Idle(s: System) {
    forall w :: !UnderWayIn(s, w)
  }

  /** The histories in which a run opens one incident: no drive starts beside another, no save fails, and no
      drive that has asked for an incident dies before its end. Wakes, claims and any other death are free. */
  ghost predicate Careful(s: System, m: Move) {
    Enabled(s, m)
    && match m
       case Load(_) => Idle(s)
       case Hear(_, a) => !a.SaveFailed?
       case Die(w) => !UnderWayIn(s, w) || Pages(s.flights[w].heard) == []
       case _ => true
  }

  ghost predicate AllCareful(s: System, ms: seq<Move>)
    decreases |ms|
  {
    ms == [] || (Careful(s, ms[0]) && AllCareful(Apply(s, ms[0]), ms[1..]))
  }

  /** Whatever was asked for, the drive under way asked for it; and when none is, the run is stored FAILED. */
  ghost predicate Contained(s: System) {
    && OneIncident(Pages(s.log), s.cfg.defaultTeam)
    && (forall v, w :: UnderWayIn(s, v) && UnderWayIn(s, w) ==> v == w)
    && (forall w :: UnderWayIn(s, w) ==>
          s.flights[w].base.version == s.row.version && Pages(s.log) == Pages(s.flights[w].heard))
    && (Pages(s.log) != [] && Idle(s) ==> s.row.status.Failed?)
  }

  lemma QuietMoveContained(first: Run, s: System, m: Move)
    requires Careful(s, m) && Chained(first, s) && Contained(s) && !m.Hear?
    ensures Contained(Apply(s, m))
  {
    hide Heard, Serial, FlightOk, OneIncident, Start;
    var s' := Apply(s, m);
    if m.Load? {
      Loads(s, m.worker);
      UnderWayIsUnfinished(s.cfg, s.row);
      assert forall v :: UnderWayIn(s', v) ==> v == m.worker || UnderWayIn(s, v);
      assert Pages([]) == [];
      assert UnderWayIn(s', m.worker) <==> !s.row.status.Terminal();
    } else if m.Die? {
      Dies(s, m.worker);
      assert forall v :: UnderWayIn(s', v) ==> UnderWayIn(s, v);
      if UnderWayIn(s, m.worker) {
        assert Pages(s.log) == [];
      } else {
        assert forall v :: UnderWayIn(s, v) ==> UnderWayIn(s', v);
      }
    } else {
      assert forall v :: UnderWayIn(s', v) <==> UnderWayIn(s, v);
    }
  }

  lemma UnderWayIsUnfinished(cfg: Settings, row: Run)
    ensures !Start(cfg, row).pc.Finished? <==> !row.status.Terminal()
  {
  }

  /** The one drive under way hears an answer to a call that is not a save. */
  lemma CallContained(first: Run, s: System, w: nat, a: Answer)
    requires Careful(s, Hear(w, a)) && Chained(first, s) && Contained(s) && !s.flights[w].drive.pc.Saving?
    ensures Contained(Apply(s, Hear(w, a)))
  {
    hide Serial, OneIncident, Start, Resume, NextCall, Fits, IsTrace, After, Kept, Shape;
    var f := s.flights[w];
    var e := Event(NextCall(f.drive), a);
    assert UnderWayIn(s, w);
    HearKeepsFlight(s, w, a);
    Hears(s, w, a);
    PagesJoin(s.log, [e]);
    PagesJoin(f.heard, [e]);
    OneIncidentPerDrive(s.cfg, f.base, f.heard + [e]);
    FinishedOnlySaves(f.drive, a);
    var s' := Apply(s, Hear(w, a));
    assert forall v :: UnderWayIn(s', v) <==> UnderWayIn(s, v);
  }

  lemma SaveContained(first: Run, s: System, w: nat, a: Answer)
    requires Careful(s, Hear(w, a)) && Chained(first, s) && Contained(s) && s.flights[w].drive.pc.Saving?
    ensures Contained(Apply(s, Hear(w, a)))
  {
    hide Serial, OneIncident, Start, Resume, NextCall, Fits, IsTrace, After, Kept, Shape;
    var e := Event(NextCall(s.flights[w].drive), a);
    assert UnderWayIn(s, w);
    SaveEnds(s, w, a);
    PagesJoin(s.log, [e]);
    SaveIsNoPage(s.flights[w].drive, a);
    var s' := Apply(s, Hear(w, a));
    assert s'.log == s.log + [e] && Pages(s'.log) == Pages(s.log) + [] == Pages(s.log);
    assert forall v :: UnderWayIn(s', v) ==> UnderWayIn(s, v);
    assert Idle(s');
  }

  lemma SaveIsNoPage(d: Drive, a: Answer)
    requires d.pc.Saving?
    ensures Pages([Event(NextCall(d), a)]) == []
  {
    PagesOfOne(Event(NextCall(d), a));
  }

  /** The only drive's save goes through, and what it saves after asking for an incident is FAILED. */
  lemma SaveEnds(s: System, w: nat, a: Answer)
    requires Enabled(s, Hear(w, a)) && !a.SaveFailed? && FlightOk(s, s.flights[w])
    requires s.flights[w].drive.pc.Saving? && s.flights[w].base.version == s.row.version
    ensures a.SaveOk? && Apply(s, Hear(w, a)).flights[w].drive.pc.Finished?
    ensures Pages(s.flights[w].heard) != [] ==> Apply(s, Hear(w, a)).row.status.Failed?
  {
    hide Start, IsTrace, After;
    var f := s.flights[w];
    OneIncidentPerDrive(s.cfg, f.base, f.heard);
  }

  lemma {:induction false} CarefulIsContained(first: Run, s: System, ms: seq<Move>)
    requires Legal(s, ms) && AllCareful(s, ms) && Chained(first, s) && Contained(s)
    ensures Contained(Reached(s, ms)) && Chained(first, Reached(s, ms))
    decreases |ms|
  {
    hide Chained, Contained, Apply, NextCall, Fits;
    if ms != [] {
      if ms[0].Hear? {
        if s.flights[ms[0].worker].drive.pc.Saving? {
          SaveContained(first, s, ms[0].worker, ms[0].answer);
        } else {
          CallContained(first, s, ms[0].worker, ms[0].answer);
        }
        HearKeepsChain(first, s, ms[0].worker, ms[0].answer);
      } else {
        QuietMoveContained(first, s, ms[0]);
        ReadKeepsChain(first, s, ms[0]);
      }
      CarefulIsContained(first, Apply(s, ms[0]), ms[1..]);
    }
  }

  /** While drives do not overlap, do not die once they have asked for an incident, and do not fail to save, a
      run asks for at most one incident, and perhaps the default team's record of it; and it is stored FAILED
      as soon as no drive is under way. */
  lemma OneIncidentPerRun(cfg: Settings, first: Run, now: Time, ms: seq<Move>)
    requires first.status.Terminal() <==> first.scheduledAt.None?
    requires Legal(Fresh(cfg, first, now), ms) && AllCareful(Fresh(cfg, first, now), ms)
    ensures var s := Reached(Fresh(cfg, first, now), ms);
            && OneIncident(Pages(s.log), cfg.defaultTeam)
            && (Pages(s.log) != [] && Idle(s) ==> s.row.status.Failed?)
            && (s.row.status.Completed? || s.row.status.Rejected? ==> Pages(s.log) == [])
  {
    hide FlightOk, Enabled, Apply, OneIncident, OneDrive;
    var s0 := Fresh(cfg, first, now);
    assert OneIncident(Pages(s0.log), cfg.defaultTeam) by { NoPages(cfg); }
    CarefulIsContained(first, s0, ms);
    CfgStays(s0, ms);
    var s := Reached(s0, ms);
    if w :| UnderWayIn(s, w) {
      TerminalIsNotUnderWay(s, w);
    }
  }

  lemma NoPages(cfg: Settings)
    ensures OneIncident(Pages([]), cfg.defaultTeam)
  {
  }

  /** A drive under way whose base is still the stored version has an unfinished row. */
  lemma TerminalIsNotUnderWay(s: System, w: nat)
    requires UnderWayIn(s, w) && FlightOk(s, s.flights[w]) && s.flights[w].base.version == s.row.version
    ensures !s.row.status.Terminal()
  {
    hide Start, Shape, Kept;
    var f := s.flights[w];
    if s.row.status.Terminal() {
      TerminalIsLeftAlone(s.cfg, f.base, f.heard);
    }
  }

  // --- Incidents of runs that did not fail ---

  /** The drives that died, or whose worker went on to another run. */
  function Gone(s: System, ms: seq<Move>): seq<Flight>
    requires Legal(s, ms)
    decreases |ms|
  {
    if ms == [] then []
    else (if ms[0].Die? then [s.flights[ms[0].worker]] else []) + Gone(Apply(s, ms[0]), ms[1..])
  }

  /** A drive of this history. */
  ghost predicate Flew(f: Flight, s: System, gone: seq<Flight>) {
    f in gone || exists w :: w in s.flights && s.flights[w] == f
  }

  /** A save of a FAILED run that went through. */
  predicate StoresFailed(e: Event) {
    e.call.SaveRun? && e.call.run.status.Failed? && Applied(e.answer)
  }

  predicate FailedSaved(es: seq<Event>) {
    exists i :: 0 <= i < |es| && StoresFailed(es[i])
  }

  /** Every incident is on record with the drive that asked for it, and a stored failure is the row's. */
  ghost predicate Accounted(s: System, gone: seq<Flight>) {
    && (Pages(s.log) != [] ==> exists f :: Flew(f, s, gone) && Pages(f.heard) != [])
    && (forall f :: Flew(f, s, gone) && Pages(f.heard) != [] ==> Pages(s.log) != [])
    && (forall f :: Flew(f, s, gone) && FailedSaved(f.heard) ==> s.row.status.Failed?)
  }

  lemma FlightMoves(s: System, s': System, w: nat, f': Flight, gone: seq<Flight>)
    requires w in s.flights && s'.flights == s.flights[w := f']
    ensures Flew(s.flights[w], s, gone) && Flew(f', s', gone)
    ensures forall g :: Flew(g, s', gone) ==> g == f' || Flew(g, s, gone)
    ensures forall g :: Flew(g, s, gone) ==> g == s.flights[w] || Flew(g, s', gone)
  {
    forall g | Flew(g, s, gone) ensures g == s.flights[w] || Flew(g, s', gone) {
      if g !in gone {
        var v :| v in s.flights && s.flights[v] == g;
        assert v in s'.flights && (v == w || s'.flights[v] == g);
      }
    }
    assert w in s'.flights && s'.flights[w] == f';
  }

  /** What an answer changes, as far as incidents and stored failures go. */
  lemma HeardOne(first: Run, s: System, w: nat, a: Answer)
    requires Enabled(s, Hear(w, a)) && Chained(first, s)
    ensures var f := s.flights[w]; var e := Event(NextCall(f.drive), a); var s' := Apply(s, Hear(w, a));
            && w in s'.flights && s'.flights == s.flights[w := s'.flights[w]]
            && s'.flights[w].heard == f.heard + [e] && s'.log == s.log + [e]
            && (s.row.status.Failed? || StoresFailed(e) ==> s'.row.status.Failed?)
  {
    hide Serial, FlightOk, Start, Resume, Fits, Chained;
    FailedStays(first, s, w, a);
    NotSaving(s.flights[w].drive);
  }

  lemma HearAccounted(first: Run, s: System, w: nat, a: Answer, gone: seq<Flight>)
    requires Enabled(s, Hear(w, a)) && Chained(first, s) && Accounted(s, gone)
    ensures Accounted(Apply(s, Hear(w, a)), gone)
  {
    hide Chained, Apply, Flew, NextCall, Fits, SaveFits;
    HeardOne(first, s, w, a);
    var f := s.flights[w];
    var e := Event(NextCall(f.drive), a);
    var s' := Apply(s, Hear(w, a));
    var f' := s'.flights[w];
    FlightMoves(s, s', w, f', gone);
    PagesJoin(f.heard, [e]);
    PagesJoin(s.log, [e]);
    if Pages(s'.log) != [] && Pages([e]) == [] {
      var g :| Flew(g, s, gone) && Pages(g.heard) != [];
      assert g == f || Flew(g, s', gone);
    }
    SavedOneMore(f.heard, e);
  }

  lemma SavedOneMore(es: seq<Event>, e: Event)
    ensures FailedSaved(es + [e]) <==> FailedSaved(es) || StoresFailed(e)
  {
    if FailedSaved(es) {
      var i :| 0 <= i < |es| && StoresFailed(es[i]);
      assert StoresFailed((es + [e])[i]);
    }
    if StoresFailed(e) {
      assert StoresFailed((es + [e])[|es|]);
    }
  }

  lemma FailedStays(first: Run, s: System, w: nat, a: Answer)
    requires Enabled(s, Hear(w, a)) && Chained(first, s)
    ensures s.row.status.Failed? ==> Apply(s, Hear(w, a)).row.status.Failed?
  {
    hide Enabled, Apply, Chained;
    if s.row.status.Failed? {
      TerminalRowStays(first, s, Hear(w, a));
    }
  }

  lemma QuietMoveAccounted(s: System, m: Move, gone: seq<Flight>)
    requires Enabled(s, m) && !m.Hear? && Accounted(s, gone)
    ensures Accounted(Apply(s, m), gone + if m.Die? then [s.flights[m.worker]] else [])
  {
    hide Heard, Start;
    var s' := Apply(s, m);
    var gone' := gone + if m.Die? then [s.flights[m.worker]] else [];
    if m.Load? {
      Loads(s, m.worker);
      assert Pages([]) == [];
    } else if m.Die? {
      Dies(s, m.worker);
    }
    forall f | Flew(f, s, gone) ensures Flew(f, s', gone') {
      if w :| w in s.flights && s.flights[w] == f {
        assert w in s'.flights || f in gone';
      }
    }
    forall f | Flew(f, s', gone') ensures Flew(f, s, gone) || (m.Load? && f == s'.flights[m.worker]) {
    }
  }

  lemma EnabledDie(s: System, m: Move)
    requires Enabled(s, m)
    ensures m.Die? ==> m.worker in s.flights
  {
  }

  lemma {:induction false} HistoriesAccounted(first: Run, s: System, ms: seq<Move>, gone: seq<Flight>)
    requires Legal(s, ms) && Chained(first, s) && Accounted(s, gone)
    ensures Accounted(Reached(s, ms), gone + Gone(s, ms))
    decreases |ms|
  {
    hide Chained, Accounted, Enabled, Apply;
    if ms == [] {
      assert gone + Gone(s, ms) == gone;
    } else {
      var m := ms[0];
      assert m.Die? ==> m.worker in s.flights by { EnabledDie(s, m); }
      var gone' := gone + if m.Die? then [s.flights[m.worker]] else [];
      if m.Hear? {
        HearAccounted(first, s, m.worker, m.answer, gone);
        HearKeepsChain(first, s, m.worker, m.answer);
        assert gone' == gone;
      } else {
        QuietMoveAccounted(s, m, gone);
        ReadKeepsChain(first, s, m);
      }
      HistoriesAccounted(first, Apply(s, m), ms[1..], gone');
      assert gone' + Gone(Apply(s, m), ms[1..]) == gone + Gone(s, ms);
    }
  }

  /** A drive that asked for an incident, and whose failure was not stored. */
  predicate LostItsFailure(f: Flight) {
    Pages(f.heard) != [] && !FailedSaved(f.heard)
  }

  /** A run stored COMPLETED or REJECTED asked for an incident exactly when one of its drives, dead ones included,
      asked for one and lost its failure: no save of it went through. Over every history. */
  lemma UnfailedRunsPageWhenAFailureIsLost(cfg: Settings, first: Run, now: Time, ms: seq<Move>)
    requires first.status.Terminal() <==> first.scheduledAt.None?
    requires Legal(Fresh(cfg, first, now), ms)
    ensures var s := Reached(Fresh(cfg, first, now), ms); var gone := Gone(Fresh(cfg, first, now), ms);
            s.row.status.Completed? || s.row.status.Rejected? ==>
              (Pages(s.log) != [] <==> exists f :: Flew(f, s, gone) && LostItsFailure(f))
  {
    hide FlightOk, Enabled, Apply, OneDrive;
    var s0 := Fresh(cfg, first, now);
    HistoriesAccounted(first, s0, ms, []);
    assert [] + Gone(s0, ms) == Gone(s0, ms);
  }

  /** How a drive can lose its failure: it is not over (under way, or dead before its end), or its last save was
      stale, or failed without a commit. */
  lemma HowFailuresAreLost(cfg: Settings, f: Flight)
    requires IsTrace(Start(cfg, f.base), f.heard) && f.drive == After(Start(cfg, f.base), f.heard)
    requires LostItsFailure(f) && f.drive.pc.Finished?
    ensures f.heard != []
    ensures var last := f.heard[|f.heard| - 1];
            last.call.SaveRun? && last.call.run.status.Failed? && (last.answer == SaveStale || last.answer == SaveFailed(false))
  {
    hide Start, Shape, IsTrace, After, Resume, NextCall, Fits;
    var d0 := Start(cfg, f.base);
    assert f.heard != [] by { assert Pages([]) == []; }
    var n := |f.heard| - 1;
    LastEvent(d0, f.heard);
    var d := After(d0, f.heard[..n]);
    var last := f.heard[n];
    StartShape(cfg, f.base);
    TraceShape(d0, f.heard[..n]);
    FinishesBySaving(d, last.answer);
    PagesJoin(f.heard[..n], [last]);
    assert f.heard == f.heard[..n] + [last];
    SaveIsNoPage(d, last.answer);
    OneIncidentPerDrive(cfg, f.base, f.heard[..n]);
    ShapeOfEscalated(d);
    SavedOneMore(f.heard[..n], last);
    SavesItsRun(d, last.answer);
  }

  lemma SavesItsRun(d: Drive, a: Answer)
    requires d.pc.Saving? && Fits(NextCall(d), a)
    ensures NextCall(d) == SaveRun(d.run) && (a.SaveOk? || a.SaveStale? || a.SaveFailed?)
  {
  }

  lemma ShapeOfEscalated(d: Drive)
    requires Shape(d) && d.escalations > 0
    ensures d.run.status.Failed?
  {
  }

  lemma FinishesBySaving(d: Drive, a: Answer)
    requires !d.pc.Finished? && Fits(NextCall(d), a) && Resume(d, a).pc.Finished?
    ensures d.pc.Saving?
  {
    if !d.pc.Saving? {
      FinishedOnlySaves(d, a);
    }
  }

  lemma {:induction false} LastEvent(d: Drive, es: seq<Event>)
    requires IsTrace(d, es) && es != []
    ensures var n := |es| - 1;
            && IsTrace(d, es[..n]) && !After(d, es[..n]).pc.Finished?
            && es[n].call == NextCall(After(d, es[..n])) && Fits(es[n].call, es[n].answer)
            && After(d, es) == Resume(After(d, es[..n]), es[n].answer)
    decreases |es|
  {
    hide Resume, NextCall, Fits;
    var n := |es| - 1;
    if n == 0 {
      assert es[..0] == [] && es[1..] == [];
    } else {
      LastEvent(Resume(d, es[0].answer), es[1..]);
      assert es[..n][1..] == es[1..][..n - 1];
    }
  }
}
