/** A run is REJECTED exactly when it was denied: over every history, a row that is REJECTED has a denial of its own ticket
    on the log; and a drive that hears one commits REJECTED, unless its save fails. */
module Denials {
  import opened Domain
  import opened Drives
  import opened Totality
  import opened StoredRows
  import opened Bookkeeping
  import opened Escalation
  import opened Histories
  import opened Gates
  import opened Safety
  import opened Playback

  predicate DenialAt(log: seq<Event>, i: nat, t: TicketRef) {
    i < |log| && log[i] == Event(PollApproval(t), Approval(Denied))
  }

  ghost predicate WasDenied(log: seq<Event>, ticket: Option<TicketRef>) {
    ticket.Some? && exists i: nat :: DenialAt(log, i, ticket.value)
  }

  // --- One call ---

  predicate Denies(e: Event) {
    e.call.PollApproval? && e.answer == Approval(Denied)
  }

  lemma EndsNotRejected(d: Drive, s: StepName, e: Error)
    requires d.run.status.Running?
    ensures !Fail(d, s, e).run.status.Rejected?
  {
    hide Escalate, FailedState, RetryState;
    EndingsOnly(Ended(d, RunStatus.Failed, FailedState(d.run.state, s, e)), e, false);
  }

  lemma CompletesNotRejected(d: Drive, s: StepName)
    requires d.run.status.Running?
    ensures !Complete(d, s).run.status.Rejected?
  {
    hide Escalate, Settle, WithError;
    var d' := d.(run := d.run.(state := Settle(d.run.state, s)));
    var st := if d'.run.currentStep.Some? then WithError(d'.run.state, d'.run.currentStep.value, Unclassified)
              else d'.run.state;
    EndingsOnly(Ended(d', RunStatus.Failed, st), Unclassified, true);
  }

  lemma ReactRejects(d: Drive, s: StepName, h: Handled)
    requires d.run.status.Running?
    ensures React(d, s, h).run.status.Rejected? <==> h.outcome.Denies?
    ensures h.outcome.Denies? ==> React(d, s, h).run.state.ticket == h.st.ticket
  {
    hide Fail, Complete, Release;
    var d' := WithState(d, h.st);
    CompletesNotRejected(d', s);
    EndingsOnly(Ended(d', Rejected, WithError(h.st, s, Denial)), Denial, false);
    if h.outcome.Raises? {
      EndsNotRejected(d', s, h.outcome.error);
    }
  }

  lemma MoveDenies(d: Drive, a: Answer)
    requires InStep(d.pc) && Fits(NextCall(d), a)
    ensures NextMove(d, a).outcome.Denies? <==> Denies(Event(NextCall(d), a))
    ensures NextMove(d, a).outcome.Denies? ==> NextMove(d, a).st == d.run.state && d.pc.AwaitingApproval?
  {
    hide Rekey, FinalizeFields;
  }

  lemma FirstMoveNeverDenies(run: Run, s: StepName)
    ensures !FirstMove(run, s).outcome.Denies?
  {
  }

  lemma EscalationKeepsRejected(d: Drive, a: Answer)
    requires Escalating(d.pc) && Fits(NextCall(d), a)
    ensures ResumeEscalation(d, a).run.status == d.run.status && ResumeEscalation(d, a).run.state.ticket == d.run.state.ticket
  {
    hide Release, Refuse, NextCall, ResponsibleGroup;
    EndingsOnly(Noted(d, a), Unclassified, true);
    EndingsOnly(Noted(d, a), Unclassified, false);
  }

  /** No call but a denial makes a run REJECTED, and none but a failed save makes it anything else again. */
  lemma ResumeRejects(d: Drive, a: Answer)
    requires !d.pc.Finished? && !d.pc.Saving? && Shape(d) && Fits(NextCall(d), a)
    ensures Resume(d, a).run.status.Rejected? <==> d.run.status.Rejected? || Denies(Event(NextCall(d), a))
    ensures d.run.status.Rejected? ==> Resume(d, a).run.state.ticket == d.run.state.ticket
    ensures Denies(Event(NextCall(d), a)) ==>
              d.pc.AwaitingApproval? && Resume(d, a).run.state.ticket == d.run.state.ticket
  {
    hide React, NextMove, FirstMove, Fail, ResumeEscalation, Backoff;
    if InStep(d.pc) {
      MoveDenies(d, a);
      ReactRejects(d, StepOf(d.pc), NextMove(d, a));
    } else if d.pc.CheckBudget? {
      FirstMoveNeverDenies(d.run, d.pc.step);
      ReactRejects(d, d.pc.step, FirstMove(d.run, d.pc.step));
      EndsNotRejected(d, d.pc.step, DeadlineExceeded);
    } else if Escalating(d.pc) {
      EscalationKeepsRejected(d, a);
    }
  }

  // --- One drive ---

  ghost predicate HeardDenial(es: seq<Event>) {
    exists i :: 0 <= i < |es| && Denies(es[i])
  }

  lemma {:induction false} TraceRejects(d: Drive, es: seq<Event>)
    requires IsTrace(d, es) && NoSaves(es) && Shape(d)
    ensures After(d, es).run.status.Rejected? <==> d.run.status.Rejected? || HeardDenial(es)
    decreases |es|
  {
    hide Resume, NextCall, Fits, Shape, Denies;
    if es != [] {
      var a := es[0].answer;
      NotSaving(d);
      ResumeRejects(d, a);
      ResumeShape(d, a);
      TraceRejects(Resume(d, a), es[1..]);
      if i :| 0 <= i < |es| && Denies(es[i]) {
        assert i == 0 || Denies(es[1..][i - 1]);
      }
      if i :| 0 <= i < |es[1..]| && Denies(es[1..][i]) {
        assert Denies(es[i + 1]);
      }
    }
  }

  /** Of the drives whose first save goes through: one commits REJECTED exactly when it heard its ticket denied. */
  lemma CommitsRejectedExactlyWhenDenied(cfg: Settings, c: Commit)
    requires OneDrive(cfg, c) && NoSaves(c.heard) && !c.base.status.Rejected?
    ensures c.after.status.Rejected? <==> HeardDenial(c.heard)
  {
    hide Start, IsTrace, After, Shape, HeardDenial;
    StartShape(cfg, c.base);
    StartNotRejected(cfg, c.base);
    TraceRejects(Start(cfg, c.base), c.heard);
  }

  lemma StartNotRejected(cfg: Settings, run: Run)
    ensures Start(cfg, run).run.status.Rejected? <==> run.status.Rejected?
  {
  }

  // --- Every history ---

  ghost predicate Warranted(run: Run, log: seq<Event>) {
    run.status.Rejected? ==> WasDenied(log, run.state.ticket)
  }

  lemma DeniedGrows(log: seq<Event>, ticket: Option<TicketRef>, e: Event)
    requires WasDenied(log, ticket)
    ensures WasDenied(log + [e], ticket)
  {
    var i: nat :| DenialAt(log, i, ticket.value);
    assert DenialAt(log + [e], i, ticket.value);
  }

  lemma ResumeWarranted(d: Drive, a: Answer, now: Time, log: seq<Event>)
    requires !d.pc.Finished? && Driving(d, now) && Shape(d) && Fits(NextCall(d), a) && Warranted(d.run, log)
    ensures Warranted(Resume(d, a).run, log + [Event(NextCall(d), a)])
  {
    hide Resume, Driving, Shape, WasDenied;
    var e := Event(NextCall(d), a);
    if d.run.status.Rejected? {
      DeniedGrows(log, d.run.state.ticket, e);
    }
    if d.pc.Saving? {
      SavingRejects(d, a);
    } else {
      ResumeRejects(d, a);
      if Denies(e) {
        OwnTicket(d, a, now, log);
      }
    }
  }

  lemma SavingRejects(d: Drive, a: Answer)
    requires d.pc.Saving? && Fits(NextCall(d), a)
    ensures Resume(d, a).run.status.Rejected? ==> d.run.status.Rejected? && Resume(d, a).run.state.ticket == d.run.state.ticket
  {
    hide Escalate, WithError;
    var st := if d.run.currentStep.Some? then WithError(d.run.state, d.run.currentStep.value, Unclassified) else d.run.state;
    EndingsOnly(Ended(d, RunStatus.Failed, st), Unclassified, true);
  }

  lemma OwnTicket(d: Drive, a: Answer, now: Time, log: seq<Event>)
    requires d.pc.AwaitingApproval? && Driving(d, now) && Fits(NextCall(d), a) && Denies(Event(NextCall(d), a))
    ensures WasDenied(log + [Event(NextCall(d), a)], d.run.state.ticket)
  {
    hide StartedTo, CountedFor, Markers, Plan, IndexInPlan;
    assert DenialAt(log + [Event(NextCall(d), a)], |log|, d.pc.ticket);
  }

  ghost predicate AllWarranted(s: System) {
    Warranted(s.row, s.log) && forall w :: w in s.flights ==> Warranted(s.flights[w].drive.run, s.log)
  }

  lemma WarrantedGrows(run: Run, log: seq<Event>, e: Event)
    requires Warranted(run, log)
    ensures Warranted(run, log + [e])
  {
    hide WasDenied;
    if run.status.Rejected? {
      DeniedGrows(log, run.state.ticket, e);
    }
  }

  lemma MoveWarranted(first: Run, s: System, m: Move)
    requires Enabled(s, m) && Chained(first, s) && Safe(s) && AllWarranted(s)
    ensures AllWarranted(Apply(s, m))
  {
    hide Row, RowGate, Driving, DriveGate, Justified, KeysBounded, NextCall, Fits, Resume, Serial, IsTrace, After, Start, Shape,
         LogGrew, WasDenied;
    if m.Hear? {
      var f := s.flights[m.worker];
      var e := Event(NextCall(f.drive), m.answer);
      ResumeWarranted(f.drive, m.answer, s.now, s.log);
      WarrantedGrows(s.row, s.log, e);
      forall w | w in s.flights ensures Warranted(s.flights[w].drive.run, s.log + [e]) {
        WarrantedGrows(s.flights[w].drive.run, s.log, e);
      }
    } else if m.Load? {
      StartNotRejected(s.cfg, s.row);
      StartKeepsTicket(s.cfg, s.row);
    }
  }

  lemma StartKeepsTicket(cfg: Settings, run: Run)
    ensures Start(cfg, run).run.state.ticket == run.state.ticket
  {
  }

  lemma {:induction false} HistoriesWarranted(first: Run, s: System, ms: seq<Move>)
    requires Legal(s, ms) && Chained(first, s) && Safe(s) && AllWarranted(s)
    ensures AllWarranted(Reached(s, ms)) && Chained(first, Reached(s, ms))
    decreases |ms|
  {
    hide Chained, Safe, AllWarranted, Enabled, Apply;
    if ms != [] {
      HistoriesAreSafe(first, s, [ms[0]]);
      assert Reached(s, [ms[0]]) == Apply(s, ms[0]) by { assert [ms[0]][1..] == []; }
      MoveWarranted(first, s, ms[0]);
      HistoriesWarranted(first, Apply(s, ms[0]), ms[1..]);
    }
  }

  /** Over every history: a row that is REJECTED has a denial of its own ticket on the log; and every commit of a drive that
      heard a denial, and nothing of a save before it, is REJECTED, as no other such commit is. */
  lemma RejectedMeansDenied(cfg: Settings, first: Run, now: Time, ms: seq<Move>)
    requires Triggered(first, now) && Legal(Fresh(cfg, first, now), ms)
    ensures var s := Reached(Fresh(cfg, first, now), ms);
            && (s.row.status.Rejected? ==> WasDenied(s.log, s.row.state.ticket))
            && forall k :: 0 <= k < |s.commits| && NoSaves(s.commits[k].heard) ==>
                 (s.commits[k].after.status.Rejected? <==> HeardDenial(s.commits[k].heard))
  {
    hide Row, RowGate, SafeFlight, Justified, KeysBounded, Legal, WasDenied, HeardDenial, FlightOk;
    FreshIsSafe(cfg, first, now);
    HistoriesWarranted(first, Fresh(cfg, first, now), ms);
    CfgStays(Fresh(cfg, first, now), ms);
    var s := Reached(Fresh(cfg, first, now), ms);
    forall k | 0 <= k < |s.commits| && NoSaves(s.commits[k].heard)
      ensures s.commits[k].after.status.Rejected? <==> HeardDenial(s.commits[k].heard)
    {
      SerialCommit(cfg, first, s.commits, k);
      CommitsRejectedExactlyWhenDenied(cfg, s.commits[k]);
    }
  }

  /** A commit is one drive of a row that was not over. */
  lemma SerialCommit(cfg: Settings, first: Run, cs: seq<Commit>, k: nat)
    requires Serial(cfg, first, cs) && k < |cs|
    ensures OneDrive(cfg, cs[k]) && !cs[k].base.status.Rejected?
  {
    hide IsTrace;
    if cs[k].base.status.Rejected? {
      OverIsNotSaved(cfg, cs[k].base, cs[k].heard);
    }
  }

  lemma OverIsNotSaved(cfg: Settings, run: Run, es: seq<Event>)
    requires run.status.Terminal() && IsTrace(Start(cfg, run), es)
    ensures !After(Start(cfg, run), es).pc.Saving?
  {
    TerminalIsLeftAlone(cfg, run, es);
  }
}
