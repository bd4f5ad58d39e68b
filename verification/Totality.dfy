/** `handle` is total: whatever the outside answers, and whatever step a loaded run stands at, a drive
    ends after a bounded number of calls, having escalated at most once. */
module Totality {
  import opened Domain
  import opened Drives

  // --- Every call brings a drive nearer its end ---

  /** No drive makes more calls than this from where it stands. */
  function Rank(d: Drive): nat {
    match d.pc
    case Begin(s) => StepRank(d.run.runType, s) + 10
    case StartAttempt(s) => StepRank(d.run.runType, s) + 9
    case CheckBudget(s, _) => StepRank(d.run.runType, s) + 8
    case BackingOff(_) => 7
    case Scheduling(_) => 6
    case Paging(e, quiet) => if quiet && !e.StepFailure? then 4 else 10
    case Documenting => 9
    case Filing(_) => 8
    case Refusing(_) => 7
    case Annotating(_, _, quiet) => if quiet then 3 else 7
    case Releasing(_, quiet) => if quiet then 2 else 6
    case Saving(quiet) => if quiet then 1 else 5
    case Finished => 0
    case _ => StepRank(d.run.runType, StepOf(d.pc)) + if d.pc.Querying? || d.pc.Retiring? then 7 else 6
  }

  function StepRank(t: RunType, s: StepName): (r: nat)
    ensures r >= 6
  {
    6 * (|Plan(t)| - IndexInPlan(t, s) + 1)
  }


  lemma CrashRank(d: Drive)
    ensures Rank(Crash(d)) <= 4
  {
  }

  lemma ReleaseRank(d: Drive, quiet: bool)
    ensures Rank(Release(d, quiet)) <= if quiet then 2 else 6
  {
  }

  lemma RefuseRank(d: Drive)
    ensures Rank(Refuse(d)) <= 7
  {
    hide Release;
    ReleaseRank(d, false);
  }

  lemma EscalateRank(d: Drive, e: Error, quiet: bool)
    ensures Rank(Escalate(d, e, quiet)) <= 10
  {
    hide Refuse;
    RefuseRank(d.(escalations := d.escalations + 1));
  }

  lemma FailRank(d: Drive, s: StepName, e: Error)
    ensures Rank(Fail(d, s, e)) <= 10
  {
    hide Escalate, RetryState, FailedState;
    EscalateRank(Ended(d, RunStatus.Failed, FailedState(d.run.state, s, e)), e, false);
  }

  lemma RejectRank(d: Drive, s: StepName)
    ensures Rank(Reject(d, s)) <= 6
  {
    hide Release;
    ReleaseRank(Ended(d, Rejected, WithError(d.run.state, s, Denial)), false);
  }

  lemma CompleteRank(d: Drive, s: StepName)
    ensures Rank(Complete(d, s)) <= StepRank(d.run.runType, s) + 4
  {
    hide Crash, Settle;
    CrashRank(d.(run := d.run.(state := Settle(d.run.state, s))));
  }

  lemma ReactRank(d: Drive, s: StepName, h: Handled)
    requires h.outcome.Asks? ==> InStep(h.outcome.pc) && StepOf(h.outcome.pc) == s
    ensures Rank(React(d, s, h))
            <= StepRank(d.run.runType, s)
               + if !h.outcome.Asks? then 5 else if LastCallOf(h.outcome.pc) then 6 else 7
  {
    hide Complete, Fail, Reject, StepRank, Plan, IndexInPlan;
    var d' := WithState(d, h.st);
    CompleteRank(d', s);
    if h.outcome.Raises? {
      FailRank(d', s, h.outcome.error);
    }
    RejectRank(d', s);
  }

  lemma ResumeEscalationRank(d: Drive, a: Answer)
    requires Escalating(d.pc) && Fits(NextCall(d), a)
    ensures Rank(ResumeEscalation(d, a)) < Rank(d)
  {
    hide Refuse, Release, Noted;
    RefuseRank(Noted(d, a));
    ReleaseRank(Noted(d, a), true);
    ReleaseRank(Noted(d, a), false);
  }

  lemma RankFalls(d: Drive, a: Answer)
    requires !d.pc.Finished? && Fits(NextCall(d), a)
    ensures Rank(Resume(d, a)) < Rank(d)
  {
    hide NextMove, FirstMove, React, ResumeEscalation, Fail, Crash;
    if InStep(d.pc) {
      NextMoveAsks(d, a);
      ReactRank(d, StepOf(d.pc), NextMove(d, a));
    } else if Escalating(d.pc) {
      ResumeEscalationRank(d, a);
    } else if d.pc.CheckBudget? {
      FirstMoveAsks(d.run, d.pc.step);
      ReactRank(d, d.pc.step, FirstMove(d.run, d.pc.step));
      FailRank(d, d.pc.step, DeadlineExceeded);
    } else {
      CrashRank(d);
    }
  }

  /** The longest plan makes the longest drive. */
  const MOST_CALLS: nat := 58

  lemma StartRank(cfg: Settings, run: Run)
    ensures Rank(Start(cfg, run)) <= MOST_CALLS
  {
  }

  lemma {:induction false} TraceIsBounded(d: Drive, es: seq<Event>)
    requires IsTrace(d, es)
    ensures |es| + Rank(After(d, es)) <= Rank(d)
    decreases |es|
  {
    hide Rank, Resume, NextCall, Fits;
    if es != [] {
      RankFalls(d, es[0].answer);
      TraceIsBounded(Resume(d, es[0].answer), es[1..]);
    }
  }

  // --- What holds between any two calls of any drive ---

  /** Whatever run was loaded: a drive has escalated only if it marked its run failed, and then once;
      what it saves is scheduled exactly when it is not over. */
  predicate Shape(d: Drive) {
    && d.escalations <= 1
    && (d.run.status.Failed? || d.escalations == 0)
    && if d.pc.Finished? then true
       else if d.pc.Saving? then d.run.status.Terminal() <==> d.run.scheduledAt.None?
       else if Escalating(d.pc) then (d.run.status.Failed? || d.run.status.Rejected?) && d.run.scheduledAt.None?
       else d.run.status.Running?
  }

  lemma EscalateShape(d: Drive, e: Error, quiet: bool)
    requires d.run.status.Failed? && d.run.scheduledAt.None? && d.escalations == 0
    ensures Shape(Escalate(d, e, quiet))
  {
  }

  lemma ReleaseShape(d: Drive, quiet: bool)
    requires (d.run.status.Failed? || d.run.status.Rejected?) && d.run.scheduledAt.None?
    requires d.escalations <= 1 && (d.run.status.Failed? || d.escalations == 0)
    ensures Shape(Release(d, quiet)) && Shape(Refuse(d))
  {
  }

  lemma FailShape(d: Drive, s: StepName, e: Error)
    requires d.run.status.Running? && d.escalations == 0
    ensures Shape(Fail(d, s, e))
  {
    hide Escalate, RetryState, FailedState;
    EscalateShape(Ended(d, RunStatus.Failed, FailedState(d.run.state, s, e)), e, false);
  }

  lemma CrashShape(d: Drive)
    requires d.escalations <= 1 && (d.run.status.Failed? || d.escalations == 0)
    requires d.run.status.Failed? ==> d.run.scheduledAt.None?
    ensures Shape(Crash(d))
  {
    hide Escalate, WithError;
    var st := if d.run.currentStep.Some? then WithError(d.run.state, d.run.currentStep.value, Unclassified)
              else d.run.state;
    if !d.run.status.Failed? {
      EscalateShape(Ended(d, RunStatus.Failed, st), Unclassified, true);
    }
  }

  lemma ReactShape(d: Drive, s: StepName, h: Handled)
    requires d.run.status.Running? && d.escalations == 0
    requires h.outcome.Asks? ==> InStep(h.outcome.pc)
    ensures Shape(React(d, s, h))
  {
    hide Fail, Crash, Settle, Release, WithError, Plan, IndexInPlan;
    var d' := WithState(d, h.st);
    CrashShape(WithState(d', Settle(h.st, s)));
    ReleaseShape(Ended(d', Rejected, WithError(h.st, s, Denial)), false);
    if h.outcome.Raises? {
      FailShape(d', s, h.outcome.error);
    }
  }

  lemma EscalatingShape(d: Drive, a: Answer)
    requires Escalating(d.pc) && Fits(NextCall(d), a) && Shape(d)
    ensures Shape(ResumeEscalation(d, a))
  {
    hide NextCall, Release, Refuse, ResponsibleGroup;
    ReleaseShape(Noted(d, a), true);
    ReleaseShape(Noted(d, a), false);
  }

  lemma ResumeShape(d: Drive, a: Answer)
    requires !d.pc.Finished? && Fits(NextCall(d), a) && Shape(d)
    ensures Shape(Resume(d, a))
  {
    hide NextCall, React, FirstMove, NextMove, Fail, Crash, Backoff, ResumeEscalation;
    if d.pc.CheckBudget? {
      FirstMoveAsks(d.run, d.pc.step);
      ReactShape(d, d.pc.step, FirstMove(d.run, d.pc.step));
      FailShape(d, d.pc.step, DeadlineExceeded);
    } else if InStep(d.pc) {
      NextMoveAsks(d, a);
      ReactShape(d, StepOf(d.pc), NextMove(d, a));
    } else if Escalating(d.pc) {
      EscalatingShape(d, a);
    } else if d.pc.Saving? {
      CrashShape(d);
    }
  }

  /** Once a run is loaded, `handle` returns: any answers lead to the end within a fixed number of
      calls, and with at most one escalation, wherever the run stood, in its plan or outside it. */
  lemma HandleIsTotal(cfg: Settings, run: Run, es: seq<Event>)
    requires IsTrace(Start(cfg, run), es)
    ensures |es| <= MOST_CALLS && Shape(After(Start(cfg, run), es))
    ensures |es| == MOST_CALLS ==> After(Start(cfg, run), es).pc.Finished?
  {
    hide Rank, Resume, NextCall, Fits, Start, Shape;
    StartRank(cfg, run);
    TraceIsBounded(Start(cfg, run), es);
    StartShape(cfg, run);
    TraceShape(Start(cfg, run), es);
    EndIsFinished(After(Start(cfg, run), es));
  }

  lemma StartShape(cfg: Settings, run: Run)
    ensures Shape(Start(cfg, run))
  {
  }

  lemma EndIsFinished(d: Drive)
    ensures Rank(d) == 0 <==> d.pc.Finished?
  {
    hide StepOf;
  }

  lemma {:induction false} TraceShape(d: Drive, es: seq<Event>)
    requires IsTrace(d, es) && Shape(d)
    ensures Shape(After(d, es))
    decreases |es|
  {
    hide Resume, NextCall, Fits, Shape;
    if es != [] {
      ResumeShape(d, es[0].answer);
      TraceShape(Resume(d, es[0].answer), es[1..]);
    }
  }

  // --- A drive saves before it ends ---

  /** A drive ends at a save and nowhere else. */
  lemma FinishedOnlySaves(d: Drive, a: Answer)
    requires !d.pc.Finished? && !d.pc.Saving? && Fits(NextCall(d), a)
    ensures !Resume(d, a).pc.Finished?
  {
    hide NextMove, FirstMove, React, Noted, Backoff, NextCall, Release, Refuse, Fail;
    if InStep(d.pc) {
      NextMoveAsks(d, a);
      ReactGoesOn(d, StepOf(d.pc), NextMove(d, a));
    } else if d.pc.CheckBudget? {
      FirstMoveAsks(d.run, d.pc.step);
      ReactGoesOn(d, d.pc.step, FirstMove(d.run, d.pc.step));
      FailGoesOn(d, d.pc.step, DeadlineExceeded);
    } else if Escalating(d.pc) {
      EndingsOnly(Noted(d, a), Unclassified, true);
      EndingsOnly(Noted(d, a), Unclassified, false);
    }
  }

  /** A save that went through moves the version of the drive's copy up by one, and no other save moves it. */
  lemma SavesMoveTheVersion(d: Drive, a: Answer)
    requires d.pc.Saving? && Fits(NextCall(d), a)
    ensures Resume(d, a).run.version == d.run.version + if a.SaveOk? then 1 else 0
    ensures Resume(d, a).pc.Finished? <==> a.SaveOk? || a.SaveStale? || d.pc.quiet
  {
    hide Escalate, WithError;
    if a.SaveFailed? && !d.pc.quiet {
      CrashGoesOn(d);
    }
  }

  lemma CrashGoesOn(d: Drive)
    ensures Crash(d).run.version == d.run.version && !Crash(d).pc.Finished?
  {
  }

  lemma FailGoesOn(d: Drive, s: StepName, e: Error)
    ensures !Fail(d, s, e).pc.Finished?
  {
    hide RetryState, FailedState;
  }

  lemma ReactGoesOn(d: Drive, s: StepName, h: Handled)
    requires h.outcome.Asks? ==> InStep(h.outcome.pc)
    ensures !React(d, s, h).pc.Finished?
  {
    hide Fail, Settle, Release, WithError, Plan, IndexInPlan;
    var d' := WithState(d, h.st);
    EndingsOnly(Ended(d', Rejected, WithError(h.st, s, Denial)), Denial, false);
    if h.outcome.Raises? {
      FailGoesOn(d', s, h.outcome.error);
    }
  }

  // --- What a drive leaves alone ---

  /** Two copies of one run: equal in everything the trigger fixed. */
  predicate SameRun(a: Run, b: Run) {
    a.id == b.id && a.runType == b.runType && a.maxRetries == b.maxRetries && a.createdAt == b.createdAt
    && a.state.request == b.state.request
  }

  /** The log of started steps is only ever added to. */
  predicate LogGrew(before: map<StepName, Time>, after: map<StepName, Time>) {
    forall s :: s in before ==> s in after && after[s] == before[s]
  }

  /** What no drive changes of the run it loaded; its version it only moves when it has saved. */
  predicate Kept(base: Run, run: Run) {
    SameRun(base, run) && run.version == base.version
    && LogGrew(base.state.books.startedAt, run.state.books.startedAt)
  }

  lemma StartKept(cfg: Settings, run: Run)
    ensures Kept(run, Start(cfg, run).run)
  {
  }

  lemma FailKept(d: Drive, s: StepName, e: Error)
    ensures Kept(d.run, Fail(d, s, e).run) && Kept(d.run, Crash(d).run)
  {
    hide Escalate;
    var st := if d.run.currentStep.Some? then WithError(d.run.state, d.run.currentStep.value, Unclassified)
              else d.run.state;
    EndingsOnly(Ended(d, RunStatus.Failed, FailedState(d.run.state, s, e)), e, false);
    EndingsOnly(Ended(d, RunStatus.Failed, st), Unclassified, true);
  }

  lemma ReactKept(d: Drive, s: StepName, h: Handled)
    requires h.st.request == d.run.state.request && h.st.books == d.run.state.books
    ensures Kept(d.run, React(d, s, h).run)
  {
    hide Fail, Crash, Release, Plan, IndexInPlan;
    var d' := WithState(d, h.st);
    FailKept(WithState(d', Settle(h.st, s)), s, Unclassified);
    EndingsOnly(Ended(d', Rejected, WithError(h.st, s, Denial)), Denial, false);
    if h.outcome.Raises? {
      FailKept(d', s, h.outcome.error);
    }
  }

  lemma MovesKept(d: Drive, a: Answer)
    ensures forall s :: var st := FirstMove(d.run, s).st;
              st.request == d.run.state.request && st.books == d.run.state.books
    ensures InStep(d.pc) && Fits(NextCall(d), a) ==>
              var st := NextMove(d, a).st;
              st.request == d.run.state.request && st.books == d.run.state.books
  {
    hide Rekey, FinalizeFields;
  }

  lemma EscalatingKept(d: Drive, a: Answer)
    requires Escalating(d.pc) && Fits(NextCall(d), a)
    ensures Kept(d.run, ResumeEscalation(d, a).run)
  {
    hide NextCall, Release, Refuse, ResponsibleGroup;
    EndingsOnly(Noted(d, a), Unclassified, true);
    EndingsOnly(Noted(d, a), Unclassified, false);
  }

  lemma CallKept(d: Drive, a: Answer)
    requires !d.pc.Finished? && Fits(NextCall(d), a)
    ensures Resume(d, a).pc.Finished? || Kept(d.run, Resume(d, a).run)
  {
    hide NextCall, React, FirstMove, NextMove, Fail, Crash, Backoff, ResumeEscalation;
    MovesKept(d, a);
    if d.pc.CheckBudget? {
      hide Kept;
      ReactKept(d, d.pc.step, FirstMove(d.run, d.pc.step));
      FailKept(d, d.pc.step, DeadlineExceeded);
    } else if InStep(d.pc) {
      hide Kept;
      ReactKept(d, StepOf(d.pc), NextMove(d, a));
    } else if Escalating(d.pc) {
      hide Kept;
      EscalatingKept(d, a);
    } else if d.pc.Saving? {
      FailKept(d, CreateTicket, Unclassified);
    }
  }

  lemma ResumeKept(base: Run, d: Drive, a: Answer)
    requires !d.pc.Finished? && Fits(NextCall(d), a) && Kept(base, d.run)
    ensures Resume(d, a).pc.Finished? || Kept(base, Resume(d, a).run)
  {
    hide NextCall, Resume;
    CallKept(d, a);
  }

  lemma {:induction false} TraceKept(base: Run, d: Drive, es: seq<Event>)
    requires IsTrace(d, es) && (d.pc.Finished? || Kept(base, d.run))
    ensures After(d, es).pc.Finished? || Kept(base, After(d, es).run)
    decreases |es|
  {
    hide Resume, NextCall, Fits, Kept;
    if es != [] {
      ResumeKept(base, d, es[0].answer);
      TraceKept(base, Resume(d, es[0].answer), es[1..]);
    }
  }
}
