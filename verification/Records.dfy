/** What a resource run leaves on its record, when a raised call was not applied, releasing succeeds,
    and no drive overlaps another, is killed or fails to save. */
module Records {
  import opened Domain
  import opened Drives
  import opened Providers
  import opened StoredRows
  import opened Totality
  import opened Bookkeeping
  import opened Termination

  /** Where a run's record is: a created record lives under the run's own id until the run is finalized. */
  function Home(run: Run): Place
    requires run.state.resource.Some?
  {
    var r := run.state.resource.value;
    PlaceOf(if run.state.request.operation.Create? && !run.state.resourceFinalized then r.(vendorId := run.id) else r)
  }

  predicate At(w: World, p: Place, s: ResourceState) {
    p in w.records && w.records[p].state == s && (w.records[p].inProgress <==> s.Provisioning? || s.Updating? || s.Deleting?)
  }

  /** The record of a run that has not touched it. */
  predicate Untouched(run: Run, w: World)
    requires run.state.resource.Some?
  {
    if run.state.request.operation.Create? then
      Home(run) !in w.records && IdemKey(run, ConfigureResource) !in w.created
    else At(w, Home(run), Ready)
  }

  /** The record of a run at work on it: in its operation's state, or already marked deleted. */
  predicate AtWork(run: Run, w: World)
    requires run.state.resource.Some?
  {
    match run.state.request.operation
    case Create => At(w, Home(run), Provisioning)
    case Update => At(w, Home(run), Updating)
    case Delete => At(w, Home(run), Deleting) || At(w, Home(run), Deleted)
  }

  /** The record of a run that ended badly while at work on it. */
  predicate LetGo(run: Run, w: World)
    requires run.state.resource.Some?
  {
    if run.state.request.operation.Create? then Home(run) !in w.records else At(w, Home(run), Ready)
  }

  /** The record of a run whose operation is done. */
  predicate Fulfilled(run: Run, w: World)
    requires run.state.resource.Some?
  {
    match run.state.request.operation
    case Create => At(w, Home(run), Ready)
    case Update => At(w, Home(run), Ready) && w.records[Home(run)].desired == run.state.resource.value.desired
    case Delete => Home(run) !in w.records
  }

  /** The records of everybody else. */
  type Others = map<Place, Record>

  /** Apart from the run's own record there are exactly the other records, unchanged. */
  ghost predicate OthersAsIn(rest: Others, w: World, home: Place) {
    forall p :: p != home ==> (p in w.records <==> p in rest) && (p in rest ==> w.records[p] == rest[p])
  }

  predicate EndedBadly(run: Run) {
    run.status.Failed? || run.status.Rejected?
  }

  /** The record matches the run; `letGo` once a run that ended badly has released it. */
  ghost predicate Matches(run: Run, rest: Others, w: World, letGo: bool) {
    run.state.resource.Some?
    && OthersAsIn(rest, w, Home(run)) && (Home(run) in rest ==> run.state.resourceFinalized)
    && (run.state.resourceFinalized ==> run.state.resourceConfigured)
    && if !run.state.resourceConfigured then Untouched(run, w)
       else if run.state.resourceFinalized then Fulfilled(run, w)
       else
         Named(run) && if letGo then LetGo(run, w) else AtWork(run, w)
  }

  /** A created record carries the run's own id until the engine's id replaces it. */
  predicate Named(run: Run)
    requires run.state.resource.Some?
  {
    run.state.request.operation.Create? ==> run.state.resource.value.vendorId == run.id
  }

  ghost predicate RecordRow(row: Run, rest: Others, w: World) {
    Matches(row, rest, w, EndedBadly(row))
  }

  ghost predicate RecordDrive(d: Drive, rest: Others, w: World) {
    d.pc.Finished? ||
    (Matches(d.run, rest, w, d.pc.Saving? && EndedBadly(d.run))
     && (d.pc.Removing? ==> At(w, Home(d.run), Deleted))
     && (d.pc.Configuring? ==> Named(d.run)))
  }

  /** The calls in which these answers are possible: nothing raised was applied, no release raised. */
  predicate Orderly(d: Drive, w: World, a: Answer)
    requires !d.pc.Finished?
  {
    Truthful(w, Event(NextCall(d), a))
    && (a.Raised? ==> !a.applied && !d.pc.Releasing?)
  }

  // --- Moves that leave the world alone ---

  predicate SameResource(a: Run, b: Run) {
    a.id == b.id && a.state.request == b.state.request
    && a.state.resource.Some? && b.state.resource.Some? && Home(a) == Home(b)
    && a.state.resource.value.desired == b.state.resource.value.desired
    && (Named(a) ==> Named(b))
    && a.state.resourceConfigured == b.state.resourceConfigured
    && a.state.resourceFinalized == b.state.resourceFinalized
  }

  lemma MatchesSame(a: Run, b: Run, rest: Others, w: World, letGo: bool)
    requires SameResource(a, b)
    ensures Matches(a, rest, w, letGo) ==> Matches(b, rest, w, letGo)
  {
  }

  lemma EscalateRecord(d: Drive, e: Error, quiet: bool, rest: Others, w: World)
    requires Matches(d.run, rest, w, false)
    ensures RecordDrive(Release(d, quiet), rest, w) && RecordDrive(Refuse(d), rest, w)
            && RecordDrive(Escalate(d, e, quiet), rest, w)
  {
    hide Untouched, Fulfilled, AtWork, LetGo, OthersAsIn, Home;
  }

  /** Failing and retrying leave the resource and its markers alone. */
  lemma FailKeepsResource(st: RunState, s: StepName, e: Error)
    ensures forall st' :: st' == FailedState(st, s, e) || st' == RetryState(st, s) ==>
              st'.request == st.request && st'.resource == st.resource
              && st'.resourceConfigured == st.resourceConfigured && st'.resourceFinalized == st.resourceFinalized
  {
  }

  lemma FailRecord(d: Drive, s: StepName, e: Error, rest: Others, w: World)
    requires Matches(d.run, rest, w, false)
    ensures RecordDrive(Fail(d, s, e), rest, w)
  {
    hide Untouched, Fulfilled, AtWork, LetGo, OthersAsIn, Escalate, FailedState, RetryState;
    var f := Ended(d, RunStatus.Failed, FailedState(d.run.state, s, e));
    FailKeepsResource(d.run.state, s, e);
    if MayRetry(d.run, s, e) {
      MatchesSame(d.run, WithState(d, RetryState(d.run.state, s)).run, rest, w, false);
    } else {
      MatchesSame(d.run, f.run, rest, w, false);
      EscalateRecord(f, e, false, rest, w);
    }
  }

  lemma CompleteRecord(d: Drive, s: StepName, rest: Others, w: World)
    requires InPlan(d.run.runType, s) && Matches(d.run, rest, w, false)
    ensures RecordDrive(Complete(d, s), rest, w)
  {
    hide Untouched, Fulfilled, AtWork, LetGo, OthersAsIn, Crash, Plan;
    var run := d.run.(state := Settle(d.run.state, s));
    MatchesSame(d.run, run, rest, w, false);
    MatchesSame(d.run, run.(status := Completed, currentStep := None, scheduledAt := None), rest, w, false);
    if IndexInPlan(run.runType, s) + 1 < |Plan(run.runType)| {
      var next := Enter(d.(run := run), Plan(run.runType)[IndexInPlan(run.runType, s) + 1]);
      MatchesSame(d.run, next.run, rest, w, false);
    }
  }

  lemma ReactRecord(d: Drive, s: StepName, h: Handled, rest: Others, w: World)
    requires InPlan(d.run.runType, s) && Matches(d.run.(state := h.st), rest, w, false)
    requires h.outcome.Asks? ==> InStep(h.outcome.pc)
    requires h.outcome.Asks? && h.outcome.pc.Removing? ==> At(w, Home(d.run.(state := h.st)), Deleted)
    requires h.outcome.Asks? && h.outcome.pc.Configuring? ==> Named(d.run.(state := h.st))
    ensures RecordDrive(React(d, s, h), rest, w)
  {
    hide Untouched, Fulfilled, AtWork, LetGo, OthersAsIn, Complete, Fail, Release, IndexInPlan, Plan, At;
    var d' := WithState(d, h.st);
    match h.outcome
    case Done => CompleteRecord(d', s, rest, w);
    case Raises(e) => FailRecord(d', s, e, rest, w);
    case Denies =>
      var f := Ended(d', Rejected, WithError(h.st, s, Denial));
      MatchesSame(d'.run, f.run, rest, w, false);
      EscalateRecord(f, Denial, false, rest, w);
    case _ =>
  }

  lemma FirstMoveRecord(run: Run, s: StepName, rest: Others, w: World)
    requires Matches(run, rest, w, false) && (s.ConfigureResource? ==> !run.state.resourceFinalized)
    ensures var h := FirstMove(run, s);
            Matches(run.(state := h.st), rest, w, false)
            && (h.outcome.Asks? ==> !h.outcome.pc.Removing? && (h.outcome.pc.Configuring? ==> Named(run.(state := h.st))))
  {
    hide Untouched, Fulfilled, AtWork, LetGo, OthersAsIn;
    if s.ConfigureResource? {
      MatchesSame(run, run.(state := FirstMove(run, s).st), rest, w, false);
    }
  }

  // --- Moves that change it ---

  lemma CreateRecordNow(d: Drive, a: Answer, rest: Others, w: World)
    requires d.run.state.request.operation.Create?
    requires d.pc.Configuring? && Fits(NextCall(d), a) && Orderly(d, w, a)
    requires HoldsInStep(d.run.state, d.pc) && RecordDrive(d, rest, w)
    requires !d.run.state.resourceFinalized
    ensures Matches(d.run.(state := NextMove(d, a).st), rest, Next(w, Event(NextCall(d), a)), false)
  {
    hide Fulfilled, LetGo, FinalizeFields, Rekey;
  }

  lemma MarkRecordNow(d: Drive, a: Answer, rest: Others, w: World)
    requires !d.run.state.request.operation.Create?
    requires d.pc.Configuring? && Fits(NextCall(d), a) && Orderly(d, w, a)
    requires HoldsInStep(d.run.state, d.pc) && RecordDrive(d, rest, w)
    requires !d.run.state.resourceFinalized
    ensures Matches(d.run.(state := NextMove(d, a).st), rest, Next(w, Event(NextCall(d), a)), false)
  {
    hide Fulfilled, LetGo, FinalizeFields, Rekey;
  }

  /** Configuring puts the record to work. */
  lemma ConfigureRecord(d: Drive, a: Answer, rest: Others, w: World)
    requires d.pc.Configuring? && Fits(NextCall(d), a) && Orderly(d, w, a)
    requires HoldsInStep(d.run.state, d.pc) && RecordDrive(d, rest, w)
    requires !d.run.state.resourceFinalized
    ensures Matches(d.run.(state := NextMove(d, a).st), rest, Next(w, Event(NextCall(d), a)), false)
  {
    hide NextMove, NextCall, Next, Matches, Fits, Truthful;
    if d.run.state.request.operation.Create? {
      CreateRecordNow(d, a, rest, w);
    } else {
      MarkRecordNow(d, a, rest, w);
    }
  }

  lemma FinalizeRaises(d: Drive, a: Answer, rest: Others, w: World)
    requires d.pc.Finalizing? && a.Raised?
    requires d.pc.Finalizing? && Fits(NextCall(d), a) && Orderly(d, w, a)
    requires HoldsInStep(d.run.state, d.pc) && RecordDrive(d, rest, w) && d.run.state.resourceConfigured
    ensures Matches(d.run.(state := NextMove(d, a).st), rest, Next(w, Event(NextCall(d), a)), false)
  {
    hide Untouched, LetGo;
  }

  lemma MoveRecordNow(d: Drive, a: Answer, rest: Others, w: World)
    requires d.pc.Finalizing? && !a.Raised? && Rekey(d.run, d.pc.resource).Some?
    requires d.pc.Finalizing? && Fits(NextCall(d), a) && Orderly(d, w, a)
    requires HoldsInStep(d.run.state, d.pc) && RecordDrive(d, rest, w) && d.run.state.resourceConfigured
    ensures Matches(d.run.(state := NextMove(d, a).st), rest, Next(w, Event(NextCall(d), a)), false)
  {
    hide Untouched, LetGo;
  }

  lemma FinishRecordNow(d: Drive, a: Answer, rest: Others, w: World)
    requires d.pc.Finalizing? && !a.Raised? && Rekey(d.run, d.pc.resource).None?
    requires d.pc.Finalizing? && Fits(NextCall(d), a) && Orderly(d, w, a)
    requires HoldsInStep(d.run.state, d.pc) && RecordDrive(d, rest, w) && d.run.state.resourceConfigured
    ensures Matches(d.run.(state := NextMove(d, a).st), rest, Next(w, Event(NextCall(d), a)), false)
  {
    hide Untouched, LetGo;
  }

  lemma FinalizeRecord(d: Drive, a: Answer, rest: Others, w: World)
    requires d.pc.Finalizing? && Fits(NextCall(d), a) && Orderly(d, w, a)
    requires HoldsInStep(d.run.state, d.pc) && RecordDrive(d, rest, w) && d.run.state.resourceConfigured
    ensures Matches(d.run.(state := NextMove(d, a).st), rest, Next(w, Event(NextCall(d), a)), false)
  {
    hide NextMove, NextCall, Next, Matches, Fits, Truthful;
    if a.Raised? {
      FinalizeRaises(d, a, rest, w);
    } else if Rekey(d.run, d.pc.resource).Some? {
      MoveRecordNow(d, a, rest, w);
    } else {
      FinishRecordNow(d, a, rest, w);
    }
  }

  lemma RetireRaises(d: Drive, a: Answer, rest: Others, w: World)
    requires d.pc.Retiring? && a.Raised? && Fits(NextCall(d), a) && Orderly(d, w, a)
    requires HoldsInStep(d.run.state, d.pc) && RecordDrive(d, rest, w) && d.run.state.resourceConfigured
    ensures var h := NextMove(d, a); var w' := Next(w, Event(NextCall(d), a)); var run' := d.run.(state := h.st);
            Matches(run', rest, w', false)
            && (h.outcome.Asks? ==> h.outcome.pc.Removing? && At(w', Home(run'), Deleted))
  {
    hide Untouched, LetGo, Fulfilled, FinalizeFields, Rekey;
  }

  lemma RetireMarks(d: Drive, a: Answer, rest: Others, w: World)
    requires d.pc.Retiring? && !a.Raised? && Fits(NextCall(d), a) && Orderly(d, w, a)
    requires HoldsInStep(d.run.state, d.pc) && RecordDrive(d, rest, w) && d.run.state.resourceConfigured
    ensures var h := NextMove(d, a); var w' := Next(w, Event(NextCall(d), a)); var run' := d.run.(state := h.st);
            Matches(run', rest, w', false)
            && (h.outcome.Asks? ==> h.outcome.pc.Removing? && At(w', Home(run'), Deleted))
  {
    hide Untouched, LetGo, Fulfilled, FinalizeFields, Rekey;
  }

  lemma RetireRecord(d: Drive, a: Answer, rest: Others, w: World)
    requires d.pc.Retiring? && Fits(NextCall(d), a) && Orderly(d, w, a)
    requires HoldsInStep(d.run.state, d.pc) && RecordDrive(d, rest, w) && d.run.state.resourceConfigured
    ensures var h := NextMove(d, a); var w' := Next(w, Event(NextCall(d), a)); var run' := d.run.(state := h.st);
            Matches(run', rest, w', false)
            && (h.outcome.Asks? ==> h.outcome.pc.Removing? && At(w', Home(run'), Deleted))
  {
    hide NextMove, NextCall, Next, Matches, Fits, Truthful, At;
    if a.Raised? {
      RetireRaises(d, a, rest, w);
    } else {
      RetireMarks(d, a, rest, w);
    }
  }

  lemma RemoveRecord(d: Drive, a: Answer, rest: Others, w: World)
    requires d.pc.Removing? && Fits(NextCall(d), a) && Orderly(d, w, a)
    requires HoldsInStep(d.run.state, d.pc) && RecordDrive(d, rest, w) && d.run.state.resourceConfigured
    ensures var h := NextMove(d, a); var w' := Next(w, Event(NextCall(d), a)); var run' := d.run.(state := h.st);
            Matches(run', rest, w', false) && !h.outcome.Asks?
  {
    hide Untouched, LetGo, FinalizeFields, Rekey;
  }

  lemma DeleteRecordSteps(d: Drive, a: Answer, rest: Others, w: World)
    requires (d.pc.Retiring? || d.pc.Removing?) && Fits(NextCall(d), a) && Orderly(d, w, a)
    requires HoldsInStep(d.run.state, d.pc) && RecordDrive(d, rest, w) && d.run.state.resourceConfigured
    ensures var h := NextMove(d, a); var w' := Next(w, Event(NextCall(d), a)); var run' := d.run.(state := h.st);
            Matches(run', rest, w', false)
            && (h.outcome.Asks? ==> h.outcome.pc.Removing? && At(w', Home(run'), Deleted))
  {
    hide NextMove, NextCall, Next, Matches, Fits, Truthful, At;
    if d.pc.Retiring? {
      RetireRecord(d, a, rest, w);
    } else {
      RemoveRecord(d, a, rest, w);
    }
  }

  lemma ReleaseRecord(d: Drive, a: Answer, rest: Others, w: World)
    requires d.pc.Releasing? && Fits(NextCall(d), a) && Orderly(d, w, a)
    requires Holds(d.run, d.pc) && RecordDrive(d, rest, w) && EndedBadly(d.run)
    ensures RecordDrive(Resume(d, a), rest, Next(w, Event(NextCall(d), a)))
  {
    hide Untouched, Fulfilled, FinalizeFields, Rekey;
  }

  // --- A drive keeps it ---

  predicate OnRecords(pc: Pc) {
    pc.Configuring? || pc.Finalizing? || pc.Retiring? || pc.Removing?
  }

  lemma MatchesRecords(run: Run, rest: Others, w: World, w': World, letGo: bool)
    requires w.records == w'.records && w.created == w'.created
    ensures Matches(run, rest, w, letGo) == Matches(run, rest, w', letGo)
  {
  }

  lemma ElsewhereKeepsRecords(d: Drive, a: Answer, w: World)
    requires !d.pc.Finished? && !OnRecords(d.pc) && !d.pc.Releasing?
    ensures var w' := Next(w, Event(NextCall(d), a)); w'.records == w.records && w'.created == w.created
  {
  }

  lemma EngineKeepsResource(d: Drive, a: Answer)
    requires d.pc.Triggering? || d.pc.Querying? || d.pc.FetchingOutput? || d.pc.FetchingFailure?
    requires InStep(d.pc) && !OnRecords(d.pc) && Fits(NextCall(d), a)
    ensures var h := NextMove(d, a); var st := h.st;
            && st.request == d.run.state.request && st.resource == d.run.state.resource
            && st.resourceConfigured == d.run.state.resourceConfigured
            && st.resourceFinalized == d.run.state.resourceFinalized
            && (h.outcome.Asks? ==> !h.outcome.pc.Removing? && !h.outcome.pc.Configuring?)
  {
    hide Rekey, FinalizeFields;
  }

  lemma TicketKeepsResource(d: Drive, a: Answer)
    requires !d.pc.Triggering? && !d.pc.Querying? && !d.pc.FetchingOutput? && !d.pc.FetchingFailure?
    requires InStep(d.pc) && !OnRecords(d.pc) && Fits(NextCall(d), a)
    ensures var h := NextMove(d, a); var st := h.st;
            && st.request == d.run.state.request && st.resource == d.run.state.resource
            && st.resourceConfigured == d.run.state.resourceConfigured
            && st.resourceFinalized == d.run.state.resourceFinalized
            && (h.outcome.Asks? ==> !h.outcome.pc.Removing? && !h.outcome.pc.Configuring?)
  {
    hide Rekey, FinalizeFields;
  }

  lemma ElsewhereKeepsResource(d: Drive, a: Answer)
    requires InStep(d.pc) && !OnRecords(d.pc) && Fits(NextCall(d), a)
    ensures var h := NextMove(d, a); var st := h.st;
            && st.request == d.run.state.request && st.resource == d.run.state.resource
            && st.resourceConfigured == d.run.state.resourceConfigured
            && st.resourceFinalized == d.run.state.resourceFinalized
            && (h.outcome.Asks? ==> !h.outcome.pc.Removing? && !h.outcome.pc.Configuring?)
  {
    hide NextMove, NextCall, Fits;
    if d.pc.Triggering? || d.pc.Querying? || d.pc.FetchingOutput? || d.pc.FetchingFailure? {
      EngineKeepsResource(d, a);
    } else {
      TicketKeepsResource(d, a);
    }
  }

  lemma StepRecord(d: Drive, a: Answer, rest: Others, w: World, now: Time)
    requires InStep(d.pc) && Fits(NextCall(d), a) && Orderly(d, w, a)
    requires d.run.runType.Resource? && Driving(d, now) && RecordDrive(d, rest, w)
    ensures RecordDrive(React(d, StepOf(d.pc), NextMove(d, a)), rest, Next(w, Event(NextCall(d), a)))
  {
    hide React, NextMove, Next, Matches, Home, Named, StartedTo, CountedFor, Plan, FinalizeFields, Rekey, Truthful;
    var w' := Next(w, Event(NextCall(d), a));
    var h := NextMove(d, a);
    NextMoveAsks(d, a);
    StepMatches(d, a, rest, w, now);
    ReactRecord(d, StepOf(d.pc), h, rest, w');
  }

  lemma StepMatches(d: Drive, a: Answer, rest: Others, w: World, now: Time)
    requires InStep(d.pc) && Fits(NextCall(d), a) && Orderly(d, w, a)
    requires d.run.runType.Resource? && Driving(d, now) && RecordDrive(d, rest, w)
    ensures var h := NextMove(d, a); var w' := Next(w, Event(NextCall(d), a)); var run' := d.run.(state := h.st);
            && Matches(run', rest, w', false)
            && (h.outcome.Asks? ==> !h.outcome.pc.Configuring? && (h.outcome.pc.Removing? ==> At(w', Home(run'), Deleted)))
  {
    hide NextMove, Next, Untouched, AtWork, Fulfilled, LetGo, OthersAsIn, StartedTo, CountedFor, Plan, FinalizeFields,
         Rekey, Truthful, NextCall;
    var w' := Next(w, Event(NextCall(d), a));
    var run' := d.run.(state := NextMove(d, a).st);
    if d.pc.Configuring? {
      ConfigureRecord(d, a, rest, w);
      NextMoveAsks(d, a);
    } else if d.pc.Finalizing? {
      FinalizeRecord(d, a, rest, w);
      NextMoveAsks(d, a);
    } else if d.pc.Retiring? || d.pc.Removing? {
      DeleteRecordSteps(d, a, rest, w);
    } else {
      ElsewhereKeepsRecords(d, a, w);
      ElsewhereKeepsResource(d, a);
      MatchesRecords(d.run, rest, w, w', false);
      MatchesSame(d.run, run', rest, w', false);
    }
  }

  lemma LoopRecord(d: Drive, now: Time, rest: Others, w: World)
    requires (d.pc.Begin? || d.pc.StartAttempt? || d.pc.CheckBudget?) && RecordDrive(d, rest, w)
    requires InPlan(d.run.runType, d.pc.step) && (d.pc.step.ConfigureResource? ==> !d.run.state.resourceFinalized)
    ensures RecordDrive(ResumeLoop(d, now), rest, w)
  {
    hide Untouched, AtWork, Fulfilled, LetGo, OthersAsIn, React, Fail, FirstMove, At;
    if d.pc.CheckBudget? {
      FirstMoveAsks(d.run, d.pc.step);
      FirstMoveRecord(d.run, d.pc.step, rest, w);
      ReactRecord(d, d.pc.step, FirstMove(d.run, d.pc.step), rest, w);
      FailRecord(d, d.pc.step, DeadlineExceeded, rest, w);
    } else {
      LoopKeepsResource(d, now);
      MatchesSame(d.run, ResumeLoop(d, now).run, rest, w, false);
    }
  }

  lemma LoopKeepsResource(d: Drive, now: Time)
    requires d.pc.Begin? || d.pc.StartAttempt?
    ensures var run := ResumeLoop(d, now).run;
            && run.id == d.run.id && run.state == d.run.state.(books := run.state.books)
            && (ResumeLoop(d, now).pc.StartAttempt? || ResumeLoop(d, now).pc.CheckBudget?)
  {
  }

  lemma EndingRecord(d: Drive, a: Answer, rest: Others, w: World)
    requires Escalating(d.pc) && !d.pc.Releasing? && Fits(NextCall(d), a) && RecordDrive(d, rest, w)
    ensures RecordDrive(ResumeEscalation(d, a), rest, w)
  {
    hide Matches, Home, Release, Refuse, At, NextCall, ResponsibleGroup;
    var n := Noted(d, a);
    NotedRecord(d, a, rest, w);
    EscalateRecord(n, Unclassified, true, rest, w);
    EscalateRecord(n, Unclassified, false, rest, w);
  }

  lemma NotedRecord(d: Drive, a: Answer, rest: Others, w: World)
    requires Matches(d.run, rest, w, false)
    ensures Matches(Noted(d, a).run, rest, w, false)
  {
    hide Untouched, AtWork, Fulfilled, LetGo, OthersAsIn;
    MatchesSame(d.run, Noted(d, a).run, rest, w, false);
  }

  lemma TailRecord(d: Drive, a: Answer, rest: Others, w: World)
    requires (d.pc.BackingOff? || d.pc.Scheduling?) && Fits(NextCall(d), a)
    requires RecordDrive(d, rest, w) && (d.pc.Scheduling? ==> !EndedBadly(d.run))
    ensures RecordDrive(Resume(d, a), rest, w)
  {
    hide Untouched, AtWork, Fulfilled, LetGo, OthersAsIn, At, Backoff;
    MatchesSame(d.run, Resume(d, a).run, rest, w, false);
  }

  /** A run at the configure step is not finalized. */
  lemma StepToConfigure(d: Drive, now: Time)
    requires (d.pc.Begin? || d.pc.StartAttempt? || d.pc.CheckBudget?) && Driving(d, now)
    ensures InPlan(d.run.runType, d.pc.step)
    ensures d.run.runType.Resource? && d.pc.step.ConfigureResource? ==> !d.run.state.resourceFinalized
  {
    hide StartedTo, CountedFor, Plan;
  }

  lemma ResumeRecord(d: Drive, a: Answer, rest: Others, w: World, now: Time)
    requires !d.pc.Finished? && !d.pc.Saving? && Fits(NextCall(d), a) && Orderly(d, w, a)
    requires d.run.runType.Resource? && Driving(d, now) && Shape(d) && RecordDrive(d, rest, w)
    ensures RecordDrive(Resume(d, a), rest, Next(w, Event(NextCall(d), a)))
  {
    hide Matches, Home, At, React, NextMove, Next, ResumeEscalation, Truthful, StartedTo, CountedFor, HoldsInStep,
         IndexInPlan, Plan, Row, Over;
    var w' := Next(w, Event(NextCall(d), a));
    if InStep(d.pc) {
      StepRecord(d, a, rest, w, now);
    } else if d.pc.Releasing? {
      ReleaseRecord(d, a, rest, w);
    } else {
      ElsewhereKeepsRecords(d, a, w);
      RecordDriveRecords(d, rest, w, w');
      if Escalating(d.pc) {
        EndingRecord(d, a, rest, w');
      } else if d.pc.BackingOff? || d.pc.Scheduling? {
        TailRecord(d, a, rest, w');
      } else {
        StepToConfigure(d, now);
        LoopRecord(d, a.now, rest, w');
      }
    }
  }

  lemma RecordDriveRecords(d: Drive, rest: Others, w: World, w': World)
    requires w.records == w'.records && w.created == w'.created && RecordDrive(d, rest, w)
    ensures RecordDrive(d, rest, w')
  {
  }

  // --- Over a whole drive and a whole run ---

  /** A drive all of whose answers are orderly, from a world on. */
  ghost predicate OrderlyTrace(d: Drive, w: World, es: seq<Event>)
    requires IsTrace(d, es)
    decreases |es|
  {
    es == []
    || (Orderly(d, w, es[0].answer) && OrderlyTrace(Resume(d, es[0].answer), Next(w, es[0]), es[1..]))
  }

  lemma {:induction false} TraceRecord(d: Drive, es: seq<Event>, rest: Others, w: World, checked: Time)
    requires IsTrace(d, es) && Paced(es, checked) && OrderlyTrace(d, w, es)
    requires forall i :: 0 <= i < |es| ==> !es[i].call.SaveRun?
    requires d.run.runType.Resource? && Driving(d, checked) && Shape(d) && RecordDrive(d, rest, w)
    ensures RecordDrive(After(d, es), rest, Onward(w, es))
    decreases |es|
  {
    hide Driving, Shape, RecordDrive, Resume, Fits, Next, LogGrew;
    if es != [] {
      var a := es[0].answer;
      var now := if a.Clock? then a.now else checked;
      assert !es[0].call.SaveRun?;
      assert !d.pc.Saving?;
      DrivingLater(d, checked, now);
      ResumeKeeps(d, a, now, now);
      ResumeShape(d, a);
      ResumeRecord(d, a, rest, w, now);
      CallKept(d, a);
      FinishedOnlySaves(d, a);
      TraceRecord(Resume(d, a), es[1..], rest, Next(w, es[0]), now);
    }
  }

  lemma StartRecord(cfg: Settings, row: Run, base: Run, rest: Others, w: World)
    requires !row.status.Terminal() && RecordRow(row, rest, w)
    requires base.(scheduledAt := row.scheduledAt) == row
    ensures RecordDrive(Start(cfg, base), rest, w)
  {
    hide Untouched, AtWork, Fulfilled, LetGo, OthersAsIn;
    MatchesSame(row, Start(cfg, base).run, rest, w, false);
  }

  lemma SavedRecord(d: Drive, base: Run, rest: Others, w: World)
    requires d.pc.Saving? && RecordDrive(d, rest, w) && SameRun(base, d.run)
    ensures RecordRow(Saved(base, d.run), rest, w)
  {
    hide Untouched, AtWork, Fulfilled, LetGo, OthersAsIn;
    MatchesSame(d.run, Saved(base, d.run), rest, w, EndedBadly(d.run));
  }

  /** One orderly turn takes a record that matches its run to a record that matches what it saved. */
  lemma TurnRecord(cfg: Settings, row: Run, t: Turn, after: Run, rest: Others, w: World, now: Time)
    requires TurnOn(cfg, row, t, after) && Row(row, now) && now <= t.from && row.runType.Resource?
    requires OrderlyTrace(Start(cfg, t.base), w, t.es) && RecordRow(row, rest, w)
    ensures RecordRow(after, rest, Onward(w, t.es)) && after.runType == row.runType
  {
    hide Row, Start, Fits, NextCall, Resume, LogGrew, RecordRow, RecordDrive, Driving, Shape, OrderlyTrace, IsTrace,
         After, Onward;
    var d := Start(cfg, t.base);
    Later(row, now, t.from);
    RowIgnoresSchedule(row, t.base.scheduledAt.value, t.from);
    assert t.base == row.(scheduledAt := t.base.scheduledAt);
    StartKeeps(cfg, t.base, t.from);
    StartShape(cfg, t.base);
    StartKept(cfg, t.base);
    StartRecord(cfg, row, t.base, rest, w);
    TraceRecord(d, t.es, rest, w, t.from);
    TraceKept(t.base, d, t.es);
    SavedRecord(After(d, t.es), t.base, rest, Onward(w, t.es));
  }

  /** The world after the first `n` turns. */
  function WorldAfter(w: World, ts: seq<Turn>, n: nat): World
    requires n <= |ts|
  {
    if n == 0 then w else Onward(WorldAfter(w, ts, n - 1), ts[n - 1].es)
  }

  /** Turns one after the other, every one of them orderly. */
  ghost predicate OrderlyTurns(cfg: Settings, rows: seq<Run>, ts: seq<Turn>, w: World) {
    Turns(cfg, rows, ts)
    && forall i :: 0 <= i < |ts| ==> IsTrace(Start(cfg, ts[i].base), ts[i].es)
                                     && OrderlyTrace(Start(cfg, ts[i].base), WorldAfter(w, ts, i), ts[i].es)
  }

  lemma {:induction false} TurnsRecord(cfg: Settings, rows: seq<Run>, ts: seq<Turn>, rest: Others, w: World, now: Time, n: nat)
    requires OrderlyTurns(cfg, rows, ts, w) && n <= |ts|
    requires Row(rows[0], now) && (ts != [] ==> now <= ts[0].from)
    requires rows[0].runType.Resource? && RecordRow(rows[0], rest, w)
    ensures RecordRow(rows[n], rest, WorldAfter(w, ts, n)) && rows[n].runType.Resource?
    decreases n
  {
    hide Row, RecordRow, IsTrace, After, Onward, Start, OrderlyTrace;
    if n > 0 {
      TurnsRecord(cfg, rows, ts, rest, w, now, n - 1);
      TurnsSpend(cfg, rows, ts, now, n - 1);
      var before := if n == 1 then now else LastTime(ts[n - 2].es, ts[n - 2].from);
      var t := ts[n - 1];
      assert TurnOn(cfg, rows[n - 1], t, rows[n]);
      if n > 1 {
        assert LastTime(ts[n - 2].es, ts[n - 2].from) <= ts[n - 2 + 1].from;
      }
      TurnRecord(cfg, rows[n - 1], t, rows[n], rest, WorldAfter(w, ts, n - 1), before);
    }
  }

  /** A resource run about to be driven for the first time: pending, and its record not touched yet. */
  ghost predicate Pristine(row: Run, w: World, now: Time) {
    Row(row, now) && row.status.Pending? && row.runType.Resource? && row.state.resource.Some? && Untouched(row, w)
  }

  /** A finished resource run leaves no record in flight. COMPLETED leaves it READY where the engine
      put it, with an update's new state, or removes it for a DELETE. A run that FAILED or was
      REJECTED leaves nothing for a CREATE and READY for an UPDATE or DELETE, unless it had finalized
      the record, which then stays as a completed run's; and every other record is as it was. */
  lemma FinishedRunMatchesRecord(cfg: Settings, rows: seq<Run>, ts: seq<Turn>, w: World, now: Time)
    requires OrderlyTurns(cfg, rows, ts, w) && Pristine(rows[0], w, now) && (ts != [] ==> now <= ts[0].from)
    requires rows[|ts|].status.Terminal()
    ensures var run := rows[|ts|]; var end := WorldAfter(w, ts, |ts|); var op := run.state.request.operation;
            && run.state.resource.Some?
            && (run.status.Completed? ==> Fulfilled(run, end))
            && (EndedBadly(run) ==>
                  if run.state.resourceFinalized then Fulfilled(run, end)
                  else if op.Create? then Home(run) !in end.records
                  else At(end, Home(run), Ready))
            && OthersAsIn(w.records - {Home(rows[0])}, end, Home(run))
            && (Home(run) in end.records ==> !InFlight(end.records[Home(run)].state) && !end.records[Home(run)].inProgress)
  {
    hide OrderlyTurns, OthersAsIn, WorldAfter, Turns, RecordRow, Row, Fulfilled, Untouched, At;
    TurnsAre(cfg, rows, ts, w);
    var rest := w.records - {Home(rows[0])};
    PristineRecord(rows[0], w, now);
    TurnsRecord(cfg, rows, ts, rest, w, now, |ts|);
    TurnsSpend(cfg, rows, ts, now, |ts|);
    var last := if ts == [] then now else LastTime(ts[|ts| - 1].es, ts[|ts| - 1].from);
    if rows[|ts|].status.Completed? {
      CompletedIsFinalized(rows[|ts|], last);
    }
    FinalRecord(rows[|ts|], rest, WorldAfter(w, ts, |ts|));
  }

  lemma FinalRecord(run: Run, rest: Others, end: World)
    requires run.status.Terminal() && RecordRow(run, rest, end)
    requires run.status.Completed? ==> run.state.resourceConfigured && run.state.resourceFinalized
    ensures run.state.resource.Some?
            && (run.status.Completed? ==> Fulfilled(run, end))
            && (EndedBadly(run) ==>
                  if run.state.resourceFinalized then Fulfilled(run, end)
                  else if run.state.request.operation.Create? then Home(run) !in end.records
                  else At(end, Home(run), Ready))
            && OthersAsIn(rest, end, Home(run))
            && (Home(run) in end.records ==> !InFlight(end.records[Home(run)].state) && !end.records[Home(run)].inProgress)
  {
    hide OthersAsIn;
  }

  lemma TurnsAre(cfg: Settings, rows: seq<Run>, ts: seq<Turn>, w: World)
    requires OrderlyTurns(cfg, rows, ts, w)
    ensures Turns(cfg, rows, ts) && |rows| == |ts| + 1
  {
  }

  lemma PristineRecord(row: Run, w: World, now: Time)
    requires Pristine(row, w, now)
    ensures RecordRow(row, w.records - {Home(row)}, w)
  {
    hide Plan, IndexInPlan, StartedTo, CountedFor;
  }

  lemma CompletedIsFinalized(row: Run, now: Time)
    requires Row(row, now) && row.runType.Resource? && row.status.Completed?
    ensures row.state.resourceConfigured && row.state.resourceFinalized && row.state.ticketClosed
  {
    hide StartedTo, CountedFor;
  }
}
