/** When a run leaves its record in flight: what was written last, by whichever drive and whatever it was told,
    decides; and a run that ends before its configure step is done lets go of nothing. */
module LeftInFlight {
  import opened Domain
  import opened Drives
  import opened Providers
  import opened Totality
  import opened StoredRows
  import opened Bookkeeping
  import opened Gates
  import opened Histories
  import opened Safety
  import opened Termination
  import opened Escalation
  import opened Playback
  import Records

  predicate InFlightAt(w: World, p: Place) {
    p in w.records && InFlight(w.records[p].state)
  }

  // --- Whatever was written last ---

  /** Where an update leaves the record it writes. */
  function Target(p: Place, f: Fields): Place {
    match f.rekeyTo case None => p case Some(v) => p.(vendorId := v)
  }

  /** An event that took effect on the record at `p`: created, written, moved there or away, or removed it. */
  predicate Touches(w: World, e: Event, p: Place) {
    Took(e.answer)
    && match e.call
       case CreateRecord(q, _, key) => q == p && key !in w.created
       case UpdateRecord(q, f) => q in w.records && (q == p || Target(q, f) == p)
       case DeleteRecord(q) => q == p
       case _ => false
  }

  /** A write that leaves the record at `p` in flight. Only configuring makes such a write. */
  predicate LeavesInFlight(c: Call, p: Place) {
    match c
    case CreateRecord(_, f, _) => InFlight(f.state)
    case UpdateRecord(q, f) => Target(q, f) == p && InFlight(f.state)
    case _ => false
  }

  lemma OnlyConfiguringLeavesInFlight(d: Drive, p: Place)
    requires !d.pc.Finished?
    ensures LeavesInFlight(NextCall(d), p) ==> d.pc.Configuring?
  {
    hide Rekey;
  }

  /** The last event that touched the record. */
  function LastTouch(w: World, log: seq<Event>, p: Place): Option<nat>
    decreases |log|
  {
    if log == [] then None
    else
      var n := |log| - 1;
      if Touches(Onward(w, log[..n]), log[n], p) then Some(n) else LastTouch(w, log[..n], p)
  }

  lemma {:induction false} OnwardExtends(w: World, es: seq<Event>, e: Event)
    ensures Onward(w, es + [e]) == Next(Onward(w, es), e)
    decreases |es|
  {
    hide Next;
    if es == [] {
      assert ([] + [e])[1..] == [];
    } else {
      OnwardExtends(Next(w, es[0]), es[1..], e);
      assert (es + [e])[1..] == es[1..] + [e];
    }
  }

  lemma OneWrite(w: World, e: Event, p: Place)
    ensures InFlightAt(Next(w, e), p) <==> if Touches(w, e, p) then LeavesInFlight(e.call, p) else InFlightAt(w, p)
  {
  }

  /** After any events at all, a record is in flight exactly when the last event that took effect on it was a
      configure write, by whichever drive, whatever it was told, and however late. */
  lemma {:induction false} LastWriteDecides(w: World, log: seq<Event>, p: Place)
    ensures LastTouch(w, log, p).Some? ==> LastTouch(w, log, p).value < |log|
    ensures InFlightAt(Onward(w, log), p)
            <==> match LastTouch(w, log, p)
                 case None => InFlightAt(w, p)
                 case Some(i) => i < |log| && LeavesInFlight(log[i].call, p)
    decreases |log|
  {
    hide Touches, LeavesInFlight, InFlightAt;
    if log != [] {
      var n := |log| - 1;
      assert log == log[..n] + [log[n]];
      OnwardExtends(w, log[..n], log[n]);
      OneWrite(Onward(w, log[..n]), log[n], p);
      LastWriteDecides(w, log[..n], p);
    }
  }

  // --- A run that never heard its configure write go through ---

  /** What a run's resource is about: its own record, and whether it counts as configured. */
  predicate SameSpec(a: Run, b: Run) {
    a.id == b.id && a.state.request == b.state.request && a.state.resource == b.state.resource
    && a.state.resourceConfigured == b.state.resourceConfigured
  }

  /** The run does not count its record as configured; it would still configure the one it was triggered for. */
  predicate Unconfigured(first: Run, run: Run)
    requires first.state.resource.Some?
  {
    && run.id == first.id && run.state.request == first.state.request && !run.state.resourceConfigured
    && run.state.resource.Some?
    && var r, r0 := run.state.resource.value, first.state.resource.value;
       r.projectId == r0.projectId && r.resourceType == r0.resourceType
       && (!run.state.request.operation.Create? ==> r.vendorId == r0.vendorId)
  }

  predicate DriveUnconfigured(first: Run, d: Drive)
    requires first.state.resource.Some?
  {
    d.pc.Finished?
    || (Unconfigured(first, d.run)
        && (d.pc.Configuring? && d.run.state.request.operation.Create? ==> d.pc.resource.vendorId == first.id))
  }

  /** The record a run was triggered for: under the run's own id for a CREATE. */
  function HomeOf(first: Run): Place
    requires first.state.resource.Some?
  {
    var r := first.state.resource.value;
    PlaceOf(if first.state.request.operation.Create? then r.(vendorId := first.id) else r)
  }

  /** A configure write of this run. */
  predicate Configures(first: Run, c: Call)
    requires first.state.resource.Some?
  {
    match c
    case CreateRecord(p, f, key) =>
      first.state.request.operation.Create? && p == HomeOf(first) && key == IdemKey(first, ConfigureResource)
            && InFlight(f.state)
    case UpdateRecord(p, f) =>
      !first.state.request.operation.Create? && p == HomeOf(first) && f.rekeyTo.None? && InFlight(f.state)
    case _ => false
  }

  lemma FailSpec(d: Drive, s: StepName, e: Error)
    ensures SameSpec(d.run, Fail(d, s, e).run) && !Fail(d, s, e).pc.Configuring?
  {
    hide Escalate, FailedState, RetryState;
    Records.FailKeepsResource(d.run.state, s, e);
    EndingsOnly(Ended(d, RunStatus.Failed, FailedState(d.run.state, s, e)), e, false);
  }

  lemma CrashSpec(d: Drive)
    ensures SameSpec(d.run, Crash(d).run) && !Crash(d).pc.Configuring?
  {
    hide Escalate;
    var st := if d.run.currentStep.Some? then WithError(d.run.state, d.run.currentStep.value, Unclassified)
              else d.run.state;
    EndingsOnly(Ended(d, RunStatus.Failed, st), Unclassified, true);
  }

  lemma CompleteSpec(d: Drive, s: StepName)
    ensures SameSpec(d.run, Complete(d, s).run) && !Complete(d, s).pc.Configuring?
  {
    hide Crash, Plan, IndexInPlan;
    CrashSpec(d.(run := d.run.(state := Settle(d.run.state, s))));
  }

  /** What the executor makes of a handler does not touch the resource. */
  lemma ReactSpec(d: Drive, s: StepName, h: Handled)
    ensures SameSpec(WithState(d, h.st).run, React(d, s, h).run)
    ensures React(d, s, h).pc.Configuring? ==> h.outcome == Asks(React(d, s, h).pc)
  {
    hide Fail, Complete, Release;
    var d' := WithState(d, h.st);
    CompleteSpec(d', s);
    EndingsOnly(Ended(d', Rejected, WithError(h.st, s, Denial)), Denial, false);
    if h.outcome.Raises? {
      FailSpec(d', s, h.outcome.error);
    }
  }

  /** Outside the handlers nothing touches it. */
  lemma QuietSpec(d: Drive, a: Answer)
    requires !d.pc.Finished? && !InStep(d.pc) && !d.pc.CheckBudget? && Fits(NextCall(d), a)
    ensures SameSpec(d.run, Resume(d, a).run) && !Resume(d, a).pc.Configuring?
  {
    hide NextCall, Crash, Backoff, ResumeEscalation, SameSpec;
    if Escalating(d.pc) {
      EscalatingSpec(d, a);
    } else {
      TailSpec(d, a);
    }
  }

  lemma EscalatingSpec(d: Drive, a: Answer)
    requires Escalating(d.pc) && Fits(NextCall(d), a)
    ensures SameSpec(d.run, ResumeEscalation(d, a).run) && !ResumeEscalation(d, a).pc.Configuring?
  {
    hide NextCall, Release, Refuse, ResponsibleGroup;
    EndingsOnly(Noted(d, a), Unclassified, true);
    EndingsOnly(Noted(d, a), Unclassified, false);
  }

  lemma TailSpec(d: Drive, a: Answer)
    requires !d.pc.Finished? && !InStep(d.pc) && !d.pc.CheckBudget? && !Escalating(d.pc) && Fits(NextCall(d), a)
    ensures SameSpec(d.run, Resume(d, a).run) && !Resume(d, a).pc.Configuring?
  {
    hide NextCall, Crash, Backoff;
    CrashSpec(d);
  }

  lemma FirstMoveUnconfigured(first: Run, d: Drive, s: StepName)
    requires first.state.resource.Some? && Unconfigured(first, d.run)
    ensures var h := FirstMove(d.run, s);
            Unconfigured(first, d.run.(state := h.st))
            && (h.outcome.Asks? && h.outcome.pc.Configuring? && d.run.state.request.operation.Create? ==>
                  h.outcome.pc.resource.vendorId == first.id)
  {
  }

  /** The calls that touch the record, and what each needs. */
  lemma RecordCalls(first: Run, d: Drive, now: Time)
    requires first.state.resource.Some? && !d.pc.Finished? && Driving(d, now) && d.run.runType.Resource?
    requires DriveUnconfigured(first, d)
    ensures !Records.OnRecords(d.pc) || d.pc.Configuring?
    ensures OnResource(NextCall(d)) ==> d.pc.Configuring? && Configures(first, NextCall(d))
  {
    hide StartedTo, CountedFor, Plan, Row, Over, AtHead;
  }

  lemma StepUnconfigured(first: Run, d: Drive, a: Answer, now: Time)
    requires first.state.resource.Some? && InStep(d.pc) && Driving(d, now) && d.run.runType.Resource?
    requires DriveUnconfigured(first, d) && Fits(NextCall(d), a) && (d.pc.Configuring? ==> a.Raised?)
    ensures DriveUnconfigured(first, React(d, StepOf(d.pc), NextMove(d, a)))
  {
    hide React, NextMove, Driving, NextCall, StartedTo, CountedFor;
    RecordCalls(first, d, now);
    NextMoveAsks(d, a);
    ReactSpec(d, StepOf(d.pc), NextMove(d, a));
    if d.pc.Configuring? {
      RaisedKeeps(d, a);
    } else {
      Records.ElsewhereKeepsResource(d, a);
    }
  }

  lemma RaisedKeeps(d: Drive, a: Answer)
    requires d.pc.Configuring? && a.Raised? && Fits(NextCall(d), a)
    ensures NextMove(d, a) == Handled(d.run.state, Raises(Unclassified))
  {
  }

  lemma ResumeUnconfigured(first: Run, d: Drive, a: Answer, now: Time)
    requires first.state.resource.Some? && !d.pc.Finished? && Driving(d, now) && d.run.runType.Resource?
    requires DriveUnconfigured(first, d) && Fits(NextCall(d), a) && (d.pc.Configuring? ==> a.Raised?)
    ensures DriveUnconfigured(first, Resume(d, a))
  {
    hide React, NextMove, FirstMove, Driving, NextCall, Fail, Resume;
    if InStep(d.pc) {
      StepUnconfigured(first, d, a, now);
      InStepReacts(d, a);
    } else if d.pc.CheckBudget? {
      FirstMoveUnconfigured(first, d, d.pc.step);
      ReactSpec(d, d.pc.step, FirstMove(d.run, d.pc.step));
      FailSpec(d, d.pc.step, DeadlineExceeded);
      CheckReacts(d, a);
    } else {
      QuietSpec(d, a);
    }
  }

  lemma InStepReacts(d: Drive, a: Answer)
    requires InStep(d.pc) && Fits(NextCall(d), a)
    ensures Resume(d, a) == React(d, StepOf(d.pc), NextMove(d, a))
  {
  }

  lemma CheckReacts(d: Drive, a: Answer)
    requires d.pc.CheckBudget? && Fits(NextCall(d), a)
    ensures Resume(d, a) == (if a.now - d.pc.started > MaxDuration(d.pc.step) then Fail(d, d.pc.step, DeadlineExceeded)
                             else React(d, d.pc.step, FirstMove(d.run, d.pc.step)))
  {
    hide Fail, React, FirstMove;
  }

  // --- Over every history ---

  /** No drive was ever told that its configure write went through. */
  predicate NoneConfirmed(first: Run, log: seq<Event>)
    requires first.state.resource.Some?
  {
    forall i :: 0 <= i < |log| && Configures(first, log[i].call) ==> log[i].answer.Raised?
  }

  predicate OnlyConfigures(first: Run, log: seq<Event>)
    requires first.state.resource.Some?
  {
    forall i :: 0 <= i < |log| && OnResource(log[i].call) ==> Configures(first, log[i].call)
  }

  ghost predicate AllUnconfigured(first: Run, s: System)
    requires first.state.resource.Some?
  {
    && s.row.runType.Resource? && Unconfigured(first, s.row) && OnlyConfigures(first, s.log)
    && forall w :: w in s.flights ==> DriveUnconfigured(first, s.flights[w].drive)
  }

  lemma LoadUnconfigured(first: Run, cfg: Settings, row: Run)
    requires first.state.resource.Some? && Unconfigured(first, row)
    ensures DriveUnconfigured(first, Start(cfg, row))
  {
  }

  lemma HearUnconfigured(first: Run, s: System, w: nat, a: Answer)
    requires first.state.resource.Some? && Enabled(s, Hear(w, a)) && Chained(first, s) && Safe(s)
    requires AllUnconfigured(first, s) && NoneConfirmed(first, Apply(s, Hear(w, a)).log)
    ensures AllUnconfigured(first, Apply(s, Hear(w, a)))
  {
    hide Row, RowGate, Driving, DriveGate, Justified, KeysBounded, NextCall, Fits, Resume, Serial, IsTrace, After, Start,
         Shape, LogGrew, Unconfigured, Configures;
    var f := s.flights[w];
    var e := Event(NextCall(f.drive), a);
    var log' := s.log + [e];
    assert Apply(s, Hear(w, a)).log == log' && log'[|s.log|] == e;
    RecordCalls(first, f.drive, s.now);
    ConfiguringConfigures(first, f.drive);
    ResumeUnconfigured(first, f.drive, a, s.now);
    if f.drive.pc.Saving? && Applied(a) {
      SavedUnconfigured(first, s.row, f.drive.run);
    }
  }

  lemma ConfiguringConfigures(first: Run, d: Drive)
    requires first.state.resource.Some? && !d.pc.Finished?
    ensures d.pc.Configuring? ==> OnResource(NextCall(d))
  {
  }

  lemma SavedUnconfigured(first: Run, row: Run, run: Run)
    requires first.state.resource.Some? && Unconfigured(first, run) && SameRun(run, row)
    ensures Unconfigured(first, Saved(row, run))
  {
  }

  lemma NudgeUnconfigured(first: Run, s: System, m: Move)
    requires first.state.resource.Some? && Enabled(s, m) && !m.Hear? && AllUnconfigured(first, s)
    ensures AllUnconfigured(first, Apply(s, m))
  {
    hide Heard, Start, NextCall, Fits, Configures;
    LoadUnconfigured(first, s.cfg, s.row);
  }

  lemma {:induction false} LogExtends(s: System, ms: seq<Move>)
    requires Legal(s, ms)
    ensures s.log <= Reached(s, ms).log
    decreases |ms|
  {
    hide Enabled;
    if ms != [] {
      LogExtends(Apply(s, ms[0]), ms[1..]);
    }
  }

  lemma {:induction false} HistoriesUnconfigured(first: Run, s: System, ms: seq<Move>)
    requires first.state.resource.Some? && Legal(s, ms) && Chained(first, s) && Safe(s)
    requires AllUnconfigured(first, s) && NoneConfirmed(first, Reached(s, ms).log)
    ensures AllUnconfigured(first, Reached(s, ms))
    decreases |ms|
  {
    hide Chained, Safe, AllUnconfigured, Enabled, Apply, Configures;
    if ms != [] {
      HistoriesAreSafe(first, s, [ms[0]]);
      assert Reached(s, [ms[0]]) == Apply(s, ms[0]) by { assert [ms[0]][1..] == []; }
      LogExtends(Apply(s, ms[0]), ms[1..]);
      if ms[0].Hear? {
        HearUnconfigured(first, s, ms[0].worker, ms[0].answer);
      } else {
        NudgeUnconfigured(first, s, ms[0]);
      }
      HistoriesUnconfigured(first, Apply(s, ms[0]), ms[1..]);
    }
  }

  // --- The record of such a run ---

  /** The record as a configure write finds it: not there yet for a CREATE, there for the others; or already in
      flight by an earlier one. */
  predicate Configurable(first: Run, w: World)
    requires first.state.resource.Some?
  {
    if first.state.request.operation.Create? then
      if IdemKey(first, ConfigureResource) in w.created then InFlightAt(w, HomeOf(first)) else HomeOf(first) !in w.records
    else HomeOf(first) in w.records
  }

  predicate TookHold(e: Event) {
    OnResource(e.call) && Took(e.answer)
  }

  lemma OneConfigure(first: Run, w: World, e: Event)
    requires first.state.resource.Some? && Configurable(first, w)
    requires OnResource(e.call) ==> Configures(first, e.call)
    ensures Configurable(first, Next(w, e))
    ensures InFlightAt(Next(w, e), HomeOf(first)) <==> InFlightAt(w, HomeOf(first)) || TookHold(e)
  {
  }

  lemma {:induction false} ConfiguresAddUp(first: Run, w: World, log: seq<Event>)
    requires first.state.resource.Some? && Configurable(first, w) && OnlyConfigures(first, log)
    ensures InFlightAt(Onward(w, log), HomeOf(first))
            <==> InFlightAt(w, HomeOf(first)) || exists i :: 0 <= i < |log| && TookHold(log[i])
    decreases |log|
  {
    hide Configurable, Configures, Next, TookHold, InFlightAt;
    if log != [] {
      assert OnResource(log[0].call) ==> Configures(first, log[0].call);
      OneConfigure(first, w, log[0]);
      ConfiguresAddUp(first, Next(w, log[0]), log[1..]);
      if i :| 0 <= i < |log| && TookHold(log[i]) {
        assert i == 0 || TookHold(log[1..][i - 1]);
      }
      if i :| 0 <= i < |log[1..]| && TookHold(log[1..][i]) {
        assert TookHold(log[i + 1]);
      }
    }
  }

  /** A resource run, its record as the trigger found it. */
  ghost predicate Untouched(first: Run, w0: World, now: Time) {
    Triggered(first, now) && first.runType.Resource? && first.state.resource.Some?
    && Configurable(first, w0) && !InFlightAt(w0, HomeOf(first))
  }

  /** Over every history, for all three operations: as long as no drive is told that its configure write went
      through, the run writes nothing else to its record and never counts it as configured, so nothing is ever released;
      and the record is in flight exactly when some configure write took effect all the same. */
  lemma UnconfirmedRunLeavesInFlight(cfg: Settings, first: Run, now: Time, ms: seq<Move>, w0: World)
    requires Untouched(first, w0, now) && Legal(Fresh(cfg, first, now), ms)
    requires NoneConfirmed(first, Reached(Fresh(cfg, first, now), ms).log)
    ensures var s := Reached(Fresh(cfg, first, now), ms);
            && !s.row.state.resourceConfigured && OnlyConfigures(first, s.log)
            && (InFlightAt(Onward(w0, s.log), HomeOf(first)) <==> exists i :: 0 <= i < |s.log| && TookHold(s.log[i]))
  {
    hide Chained, Row, RowGate, SafeFlight, KeysBounded, Justified, Legal, Configures, InFlightAt;
    var s0 := Fresh(cfg, first, now);
    FreshIsSafe(cfg, first, now);
    FreshUnconfigured(cfg, first, now);
    HistoriesUnconfigured(first, s0, ms);
    ConfiguresAddUp(first, w0, Reached(s0, ms).log);
  }

  lemma FreshUnconfigured(cfg: Settings, first: Run, now: Time)
    requires Triggered(first, now) && first.runType.Resource? && first.state.resource.Some?
    ensures AllUnconfigured(first, Fresh(cfg, first, now))
  {
    hide StartedTo;
  }

  // --- One drive after the other ---

  /** A configured run stays configured. */
  lemma ConfiguredStays(d: Drive, a: Answer)
    requires !d.pc.Finished? && Fits(NextCall(d), a) && d.run.state.resourceConfigured
    ensures Resume(d, a).run.state.resourceConfigured
  {
    hide React, NextMove, FirstMove, NextCall, Fail, Resume;
    if InStep(d.pc) {
      MoveConfigured(d, a);
      ReactSpec(d, StepOf(d.pc), NextMove(d, a));
      InStepReacts(d, a);
    } else if d.pc.CheckBudget? {
      FirstMoveConfigured(d.run, d.pc.step);
      ReactSpec(d, d.pc.step, FirstMove(d.run, d.pc.step));
      FailSpec(d, d.pc.step, DeadlineExceeded);
      CheckReacts(d, a);
    } else {
      QuietSpec(d, a);
    }
  }

  lemma MoveConfigured(d: Drive, a: Answer)
    requires InStep(d.pc) && Fits(NextCall(d), a) && d.run.state.resourceConfigured
    ensures NextMove(d, a).st.resourceConfigured
  {
    hide Rekey, FinalizeFields;
  }

  lemma FirstMoveConfigured(run: Run, s: StepName)
    requires run.state.resourceConfigured
    ensures FirstMove(run, s).st.resourceConfigured
  {
  }

  /** A configure write that was acknowledged makes the run configured. */
  lemma ConfirmedIsConfigured(d: Drive, a: Answer)
    requires d.pc.Configuring? && Fits(NextCall(d), a) && !a.Raised?
    ensures Resume(d, a).run.state.resourceConfigured
  {
    hide React, NextCall;
    ReactSpec(d, ConfigureResource, NextMove(d, a));
  }

  lemma {:induction false} TraceConfigured(d: Drive, es: seq<Event>)
    requires IsTrace(d, es) && d.run.state.resourceConfigured
    ensures After(d, es).run.state.resourceConfigured
    decreases |es|
  {
    hide Resume, Fits, NextCall;
    if es != [] {
      ConfiguredStays(d, es[0].answer);
      TraceConfigured(Resume(d, es[0].answer), es[1..]);
    }
  }

  /** A drive that does not end configured wrote nothing but configure writes, and every one of them raised. */
  lemma {:induction false} TraceUnconfigured(first: Run, d: Drive, es: seq<Event>, now: Time)
    requires first.state.resource.Some? && IsTrace(d, es) && Paced(es, now) && Driving(d, now) && d.run.runType.Resource?
    requires DriveUnconfigured(first, d) && !After(d, es).run.state.resourceConfigured
    requires forall i :: 0 <= i < |es| ==> !es[i].call.SaveRun?
    ensures OnlyConfigures(first, es) && NoneConfirmed(first, es) && DriveUnconfigured(first, After(d, es))
    decreases |es|
  {
    hide Resume, Fits, Driving, Configures, LogGrew, Unconfigured;
    if es != [] {
      var a := es[0].answer;
      var t := if a.Clock? then a.now else now;
      assert !es[0].call.SaveRun?;
      NotSaving(d);
      RecordCalls(first, d, now);
      ConfiguringConfigures(first, d);
      ResumeKeeps(d, a, now, t);
      CallKept(d, a);
      FinishedOnlySaves(d, a);
      if d.pc.Configuring? && !a.Raised? {
        ConfirmedIsConfigured(d, a);
        TraceConfigured(Resume(d, a), es[1..]);
        assert false;
      }
      ResumeUnconfigured(first, d, a, now);
      TraceUnconfigured(first, Resume(d, a), es[1..], t);
      OneMoreEvent(first, es);
      ConfiguresOnlyRecords(first, es[0].call);
    }
  }

  lemma ConfiguresOnlyRecords(first: Run, c: Call)
    requires first.state.resource.Some?
    ensures Configures(first, c) ==> OnResource(c)
  {
  }

  lemma OneMoreEvent(first: Run, es: seq<Event>)
    requires first.state.resource.Some? && es != []
    ensures OnlyConfigures(first, es)
            <==> OnlyConfigures(first, es[1..]) && (OnResource(es[0].call) ==> Configures(first, es[0].call))
    ensures NoneConfirmed(first, es)
            <==> NoneConfirmed(first, es[1..]) && (Configures(first, es[0].call) ==> es[0].answer.Raised?)
  {
    hide Configures;
    assert es == [es[0]] + es[1..];
  }

  /** All that the drives of these turns asked and heard. */
  function LogOf(ts: seq<Turn>): seq<Event> {
    if ts == [] then [] else LogOf(ts[..|ts| - 1]) + ts[|ts| - 1].es
  }

  lemma TurnUnconfigured(cfg: Settings, first: Run, row: Run, t: Turn, after: Run, now: Time)
    requires first.state.resource.Some? && TurnOn(cfg, row, t, after) && Row(row, now) && now <= t.from
    requires row.runType.Resource? && Unconfigured(first, row) && !after.state.resourceConfigured
    ensures Unconfigured(first, after) && after.runType.Resource? && OnlyConfigures(first, t.es)
  {
    hide Row, Start, Fits, NextCall, Resume, LogGrew, IsTrace, After, Driving, Configures;
    var d := Start(cfg, t.base);
    Later(row, now, t.from);
    RowIgnoresSchedule(row, t.base.scheduledAt.value, t.from);
    assert t.base == row.(scheduledAt := t.base.scheduledAt);
    StartKeeps(cfg, t.base, t.from);
    StartKept(cfg, t.base);
    LoadUnconfigured(first, cfg, t.base);
    TraceUnconfigured(first, d, t.es, t.from);
    TraceKept(t.base, d, t.es);
    SavedUnconfigured(first, t.base, After(d, t.es).run);
  }

  /** A row that is configured leads to one that is. */
  lemma TurnConfigured(cfg: Settings, row: Run, t: Turn, after: Run)
    requires TurnOn(cfg, row, t, after) && row.state.resourceConfigured
    ensures after.state.resourceConfigured
  {
    hide Fits, NextCall, Resume, IsTrace, After;
    TraceConfigured(Start(cfg, t.base), t.es);
  }

  lemma {:induction false} TurnsUnconfigured(cfg: Settings, first: Run, rows: seq<Run>, ts: seq<Turn>, now: Time, n: nat)
    requires first.state.resource.Some? && Turns(cfg, rows, ts) && Row(rows[0], now) && (ts != [] ==> now <= ts[0].from)
    requires n <= |ts| && rows[0].runType.Resource? && Unconfigured(first, rows[0]) && !rows[n].state.resourceConfigured
    ensures Unconfigured(first, rows[n]) && rows[n].runType.Resource? && OnlyConfigures(first, LogOf(ts[..n]))
    decreases n
  {
    hide Row, Unconfigured, IsTrace, After, Start, Configures;
    if n > 0 {
      var t := ts[n - 1];
      assert TurnOn(cfg, rows[n - 1], t, rows[n]);
      TurnsSpend(cfg, rows, ts, now, n - 1);
      var before := if n == 1 then now else LastTime(ts[n - 2].es, ts[n - 2].from);
      if n > 1 {
        assert LastTime(ts[n - 2].es, ts[n - 2].from) <= ts[n - 2 + 1].from;
      }
      if rows[n - 1].state.resourceConfigured {
        TurnConfigured(cfg, rows[n - 1], t, rows[n]);
      }
      TurnsUnconfigured(cfg, first, rows, ts, now, n - 1);
      TurnUnconfigured(cfg, first, rows[n - 1], t, rows[n], before);
      assert ts[..n][..n - 1] == ts[..n - 1];
    }
  }

  /** For all three operations, with drives one after the other and any answers at all: a run that ends before it
      counts its record as configured (at CREATE_TICKET or CONFIGURE_RESOURCE, that is) leaves the record in flight exactly
      when some configure write of its drives took effect. */
  lemma UnconfiguredRunLeavesInFlight(cfg: Settings, rows: seq<Run>, ts: seq<Turn>, w0: World, now: Time)
    requires Turns(cfg, rows, ts) && Untouched(rows[0], w0, now) && (ts != [] ==> now <= ts[0].from)
    requires !rows[|ts|].state.resourceConfigured
    ensures InFlightAt(Onward(w0, LogOf(ts)), HomeOf(rows[0]))
            <==> exists i :: 0 <= i < |LogOf(ts)| && TookHold(LogOf(ts)[i])
  {
    hide Turns, Row, Configures, InFlightAt, LogOf;
    TurnsHasRows(cfg, rows, ts);
    FreshUnconfigured(cfg, rows[0], now);
    assert ts[..|ts|] == ts;
    TurnsUnconfigured(cfg, rows[0], rows, ts, now, |ts|);
    ConfiguresAddUp(rows[0], w0, LogOf(ts));
  }

  lemma TurnsHasRows(cfg: Settings, rows: seq<Run>, ts: seq<Turn>)
    requires Turns(cfg, rows, ts)
    ensures |rows| == |ts| + 1
  {
  }

  // --- A late write of an overlapping drive ---

  /** Whatever became of the run meanwhile: the write of a drive that is still on its way lands, and leaves the record
      in flight. The run's row does not change any more if it is over. */
  lemma LateWriteLands(s: System, w: nat, w0: World)
    requires w in s.flights && s.flights[w].drive.pc.Configuring?
    requires var d := s.flights[w].drive;
             !d.run.state.request.operation.Create? && PlaceOf(d.pc.resource) in Onward(w0, s.log).records
    ensures Enabled(s, Hear(w, Acknowledged))
    ensures var s' := Apply(s, Hear(w, Acknowledged));
            s'.row == s.row && InFlightAt(Onward(w0, s'.log), PlaceOf(s.flights[w].drive.pc.resource))
  {
    var d := s.flights[w].drive;
    Hears(s, w, Acknowledged);
    OnwardExtends(w0, s.log, Event(NextCall(d), Acknowledged));
  }

  /** A resource run about to be driven for the first time, with no retry. */
  ghost predicate ToOrder(row: Run, now: Time) {
    Row(row, now) && row.status.Pending? && row.runType.Resource? && row.maxRetries == 0
    && !row.state.request.operation.Create?
  }

  predicate Waits(d: Drive, row: Run) {
    d.run.version == row.version && d.run.maxRetries == 0 && !d.run.state.resourceConfigured
    && d.run.state.request == row.state.request && d.run.state.resource == row.state.resource && d.run.state.resource.Some?
    && d.run.runType.Resource? && d.run.status.Running?
  }

  lemma ClocksToOrder(cfg: Settings, row: Run, now: Time) returns (d1: Drive, d2: Drive, d: Drive)
    requires ToOrder(row, now)
    ensures Start(cfg, row).pc.Begin? && d1 == Resume(Start(cfg, row), Clock(now))
    ensures d1.pc.StartAttempt? && d2 == Resume(d1, Clock(now))
    ensures d2.pc.CheckBudget? && d == Resume(d2, Clock(now))
    ensures d.pc.Ordering? && d.run.currentStep == Some(CreateTicket) && Waits(d, row)
  {
    hide Fail, Complete, StartedTo, CountedFor;
    d1 := Resume(Start(cfg, row), Clock(now));
    d2 := Resume(d1, Clock(now));
    d := Resume(d2, Clock(now));
  }

  lemma OrderRaises(d: Drive)
    requires d.pc.Ordering? && d.run.maxRetries == 0 && !d.run.state.resourceConfigured
    ensures NextCall(d).OpenTicket? && Fits(NextCall(d), Raised(false, false))
    ensures var d' := Resume(d, Raised(false, false));
            d'.pc == Paging(Unclassified, false) && !d'.run.state.resourceConfigured && d'.run.status.Failed?
            && d'.run.version == d.run.version
  {
  }

  lemma PageRaises(d: Drive)
    requires d.pc == Paging(Unclassified, false) && !d.run.state.resourceConfigured
    ensures NextCall(d).OpenIncident? && Fits(NextCall(d), Raised(false, false))
    ensures var d' := Resume(d, Raised(false, false)); d'.pc == Saving(false) && d'.run == d.run
  {
  }

  /** The drive whose order raises: it fails the run without a page, and saves it. */
  lemma FailingDrive(cfg: Settings, row: Run, now: Time) returns (es: seq<Event>)
    requires ToOrder(row, now)
    ensures IsTrace(Start(cfg, row), es) && NoSaveAt(es, now) && forall i :: 0 <= i < |es| ==> !OnResource(es[i].call)
    ensures var d := After(Start(cfg, row), es);
            d.pc.Saving? && d.run.status.Failed? && d.run.version == row.version && !d.run.state.resourceConfigured
  {
    hide Start, Resume, ResumeLoop, IsTrace, After, Row, NextCall, Fits;
    var d1, d2, d := ClocksToOrder(cfg, row, now);
    assert d1 == ResumeLoop(Start(cfg, row), now) && d2 == ResumeLoop(d1, now)
          && d == ResumeLoop(d2, now) by { LoopIsResume(Start(cfg, row), d1, d2, now); }
    ThreeClocks(Start(cfg, row), d1, d2, d, now);
    OrderRaises(d);
    var order := Event(NextCall(d), Raised(false, false));
    var d' := Resume(d, Raised(false, false));
    PageRaises(d');
    var page := Event(NextCall(d'), Raised(false, false));
    TraceExtends(Start(cfg, row), Clocks(now), order);
    TraceExtends(Start(cfg, row), Clocks(now) + [order], page);
    es := Clocks(now) + [order] + [page];
  }

  lemma OrderedNext(d: Drive, row: Run, ref: TicketRef, now: Time) returns (d0: Drive, d1: Drive, d2: Drive, e: Drive)
    requires d.pc.Ordering? && d.run.currentStep == Some(CreateTicket) && Waits(d, row) && !row.state.request.operation.Create?
    ensures d0 == Resume(d, Ticket(ref)) && d0.pc.Begin? && d1 == ResumeLoop(d0, now) && d1.pc.StartAttempt?
    ensures d2 == ResumeLoop(d1, now) && d2.pc.CheckBudget? && e == ResumeLoop(d2, now)
    ensures e.pc == Configuring(row.state.resource.value) && Waits(e, row)
  {
    hide Fail, ResumeLoop;
    d0 := Resume(d, Ticket(ref));
    d1, d2, e := ConfigureNext(d0, row, now);
  }

  lemma ConfigureNext(d: Drive, row: Run, now: Time) returns (d1: Drive, d2: Drive, e: Drive)
    requires d.pc == Begin(ConfigureResource) && Waits(d, row) && !row.state.request.operation.Create?
    requires d.run.state.books.attemptStartedAt == None
    ensures d1 == ResumeLoop(d, now) && d1.pc.StartAttempt?
    ensures d2 == ResumeLoop(d1, now) && d2.pc.CheckBudget? && e == ResumeLoop(d2, now)
    ensures e.pc == Configuring(row.state.resource.value) && Waits(e, row)
  {
    hide Fail;
    d1 := ResumeLoop(d, now);
    d2 := ResumeLoop(d1, now);
    e := ResumeLoop(d2, now);
  }

  /** The drive whose order is answered: it is about to mark the record. */
  lemma SlowDrive(cfg: Settings, row: Run, now: Time, ref: TicketRef) returns (es: seq<Event>)
    requires ToOrder(row, now)
    ensures IsTrace(Start(cfg, row), es) && NoSaveAt(es, now) && forall i :: 0 <= i < |es| ==> !OnResource(es[i].call)
    ensures row.state.resource.Some?
    ensures var d := After(Start(cfg, row), es);
            d.pc == Configuring(row.state.resource.value) && d.run.state.request == row.state.request
  {
    hide Start, Resume, IsTrace, After, Row, ResumeLoop;
    var d1, d2, d := ClocksToOrder(cfg, row, now);
    LoopIsResume(Start(cfg, row), d1, d2, now);
    ThreeClocks(Start(cfg, row), d1, d2, d, now);
    var e0, e1, e2, e := OrderedNext(d, row, ref, now);
    var order := Event(NextCall(d), Ticket(ref));
    TraceExtends(Start(cfg, row), Clocks(now), order);
    ThreeClocks(e0, e1, e2, e, now);
    TraceJoins(Start(cfg, row), Clocks(now) + [order], Clocks(now));
    es := Clocks(now) + [order] + Clocks(now);
  }

  lemma {:induction false} OthersLeaveRecords(w: World, es: seq<Event>)
    requires forall i :: 0 <= i < |es| ==> !OnResource(es[i].call)
    ensures Onward(w, es).records == w.records
    decreases |es|
  {
    if es != [] {
      OthersLeaveRecords(Next(w, es[0]), es[1..]);
    }
  }

  /** An UPDATE or DELETE without retries, driven twice at once: one drive's order raises and ends the run FAILED, with
      nothing to release; the other's order went through, and its write comes last. The run is over, its row stays as it
      is, and its record is in flight for good. */
  lemma LateWriteHistory(cfg: Settings, row: Run, now: Time, ref: TicketRef, w0: World) returns (ms: seq<Move>)
    requires ToOrder(row, now) && row.state.resource.Some? && HomeOf(row) in w0.records
    ensures Legal(Fresh(cfg, row, now), ms)
    ensures var s := Reached(Fresh(cfg, row, now), ms);
            s.row.status.Failed? && !s.row.state.resourceConfigured && InFlightAt(Onward(w0, s.log), HomeOf(row))
  {
    hide HeardBy, Row, Start, IsTrace, After, Enabled, Apply, InFlightAt;
    var s0 := Fresh(cfg, row, now);
    var slow := SlowDrive(cfg, row, now, ref);
    var failing := FailingDrive(cfg, row, now);
    Loads(s0, 0);
    Append(s0, [], Load(0));
    var s1 := Apply(s0, Load(0));
    Plays(s1, 0, slow);
    var m1 := [] + [Load(0)] + HeardBy(0, slow);
    Concatenate(s0, [] + [Load(0)], HeardBy(0, slow));
    var s2 := Reached(s1, HeardBy(0, slow));
    SavedDriveStores(s2, 1, failing);
    var m2 := m1 + SavedDrive(1, failing);
    Concatenate(s0, m1, SavedDrive(1, failing));
    var s3 := Reached(s2, SavedDrive(1, failing));
    var save := Event(SaveRun(After(Start(cfg, row), failing).run), SaveOk);
    assert s3.log == slow + failing + [save];
    OthersLeaveRecords(w0, s3.log);
    LateWriteLands(s3, 0, w0);
    Append(s0, m2, Hear(0, Acknowledged));
    ms := m2 + [Hear(0, Acknowledged)];
  }
}
