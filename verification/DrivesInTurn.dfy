/** Disciplined histories of the interleaved system are turns: one drive after the other, each on the row the one before it
    saved. So what is proved of turns, that they end and what they leave on the record, holds of the system itself. */
module DrivesInTurn {
  import opened Domain
  import opened Drives
  import opened Totality
  import opened StoredRows
  import opened Bookkeeping
  import opened Histories
  import opened Termination
  import opened Leases
  import opened Playback
  import opened Providers
  import opened Records
  import LeftInFlight

  /** A disciplined move in which no drive dies before its end. */
  predicate Deathless(l: Leased, w: nat, m: Move) {
    Disciplined(l, w, m) && (m.Die? ==> l.sys.flights[w].drive.pc.Finished?)
  }

  ghost predicate AllDeathless(l: Leased, ms: seq<(nat, Move)>)
    decreases |ms|
  {
    ms == [] || (Deathless(l, ms[0].0, ms[0].1) && AllDeathless(Held(l, ms[0].0, ms[0].1), ms[1..]))
  }

  /** When the last turn ended. */
  function EndOf(ts: seq<Turn>, t0: Time): Time {
    if ts == [] then t0 else LastTime(ts[|ts| - 1].es, ts[|ts| - 1].from)
  }

  ghost predicate FlightInTurn(l: Leased, w: nat, last: Run) {
    w in l.holders && w in l.sys.flights && !l.sys.flights[w].drive.pc.Finished?
    && var f := l.sys.flights[w];
       SameButSchedule(f.base, last) && f.base.scheduledAt.Some?
       && Paced(f.heard, l.holders[w]) && LastTime(f.heard, l.holders[w]) <= l.sys.now
       && forall i :: 0 <= i < |f.heard| ==> !f.heard[i].call.SaveRun?
  }

  /** The one worker that holds a claim: it claimed the last saved row when that was due, after the last turn ended. */
  ghost predicate HoldsInTurn(l: Leased, w: nat, last: Run, end: Time) {
    w in l.holders && !last.status.Terminal() && last.scheduledAt.Some? && last.scheduledAt.value <= l.holders[w]
    && end <= l.holders[w] <= l.sys.now && SameButSchedule(l.sys.row, last) && l.sys.row.scheduledAt.Some?
    && (w in l.sys.flights ==> FlightInTurn(l, w, last))
  }

  ghost predicate Linked(first: Run, t0: Time, l: Leased, rows: seq<Run>, ts: seq<Turn>) {
    && |rows| == |ts| + 1 && rows[0] == first && Turns(l.sys.cfg, rows, ts) && |ts| == |l.sys.commits|
    && (ts != [] ==> t0 <= ts[0].from) && EndOf(ts, t0) <= l.sys.now
    && (l.holders == map[] ==> l.sys.row == rows[|ts|])
    && (forall w :: w in l.holders ==> HoldsInTurn(l, w, rows[|ts|], EndOf(ts, t0)))
  }

  lemma {:induction false} PacedGrows(es: seq<Event>, from: Time, e: Event)
    requires Paced(es, from) && (e.answer.Clock? ==> LastTime(es, from) <= e.answer.now)
    ensures Paced(es + [e], from)
    ensures LastTime(es + [e], from) == if e.answer.Clock? then e.answer.now else LastTime(es, from)
    decreases |es|
  {
    if es == [] {
      assert [] + [e] == [e] && [e][1..] == [];
    } else {
      PacedGrows(es[1..], if es[0].answer.Clock? then es[0].answer.now else from, e);
      assert (es + [e])[1..] == es[1..] + [e];
    }
  }

  /** A claim is made only when nobody holds one. */
  lemma ClaimIsAlone(l: Leased, w: nat, m: Move)
    requires LeaseHolds(l) && m.Claim? && Disciplined(l, w, m)
    ensures l.holders == map[]
  {
    forall v ensures v !in l.holders {
    }
  }

  lemma ClaimLinked(first: Run, t0: Time, l: Leased, w: nat, m: Move, rows: seq<Run>, ts: seq<Turn>)
    requires LeaseHolds(l) && Chained(first, l.sys) && Linked(first, t0, l, rows, ts)
    requires m.Claim? && Deathless(l, w, m)
    ensures Linked(first, t0, Held(l, w, m), rows, ts)
  {
    hide Serial, FlightOk, Turns, Heard, Start, LastTime, Paced;
    ClaimIsAlone(l, w, m);
  }

  lemma TickLinked(first: Run, t0: Time, l: Leased, w: nat, m: Move, rows: seq<Run>, ts: seq<Turn>)
    requires LeaseHolds(l) && Linked(first, t0, l, rows, ts) && m.Tick? && Deathless(l, w, m)
    ensures Linked(first, t0, Held(l, w, m), rows, ts)
  {
    hide Turns, Heard, Start, Paced, LastTime;
    var l' := Held(l, w, m);
    forall v | v in l'.holders ensures HoldsInTurn(l', v, rows[|ts|], EndOf(ts, t0)) {
      assert HoldsInTurn(l, v, rows[|ts|], EndOf(ts, t0));
    }
  }

  lemma LoadLinked(first: Run, t0: Time, l: Leased, w: nat, m: Move, rows: seq<Run>, ts: seq<Turn>)
    requires LeaseHolds(l) && Linked(first, t0, l, rows, ts) && m.Load? && Deathless(l, w, m)
    ensures Linked(first, t0, Held(l, w, m), rows, ts)
  {
    hide Turns, Heard;
    Loads(l.sys, w);
    assert HoldsInTurn(l, w, rows[|ts|], EndOf(ts, t0));
    var l' := Held(l, w, m);
    assert !Start(l.sys.cfg, l.sys.row).pc.Finished?;
    assert l'.holders == l.holders;
    assert FlightInTurn(l', w, rows[|ts|]);
    forall v | v in l'.holders ensures HoldsInTurn(l', v, rows[|ts|], EndOf(ts, t0)) {
      assert v == w;
    }
  }

  lemma DieLinked(first: Run, t0: Time, l: Leased, w: nat, m: Move, rows: seq<Run>, ts: seq<Turn>)
    requires LeaseHolds(l) && Linked(first, t0, l, rows, ts) && m.Die? && Deathless(l, w, m)
    ensures Linked(first, t0, Held(l, w, m), rows, ts)
  {
    hide Turns, Heard, Start, Paced, LastTime;
    Dies(l.sys, w);
    forall v | v in l.holders ensures v != w {
      assert HoldsInTurn(l, v, rows[|ts|], EndOf(ts, t0));
    }
    var l' := Held(l, w, m);
    assert l'.holders == l.holders;
    forall v | v in l'.holders ensures HoldsInTurn(l', v, rows[|ts|], EndOf(ts, t0)) {
      assert HoldsInTurn(l, v, rows[|ts|], EndOf(ts, t0));
    }
  }

  /** The drive that holds the claim hears an answer to a call that is not a save. */
  lemma HearLinked(first: Run, t0: Time, l: Leased, w: nat, m: Move, rows: seq<Run>, ts: seq<Turn>)
    requires LeaseHolds(l) && Linked(first, t0, l, rows, ts) && m.Hear? && Deathless(l, w, m)
    requires !l.sys.flights[w].drive.pc.Saving?
    ensures Linked(first, t0, Held(l, w, m), rows, ts)
  {
    hide Turns, Start, Resume, NextCall, Fits, LastTime, Paced;
    assert w in l.holders && HoldsInTurn(l, w, rows[|ts|], EndOf(ts, t0));
    var f := l.sys.flights[w];
    var e := Event(NextCall(f.drive), m.answer);
    Hears(l.sys, w, m.answer);
    FinishedOnlySaves(f.drive, m.answer);
    NotSaving(f.drive);
    PacedGrows(f.heard, l.holders[w], e);
    var l' := Held(l, w, m);
    assert l'.holders == l.holders;
    assert FlightInTurn(l', w, rows[|ts|]);
    forall v | v in l'.holders ensures HoldsInTurn(l', v, rows[|ts|], EndOf(ts, t0)) {
      assert v == w;
    }
  }

  /** The turn a save ends. */
  function TurnOf(l: Leased, w: nat): Turn
    requires w in l.holders && w in l.sys.flights
  {
    Turn(l.sys.flights[w].base, l.holders[w], l.sys.flights[w].heard)
  }

  lemma SaveIsATurn(first: Run, t0: Time, l: Leased, w: nat, m: Move, rows: seq<Run>, ts: seq<Turn>)
    requires LeaseHolds(l) && Chained(first, l.sys) && Linked(first, t0, l, rows, ts) && m.Hear? && Deathless(l, w, m)
    requires l.sys.flights[w].drive.pc.Saving?
    ensures w in l.holders && m.answer.SaveOk?
    ensures var f := l.sys.flights[w]; var l' := Held(l, w, m);
            TurnOn(l.sys.cfg, rows[|ts|], TurnOf(l, w), l'.sys.row) && EndOf(ts, t0) <= l.holders[w]
            && LastTime(f.heard, l.holders[w]) <= l.sys.now
            && l'.holders == map[] && l'.sys.now == l.sys.now && l'.sys.cfg == l.sys.cfg
            && |l'.sys.commits| == |l.sys.commits| + 1
  {
    hide Serial, Turns, Start, IsTrace, After, Paced, LastTime, Shape, Kept;
    assert w in l.holders && HoldsInTurn(l, w, rows[|ts|], EndOf(ts, t0));
    var f := l.sys.flights[w];
    SaveIsTheLastCall(f.drive, m.answer);
    BaseVersion(l.sys, w, rows[|ts|]);
    Saves(l.sys, w);
  }

  /** A base that is the stored row but for the schedule still has its version, and its drive the base's. */
  lemma BaseVersion(s: System, w: nat, last: Run)
    requires w in s.flights && FlightOk(s, s.flights[w]) && !s.flights[w].drive.pc.Finished?
    requires SameButSchedule(s.flights[w].base, last) && SameButSchedule(s.row, last)
    ensures s.row.version == s.flights[w].drive.run.version && s.flights[w].base.version == s.row.version
    ensures s.flights[w].base.(scheduledAt := last.scheduledAt) == last
    ensures Saved(s.row, s.flights[w].drive.run) == Saved(s.flights[w].base, s.flights[w].drive.run)
  {
    hide Start, IsTrace, After, Shape, LogGrew;
  }

  lemma TurnsGrow(cfg: Settings, rows: seq<Run>, ts: seq<Turn>, t: Turn, after: Run)
    requires Turns(cfg, rows, ts) && TurnOn(cfg, rows[|ts|], t, after)
    requires ts != [] ==> LastTime(ts[|ts| - 1].es, ts[|ts| - 1].from) <= t.from
    ensures Turns(cfg, rows + [after], ts + [t])
  {
    hide TurnOn, LastTime;
    var rows', ts' := rows + [after], ts + [t];
    forall i | 0 <= i < |ts'| ensures TurnOn(cfg, rows'[i], ts'[i], rows'[i + 1]) {
      assert i < |ts| ==> TurnOn(cfg, rows[i], ts[i], rows[i + 1]);
    }
    forall i | 0 <= i < |ts'| - 1 ensures LastTime(ts'[i].es, ts'[i].from) <= ts'[i + 1].from {
      assert i < |ts| - 1 ==> LastTime(ts[i].es, ts[i].from) <= ts[i + 1].from;
    }
  }

  lemma SaveLinked(first: Run, t0: Time, l: Leased, w: nat, m: Move, rows: seq<Run>, ts: seq<Turn>)
    requires LeaseHolds(l) && Chained(first, l.sys) && Linked(first, t0, l, rows, ts) && m.Hear? && Deathless(l, w, m)
    requires l.sys.flights[w].drive.pc.Saving?
    ensures w in l.holders
    ensures Linked(first, t0, Held(l, w, m), rows + [Held(l, w, m).sys.row], ts + [TurnOf(l, w)])
  {
    hide Chained, Turns, TurnOn, LastTime, Heard, Resume, NextCall, Fits;
    SaveIsATurn(first, t0, l, w, m, rows, ts);
    TurnsGrow(l.sys.cfg, rows, ts, TurnOf(l, w), Held(l, w, m).sys.row);
  }

  // --- Over a whole history ---

  lemma MoveKeepsChain(first: Run, l: Leased, w: nat, m: Move)
    requires Chained(first, l.sys) && Disciplined(l, w, m)
    ensures Chained(first, Held(l, w, m).sys)
  {
    hide Chained, Apply;
    if m.Hear? {
      HearKeepsChain(first, l.sys, w, m.answer);
    } else {
      ReadKeepsChain(first, l.sys, m);
    }
  }

  /** A save makes a turn of the drive that saved. */
  function RowsAfter(l: Leased, w: nat, m: Move, rows: seq<Run>): seq<Run>
    requires Disciplined(l, w, m)
  {
    if m.Hear? && w in l.holders && l.sys.flights[w].drive.pc.Saving? then rows + [Held(l, w, m).sys.row] else rows
  }

  function TurnsAfter(l: Leased, w: nat, m: Move, ts: seq<Turn>): seq<Turn>
    requires Disciplined(l, w, m)
  {
    if m.Hear? && w in l.holders && l.sys.flights[w].drive.pc.Saving? then ts + [TurnOf(l, w)] else ts
  }

  lemma MoveLinked(first: Run, t0: Time, l: Leased, w: nat, m: Move, rows: seq<Run>, ts: seq<Turn>)
    requires LeaseHolds(l) && Chained(first, l.sys) && Linked(first, t0, l, rows, ts) && Deathless(l, w, m)
    ensures Linked(first, t0, Held(l, w, m), RowsAfter(l, w, m, rows), TurnsAfter(l, w, m, ts))
  {
    hide Linked, LeaseHolds, Chained, Heard, NextCall, Fits;
    if m.Hear? {
      if l.sys.flights[w].drive.pc.Saving? {
        SaveLinked(first, t0, l, w, m, rows, ts);
      } else {
        HearLinked(first, t0, l, w, m, rows, ts);
      }
    } else if m.Claim? {
      ClaimLinked(first, t0, l, w, m, rows, ts);
    } else if m.Load? {
      LoadLinked(first, t0, l, w, m, rows, ts);
    } else if m.Die? {
      DieLinked(first, t0, l, w, m, rows, ts);
    } else {
      TickLinked(first, t0, l, w, m, rows, ts);
    }
  }

  lemma {:induction false} HistoryLinked(first: Run, t0: Time, l: Leased, ms: seq<(nat, Move)>, rows: seq<Run>, ts: seq<Turn>)
    returns (rows': seq<Run>, ts': seq<Turn>)
    requires LeaseHolds(l) && Chained(first, l.sys) && Linked(first, t0, l, rows, ts) && AllDeathless(l, ms)
    ensures LegalMoves(l, ms) && Linked(first, t0, ReachedBy(l, ms), rows', ts')
    decreases |ms|
  {
    hide Linked, LeaseHolds, Chained, Disciplined, Held, RowsAfter, TurnsAfter;
    if ms == [] {
      rows', ts' := rows, ts;
    } else {
      var w, m := ms[0].0, ms[0].1;
      MoveKeepsLease(l, w, m);
      MoveKeepsChain(first, l, w, m);
      MoveLinked(first, t0, l, w, m, rows, ts);
      rows', ts' := HistoryLinked(first, t0, Held(l, w, m), ms[1..], RowsAfter(l, w, m, rows), TurnsAfter(l, w, m, ts));
    }
  }

  /** A run nobody has driven yet, and no claim made. */
  function Unclaimed(cfg: Settings, first: Run, now: Time, lease: Time): Leased {
    Leased(Fresh(cfg, first, now), lease, map[])
  }

  lemma UnclaimedLinked(cfg: Settings, first: Run, now: Time, lease: Time)
    requires lease > 0.0 && (first.status.Terminal() <==> first.scheduledAt.None?)
    ensures LeaseHolds(Unclaimed(cfg, first, now, lease)) && Chained(first, Fresh(cfg, first, now))
    ensures Linked(first, now, Unclaimed(cfg, first, now, lease), [first], [])
  {
  }

  /** In every disciplined history in which no drive dies before its end, the commits are turns: each by one drive of the
      row the one before it saved, started when that was due and after the one before it had ended. */
  lemma DisciplinedDrivesTakeTurns(cfg: Settings, first: Run, now: Time, lease: Time, ms: seq<(nat, Move)>)
    returns (rows: seq<Run>, ts: seq<Turn>)
    requires lease > 0.0 && (first.status.Terminal() <==> first.scheduledAt.None?)
    requires AllDeathless(Unclaimed(cfg, first, now, lease), ms)
    ensures LegalMoves(Unclaimed(cfg, first, now, lease), ms)
    ensures var s := ReachedBy(Unclaimed(cfg, first, now, lease), ms).sys;
            && Turns(cfg, rows, ts) && |rows| == |ts| + 1 && rows[0] == first && |ts| == |s.commits|
            && (ts != [] ==> now <= ts[0].from) && SameButSchedule(rows[|ts|], s.row)
  {
    hide LeaseHolds, Chained, Turns, AllDeathless, Disciplined, Held;
    UnclaimedLinked(cfg, first, now, lease);
    rows, ts := HistoryLinked(first, now, Unclaimed(cfg, first, now, lease), ms, [first], []);
    CfgStaysLeased(Unclaimed(cfg, first, now, lease), ms);
    LastRow(first, now, ReachedBy(Unclaimed(cfg, first, now, lease), ms), rows, ts);
  }

  lemma LastRow(first: Run, t0: Time, l: Leased, rows: seq<Run>, ts: seq<Turn>)
    requires Linked(first, t0, l, rows, ts)
    ensures SameButSchedule(rows[|ts|], l.sys.row)
  {
    hide Turns, Paced, LastTime;
    if w :| w in l.holders {
      assert HoldsInTurn(l, w, rows[|ts|], EndOf(ts, t0));
    } else {
      assert l.holders == map[];
    }
  }

  lemma {:induction false} CfgStaysLeased(l: Leased, ms: seq<(nat, Move)>)
    requires LegalMoves(l, ms)
    ensures ReachedBy(l, ms).sys.cfg == l.sys.cfg
    decreases |ms|
  {
    hide Enabled, Heard;
    if ms != [] {
      CfgKept(l, ms[0].0, ms[0].1);
      CfgStaysLeased(Held(l, ms[0].0, ms[0].1), ms[1..]);
    }
  }

  lemma CfgKept(l: Leased, w: nat, m: Move)
    requires Disciplined(l, w, m)
    ensures Held(l, w, m).sys.cfg == l.sys.cfg
  {
    hide NextCall, Fits, Resume;
  }

  /** So the system itself ends the run: after as many commits as the plan's budget it is over, and there are never more. */
  lemma DisciplinedRunsEnd(cfg: Settings, first: Run, now: Time, lease: Time, ms: seq<(nat, Move)>)
    requires lease > 0.0 && Row(first, now) && first.status.Pending? && AllDeathless(Unclaimed(cfg, first, now, lease), ms)
    ensures LegalMoves(Unclaimed(cfg, first, now, lease), ms)
    ensures var s := ReachedBy(Unclaimed(cfg, first, now, lease), ms).sys;
            var most := PlanBudget(first.runType, 0, first.maxRetries);
            |s.commits| <= most && (|s.commits| == most ==> s.row.status.Terminal())
  {
    hide AllDeathless, Turns, PlanBudget;
    var rows, ts := DisciplinedDrivesTakeTurns(cfg, first, now, lease, ms);
    RunsEnd(cfg, rows, ts, now);
  }

  // --- What the turns leave in the world ---

  /** Every answer is orderly in the world as it is when it is given: what raised was not applied, no release raised. */
  ghost predicate OrderlyMove(w0: World, l: Leased, w: nat, m: Move)
    requires Disciplined(l, w, m)
  {
    m.Hear? ==> Orderly(l.sys.flights[w].drive, Onward(w0, l.sys.log), m.answer)
  }

  ghost predicate AllOrderly(w0: World, l: Leased, ms: seq<(nat, Move)>)
    requires LegalMoves(l, ms)
    decreases |ms|
  {
    ms == [] || (OrderlyMove(w0, l, ms[0].0, ms[0].1) && AllOrderly(w0, Held(l, ms[0].0, ms[0].1), ms[1..]))
  }

  ghost predicate TurnOrderly(cfg: Settings, t: Turn, w: World) {
    IsTrace(Start(cfg, t.base), t.es) && OrderlyTrace(Start(cfg, t.base), w, t.es)
  }

  ghost predicate TurnsOrderly(cfg: Settings, ts: seq<Turn>, w0: World) {
    forall i :: 0 <= i < |ts| ==> TurnOrderly(cfg, ts[i], WorldAfter(w0, ts, i))
  }

  /** The world is what the turns made of it, and the drive under way since. */
  ghost predicate InWorld(w0: World, l: Leased, ts: seq<Turn>) {
    && TurnsOrderly(l.sys.cfg, ts, w0)
    && (forall w :: w in l.holders && w in l.sys.flights ==>
          TurnOrderly(l.sys.cfg, TurnOf(l, w), WorldAfter(w0, ts, |ts|))
          && Onward(w0, l.sys.log) == Onward(WorldAfter(w0, ts, |ts|), l.sys.flights[w].heard))
    && ((forall w :: w in l.holders ==> w !in l.sys.flights) ==> Onward(w0, l.sys.log) == WorldAfter(w0, ts, |ts|))
  }

  lemma {:induction false} OrderlyGrows(d: Drive, w: World, es: seq<Event>, e: Event)
    requires IsTrace(d, es) && OrderlyTrace(d, w, es)
    requires !After(d, es).pc.Finished? && e.call == NextCall(After(d, es)) && Fits(e.call, e.answer)
    requires Orderly(After(d, es), Onward(w, es), e.answer)
    ensures IsTrace(d, es + [e]) && OrderlyTrace(d, w, es + [e])
    decreases |es|
  {
    hide Resume, NextCall, Fits, Next, Orderly;
    TraceExtends(d, es, e);
    if es == [] {
      assert ([] + [e])[1..] == [];
    } else {
      OrderlyGrows(Resume(d, es[0].answer), Next(w, es[0]), es[1..], e);
      assert (es + [e])[1..] == es[1..] + [e];
    }
  }

  lemma {:induction false} WorldAfterPrefix(w0: World, ts: seq<Turn>, t: Turn, n: nat)
    requires n <= |ts|
    ensures WorldAfter(w0, ts + [t], n) == WorldAfter(w0, ts, n)
  {
    if n > 0 {
      WorldAfterPrefix(w0, ts, t, n - 1);
    }
  }

  lemma TurnsOrderlyGrow(cfg: Settings, ts: seq<Turn>, w0: World, t: Turn)
    requires TurnsOrderly(cfg, ts, w0) && TurnOrderly(cfg, t, WorldAfter(w0, ts, |ts|))
    ensures TurnsOrderly(cfg, ts + [t], w0)
    ensures WorldAfter(w0, ts + [t], |ts| + 1) == Onward(WorldAfter(w0, ts, |ts|), t.es)
  {
    hide TurnOrderly, WorldAfter;
    forall i | 0 <= i < |ts + [t]| ensures TurnOrderly(cfg, (ts + [t])[i], WorldAfter(w0, ts + [t], i)) {
      WorldAfterPrefix(w0, ts, t, i);
    }
    WorldAfterPrefix(w0, ts, t, |ts|);
    LastWorld(w0, ts, t);
  }

  lemma LastWorld(w0: World, ts: seq<Turn>, t: Turn)
    ensures WorldAfter(w0, ts + [t], |ts| + 1) == Onward(WorldAfter(w0, ts + [t], |ts|), t.es)
  {
  }

  /** The drive under way hears one more answer, or saves. */
  lemma HearInWorld(first: Run, t0: Time, w0: World, l: Leased, w: nat, m: Move, rows: seq<Run>, ts: seq<Turn>)
    requires LeaseHolds(l) && Chained(first, l.sys) && Linked(first, t0, l, rows, ts) && Deathless(l, w, m)
    requires m.Hear? && OrderlyMove(w0, l, w, m) && InWorld(w0, l, ts)
    ensures InWorld(w0, Held(l, w, m), TurnsAfter(l, w, m, ts))
  {
    hide Serial, Turns, Start, Resume, IsTrace, After, Paced, LastTime, Shape, Kept, TurnsOrderly, WorldAfter, OrderlyTrace,
         Next, Orderly;
    assert w in l.holders && HoldsInTurn(l, w, rows[|ts|], EndOf(ts, t0));
    var f := l.sys.flights[w];
    var e := Event(NextCall(f.drive), m.answer);
    var l' := Held(l, w, m);
    var world := WorldAfter(w0, ts, |ts|);
    assert TurnOrderly(l.sys.cfg, TurnOf(l, w), world);
    assert l'.sys.log == l.sys.log + [e];
    LeftInFlight.OnwardExtends(w0, l.sys.log, e);
    LeftInFlight.OnwardExtends(world, f.heard, e);
    if f.drive.pc.Saving? {
      SaveIsATurn(first, t0, l, w, m, rows, ts);
      TurnsOrderlyGrow(l.sys.cfg, ts, w0, TurnOf(l, w));
      SaveLeavesWorld(Onward(w0, l.sys.log), f.drive, m.answer);
    } else {
      OrderlyGrows(Start(l.sys.cfg, f.base), world, f.heard, e);
      FinishedOnlySaves(f.drive, m.answer);
      forall v | v in l'.holders ensures v == w {
      }
      assert TurnOf(l', w) == Turn(f.base, l.holders[w], f.heard + [e]);
    }
  }

  lemma SaveLeavesWorld(w: World, d: Drive, a: Answer)
    requires d.pc.Saving?
    ensures Next(w, Event(NextCall(d), a)) == w
  {
  }

  lemma QuietInWorld(first: Run, t0: Time, w0: World, l: Leased, w: nat, m: Move, rows: seq<Run>, ts: seq<Turn>)
    requires LeaseHolds(l) && Linked(first, t0, l, rows, ts) && Deathless(l, w, m) && !m.Hear? && InWorld(w0, l, ts)
    ensures InWorld(w0, Held(l, w, m), ts)
  {
    hide Turns, Heard, Start, Paced, LastTime, TurnsOrderly, WorldAfter, OrderlyTrace, Onward, IsTrace;
    var l' := Held(l, w, m);
    if m.Load? {
      Loads(l.sys, w);
      NothingHeard(Start(l.sys.cfg, l.sys.row), WorldAfter(w0, ts, |ts|));
      forall v | v in l'.holders ensures v == w {
      }
    } else if m.Die? {
      Dies(l.sys, w);
      forall v | v in l.holders ensures v != w {
        assert HoldsInTurn(l, v, rows[|ts|], EndOf(ts, t0));
      }
    } else if m.Claim? {
      ClaimIsAlone(l, w, m);
    }
    if v :| v in l'.holders && v in l'.sys.flights && !m.Load? {
      assert v in l.holders && v in l.sys.flights && TurnOf(l', v) == TurnOf(l, v);
    }
  }

  lemma NothingHeard(d: Drive, w: World)
    ensures IsTrace(d, []) && OrderlyTrace(d, w, []) && Onward(w, []) == w
  {
  }

  lemma {:induction false} HistoryInWorld(first: Run, t0: Time, w0: World, l: Leased, ms: seq<(nat, Move)>,
        rows: seq<Run>, ts: seq<Turn>)
    returns (rows': seq<Run>, ts': seq<Turn>)
    requires LeaseHolds(l) && Chained(first, l.sys) && Linked(first, t0, l, rows, ts) && AllDeathless(l, ms)
    requires LegalMoves(l, ms) && AllOrderly(w0, l, ms) && InWorld(w0, l, ts)
    ensures Linked(first, t0, ReachedBy(l, ms), rows', ts') && InWorld(w0, ReachedBy(l, ms), ts')
    ensures ReachedBy(l, ms).sys.cfg == l.sys.cfg
    decreases |ms|
  {
    hide Linked, LeaseHolds, Chained, Disciplined, Held, RowsAfter, TurnsAfter, InWorld, OrderlyMove;
    if ms == [] {
      rows', ts' := rows, ts;
    } else {
      var w, m := ms[0].0, ms[0].1;
      MoveKeepsLease(l, w, m);
      MoveKeepsChain(first, l, w, m);
      MoveLinked(first, t0, l, w, m, rows, ts);
      CfgKept(l, w, m);
      MoveInWorld(first, t0, w0, l, w, m, rows, ts);
      rows', ts' := HistoryInWorld(first, t0, w0, Held(l, w, m), ms[1..], RowsAfter(l, w, m, rows), TurnsAfter(l, w, m, ts));
    }
  }

  lemma MoveInWorld(first: Run, t0: Time, w0: World, l: Leased, w: nat, m: Move, rows: seq<Run>, ts: seq<Turn>)
    requires LeaseHolds(l) && Chained(first, l.sys) && Linked(first, t0, l, rows, ts) && Deathless(l, w, m)
    requires OrderlyMove(w0, l, w, m) && InWorld(w0, l, ts)
    ensures InWorld(w0, Held(l, w, m), TurnsAfter(l, w, m, ts))
  {
    hide LeaseHolds, Chained, Linked, Disciplined, OrderlyMove, InWorld, Held;
    if m.Hear? {
      HearInWorld(first, t0, w0, l, w, m, rows, ts);
    } else {
      QuietInWorld(first, t0, w0, l, w, m, rows, ts);
    }
  }

  /** When the row is over nobody drives it: it is what the last turn saved, and the world what the turns left. */
  lemma OverIsTurnedOver(first: Run, t0: Time, w0: World, l: Leased, rows: seq<Run>, ts: seq<Turn>)
    requires Linked(first, t0, l, rows, ts) && InWorld(w0, l, ts) && l.sys.row.status.Terminal()
    ensures l.sys.row == rows[|ts|] && Onward(w0, l.sys.log) == WorldAfter(w0, ts, |ts|)
    ensures OrderlyTurns(l.sys.cfg, rows, ts, w0)
  {
    hide Turns, Paced, LastTime, WorldAfter, Onward, Start, IsTrace, OrderlyTrace;
    forall w ensures w !in l.holders {
    }
    assert l.holders == map[];
    assert forall i :: 0 <= i < |ts| ==> TurnOrderly(l.sys.cfg, ts[i], WorldAfter(w0, ts, i));
  }

  lemma UnclaimedInWorld(w0: World, cfg: Settings, first: Run, now: Time, lease: Time)
    ensures InWorld(w0, Unclaimed(cfg, first, now, lease), [])
  {
  }

  /** So in the interleaved system itself, with claims, leases and any number of workers: once a resource run is over, its
      record is what the run's end says, no record is in flight, and every other record is as it was. */
  lemma DisciplinedRunMatchesRecord(cfg: Settings, first: Run, now: Time, lease: Time, ms: seq<(nat, Move)>, w0: World)
    requires lease > 0.0 && Pristine(first, w0, now) && AllDeathless(Unclaimed(cfg, first, now, lease), ms)
    requires LegalMoves(Unclaimed(cfg, first, now, lease), ms) && AllOrderly(w0, Unclaimed(cfg, first, now, lease), ms)
    requires ReachedBy(Unclaimed(cfg, first, now, lease), ms).sys.row.status.Terminal()
    ensures var s := ReachedBy(Unclaimed(cfg, first, now, lease), ms).sys;
            var run, end := s.row, Onward(w0, s.log);
            && run.state.resource.Some?
            && (run.status.Completed? ==> Fulfilled(run, end))
            && (EndedBadly(run) ==>
                  if run.state.resourceFinalized then Fulfilled(run, end)
                  else if run.state.request.operation.Create? then Home(run) !in end.records
                  else At(end, Home(run), Ready))
            && OthersAsIn(w0.records - {Home(first)}, end, Home(run))
            && (Home(run) in end.records ==> !InFlight(end.records[Home(run)].state) && !end.records[Home(run)].inProgress)
  {
    hide LeaseHolds, Chained, Linked, InWorld, AllDeathless, AllOrderly, Fulfilled, At, OthersAsIn, Row, Disciplined,
         Held, Onward, WorldAfter, Turns;
    var l := Unclaimed(cfg, first, now, lease);
    PendingIsScheduled(first, now);
    UnclaimedLinked(cfg, first, now, lease);
    UnclaimedInWorld(w0, cfg, first, now, lease);
    var rows, ts := HistoryInWorld(first, now, w0, l, ms, [first], []);
    OverIsTurnedOver(first, now, w0, ReachedBy(l, ms), rows, ts);
    LinkedFrom(first, now, ReachedBy(l, ms), rows, ts);
    FinishedRunMatchesRecord(cfg, rows, ts, w0, now);
  }

  lemma PendingIsScheduled(first: Run, now: Time)
    requires Row(first, now) && first.status.Pending?
    ensures first.status.Terminal() <==> first.scheduledAt.None?
  {
  }

  lemma LinkedFrom(first: Run, t0: Time, l: Leased, rows: seq<Run>, ts: seq<Turn>)
    requires Linked(first, t0, l, rows, ts)
    ensures |rows| == |ts| + 1 && rows[0] == first && (ts != [] ==> t0 <= ts[0].from)
  {
  }
}
