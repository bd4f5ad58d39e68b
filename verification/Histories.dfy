/** One run's row and any number of drives of it, interleaved call by call: claims, loads, wakes,
    saves, lease expiries, crashes and the clock, in any order. A drive may be killed between any two
    of its calls, any two drives may overlap, and every call may get any answer it can get. All workers read one
    clock, which does not go back. */
module Histories {
  import opened Domain
  import opened Drives
  import opened Totality
  import opened StoredRows

  /** A drive under way: the copy it loaded, the answers it got so far, where it stands. */
  datatype Flight = Flight(base: Run, heard: seq<Event>, drive: Drive, commits: nat)

  /** A save that was applied: what the saving drive had loaded, all it heard, the row it wrote. */
  datatype Commit = Commit(base: Run, heard: seq<Event>, after: Run)

  datatype System = System(
    cfg: Settings, row: Run, flights: map<nat, Flight>, log: seq<Event>, commits: seq<Commit>, now: Time)

  datatype Move =
    | Tick(to: Time)
    | Claim(lease: Time)
    | Wake
    | Load(worker: nat)
    | Hear(worker: nat, answer: Answer)
    | Die(worker: nat)

  /** The save answers the store can give: the compare-and-swap decides between ok and stale, and an
      error leaves it open whether the write went through. */
  predicate SaveFits(row: Run, run: Run, a: Answer) {
    match a
    case SaveOk => row.version == run.version
    case SaveStale => row.version != run.version
    case SaveFailed(committed) => committed ==> row.version == run.version
    case _ => false
  }

  predicate Applied(a: Answer) {
    a.SaveOk? || (a.SaveFailed? && a.committed)
  }

  predicate Enabled(s: System, m: Move) {
    match m
    case Tick(to) => s.now <= to
    case Claim(lease) => Due(s.row, s.now)
    case Wake => true
    case Load(w) => w !in s.flights
    case Hear(w, a) =>
      w in s.flights
      && var d := s.flights[w].drive;
         !d.pc.Finished? && Fits(NextCall(d), a)
         && (a.Clock? ==> a.now == s.now)
         && (d.pc.Saving? ==> SaveFits(s.row, d.run, a))
    case Die(w) => w in s.flights
  }

  function Apply(s: System, m: Move): System
    requires Enabled(s, m)
  {
    match m
    case Tick(to) => s.(now := to)
    case Claim(lease) => s.(row := Claimed(s.row, s.now, lease))
    case Wake => s.(row := Woken(s.row, s.now))
    case Load(w) => s.(flights := s.flights[w := Flight(s.row, [], Start(s.cfg, s.row), 0)])
    case Hear(w, a) => Heard(s, w, a)
    case Die(w) => s.(flights := s.flights - {w})
  }

  function Heard(s: System, w: nat, a: Answer): System
    requires Enabled(s, Hear(w, a))
  {
    var f := s.flights[w];
    var e := Event(NextCall(f.drive), a);
    var writes := f.drive.pc.Saving? && Applied(a);
    s.(flights := s.flights[w := Flight(f.base, f.heard + [e], Resume(f.drive, a),
                                        f.commits + if writes then 1 else 0)],
       log := s.log + [e],
       row := if writes then Saved(s.row, f.drive.run) else s.row,
       commits := if writes then s.commits + [Commit(f.base, f.heard, Saved(s.row, f.drive.run))] else s.commits)
  }

  predicate Legal(s: System, ms: seq<Move>)
    decreases |ms|
  {
    ms == [] || (Enabled(s, ms[0]) && Legal(Apply(s, ms[0]), ms[1..]))
  }

  /** Where a history leads. */
  function Reached(s: System, ms: seq<Move>): System
    requires Legal(s, ms)
    decreases |ms|
  {
    if ms == [] then s else Reached(Apply(s, ms[0]), ms[1..])
  }

  /** A row nobody has driven yet. */
  function Fresh(cfg: Settings, row: Run, now: Time): System {
    System(cfg, row, map[], [], [], now)
  }

  // --- The serial commit chain ---

  /** Equal but for the schedule, which claims and wakes move outside the version scheme. */
  predicate SameButSchedule(a: Run, b: Run) {
    a.(scheduledAt := None) == b.(scheduledAt := None)
  }

  /** `after` is what one `handle` call commits that loaded `base` and heard these answers. */
  predicate OneDrive(cfg: Settings, c: Commit) {
    IsTrace(Start(cfg, c.base), c.heard)
    && After(Start(cfg, c.base), c.heard).pc.Saving?
    && SameButSchedule(c.after, After(Start(cfg, c.base), c.heard).run.(version := c.base.version + 1))
    && c.after.scheduledAt == After(Start(cfg, c.base), c.heard).run.scheduledAt
  }

  /** The row as commit number `i` found it: the first row, or what the commit before it wrote. */
  function RowBefore(first: Run, cs: seq<Commit>, i: nat): Run
    requires i <= |cs|
  {
    if i == 0 then first else cs[i - 1].after
  }

  /** A run of the sequential specification: one drive at a time, each loading what the one before it
      committed, each moving the version up by exactly one. */
  ghost predicate Serial(cfg: Settings, first: Run, cs: seq<Commit>) {
    forall i: nat :: i < |cs| ==>
      OneDrive(cfg, cs[i]) && SameButSchedule(cs[i].base, RowBefore(first, cs, i))
      && cs[i].after.version == RowBefore(first, cs, i).version + 1
  }

  ghost predicate FlightOk(s: System, f: Flight) {
    && IsTrace(Start(s.cfg, f.base), f.heard)
    && f.drive == After(Start(s.cfg, f.base), f.heard)
    && Shape(f.drive)
    && f.base.version <= s.row.version
    && (f.base.version == s.row.version ==> SameButSchedule(f.base, s.row))
    && SameRun(f.base, s.row)
    && (!f.drive.pc.Finished? ==> Kept(f.base, f.drive.run))
    && f.commits <= 1
    && (f.commits == 1 ==> f.base.version < s.row.version)
  }

  ghost predicate Chained(first: Run, s: System) {
    && Serial(s.cfg, first, s.commits)
    && SameButSchedule(s.row, RowBefore(first, s.commits, |s.commits|))
    && (forall w :: w in s.flights ==> FlightOk(s, s.flights[w]))
    && (s.row.status.Terminal() <==> s.row.scheduledAt.None?)
  }

  // --- Every history refines a serial one ---

  lemma ReadKeepsChain(first: Run, s: System, m: Move)
    requires Enabled(s, m) && Chained(first, s) && !m.Hear?
    ensures Chained(first, Apply(s, m))
  {
    hide Shape, Start, Serial;
    if m.Load? {
      StartShape(s.cfg, s.row);
      StartKept(s.cfg, s.row);
    }
  }

  /** Only a drive that has not committed yet, and whose base is still the stored version, commits. */
  lemma CommitsFromCurrentRow(s: System, w: nat, a: Answer)
    requires Enabled(s, Hear(w, a)) && FlightOk(s, s.flights[w])
    requires s.flights[w].drive.pc.Saving? && Applied(a)
    ensures s.flights[w].commits == 0 && s.flights[w].base.version == s.row.version
    ensures SameButSchedule(s.flights[w].base, s.row)
  {
    hide Shape, Start, Resume, IsTrace, After;
  }

  /** The flight that hears an answer is still one drive of its base. */
  lemma HearKeepsFlight(s: System, w: nat, a: Answer)
    requires Enabled(s, Hear(w, a)) && FlightOk(s, s.flights[w])
    ensures FlightOk(Heard(s, w, a), Heard(s, w, a).flights[w])
  {
    hide Shape, Start, NextCall, Fits, Resume;
    var f := s.flights[w];
    TraceExtends(Start(s.cfg, f.base), f.heard, Event(NextCall(f.drive), a));
    ResumeShape(f.drive, a);
    ResumeKept(f.base, f.drive, a);
    if f.drive.pc.Saving? && Applied(a) {
      CommitsFromCurrentRow(s, w, a);
    }
  }

  lemma SerialGrows(cfg: Settings, first: Run, cs: seq<Commit>, c: Commit)
    requires Serial(cfg, first, cs) && OneDrive(cfg, c)
    requires SameButSchedule(c.base, RowBefore(first, cs, |cs|))
    requires c.after.version == RowBefore(first, cs, |cs|).version + 1
    ensures Serial(cfg, first, cs + [c])
  {
    hide OneDrive, SameButSchedule;
    forall i: nat | i < |cs + [c]|
      ensures OneDrive(cfg, (cs + [c])[i]) && SameButSchedule((cs + [c])[i].base, RowBefore(first, cs + [c], i))
              && (cs + [c])[i].after.version == RowBefore(first, cs + [c], i).version + 1
    {
      if i < |cs| {
        assert RowBefore(first, cs + [c], i) == RowBefore(first, cs, i);
      } else {
        assert RowBefore(first, cs + [c], i) == RowBefore(first, cs, |cs|);
      }
    }
  }

  lemma CommitIsOneDrive(s: System, w: nat, a: Answer)
    requires Enabled(s, Hear(w, a)) && FlightOk(s, s.flights[w])
    requires s.flights[w].drive.pc.Saving? && Applied(a)
    ensures var f := s.flights[w]; OneDrive(s.cfg, Commit(f.base, f.heard, Saved(s.row, f.drive.run)))
  {
    hide Shape, Start, Resume, IsTrace, After;
    CommitsFromCurrentRow(s, w, a);
  }

  lemma HearKeepsChain(first: Run, s: System, w: nat, a: Answer)
    requires Enabled(s, Hear(w, a)) && Chained(first, s)
    ensures Chained(first, Apply(s, Hear(w, a)))
  {
    hide Start, NextCall, Fits, Resume, Serial, OneDrive, IsTrace, After, Kept;
    HearKeepsFlight(s, w, a);
    var f := s.flights[w];
    if f.drive.pc.Saving? && Applied(a) {
      CommitsFromCurrentRow(s, w, a);
      CommitIsOneDrive(s, w, a);
      SerialGrows(s.cfg, first, s.commits, Commit(f.base, f.heard, Saved(s.row, f.drive.run)));
    }
  }

  /** Every history of any number of overlapping, dying and woken drives commits what a serial one
      does: drives one at a time, each loading what the one before it committed, versions rising by
      one; and each drive commits at most once. */
  lemma {:induction false} HistoriesAreSerial(first: Run, s: System, ms: seq<Move>)
    requires Legal(s, ms) && Chained(first, s)
    ensures Chained(first, Reached(s, ms))
    decreases |ms|
  {
    hide Chained, Enabled, Apply;
    if ms != [] {
      if ms[0].Hear? {
        HearKeepsChain(first, s, ms[0].worker, ms[0].answer);
      } else {
        ReadKeepsChain(first, s, ms[0]);
      }
      HistoriesAreSerial(first, Apply(s, ms[0]), ms[1..]);
    }
  }

  /** The serial chain, from a row nobody has driven yet. */
  lemma CommitsFormOneChain(cfg: Settings, first: Run, now: Time, ms: seq<Move>)
    requires first.status.Terminal() <==> first.scheduledAt.None?
    requires Legal(Fresh(cfg, first, now), ms)
    ensures var s := Reached(Fresh(cfg, first, now), ms);
            && Serial(cfg, first, s.commits)
            && SameButSchedule(s.row, RowBefore(first, s.commits, |s.commits|))
            && s.row.version == first.version + |s.commits|
            && (forall w :: w in s.flights ==> s.flights[w].commits <= 1 && s.flights[w].drive.escalations <= 1)
  {
    hide Enabled, Apply, OneDrive;
    HistoriesAreSerial(first, Fresh(cfg, first, now), ms);
    var s := Reached(Fresh(cfg, first, now), ms);
    VersionsCount(s.cfg, first, s.commits, |s.commits|);
    CfgStays(Fresh(cfg, first, now), ms);
  }

  lemma {:induction false} VersionsCount(cfg: Settings, first: Run, cs: seq<Commit>, n: nat)
    requires Serial(cfg, first, cs) && n <= |cs|
    ensures RowBefore(first, cs, n).version == first.version + n
  {
    hide OneDrive, SameButSchedule;
    if n > 0 {
      VersionsCount(cfg, first, cs, n - 1);
    }
  }

  lemma {:induction false} CfgStays(s: System, ms: seq<Move>)
    requires Legal(s, ms)
    ensures Reached(s, ms).cfg == s.cfg
    decreases |ms|
  {
    hide Enabled;
    if ms != [] {
      CfgStays(Apply(s, ms[0]), ms[1..]);
    }
  }

  // --- Terminal rows ---

  /** A row that is over is changed by no move at all, whoever still drives an old copy of it. */
  lemma TerminalRowStays(first: Run, s: System, m: Move)
    requires Enabled(s, m) && Chained(first, s) && s.row.status.Terminal()
    ensures Apply(s, m).row == s.row
  {
    hide Start, NextCall, Fits, Resume, Serial, IsTrace, After, Kept;
    if m.Hear? && s.flights[m.worker].drive.pc.Saving? && Applied(m.answer) {
      var f := s.flights[m.worker];
      CommitsFromCurrentRow(s, m.worker, m.answer);
      TerminalIsLeftAlone(s.cfg, f.base, f.heard);
    }
  }

  lemma TerminalIsLeftAlone(cfg: Settings, run: Run, es: seq<Event>)
    requires run.status.Terminal() && IsTrace(Start(cfg, run), es)
    ensures After(Start(cfg, run), es).pc.Finished?
  {
  }

  /** In every reachable row the status is terminal exactly when nothing is scheduled, so no
      unfinished run is ever stranded; and once over, the row stays as it is for good. */
  lemma {:induction false} FinishedRunsStayFinished(cfg: Settings, first: Run, now: Time, ms: seq<Move>, more: seq<Move>)
    requires first.status.Terminal() <==> first.scheduledAt.None?
    requires Legal(Fresh(cfg, first, now), ms) && Legal(Reached(Fresh(cfg, first, now), ms), more)
    ensures var s := Reached(Fresh(cfg, first, now), ms);
            && (s.row.status.Terminal() <==> s.row.scheduledAt.None?)
            && (s.row.status.Terminal() ==> Reached(s, more).row == s.row)
  {
    hide Enabled, Apply, FlightOk;
    HistoriesAreSerial(first, Fresh(cfg, first, now), ms);
    var s := Reached(Fresh(cfg, first, now), ms);
    if s.row.status.Terminal() {
      StaysFinished(first, s, more);
    }
  }

  lemma {:induction false} StaysFinished(first: Run, s: System, ms: seq<Move>)
    requires Legal(s, ms) && Chained(first, s) && s.row.status.Terminal()
    ensures Reached(s, ms).row == s.row
    decreases |ms|
  {
    hide Chained, Enabled, Apply;
    if ms != [] {
      HistoriesAreSerial(first, s, [ms[0]]);
      assert Reached(s, [ms[0]]) == Apply(s, ms[0]) by { assert [ms[0]][1..] == []; }
      TerminalRowStays(first, s, ms[0]);
      StaysFinished(first, Apply(s, ms[0]), ms[1..]);
    }
  }
}
