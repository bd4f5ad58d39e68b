/** Building histories move by move: what a history becomes when one more move is made. */
module Playback {
  import opened Domain
  import opened Drives
  import opened StoredRows
  import opened Histories

  lemma NoMoves(s: System)
    ensures Legal(s, []) && Reached(s, []) == s
  {
  }

  lemma Prepend(s: System, m: Move, ms: seq<Move>)
    requires Enabled(s, m) && Legal(Apply(s, m), ms)
    ensures Legal(s, [m] + ms) && Reached(s, [m] + ms) == Reached(Apply(s, m), ms)
  {
    hide Enabled, Apply;
    assert ([m] + ms)[1..] == ms;
  }

  lemma {:induction false} Concatenate(s: System, ms: seq<Move>, more: seq<Move>)
    requires Legal(s, ms) && Legal(Reached(s, ms), more)
    ensures Legal(s, ms + more) && Reached(s, ms + more) == Reached(Reached(s, ms), more)
    decreases |ms|
  {
    hide Enabled, Apply;
    if ms == [] {
      assert ms + more == more;
    } else {
      Concatenate(Apply(s, ms[0]), ms[1..], more);
      assert (ms + more)[1..] == ms[1..] + more;
    }
  }

  /** One more move. */
  lemma Append(s0: System, ms: seq<Move>, m: Move)
    requires Legal(s0, ms) && Enabled(Reached(s0, ms), m)
    ensures Legal(s0, ms + [m]) && Reached(s0, ms + [m]) == Apply(Reached(s0, ms), m)
  {
    hide Enabled, Apply;
    var s := Reached(s0, ms);
    assert Legal(Apply(s, m), []) && Reached(Apply(s, m), []) == Apply(s, m);
    Prepend(s, m, []);
    assert [m] + [] == [m];
    Concatenate(s0, ms, [m]);
  }

  /** A worker loads the row. */
  lemma Loads(s: System, w: nat)
    requires w !in s.flights
    ensures Enabled(s, Load(w))
    ensures Apply(s, Load(w)) == s.(flights := s.flights[w := Flight(s.row, [], Start(s.cfg, s.row), 0)])
  {
    hide Heard;
  }

  lemma Dies(s: System, w: nat)
    requires w in s.flights
    ensures Enabled(s, Die(w)) && Apply(s, Die(w)) == s.(flights := s.flights - {w})
  {
    hide Heard;
  }

  /** A drive hears an answer to anything but a save. */
  lemma Hears(s: System, w: nat, a: Answer)
    requires w in s.flights
    requires var d := s.flights[w].drive;
             !d.pc.Finished? && !d.pc.Saving? && Fits(NextCall(d), a) && (a.Clock? ==> a.now == s.now)
    ensures Enabled(s, Hear(w, a))
    ensures var f := s.flights[w]; var e := Event(NextCall(f.drive), a);
            Apply(s, Hear(w, a))
            == s.(flights := s.flights[w := Flight(f.base, f.heard + [e], Resume(f.drive, a), f.commits)], log := s.log + [e])
  {
    hide NextCall, Fits, Resume;
  }

  /** A drive saves the row it loaded. */
  lemma Saves(s: System, w: nat)
    requires w in s.flights && s.flights[w].drive.pc.Saving? && s.row.version == s.flights[w].drive.run.version
    ensures Enabled(s, Hear(w, SaveOk))
    ensures var f := s.flights[w]; var e := Event(SaveRun(f.drive.run), SaveOk);
            var s' := Apply(s, Hear(w, SaveOk));
            && s'.row == Saved(s.row, f.drive.run) && s'.log == s.log + [e] && s'.now == s.now && s'.cfg == s.cfg
            && s'.flights == s.flights[w := Flight(f.base, f.heard + [e], Resume(f.drive, SaveOk), f.commits + 1)]
            && Resume(f.drive, SaveOk).pc.Finished?
  {
  }

  // --- The head of the loop ---

  function Clocks(now: Time): seq<Event> {
    [Event(ReadClock, Clock(now)), Event(ReadClock, Clock(now)), Event(ReadClock, Clock(now))]
  }

  /** Three clock readings in a row. */
  lemma ThreeClocks(d0: Drive, d1: Drive, d2: Drive, d: Drive, now: Time)
    requires d0.pc.Begin? && d1 == ResumeLoop(d0, now) && d1.pc.StartAttempt? && d2 == ResumeLoop(d1, now)
    requires d2.pc.CheckBudget? && d == ResumeLoop(d2, now)
    ensures IsTrace(d0, Clocks(now)) && After(d0, Clocks(now)) == d
  {
    hide ResumeLoop, IsTrace, After;
    var clock := Event(ReadClock, Clock(now));
    NoEvents(d);
    TracePrepends(d2, clock, []);
    assert [clock] + [] == [clock];
    TracePrepends(d1, clock, [clock]);
    assert [clock] + [clock] == [clock, clock];
    TracePrepends(d0, clock, [clock, clock]);
    assert [clock] + [clock, clock] == Clocks(now);
  }

  lemma LoopIsResume(d0: Drive, d1: Drive, d2: Drive, now: Time)
    requires d0.pc.Begin? && d1.pc.StartAttempt? && d2.pc.CheckBudget?
    ensures Resume(d0, Clock(now)) == ResumeLoop(d0, now) && Resume(d1, Clock(now)) == ResumeLoop(d1, now)
    ensures Resume(d2, Clock(now)) == ResumeLoop(d2, now)
  {
    hide ResumeLoop;
  }

  // --- Whole drives ---

  /** A worker hears these answers one after the other. */
  function HeardBy(w: nat, es: seq<Event>): seq<Move> {
    if es == [] then [] else [Hear(w, es[0].answer)] + HeardBy(w, es[1..])
  }

  /** Nothing is saved, and the clock stands still. */
  predicate NoSaveAt(es: seq<Event>, now: Time) {
    forall i :: 0 <= i < |es| ==> !es[i].call.SaveRun? && (es[i].answer.Clock? ==> es[i].answer.now == now)
  }

  lemma NotSaving(d: Drive)
    requires !d.pc.Finished?
    ensures d.pc.Saving? <==> NextCall(d).SaveRun?
  {
  }

  /** A flight after these events. */
  function Further(f: Flight, es: seq<Event>): Flight
    requires IsTrace(f.drive, es)
  {
    Flight(f.base, f.heard + es, After(f.drive, es), f.commits)
  }

  lemma PlaysOne(s: System, w: nat, es: seq<Event>)
    requires es != [] && w in s.flights && IsTrace(s.flights[w].drive, es) && NoSaveAt(es, s.now)
    ensures var a := es[0].answer;
            && Enabled(s, Hear(w, a))
            && var s' := Apply(s, Hear(w, a)); var f := s.flights[w];
               s' == s.(flights := s.flights[w := s'.flights[w]], log := s.log + [es[0]]) && w in s'.flights
               && NoSaveAt(es[1..], s'.now) && IsTrace(s'.flights[w].drive, es[1..])
               && Further(s'.flights[w], es[1..]) == Further(f, es)
  {
    hide Resume, NextCall, Fits;
    assert !es[0].call.SaveRun?;
    NotSaving(s.flights[w].drive);
    Hears(s, w, es[0].answer);
    var f := s.flights[w];
    assert f.heard + [es[0]] + es[1..] == f.heard + es;
  }

  /** A worker that hears these answers makes this much of its flight, and touches nothing else. */
  lemma {:induction false} Plays(s: System, w: nat, es: seq<Event>)
    requires w in s.flights && IsTrace(s.flights[w].drive, es) && NoSaveAt(es, s.now)
    ensures Legal(s, HeardBy(w, es))
    ensures Reached(s, HeardBy(w, es)) == s.(flights := s.flights[w := Further(s.flights[w], es)], log := s.log + es)
    decreases |es|
  {
    hide IsTrace, Enabled, Apply, NoSaveAt, Further;
    if es == [] {
      PlaysNothing(s, w);
    } else {
      var a := es[0].answer;
      PlaysOne(s, w, es);
      Plays(Apply(s, Hear(w, a)), w, es[1..]);
      Prepend(s, Hear(w, a), HeardBy(w, es[1..]));
      assert s.log + es == (s.log + [es[0]]) + es[1..];
    }
  }

  lemma PlaysNothing(s: System, w: nat)
    requires w in s.flights
    ensures IsTrace(s.flights[w].drive, []) && s == s.(flights := s.flights[w := Further(s.flights[w], [])], log := s.log + [])
  {
    var f := s.flights[w];
    assert f.heard + [] == f.heard && s.log + [] == s.log;
    assert Further(f, []) == f;
    assert s.flights[w := f] == s.flights;
  }

  /** The moves of a drive that is loaded, hears these answers and dies before it saves. */
  function KilledDrive(w: nat, es: seq<Event>): seq<Move> {
    [Load(w)] + HeardBy(w, es) + [Die(w)]
  }

  /** A drive killed before its save leaves nothing behind but what it asked of the outside. */
  lemma KilledDriveLeaves(s: System, w: nat, es: seq<Event>)
    requires w !in s.flights && IsTrace(Start(s.cfg, s.row), es) && NoSaveAt(es, s.now)
    ensures Legal(s, KilledDrive(w, es)) && Reached(s, KilledDrive(w, es)) == s.(log := s.log + es)
  {
    hide Start, IsTrace, HeardBy, Enabled, Apply, NoSaveAt, Further;
    Loads(s, w);
    var s1 := Apply(s, Load(w));
    Plays(s1, w, es);
    var s2 := Reached(s1, HeardBy(w, es));
    Dies(s2, w);
    Append(s1, HeardBy(w, es), Die(w));
    assert s2.flights - {w} == s.flights;
    Prepend(s, Load(w), HeardBy(w, es) + [Die(w)]);
    assert KilledDrive(w, es) == [Load(w)] + (HeardBy(w, es) + [Die(w)]);
  }

  /** The moves of a drive that is loaded, hears these answers, saves and is done. */
  function SavedDrive(w: nat, es: seq<Event>): seq<Move> {
    [Load(w)] + HeardBy(w, es) + [Hear(w, SaveOk)] + [Die(w)]
  }

  lemma SavedDriveStores(s: System, w: nat, es: seq<Event>)
    requires w !in s.flights && IsTrace(Start(s.cfg, s.row), es) && NoSaveAt(es, s.now)
    requires var d := After(Start(s.cfg, s.row), es); d.pc.Saving? && d.run.version == s.row.version
    ensures Legal(s, SavedDrive(w, es))
    ensures var s' := Reached(s, SavedDrive(w, es)); var run := After(Start(s.cfg, s.row), es).run;
            && s'.row == Saved(s.row, run) && s'.log == s.log + es + [Event(SaveRun(run), SaveOk)]
            && s'.flights == s.flights && s'.now == s.now && s'.cfg == s.cfg
  {
    hide Start, IsTrace, After, HeardBy, Enabled, Apply, NoSaveAt, Resume, NextCall, Fits;
    Loads(s, w);
    var s1 := Apply(s, Load(w));
    Plays(s1, w, es);
    var s2 := Reached(s1, HeardBy(w, es));
    Saves(s2, w);
    var s3 := Apply(s2, Hear(w, SaveOk));
    Append(s1, HeardBy(w, es), Hear(w, SaveOk));
    Dies(s3, w);
    Append(s1, HeardBy(w, es) + [Hear(w, SaveOk)], Die(w));
    assert s3.flights - {w} == s.flights;
    Prepend(s, Load(w), HeardBy(w, es) + [Hear(w, SaveOk)] + [Die(w)]);
    assert SavedDrive(w, es) == [Load(w)] + (HeardBy(w, es) + [Hear(w, SaveOk)] + [Die(w)]);
  }
}
