/** Why a lease is enough to keep the drives of a run apart, as long as nobody wakes the run, no save
    fails, and every drive saves or dies before its lease is up. */
module Leases {
  import opened Domain
  import opened Drives
  import opened StoredRows
  import opened Histories

  /** A history in which every drive starts from a claim of its own: since when each worker holds one. */
  datatype Leased = Leased(sys: System, lease: Time, holders: map<nat, Time>)

  /** The moves a disciplined history is made of: time that no lease outlives, claims, loads by the
      claimer, answers other than a failed save, deaths. */
  predicate Disciplined(l: Leased, w: nat, m: Move) {
    Enabled(l.sys, m)
    && match m
       case Tick(to) => forall v :: v in l.holders ==> to < l.holders[v] + l.lease
       case Claim(lease) => lease == l.lease && w !in l.holders && w !in l.sys.flights
       case Wake => false
       case Load(v) => v == w && w in l.holders
       case Hear(v, a) => v == w && !a.SaveFailed?
       case Die(v) => v == w
  }

  /** A worker holds its claim until its drive ends. */
  function Held(l: Leased, w: nat, m: Move): Leased
    requires Disciplined(l, w, m)
  {
    var sys := Apply(l.sys, m);
    l.(sys := sys,
       holders := match m
                  case Tick(_) => l.holders
                  case Claim(_) => l.holders[w := l.sys.now]
                  case _ => if w in sys.flights && !sys.flights[w].drive.pc.Finished? then l.holders else l.holders - {w})
  }

  ghost predicate LeaseHolds(l: Leased) {
    && l.lease > 0.0
    && (forall v, w :: v in l.holders && w in l.holders ==> v == w)
    && (forall w :: w in l.holders ==>
          l.sys.row.scheduledAt == Some(l.holders[w] + l.lease) && l.sys.now < l.holders[w] + l.lease)
    && (forall w :: w in l.sys.flights && !l.sys.flights[w].drive.pc.Finished? ==> w in l.holders)
  }

  /** A save that does not fail is the last call of a drive. */
  lemma SaveIsTheLastCall(d: Drive, a: Answer)
    requires d.pc.Saving? && Fits(NextCall(d), a) && !a.SaveFailed?
    ensures Resume(d, a).pc.Finished?
  {
  }

  lemma MoveKeepsLease(l: Leased, w: nat, m: Move)
    requires LeaseHolds(l) && Disciplined(l, w, m)
    ensures LeaseHolds(Held(l, w, m))
  {
    hide Resume, NextCall, Fits, Start, SaveFits;
    if m.Hear? && l.sys.flights[w].drive.pc.Saving? {
      SaveIsTheLastCall(l.sys.flights[w].drive, m.answer);
    }
  }

  ghost predicate LegalMoves(l: Leased, ms: seq<(nat, Move)>)
    decreases |ms|
  {
    ms == [] || (Disciplined(l, ms[0].0, ms[0].1) && LegalMoves(Held(l, ms[0].0, ms[0].1), ms[1..]))
  }

  function ReachedBy(l: Leased, ms: seq<(nat, Move)>): Leased
    requires LegalMoves(l, ms)
    decreases |ms|
  {
    if ms == [] then l else ReachedBy(Held(l, ms[0].0, ms[0].1), ms[1..])
  }

  lemma {:induction false} MovesKeepLease(l: Leased, ms: seq<(nat, Move)>)
    requires LeaseHolds(l) && LegalMoves(l, ms)
    ensures LeaseHolds(ReachedBy(l, ms))
    decreases |ms|
  {
    hide LeaseHolds, Disciplined;
    if ms != [] {
      MoveKeepsLease(l, ms[0].0, ms[0].1);
      MovesKeepLease(Held(l, ms[0].0, ms[0].1), ms[1..]);
    }
  }

  /** At no time are two drives of the run between their start and their end, so no two of them ever make
      calls concurrently. */
  lemma DrivesDoNotOverlap(cfg: Settings, row: Run, now: Time, lease: Time, ms: seq<(nat, Move)>, v: nat, w: nat)
    requires lease > 0.0 && LegalMoves(Leased(Fresh(cfg, row, now), lease, map[]), ms)
    ensures var s := ReachedBy(Leased(Fresh(cfg, row, now), lease, map[]), ms).sys;
            v in s.flights && !s.flights[v].drive.pc.Finished? && w in s.flights && !s.flights[w].drive.pc.Finished?
            ==> v == w
  {
    MovesKeepLease(Leased(Fresh(cfg, row, now), lease, map[]), ms);
  }
}
