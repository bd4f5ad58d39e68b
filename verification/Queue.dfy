/** The run store as a queue: rows become due, the oldest due rows are claimed under a lease. */
module Queue {
  import opened Domain
  import opened StoredRows
  import opened Collections

  type Rows = map<RunId, Run>

  predicate Claimable(rows: Rows, id: RunId, now: Time, locked: set<RunId>) {
    id in rows && Due(rows[id], now) && id !in locked
  }

  function DueAt(rows: Rows, id: RunId): Time {
    if id in rows && rows[id].scheduledAt.Some? then rows[id].scheduledAt.value else 0.0
  }

  predicate OldestFirst(rows: Rows, ids: seq<RunId>) {
    forall i, j :: 0 <= i < j < |ids| ==> DueAt(rows, ids[i]) <= DueAt(rows, ids[j])
  }

  /** The rows after these were claimed. */
  function Pushed(rows: Rows, ids: seq<RunId>, now: Time, lease: Time): Rows {
    map id | id in rows :: if id in ids then Claimed(rows[id], now, lease) else rows[id]
  }

  /** One claim: the oldest due rows nobody has locked, each once, up to the limit, oldest first. */
  ghost predicate ClaimsOldest(rows: Rows, now: Time, lease: Time, limit: nat, locked: set<RunId>,
                               ids: seq<RunId>, after: Rows) {
    && |ids| <= limit && Distinct(ids) && OldestFirst(rows, ids)
    && (forall i :: 0 <= i < |ids| ==> Claimable(rows, ids[i], now, locked))
    && (forall id :: Claimable(rows, id, now, locked) && id !in ids ==>
          |ids| == limit && forall i :: 0 <= i < |ids| ==> DueAt(rows, ids[i]) <= DueAt(rows, id))
    && after == Pushed(rows, ids, now, lease)
  }

  // --- Fairness ---

  /** The rows due no later than `r`. */
  function Ahead(rows: Rows, r: RunId): set<RunId> {
    set id | id in rows && id != r && rows[id].scheduledAt.Some? && DueAt(rows, id) <= DueAt(rows, r)
  }

  /** What happens to the queue: a claim, or a change to other rows: runs created, woken, rescheduled,
      ended. */
  datatype Step =
    | Claim(now: Time, lease: Time, limit: nat, ids: seq<RunId>)
    | Change(now: Time)

  ghost predicate Steps(rows: Rows, r: RunId, step: Step, after: Rows) {
    match step
    case Claim(now, lease, limit, ids) =>
      lease > 0.0 && limit > 0 && ClaimsOldest(rows, now, lease, limit, {}, ids, after)
    case Change(now) => ChangesOthers(rows, r, now, after)
  }

  /** `r` stays as it is; whatever else is scheduled now is scheduled for now or later. */
  ghost predicate ChangesOthers(rows: Rows, r: RunId, now: Time, after: Rows) {
    && r in rows && r in after && after[r] == rows[r]
    && forall id :: id in after && id != r && after[id].scheduledAt.Some? ==>
         (id in rows && after[id].scheduledAt == rows[id].scheduledAt) || now <= DueAt(after, id)
  }

  function Claims(steps: seq<Step>): nat {
    if steps == [] then 0
    else Claims(steps[..|steps| - 1]) + if steps[|steps| - 1].Claim? then |steps[|steps| - 1].ids| else 0
  }

  /** A history of the queue in which `r` waits: it is past due from the start and never claimed. */
  ghost predicate Waits(states: seq<Rows>, steps: seq<Step>, r: RunId) {
    && |states| == |steps| + 1
    && r in states[0] && states[0][r].scheduledAt.Some?
    && (forall i :: 0 <= i < |steps| ==> Steps(states[i], r, steps[i], states[i + 1]))
    && (forall i :: 0 <= i < |steps| ==> DueAt(states[0], r) < steps[i].now)
    && (forall i :: 0 <= i < |steps| && steps[i].Claim? ==> r !in steps[i].ids)
  }

  /** A claim that passes `r` by takes at least one row, and only rows that are ahead of `r`. */
  lemma ClaimTakesFromAhead(rows: Rows, r: RunId, step: Step, after: Rows)
    requires step.Claim? && Steps(rows, r, step, after) && r !in step.ids
    requires r in rows && rows[r].scheduledAt.Some? && DueAt(rows, r) < step.now
    ensures r in after && after[r] == rows[r]
    ensures |step.ids| >= 1 && |Ahead(after, r)| + |step.ids| <= |Ahead(rows, r)|
  {
    var taken := set i | 0 <= i < |step.ids| :: step.ids[i];
    assert Claimable(rows, r, step.now, {});
    forall id | id in taken ensures id in Ahead(rows, r) {
      var i :| 0 <= i < |step.ids| && step.ids[i] == id;
      assert Claimable(rows, step.ids[i], step.now, {});
    }
    DistinctSize(step.ids);
    assert Ahead(after, r) <= Ahead(rows, r) - taken;
    SubsetSize(Ahead(after, r), Ahead(rows, r) - taken);
  }

  lemma ChangeAddsNothingAhead(rows: Rows, r: RunId, step: Step, after: Rows)
    requires step.Change? && Steps(rows, r, step, after)
    requires r in rows && rows[r].scheduledAt.Some? && DueAt(rows, r) < step.now
    ensures r in after && after[r] == rows[r] && |Ahead(after, r)| <= |Ahead(rows, r)|
  {
    assert Ahead(after, r) <= Ahead(rows, r);
    SubsetSize(Ahead(after, r), Ahead(rows, r));
  }

  lemma {:induction false} WaitingUsesUpAhead(states: seq<Rows>, steps: seq<Step>, r: RunId, n: nat)
    requires Waits(states, steps, r) && n <= |steps|
    ensures r in states[n] && states[n][r] == states[0][r]
    ensures Claims(steps[..n]) + |Ahead(states[n], r)| <= |Ahead(states[0], r)|
  {
    hide Steps, Ahead;
    if n > 0 {
      WaitingUsesUpAhead(states, steps, r, n - 1);
      assert steps[..n][..n - 1] == steps[..n - 1];
      assert Steps(states[n - 1], r, steps[n - 1], states[n - 1 + 1]);
      if steps[n - 1].Claim? {
        ClaimTakesFromAhead(states[n - 1], r, steps[n - 1], states[n]);
      } else {
        ChangeAddsNothingAhead(states[n - 1], r, steps[n - 1], states[n]);
      }
    }
  }

  /** A run past its time that nobody wakes or saves is passed by at most as many claims as there were
      rows due no later than it, however many runs are created, woken or rescheduled meanwhile; the call
      that does claim it claims only such rows before it. So it is claimed by one of the first calls. */
  lemma NobodyStarves(states: seq<Rows>, steps: seq<Step>, r: RunId, last: Step, end: Rows)
    requires Waits(states, steps, r) && last.Claim? && Steps(states[|steps|], r, last, end)
    requires DueAt(states[0], r) < last.now
    ensures r !in last.ids ==> Claims(steps) + |last.ids| <= |Ahead(states[0], r)|
    ensures forall k :: 0 <= k < |last.ids| && last.ids[k] == r ==> Claims(steps) + k <= |Ahead(states[0], r)|
  {
    var rows := states[|steps|];
    WaitingUsesUpAhead(states, steps, r, |steps|);
    assert steps[..|steps|] == steps;
    if r !in last.ids {
      ClaimTakesFromAhead(rows, r, last, end);
    }
    forall k | 0 <= k < |last.ids| && last.ids[k] == r ensures Claims(steps) + k <= |Ahead(states[0], r)| {
      var before := last.ids[..k];
      DistinctSize(before);
      var taken := set i | 0 <= i < |before| :: before[i];
      forall id | id in taken ensures id in Ahead(rows, r) {
        var i :| 0 <= i < |before| && before[i] == id;
        assert Claimable(rows, last.ids[i], last.now, {}) && last.ids[i] != last.ids[k];
      }
      SubsetSize(taken, Ahead(rows, r));
    }
  }

  /** How many calls pass a waiting run by. */
  function Calls(steps: seq<Step>): nat {
    if steps == [] then 0 else Calls(steps[..|steps| - 1]) + if steps[|steps| - 1].Claim? then 1 else 0
  }

  lemma {:induction false} EveryCallTakesOne(states: seq<Rows>, steps: seq<Step>, r: RunId, n: nat)
    requires Waits(states, steps, r) && n <= |steps|
    ensures Calls(steps[..n]) <= Claims(steps[..n])
  {
    hide Steps, Ahead;
    if n > 0 {
      EveryCallTakesOne(states, steps, r, n - 1);
      WaitingUsesUpAhead(states, steps, r, n - 1);
      assert steps[..n][..n - 1] == steps[..n - 1];
      assert Steps(states[n - 1], r, steps[n - 1], states[n - 1 + 1]);
      if steps[n - 1].Claim? {
        ClaimTakesFromAhead(states[n - 1], r, steps[n - 1], states[n]);
      }
    }
  }

  /** So of any history with more claim calls than there were rows ahead, one claims the run. */
  lemma ClaimedInTime(states: seq<Rows>, steps: seq<Step>, r: RunId)
    requires Waits(states, steps, r)
    ensures Calls(steps) <= |Ahead(states[0], r)|
  {
    WaitingUsesUpAhead(states, steps, r, |steps|);
    EveryCallTakesOne(states, steps, r, |steps|);
    assert steps[..|steps|] == steps;
  }

  // --- The lease ---

  /** Two claims of one run with neither a save nor a wake of it between them are at least a lease
      apart; and no call claims a run twice. */
  lemma ClaimsAreALeaseApart(rows: Rows, first: Step, between: Rows, second: Step, mid: Rows, after: Rows, r: RunId)
    requires first.Claim? && Steps(rows, r, first, between) && r in first.ids
    requires r in between && r in mid && mid[r] == between[r]
    requires second.Claim? && Steps(mid, r, second, after) && r in second.ids
    ensures first.now + first.lease <= second.now
    ensures |first.ids| == |set i | 0 <= i < |first.ids| :: first.ids[i]|
  {
    DistinctSize(first.ids);
    var k :| 0 <= k < |second.ids| && second.ids[k] == r;
    assert Claimable(mid, second.ids[k], second.now, {});
  }
}
