/** The run store: versioned rows, written whole. Each operation is one transaction. */
module RunStores {
  import opened Domain
  import opened Drives
  import opened StoredRows
  import opened Histories
  import opened WorkflowRuns
  import opened Collections
  import opened Queue

  class RunStore {
    var rows: Rows

    ghost predicate Valid()
      reads this
    {
      forall id :: id in rows ==> rows[id].id == id
    }

    constructor ()
      ensures Valid() && rows == map[]
    {
      rows := map[];
    }

    method Create(run: Run)
      requires Valid() && run.id !in rows
      modifies this
      ensures Valid() && rows == old(rows)[run.id := run]
    {
      rows := rows[run.id := run];
    }

    method Get(id: RunId) returns (run: Option<Run>)
      requires Valid()
      ensures run == if id in rows then Some(rows[id]) else None
      ensures run.Some? ==> run.value.id == id
    {
      return if id in rows then Some(rows[id]) else None;
    }

    /** Write a run back, if the stored row is still the one it was loaded from. The database may fail
        before the write or after it; either way the caller's copy keeps its version. */
    method Save(run: WorkflowRun) returns (a: Answer)
      requires Valid()
      modifies this, run`version
      ensures Valid()
      ensures if run.id in old(rows) then SaveFits(old(rows)[run.id], old(run.Value()), a)
              else a == SaveStale || a == SaveFailed(false)
      ensures rows == if Applied(a) then old(rows)[run.id := Saved(old(rows)[run.id], old(run.Value()))] else old(rows)
      ensures run.version == old(run.version) + if a.SaveOk? then 1 else 0
      ensures a.SaveOk? ==> rows[run.id].version == run.version
    {
      var fails, lost: bool := *, *;
      if fails {
        return SaveFailed(false);
      }
      if run.id !in rows || rows[run.id].version != run.version {
        return SaveStale;
      }
      rows := rows[run.id := Saved(rows[run.id], run.Value())];
      if lost {
        return SaveFailed(true);
      }
      run.version := rows[run.id].version;
      return SaveOk;
    }

    /** Make a run that is not over due now. */
    method Wake(id: RunId, now: Time) returns (woken: bool)
      requires Valid()
      modifies this
      ensures Valid() && woken == (id in old(rows) && !old(rows)[id].status.Terminal())
      ensures rows == if id in old(rows) then old(rows)[id := Woken(old(rows)[id], now)] else old(rows)
    {
      woken := id in rows && !rows[id].status.Terminal();
      if woken {
        rows := rows[id := rows[id].(scheduledAt := Some(now))];
      }
    }

    /** The oldest of some claimable rows. */
    method Oldest(ids: set<RunId>) returns (oldest: RunId)
      requires ids != {} && forall id :: id in ids ==> id in rows
      ensures oldest in ids && forall id :: id in ids ==> DueAt(rows, oldest) <= DueAt(rows, id)
    {
      oldest :| oldest in ids;
      var rest := ids - {oldest};
      while rest != {}
        invariant oldest in ids && rest <= ids
        invariant forall id :: id in ids && id !in rest ==> DueAt(rows, oldest) <= DueAt(rows, id)
        decreases |rest|
      {
        var id :| id in rest;
        if DueAt(rows, id) < DueAt(rows, oldest) {
          oldest := id;
        }
        rest := rest - {id};
      }
    }

    /** Pick up to `limit` due rows that nobody has locked, the oldest first, and push each forward by
        the lease. */
    method ClaimDue(limit: nat, lease: Time, now: Time, locked: set<RunId>) returns (ids: seq<RunId>)
      requires Valid()
      modifies this
      ensures Valid() && ClaimsOldest(old(rows), now, lease, limit, locked, ids, rows)
      ensures rows.Keys == old(rows).Keys
      ensures forall id :: id in ids ==>
                id in old(rows) && id !in locked && rows[id] == old(rows)[id].(scheduledAt := Some(now + lease))
                && old(rows)[id].scheduledAt.Some? && old(rows)[id].scheduledAt.value <= now
      ensures forall id :: id in old(rows) && id !in ids ==>
                rows[id] == old(rows)[id]
                && (|ids| == limit || id in locked || old(rows)[id].scheduledAt.None? || now < old(rows)[id].scheduledAt.value)
    {
      ids := PickDue(limit, now, locked);
      Push(ids, now, lease);
    }

    /** The oldest due rows nobody has locked, the oldest first. */
    method PickDue(limit: nat, now: Time, locked: set<RunId>) returns (ids: seq<RunId>)
      ensures |ids| <= limit && Distinct(ids) && OldestFirst(rows, ids)
      ensures forall i :: 0 <= i < |ids| ==> Claimable(rows, ids[i], now, locked)
      ensures forall id :: Claimable(rows, id, now, locked) && id !in ids ==>
                |ids| == limit && forall i :: 0 <= i < |ids| ==> DueAt(rows, ids[i]) <= DueAt(rows, id)
    {
      var left := set id | id in rows && Claimable(rows, id, now, locked);
      ids := [];
      while |ids| < limit && left != {}
        invariant |ids| <= limit && Distinct(ids) && OldestFirst(rows, ids)
        invariant forall i :: 0 <= i < |ids| ==> Claimable(rows, ids[i], now, locked) && ids[i] !in left
        invariant forall id :: Claimable(rows, id, now, locked) <==> id in left || id in ids
        invariant forall i, id :: 0 <= i < |ids| && id in left ==> DueAt(rows, ids[i]) <= DueAt(rows, id)
        decreases |left|
      {
        var id := Oldest(left);
        ids := ids + [id];
        left := left - {id};
      }
    }

    /** Push the claimed rows forward, one by one. */
    method Push(ids: seq<RunId>, now: Time, lease: Time)
      requires Valid() && Distinct(ids) && forall i :: 0 <= i < |ids| ==> ids[i] in rows
      modifies this
      ensures Valid() && rows == Pushed(old(rows), ids, now, lease)
    {
      for i := 0 to |ids|
        invariant Valid() && rows.Keys == old(rows).Keys
        invariant rows == Pushed(old(rows), ids[..i], now, lease)
      {
        rows := rows[ids[i] := Claimed(rows[ids[i]], now, lease)];
        assert ids[..i + 1] == ids[..i] + [ids[i]];
      }
      assert ids[..|ids|] == ids;
    }
  }
}
