/** What each operation of the run store does to one row. */
module StoredRows {
  import opened Domain

  predicate Due(row: Run, now: Time) {
    row.scheduledAt.Some? && row.scheduledAt.value <= now
  }

  /** A claim pushes the row forward by the re-drive lease. */
  function Claimed(row: Run, now: Time, lease: Time): Run {
    row.(scheduledAt := Some(now + lease))
  }

  /** A wake makes a run that is not over due now, without touching its version. */
  function Woken(row: Run, now: Time): Run {
    if row.status.Terminal() then row else row.(scheduledAt := Some(now))
  }

  /** A save writes every mutable field back and moves the version up by one. */
  function Saved(row: Run, run: Run): Run {
    row.(status := run.status, currentStep := run.currentStep, scheduledAt := run.scheduledAt,
         state := run.state, version := run.version + 1)
  }
}
