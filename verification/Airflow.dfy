/** The Airflow adapter: what a DAG run's state, its task outputs and its rollback verdict come to, and
    why a run whose DAG runs were all rolled back never counts as done. */
module Airflow {
  import opened Domain
  import opened Texts
  import opened Drives
  import opened Bookkeeping
  import opened Gates
  import opened Histories
  import opened Safety

  /** A request that may raise. */
  datatype Fetch<+T> = Got(value: T) | Raise

  /** What asking a task for an output can find: no such entry, an error, an empty entry, a value. */
  datatype Entry = NotPushed | Unreadable | Empty | Value(text: string)

  datatype TaskInstance = TaskInstance(taskId: string, outputs: map<string, Entry>)

  datatype DagRun = DagRun(state: Fetch<string>, tasks: Fetch<seq<TaskInstance>>)

  const FLOW_FAILED: string := "flow_failed"

  function Published(t: TaskInstance, key: string): Entry {
    if key in t.outputs then t.outputs[key] else NotPushed
  }

  // --- The first output under a key ---

  function FirstOutput(tasks: seq<TaskInstance>, key: string): Fetch<Option<string>> {
    if tasks == [] then Got(None)
    else match Published(tasks[0], key)
      case Unreadable => Raise
      case Value(v) => Got(Some(v))
      case _ => FirstOutput(tasks[1..], key)
  }

  /** The tasks before the `i`-th hold nothing under the key. */
  predicate NothingBefore(tasks: seq<TaskInstance>, key: string, i: nat)
    requires i <= |tasks|
  {
    forall k :: 0 <= k < i ==> Published(tasks[k], key) == NotPushed || Published(tasks[k], key) == Empty
  }

  /** `e` is the first entry in task order that says anything. */
  ghost predicate First(tasks: seq<TaskInstance>, key: string, e: Entry) {
    exists i: nat :: i < |tasks| && NothingBefore(tasks, key, i) && Published(tasks[i], key) == e
  }

  lemma SkipsSilent(tasks: seq<TaskInstance>, key: string, e: Entry)
    requires tasks != [] && (Published(tasks[0], key) == NotPushed || Published(tasks[0], key) == Empty)
    requires e != NotPushed && e != Empty
    ensures First(tasks, key, e) <==> First(tasks[1..], key, e)
    ensures NothingBefore(tasks, key, |tasks|) <==> NothingBefore(tasks[1..], key, |tasks| - 1)
  {
    var rest := tasks[1..];
    forall i: nat | i <= |rest| ensures NothingBefore(rest, key, i) <==> NothingBefore(tasks, key, i + 1) {
      assert NothingBefore(tasks, key, i + 1) ==> forall k :: 0 <= k < i ==> rest[k] == tasks[k + 1];
    }
    if i: nat :| i < |rest| && NothingBefore(rest, key, i) && Published(rest[i], key) == e {
      assert NothingBefore(tasks, key, i + 1) && Published(tasks[i + 1], key) == e;
    }
    if i: nat :| i < |tasks| && NothingBefore(tasks, key, i) && Published(tasks[i], key) == e {
      assert NothingBefore(rest, key, i - 1) && Published(rest[i - 1], key) == e;
    }
  }

  /** The output is the first value in task order, unless an entry that cannot be read comes first. */
  lemma {:induction false} FirstOutputIsFirst(tasks: seq<TaskInstance>, key: string, v: string)
    ensures FirstOutput(tasks, key) == Got(Some(v)) <==> First(tasks, key, Value(v))
    ensures FirstOutput(tasks, key) == Got(None) <==> NothingBefore(tasks, key, |tasks|)
    ensures FirstOutput(tasks, key) == Raise <==> First(tasks, key, Unreadable)
  {
    if tasks != [] {
      var e := Published(tasks[0], key);
      if e == NotPushed || e == Empty {
        FirstOutputIsFirst(tasks[1..], key, v);
        SkipsSilent(tasks, key, Value(v));
        SkipsSilent(tasks, key, Unreadable);
      } else {
        assert NothingBefore(tasks, key, 0);
      }
    }
  }

  // --- Truthy text ---

  /** Lower case of the letters that matter: no other character's lower case is among them. */
  function Lower(s: string): (r: string)
    ensures |r| == |s|
  {
    if s == "" then ""
    else [if 'A' <= s[0] <= 'Z' then s[0] - 'A' + 'a' else s[0]] + Lower(s[1..])
  }

  predicate Yes(word: string) {
    Lower(word) == "true" || Lower(word) == "1" || Lower(word) == "yes"
  }

  /** What the source computes of a verdict's text. */
  predicate Truthy(text: string) {
    Yes(Strip(text))
  }

  /** Text padded by blanks. */
  predicate Padded(text: string, lead: string, word: string, trail: string) {
    text == lead + word + trail && AllSpace(lead) && AllSpace(trail)
  }

  lemma YesIsTight(word: string)
    requires Yes(word)
    ensures word != "" && !IsSpace(word[0]) && !IsSpace(word[|word| - 1])
  {
    LowerKeepsSpace(word, 0);
    LowerKeepsSpace(word, |word| - 1);
  }

  lemma {:induction false} LowerKeepsSpace(s: string, i: nat)
    ensures i < |s| ==> (IsSpace(Lower(s)[i]) <==> IsSpace(s[i]))
  {
    if i < |s| && i > 0 {
      LowerKeepsSpace(s[1..], i - 1);
    }
  }

  lemma PaddingIsStripped(text: string, lead: string, word: string, trail: string)
    requires Padded(text, lead, word, trail) && Yes(word)
    ensures Strip(text) == word
  {
    YesIsTight(word);
    hide Yes, IsSpace;
    assert text == lead + (word + trail);
    StripsLead(lead, word + trail);
    assert StripLeft(word + trail) == word + trail;
    StripsTrail(word, trail);
  }

  lemma TruthyIsPaddedYes(text: string)
    ensures Truthy(text) <==> exists lead, word, trail :: Padded(text, lead, word, trail) && Yes(word)
  {
    hide Yes, AllSpace;
    if Truthy(text) {
      var lead := StripLeftSplits(text);
      var trail := StripRightSplits(StripLeft(text));
      assert Padded(text, lead, Strip(text), trail);
    }
    if lead, word, trail :| Padded(text, lead, word, trail) && Yes(word) {
      PaddingIsStripped(text, lead, word, trail);
    }
  }

  /** White space, by its code points. */
  predicate Blank(c: char) {
    c as int in {0x09, 0x0A, 0x0B, 0x0C, 0x0D, 0x1C, 0x1D, 0x1E, 0x1F, 0x20, 0x85, 0xA0, 0x1680,
                 0x2000, 0x2001, 0x2002, 0x2003, 0x2004, 0x2005, 0x2006, 0x2007, 0x2008, 0x2009, 0x200A,
                 0x2028, 0x2029, 0x202F, 0x205F, 0x3000}
  }

  /** The word, in any mix of cases. */
  predicate Spells(word: string, lower: string) {
    |word| == |lower|
    && forall i :: 0 <= i < |word| ==>
         word[i] == lower[i] || ('a' <= lower[i] <= 'z' && word[i] as int == lower[i] as int - 32)
  }

  predicate SaysYes(text: string, from: nat, to: nat) {
    from <= to <= |text|
    && (forall i :: 0 <= i < from ==> Blank(text[i])) && (forall i :: to <= i < |text| ==> Blank(text[i]))
    && (Spells(text[from..to], "true") || Spells(text[from..to], "1") || Spells(text[from..to], "yes"))
  }

  /** A text that says true, 1 or yes, in any case and with blanks around it. */
  ghost predicate ReadsTrue(text: string) {
    exists from: nat, to: nat :: SaysYes(text, from, to)
  }

  lemma BlankIsSpace(c: char)
    ensures Blank(c) <==> IsSpace(c)
  {
  }

  lemma {:induction false} SpellsLower(word: string, lower: string)
    requires forall i :: 0 <= i < |lower| ==> !('A' <= lower[i] <= 'Z')
    ensures Spells(word, lower) <==> Lower(word) == lower
  {
    if word != "" && lower != "" {
      SpellsLower(word[1..], lower[1..]);
      assert lower == [lower[0]] + lower[1..];
      assert Spells(word, lower) ==> Spells(word[1..], lower[1..]);
      SpellsOne(word, lower);
    }
  }

  lemma SpellsOne(word: string, lower: string)
    requires word != "" && lower != "" && !('A' <= lower[0] <= 'Z')
    ensures Spells(word, lower)
            <==> Spells(word[1..], lower[1..]) && lower[0] == (if 'A' <= word[0] <= 'Z' then word[0] - 'A' + 'a' else word[0])
  {
    if Spells(word[1..], lower[1..]) {
      forall i | 0 < i < |word|
        ensures word[i] == lower[i] || ('a' <= lower[i] <= 'z' && word[i] as int == lower[i] as int - 32)
      {
        assert word[i] == word[1..][i - 1] && lower[i] == lower[1..][i - 1];
      }
    }
  }

  lemma YesIsSpelled(word: string)
    ensures Yes(word) <==> Spells(word, "true") || Spells(word, "1") || Spells(word, "yes")
  {
    SpellsLower(word, "true");
    SpellsLower(word, "1");
    SpellsLower(word, "yes");
  }

  /** What the adapter makes of a text is what the text says. */
  lemma TruthyReadsTrue(text: string)
    ensures Truthy(text) <==> ReadsTrue(text)
  {
    hide Truthy, Yes, IsSpace, Blank, Spells;
    TruthyIsPaddedYes(text);
    forall c ensures Blank(c) <==> IsSpace(c) {
      BlankIsSpace(c);
    }
    if lead, word, trail :| Padded(text, lead, word, trail) && Yes(word) {
      YesIsSpelled(word);
      assert text[|lead|..|lead| + |word|] == word;
      assert SaysYes(text, |lead|, |lead| + |word|);
    }
    if from: nat, to: nat :| SaysYes(text, from, to) {
      YesIsSpelled(text[from..to]);
      assert text == text[..from] + text[from..to] + text[to..];
      assert Padded(text, text[..from], text[from..to], text[to..]);
    }
  }

  // --- The verdict ---

  function FlowFailed(run: DagRun): Fetch<bool> {
    match run.tasks
    case Raise => Raise
    case Got(tasks) =>
      match FirstOutput(tasks, FLOW_FAILED)
      case Raise => Raise
      case Got(v) => Got(v.Some? && Truthy(v.value))
  }

  /** A DAG whose rollback branch cleaned up after failed tasks ends as `success` too: the verdict it
      publishes outranks its state. */
  function RunStatusOf(run: DagRun): Fetch<EngineRunStatus> {
    match run.state
    case Raise => Raise
    case Got(state) =>
      if state == "success" then
        match FlowFailed(run)
        case Raise => Raise
        case Got(failed) => Got(if failed then EngineFailed else EngineSucceeded)
      else Got(if state == "failed" then EngineFailed else EngineInProgress)
  }

  /** Done, and its rollback verdict, whenever it can be read, reads true. */
  ghost predicate RolledBack(run: DagRun) {
    run.tasks.Got? ==>
      First(run.tasks.value, FLOW_FAILED, Unreadable)
      || exists text :: Truthy(text) && First(run.tasks.value, FLOW_FAILED, Value(text))
  }

  /** Success is reported exactly for a run in state `success` whose tasks can all be asked up to a verdict
      that is missing or does not read true. */
  lemma SuccessMeansNoRollback(run: DagRun)
    ensures RunStatusOf(run) == Got(EngineSucceeded)
            <==> run.state == Got("success") && run.tasks.Got?
                 && (NothingBefore(run.tasks.value, FLOW_FAILED, |run.tasks.value|)
                     || exists text :: First(run.tasks.value, FLOW_FAILED, Value(text)) && !Truthy(text))
    ensures RolledBack(run) ==> RunStatusOf(run) != Got(EngineSucceeded)
  {
    hide Truthy;
    if run.tasks.Got? {
      var tasks := run.tasks.value;
      var out := FirstOutput(tasks, FLOW_FAILED);
      FirstOutputIsFirst(tasks, FLOW_FAILED, if out.Got? && out.value.Some? then out.value.value else "");
      forall text ensures First(tasks, FLOW_FAILED, Value(text)) ==> out == Got(Some(text)) {
        FirstOutputIsFirst(tasks, FLOW_FAILED, text);
      }
    }
  }

  /** What the tasks say of a rollback: it happened; it did not, or none of them says; that cannot be read. */
  ghost predicate TellsRollback(tasks: seq<TaskInstance>) {
    exists text :: First(tasks, "flow_failed", Value(text)) && ReadsTrue(text)
  }

  ghost predicate TellsNone(tasks: seq<TaskInstance>) {
    NothingBefore(tasks, "flow_failed", |tasks|) || exists text :: First(tasks, "flow_failed", Value(text)) && !ReadsTrue(text)
  }

  /** The status of a run, from its state and what its tasks say. */
  ghost predicate HasStatus(run: DagRun, status: Fetch<EngineRunStatus>) {
    match status
    case Got(EngineSucceeded) => run.state == Got("success") && run.tasks.Got? && TellsNone(run.tasks.value)
    case Got(EngineFailed) =>
      run.state == Got("failed") || (run.state == Got("success") && run.tasks.Got? && TellsRollback(run.tasks.value))
    case Got(EngineInProgress) => run.state.Got? && run.state.value != "success" && run.state.value != "failed"
    case Raise =>
      run.state.Raise?
      || (run.state == Got("success") && (run.tasks.Raise? || First(run.tasks.value, "flow_failed", Unreadable)))
  }

  /** Every run has exactly one status, and it is the one computed. */
  lemma OneStatus(run: DagRun, status: Fetch<EngineRunStatus>)
    ensures HasStatus(run, status) <==> status == RunStatusOf(run)
  {
    hide Truthy, ReadsTrue, First;
    if run.tasks.Got? {
      var tasks := run.tasks.value;
      var out := FirstOutput(tasks, FLOW_FAILED);
      FirstOutputIsFirst(tasks, FLOW_FAILED, if out.Got? && out.value.Some? then out.value.value else "");
      forall text
        ensures First(tasks, FLOW_FAILED, Value(text)) <==> out == Got(Some(text))
        ensures Truthy(text) <==> ReadsTrue(text)
      {
        FirstOutputIsFirst(tasks, FLOW_FAILED, text);
        TruthyReadsTrue(text);
      }
    }
  }

  // --- The adapter's loop ---

  class AirflowClient {
    /** Probe each task of a run for an output, in order. */
    method GetOutput(run: DagRun, key: string) returns (output: Fetch<Option<string>>)
      ensures output == if run.tasks.Got? then FirstOutput(run.tasks.value, key) else Raise
    {
      if run.tasks.Raise? {
        return Raise;
      }
      var tasks := run.tasks.value;
      for i := 0 to |tasks|
        invariant FirstOutput(tasks, key) == FirstOutput(tasks[i..], key)
      {
        match Published(tasks[i], key)
        case NotPushed =>
        case Unreadable =>
          return Raise;
        case Value(text) =>
          return Got(Some(text));
        case Empty =>
      }
      return Got(None);
    }

    method QueryRunStatus(run: DagRun) returns (status: Fetch<EngineRunStatus>)
      ensures forall st :: HasStatus(run, st) <==> st == status
    {
      forall st ensures HasStatus(run, st) <==> st == RunStatusOf(run) {
        OneStatus(run, st);
      }
      if run.state.Raise? {
        return Raise;
      }
      if run.state.value == "success" {
        var verdict := GetOutput(run, FLOW_FAILED);
        if verdict.Raise? {
          return Raise;
        }
        return Got(if verdict.value.Some? && Truthy(verdict.value.value) then EngineFailed else EngineSucceeded);
      }
      return Got(if run.state.value == "failed" then EngineFailed else EngineInProgress);
    }
  }

  // --- A rolled-back run never counts as done ---

  /** The poll on the log is what the adapter makes of some state of a DAG run that is rolled back
      whenever it is done. */
  ghost predicate PolledRolledBack(e: Event, run: DagRun) {
    RolledBack(run) && match RunStatusOf(run) case Got(st) => e.answer == EngineStatus(st) case Raise => e.answer.Raised?
  }

  ghost predicate AllRolledBack(log: seq<Event>) {
    forall i :: 0 <= i < |log| && log[i].call.QueryEngine? ==> exists run :: PolledRolledBack(log[i], run)
  }

  lemma NoSuccessHeard(log: seq<Event>, n: nat)
    requires AllRolledBack(log) && n <= |log|
    ensures forall e :: !HeardSuccess(log[..n], e)
  {
    forall e ensures !HeardSuccess(log[..n], e) {
      if HeardSuccess(log[..n], e) {
        var i: nat :| SuccessAt(log[..n], i, e);
        assert log[i].call.QueryEngine?;
        var run :| PolledRolledBack(log[i], run);
        SuccessMeansNoRollback(run);
      }
    }
  }

  /** What only a run whose engine run succeeded does. */
  predicate CountsAsDone(op: Operation, c: Call) {
    match c
    case UpdateRecord(_, fields) => Finalizes(op, fields)
    case CloseTicketAs(_, outcome) => outcome.Successful?
    case _ => false
  }

  /** When every engine run of a run is rolled back, no history of it, overlaps and crashes included, goes
      past RUN_ENGINE: it is never stored at a later step, never COMPLETED, it never finalizes its record
      and never closes its ticket as successful. */
  lemma RolledBackNeverCountsAsDone(cfg: Settings, first: Run, now: Time, ms: seq<Move>)
    requires Triggered(first, now) && !first.runType.Legacy? && Legal(Fresh(cfg, first, now), ms)
    requires AllRolledBack(Reached(Fresh(cfg, first, now), ms).log)
    ensures var s := Reached(Fresh(cfg, first, now), ms);
            && !s.row.status.Completed?
            && (s.row.status.Running? ==>
                  s.row.currentStep.Some? && Pos(s.row, s.row.currentStep.value) <= Pos(s.row, RunEngine))
            && (forall i :: 0 <= i < |s.log| ==> !CountsAsDone(first.state.request.operation, s.log[i].call))
  {
    hide Chained, Row, SafeFlight, KeysBounded, Legal, HeardSuccess, Cleared, HeardApproval, AllRolledBack;
    FreshIsSafe(cfg, first, now);
    HistoriesAreSafe(first, Fresh(cfg, first, now), ms);
    RunStays(first, Fresh(cfg, first, now), ms);
    var s := Reached(Fresh(cfg, first, now), ms);
    NoSuccessHeard(s.log, |s.log|);
    assert s.log[..|s.log|] == s.log;
    forall i | 0 <= i < |s.log| ensures !CountsAsDone(first.state.request.operation, s.log[i].call) {
      NoSuccessHeard(s.log, i);
      assert JustifiedCall(first.runType, first.state.request.operation, s.log[i].call, s.log[..i]);
    }
  }
}
