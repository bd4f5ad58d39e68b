/** The latest runs of several resource records in one request. */
module BatchLookup {
  import opened Domain
  import opened Texts
  import opened Collections

  const MAX_BATCH_RESOURCE_IDS: nat := 200

  /** The list asked for, or why the request is refused. */
  datatype Parsed = Ids(ids: seq<string>) | NoIds | TooMany(count: nat)

  /** The distinct non-blank ids among these parts, in the order they first come. */
  function IdsOf(parts: seq<string>): seq<string> {
    if parts == [] then []
    else
      var before := IdsOf(parts[..|parts| - 1]);
      var id := Strip(parts[|parts| - 1]);
      if id != "" && id !in before then before + [id] else before
  }

  /** Some part spells this id, and it is not blank. */
  predicate Asked(parts: seq<string>, id: string) {
    id != "" && exists k :: 0 <= k < |parts| && Strip(parts[k]) == id
  }

  lemma LastAsks(parts: seq<string>, id: string)
    requires parts != []
    ensures var n := |parts| - 1; Asked(parts, id) <==> Asked(parts[..n], id) || (id != "" && id == Strip(parts[n]))
  {
    hide Strip;
    var n := |parts| - 1;
    assert parts == parts[..n] + [parts[n]];
  }

  /** Every id asked for once, no other, and each before those first asked for later. */
  lemma {:induction false} IdsInOrderAsked(parts: seq<string>)
    ensures Distinct(IdsOf(parts))
    ensures forall id :: id in IdsOf(parts) <==> Asked(parts, id)
    ensures forall n: nat :: n <= |parts| ==> IdsOf(parts[..n]) <= IdsOf(parts)
  {
    if parts != [] {
      var n := |parts| - 1;
      IdsInOrderAsked(parts[..n]);
      forall id ensures Asked(parts, id) <==> Asked(parts[..n], id) || (id != "" && id == Strip(parts[n])) {
        LastAsks(parts, id);
      }
      forall m: nat | m <= |parts| ensures IdsOf(parts[..m]) <= IdsOf(parts) {
        if m <= n {
          assert parts[..n][..m] == parts[..m];
        } else {
          assert parts[..m] == parts;
        }
      }
    }
  }

  /** A list that can be asked for as it is. */
  predicate Clean(ids: seq<string>) {
    Distinct(ids) && forall i :: 0 <= i < |ids| ==> ids[i] != "" && Strip(ids[i]) == ids[i] && Without(ids[i], ',')
  }

  lemma {:induction false} IdsAreClean(raw: string)
    ensures Clean(IdsOf(Split(raw, ',')))
  {
    var parts := Split(raw, ',');
    var ids := IdsOf(parts);
    IdsInOrderAsked(parts);
    forall i | 0 <= i < |ids| ensures ids[i] != "" && Strip(ids[i]) == ids[i] && Without(ids[i], ',') {
      assert Asked(parts, ids[i]);
      var k :| 0 <= k < |parts| && Strip(parts[k]) == ids[i];
      StripTwice(parts[k]);
      SplitsAreWithout(raw, ',', k);
      StripKeepsOut(parts[k], ',');
    }
  }

  lemma {:induction false} CleanStays(ids: seq<string>)
    requires Clean(ids)
    ensures IdsOf(ids) == ids
  {
    if ids != [] {
      var n := |ids| - 1;
      CleanStays(ids[..n]);
      assert ids == ids[..n] + [ids[n]];
    }
  }

  function Parse(raw: string): Parsed {
    var ids := IdsOf(Split(raw, ','));
    if ids == [] then NoIds else if |ids| > MAX_BATCH_RESOURCE_IDS then TooMany(|ids|) else Ids(ids)
  }

  ghost predicate AsksNothing(parts: seq<string>) {
    forall id :: !Asked(parts, id)
  }

  lemma NoneIsEmpty(parts: seq<string>)
    ensures IdsOf(parts) == [] <==> AsksNothing(parts)
  {
    hide Asked;
    IdsInOrderAsked(parts);
    if IdsOf(parts) != [] {
      assert IdsOf(parts)[0] in IdsOf(parts);
    } else {
      forall id ensures !Asked(parts, id) {
        assert id !in IdsOf(parts);
      }
    }
  }

  /** A parsed list is clean and in bounds, and asking for it again, joined by commas, gives it back; and
      so does every clean list in bounds. Nothing but blanks is refused as no list, more ids than the bound as too many. */
  lemma ParseRoundTrips(raw: string, ids: seq<string>)
    ensures Parse(raw).Ids? ==> Clean(Parse(raw).ids) && 1 <= |Parse(raw).ids| <= 200
    ensures Clean(ids) && 1 <= |ids| <= 200 <==> Parse(Join(ids, ',')) == Ids(ids)
    ensures Parse(raw).NoIds? <==> AsksNothing(Split(raw, ','))
    ensures Clean(ids) ==> (|ids| > 200 <==> Parse(Join(ids, ',')) == TooMany(|ids|))
  {
    hide Strip, Split, Join, AsksNothing, IdsOf;
    IdsAreClean(raw);
    NoneIsEmpty(Split(raw, ','));
    IdsAreClean(Join(ids, ','));
    if Clean(ids) && ids != [] {
      JoinSplits(ids, ',');
      CleanStays(ids);
    }
  }

  // --- Which run is the latest ---

  predicate Matches(run: Run, resourceId: string) {
    run.state.resource.Some? && run.state.resource.value.resourceId == resourceId
  }

  /** `run` is the newest of the record's runs. */
  predicate IsLatest(runs: set<Run>, resourceId: string, run: Run) {
    run in runs && Matches(run, resourceId)
    && forall r :: r in runs && Matches(r, resourceId) ==> r.createdAt <= run.createdAt
  }

  /** No two runs of one record were created at the same time. */
  predicate NoTies(runs: set<Run>) {
    forall a, b :: a in runs && b in runs && a != b && a.state.resource.Some? && b.state.resource.Some?
                   && a.state.resource.value.resourceId == b.state.resource.value.resourceId
                   ==> a.createdAt != b.createdAt
  }

  predicate Unknown(runs: set<Run>, resourceId: string) {
    forall r :: r in runs ==> !Matches(r, resourceId)
  }

  /** What the single lookup gives. */
  ghost function Latest(runs: set<Run>, resourceId: string): Option<Run> {
    if exists run :: IsLatest(runs, resourceId, run) then
      var run :| IsLatest(runs, resourceId, run);
      Some(run)
    else None
  }

  /** What answers the whole list, in the order asked, misses dropped. */
  ghost function LatestOfAll(runs: set<Run>, ids: seq<string>): seq<Run> {
    if ids == [] then []
    else
      var front := LatestOfAll(runs, ids[..|ids| - 1]);
      match Latest(runs, ids[|ids| - 1])
      case None => front
      case Some(run) => front + [run]
  }

  class RunQueries {
    const runs: set<Run>

    constructor (runs: set<Run>)
      ensures this.runs == runs
    {
      this.runs := runs;
    }

    /** The newest run of a record: matching rows newest first, one of them. */
    method FindLastByResourceId(resourceId: string) returns (last: Option<Run>)
      ensures last.Some? ==> IsLatest(runs, resourceId, last.value)
      ensures last.None? ==> Unknown(runs, resourceId)
    {
      last := None;
      var rest := runs;
      while rest != {}
        invariant rest <= runs
        invariant last.Some? ==> IsLatest(runs - rest, resourceId, last.value)
        invariant last.None? ==> Unknown(runs - rest, resourceId)
        decreases |rest|
      {
        var run :| run in rest;
        if Matches(run, resourceId) && (last.None? || last.value.createdAt < run.createdAt) {
          last := Some(run);
        }
        rest := rest - {run};
      }
      assert runs - rest == runs;
    }

    /** One pass over the rows of all the records, the newest of each: keyed by record. */
    method FindLastByResourceIds(ids: seq<string>) returns (byRecord: map<string, Run>)
      ensures forall id :: id in byRecord ==> id in ids && IsLatest(runs, id, byRecord[id])
      ensures forall id :: id in ids && id !in byRecord ==> Unknown(runs, id)
    {
      byRecord := map[];
      var rest := runs;
      while rest != {}
        invariant rest <= runs
        invariant forall id :: id in byRecord ==> id in ids && IsLatest(runs - rest, id, byRecord[id])
        invariant forall id :: id in ids && id !in byRecord ==> Unknown(runs - rest, id)
        decreases |rest|
      {
        var run :| run in rest;
        if run.state.resource.Some? && run.state.resource.value.resourceId in ids {
          var id := run.state.resource.value.resourceId;
          if id !in byRecord || byRecord[id].createdAt < run.createdAt {
            byRecord := byRecord[id := run];
          }
        }
        rest := rest - {run};
      }
      assert runs - rest == runs;
    }

    /** The batch lookup: as many single lookups, in the order asked. */
    method GetLatestResourceRuns(raw: string) returns (parsed: Parsed, latest: seq<Run>)
      ensures parsed == Parse(raw)
      ensures parsed.Ids? && NoTies(runs) ==> latest == LatestOfAll(runs, parsed.ids)
    {
      parsed := ParseResourceIds(raw);
      latest := [];
      if !parsed.Ids? {
        return;
      }
      var byRecord := FindLastByResourceIds(parsed.ids);
      for i := 0 to |parsed.ids|
        invariant NoTies(runs) ==> latest == LatestOfAll(runs, parsed.ids[..i])
      {
        var id := parsed.ids[i];
        assert parsed.ids[..i + 1][..i] == parsed.ids[..i];
        if id in byRecord {
          latest := latest + [byRecord[id]];
          if NoTies(runs) {
            LatestIsOne(runs, id, byRecord[id]);
          }
        } else {
          NoLatest(runs, id);
        }
      }
      assert parsed.ids[..|parsed.ids|] == parsed.ids;
    }

    /** Blanks dropped, duplicates collapsed, order kept. */
    method ParseResourceIds(raw: string) returns (parsed: Parsed)
      ensures parsed == Parse(raw)
    {
      var parts := Split(raw, ',');
      var seen: seq<string> := [];
      for i := 0 to |parts|
        invariant seen == IdsOf(parts[..i])
      {
        assert parts[..i + 1][..i] == parts[..i];
        var recordId := Strip(parts[i]);
        if recordId != "" && recordId !in seen {
          seen := seen + [recordId];
        }
      }
      assert parts[..|parts|] == parts;
      if seen == [] {
        return NoIds;
      }
      if |seen| > MAX_BATCH_RESOURCE_IDS {
        return TooMany(|seen|);
      }
      return Ids(seen);
    }
  }

  lemma LatestIsOne(runs: set<Run>, id: string, run: Run)
    requires NoTies(runs) && IsLatest(runs, id, run)
    ensures Latest(runs, id) == Some(run)
  {
    var last := Latest(runs, id);
    assert last.Some? && IsLatest(runs, id, last.value);
    assert Matches(last.value, id) && Matches(run, id);
    assert last.value.createdAt == run.createdAt;
  }

  lemma NoLatest(runs: set<Run>, id: string)
    requires Unknown(runs, id)
    ensures Latest(runs, id) == None
  {
  }

  /** Each id asked for gets its latest run, and only those without any are missing. */
  lemma {:induction false} NothingLost(runs: set<Run>, ids: seq<string>)
    requires Distinct(ids)
    ensures forall run :: run in LatestOfAll(runs, ids) <==> exists id :: id in ids && Latest(runs, id) == Some(run)
    ensures |LatestOfAll(runs, ids)| <= |ids|
  {
    if ids != [] {
      var n := |ids| - 1;
      NothingLost(runs, ids[..n]);
      forall id ensures id in ids <==> id in ids[..n] || id == ids[n] {
        assert ids == ids[..n] + [ids[n]];
      }
    }
  }
}
