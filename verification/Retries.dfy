/** How long a step waits between its attempts. */
module Retries {
  import opened Domain
  import opened Drives

  predicate Jittered(js: seq<real>) {
    forall i :: 0 <= i < |js| ==> 1.0 <= js[i] <= 5.0
  }

  function Sum(xs: seq<real>): real {
    if xs == [] then 0.0 else Sum(xs[..|xs| - 1]) + xs[|xs| - 1]
  }

  /** The waits of the first |js| retries of a step, with these draws. */
  function Waits(base: real, js: seq<real>): (ws: seq<real>)
    ensures |ws| == |js|
    ensures forall i :: 0 <= i < |js| ==> ws[i] == Backoff(base, i + 1, js[i])
  {
    seq(|js|, i requires 0 <= i < |js| => Backoff(base, i + 1, js[i]))
  }

  /** A failed attempt that is retried: the drive draws once, reads the clock once, and saves the run
      due exactly one backoff later. The retry's number is the number of attempts that failed. */
  lemma RetryIsDueAfterBackoff(d: Drive, s: StepName, e: Error, jitter: real, now: Time)
    requires MayRetry(d.run, s, e) && 1.0 <= jitter <= 5.0
    ensures var k := Attempts(d.run.state.books, s) + 1;
            var es := [Event(DrawJitter, Jitter(jitter)), Event(ReadClock, Clock(now))];
            && k <= d.run.maxRetries
            && IsTrace(Fail(d, s, e), es)
            && var d' := After(Fail(d, s, e), es);
               d'.pc == Saving(false)
               && d'.run.scheduledAt == Some(now + Backoff(d.cfg.retryBaseSeconds, k, jitter))
               && Attempts(d'.run.state.books, s) == k
               && d'.run == d.run.(state := RetryState(d.run.state, s), scheduledAt := d'.run.scheduledAt)
  {
    hide Escalate, IsTrace, Backoff;
    var e1 := Event(DrawJitter, Jitter(jitter));
    var e2 := Event(ReadClock, Clock(now));
    var f := Fail(d, s, e);
    var d1 := Resume(f, Jitter(jitter));
    var d2 := Resume(d1, Clock(now));
    NoEvents(d2);
    TracePrepends(d1, e2, []);
    assert [e2] + [] == [e2];
    TracePrepends(f, e1, [e2]);
    assert [e1] + [e2] == [e1, e2];
  }

  lemma {:induction false} PowersDouble(k: nat)
    ensures Pow2(k + 1) == 2 * Pow2(k) && Pow2(k) >= 1
  {
    if k > 0 {
      PowersDouble(k - 1);
    }
  }

  /** All the waits of a step together: a geometric series plus the draws. */
  lemma {:induction false} TotalWait(base: real, js: seq<real>)
    requires Jittered(js)
    ensures Sum(Waits(base, js)) == base * (Pow2(|js|) - 1) as real + Sum(js)
    ensures |js| as real <= Sum(js) <= 5.0 * |js| as real
  {
    if js != [] {
      var front := js[..|js| - 1];
      TotalWait(base, front);
      assert Waits(base, js)[..|js| - 1] == Waits(base, front);
      PowersDouble(|front|);
      var p := Pow2(|front|) as real;
      assert base * (p - 1.0) + base * p == base * (2.0 * p - 1.0);
    }
  }

  /** The retry after the `k`-th waits longer, with these two draws. */
  predicate Longer(base: real, k: nat, j: real, j': real) {
    k >= 1 && 1.0 <= j <= 5.0 && 1.0 <= j' <= 5.0 ==> Backoff(base, k, j) < Backoff(base, k + 1, j')
  }

  /** However the draws fall, every wait is longer than the one before: exactly when the base is more
      than the spread of the draws. The default base, ten seconds, is. */
  lemma WaitsGrow(base: real)
    requires base >= 0.0
    ensures base > 4.0 <==> forall k: nat, j: real, j': real :: Longer(base, k, j, j')
  {
    forall k: nat, j: real, j': real | base > 4.0 ensures Longer(base, k, j, j') {
      if k >= 1 {
        PowersDouble(k - 1);
        var p := Pow2(k - 1) as real;
        var q := Pow2(k + 1 - 1) as real;
        assert q == p + p && p >= 1.0;
        assert base * q == base * p + base * p;
        assert base * (p - 1.0) >= 0.0;
      }
    }
    if base <= 4.0 {
      assert Pow2(0) == 1 && Pow2(1) == 2;
      assert !Longer(base, 1, 5.0, 1.0);
    }
  }
}
