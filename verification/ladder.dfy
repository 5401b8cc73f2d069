/** The retry ladder: how many attempts a failing schedule gets, how far apart, and what they count for. */
module Ladder {
  import opened Records
  import opened Policy
  import opened Store
  import Alerts

  /** A run of the schedule that ends in failure, and when. */
  datatype Failure = Failure(run: RunId, at: int)

  /** The row after these runs of the schedule, one after the other, each dispatched from the row the one before left. */
  function AfterFailures(cal: Calendar, row: Row, task: Task, fs: seq<Failure>): Row {
    if fs == [] then row
    else
      var before := AfterFailures(cal, row, task, fs[..|fs| - 1]);
      var f := fs[|fs| - 1];
      RowAfter(before, PlanCompletion(cal, before, task, f.run, Failed, f.at))
  }

  /** How many attempts one ladder has. */
  function Attempts(task: Task, row: Row): (m: nat)
    requires EffectiveRetry(task, row).Some? ==> EffectiveRetry(task, row).value.Valid()
    ensures m >= 1
    ensures row.retry.Some? ==> m == row.retry.value.maxAttempts
    ensures row.retry.None? ==> m == if task.retry.Some? then task.retry.value.maxAttempts else 1
  {
    if EffectiveRetry(task, row).Some? then EffectiveRetry(task, row).value.maxAttempts else 1
  }

  /**
   * The ladder is exact. Under a policy with m attempts, n failures in a row, from no retry pending, are
   * n / m exhausted ladders, each counted as one failure, and n % m consumed retries. A failure that does
   * not exhaust its ladder schedules the next attempt one backoff later, the one that does falls back to
   * the firing rule.
   */
  lemma {:induction false} LadderExact(cal: Calendar, row: Row, task: Task, fs: seq<Failure>)
    requires EffectiveRetry(task, row).Some? ==> EffectiveRetry(task, row).value.Valid()
    requires row.retryCount == 0
    ensures var m, after := Attempts(task, row), AfterFailures(cal, row, task, fs);
            && after.retryCount == |fs| % m
            && after.failCount == row.failCount + |fs| / m
            && (|fs| > 0 ==>
                  var last := fs[|fs| - 1];
                  && after.lastRunId == Some(last.run) && after.lastRunAt == Some(last.at)
                  && after.nextRunAt ==
                     if |fs| % m == 0 then ComputeNext(cal, row.rule, row.tz, last.at)
                     else Some((last.at as real + Backoff(EffectiveRetry(task, row).value, |fs| % m - 1)).Floor))
    ensures AfterFailures(cal, row, task, fs).retry == row.retry && AfterFailures(cal, row, task, fs).rule == row.rule
    ensures AfterFailures(cal, row, task, fs).tz == row.tz
    decreases |fs|
  {
    if fs != [] {
      var n, m := |fs| - 1, Attempts(task, row);
      LadderExact(cal, row, task, fs[..n]);
      NextCount(n, m);
    }
  }

  /** The terminal writes of these runs: a failure with a retry pending does not notify. */
  function FinishesOf(cal: Calendar, row: Row, task: Task, fs: seq<Failure>): (r: seq<Alerts.Finish>)
    ensures |r| == |fs|
  {
    if fs == [] then []
    else
      var n := |fs| - 1;
      var before := AfterFailures(cal, row, task, fs[..n]);
      FinishesOf(cal, row, task, fs[..n])
      + [Alerts.Finish(row.taskName, Failed, PlanRetry(EffectiveRetry(task, before), before.retryCount, fs[n].at).None?)]
  }

  /** Of every m failures in a row only the last one notifies. */
  lemma {:induction false} OnlyTheLastNotifies(cal: Calendar, row: Row, task: Task, fs: seq<Failure>, k: nat)
    requires EffectiveRetry(task, row).Some? ==> EffectiveRetry(task, row).value.Valid()
    requires row.retryCount == 0 && k < |fs|
    ensures FinishesOf(cal, row, task, fs)[k].notify <==> (k + 1) % Attempts(task, row) == 0
    decreases |fs|
  {
    if k < |fs| - 1 {
      OnlyTheLastNotifies(cal, row, task, fs[..|fs| - 1], k);
    } else {
      LastNotifies(cal, row, task, fs);
    }
  }

  /** A ladder is one incident: the streak of the task grows by one for every m failures in a row. */
  lemma {:induction false} LadderIsOneIncident(cal: Calendar, row: Row, task: Task, fs: seq<Failure>)
    requires EffectiveRetry(task, row).Some? ==> EffectiveRetry(task, row).value.Valid()
    requires row.retryCount == 0
    ensures Alerts.Streak(FinishesOf(cal, row, task, fs), row.taskName) == |fs| / Attempts(task, row)
    decreases |fs|
  {
    if fs != [] {
      LadderIsOneIncident(cal, row, task, fs[..|fs| - 1]);
      LastNotifies(cal, row, task, fs);
      var before, finishes := FinishesOf(cal, row, task, fs[..|fs| - 1]), FinishesOf(cal, row, task, fs);
      assert finishes == before + [finishes[|fs| - 1]];
      Alerts.StreakNext(before, finishes[|fs| - 1], row.taskName);
    }
  }

  lemma LastNotifies(cal: Calendar, row: Row, task: Task, fs: seq<Failure>)
    requires EffectiveRetry(task, row).Some? ==> EffectiveRetry(task, row).value.Valid()
    requires row.retryCount == 0 && fs != []
    ensures var m, n, last := Attempts(task, row), |fs| - 1, FinishesOf(cal, row, task, fs)[|fs| - 1];
            && last.task == row.taskName && last.outcome == Failed && (last.notify <==> |fs| % m == 0)
            && |fs| / m == n / m + (if last.notify then 1 else 0)
  {
    LadderExact(cal, row, task, fs[..|fs| - 1]);
    NextCount(|fs| - 1, Attempts(task, row));
  }

  lemma NextCount(n: nat, m: nat)
    requires m >= 1
    ensures n % m < m - 1 ==> (n + 1) % m == n % m + 1 && (n + 1) / m == n / m
    ensures n % m == m - 1 ==> (n + 1) % m == 0 && (n + 1) / m == n / m + 1
  {
    var q, r := n / m, n % m;
    assert n == q * m + r;
    if r < m - 1 {
      DivisionIs(n + 1, m, q, r + 1);
    } else {
      assert n + 1 == (q + 1) * m + 0;
      DivisionIs(n + 1, m, q + 1, 0);
    }
  }

  lemma DivisionIs(n: nat, m: nat, q: nat, r: nat)
    requires m >= 1 && n == q * m + r && r < m
    ensures n / m == q && n % m == r
  {
    var q', r' := n / m, n % m;
    assert n == m * q' + r';
    Uniquely(m, q, r, q', r');
  }

  lemma Uniquely(m: nat, q: nat, r: nat, q': nat, r': nat)
    requires r < m && r' < m && q * m + r == m * q' + r'
    ensures q == q' && r == r'
  {
    TimesAtLeast(q - q', m);
    assert (q - q') * m == q * m - m * q';
  }

  lemma TimesAtLeast(k: int, m: nat)
    ensures k >= 1 ==> k * m >= m
    ensures k <= -1 ==> k * m <= 0 - m
  {
    if k >= 1 {
      assert k * m == (k - 1) * m + m;
    } else if k <= -1 {
      assert k * m == (k + 1) * m - m;
    }
  }

  /** The waits of a ladder, one after the other: the first is the configured delay, and each is the one before times the factor. */
  function Wait(policy: RetryPolicy, k: nat): real {
    if k == 0 then policy.backoffMs
    else (if policy.multiplier.Some? then policy.multiplier.value else 1.0) * Wait(policy, k - 1)
  }

  /** The backoff after `k` consumed retries is the wait of the recurrence. */
  lemma {:induction false} BackoffIsWait(policy: RetryPolicy, k: nat)
    ensures Backoff(policy, k) == Wait(policy, k)
    ensures Backoff(policy, 0) == policy.backoffMs
    ensures Backoff(policy, k + 1) == (if policy.multiplier.Some? then policy.multiplier.value else 1.0) * Backoff(policy, k)
  {
    if k > 0 { BackoffIsWait(policy, k - 1); }
    Swap(policy.backoffMs, Multiplier(policy), Pow(Multiplier(policy), k));
  }

  lemma Swap(a: real, b: real, c: real)
    ensures a * (b * c) == b * (a * c)
  {
  }

  /** Waits never shrink. */
  lemma {:induction false} WaitsGrow(policy: RetryPolicy, k: nat)
    requires policy.Valid()
    ensures 0.0 <= policy.backoffMs <= Wait(policy, k) <= Wait(policy, k + 1)
  {
    if k > 0 { WaitsGrow(policy, k - 1); }
    var w, q := Wait(policy, k), if policy.multiplier.Some? then policy.multiplier.value else 1.0;
    assert w >= 0.0 && q >= 1.0;
    assert q * w - w == (q - 1.0) * w;
  }

  lemma BackoffsGrow(policy: RetryPolicy, k: nat)
    requires policy.Valid()
    ensures 0.0 <= policy.backoffMs <= Backoff(policy, k) <= Backoff(policy, k + 1)
  {
    WaitsGrow(policy, k);
    BackoffIsWait(policy, k);
    BackoffIsWait(policy, k + 1);
  }

  lemma PendingSlot(cal: Calendar, row: Row, task: Task, fs: seq<Failure>, policy: RetryPolicy, k: nat)
    requires EffectiveRetry(task, row) == Some(policy) && policy.Valid() && row.retryCount == 0
    requires |fs| % Attempts(task, row) == k + 1
    ensures fs != [] && AfterFailures(cal, row, task, fs).nextRunAt == Some((fs[|fs| - 1].at as real + Backoff(policy, k)).Floor)
  {
    LadderExact(cal, row, task, fs);
  }

  /**
   * Inside one ladder a pending attempt comes one wait of the recurrence after the last failure: `backoffMs` after the
   * first one.
   */
  lemma LadderWaits(cal: Calendar, row: Row, task: Task, fs: seq<Failure>, policy: RetryPolicy, k: nat)
    requires Some(policy) == (if row.retry.Some? then row.retry else task.retry) && policy.Valid() && row.retryCount == 0
    requires |fs| % policy.maxAttempts == k + 1
    ensures fs != [] && AfterFailures(cal, row, task, fs).nextRunAt == Some((fs[|fs| - 1].at as real + Wait(policy, k)).Floor)
  {
    PendingSlot(cal, row, task, fs, policy, k);
    BackoffIsWait(policy, k);
  }

  /** After one more failure that does not exhaust the ladder, the wait is `multiplier` times the one before. */
  lemma WaitsAreMultiplied(cal: Calendar, row: Row, task: Task, fs: seq<Failure>, policy: RetryPolicy, k: nat)
    requires Some(policy) == (if row.retry.Some? then row.retry else task.retry) && policy.Valid() && row.retryCount == 0
    requires |fs| % policy.maxAttempts == k + 2
    ensures fs != []
    ensures var q := if policy.multiplier.Some? then policy.multiplier.value else 1.0;
            AfterFailures(cal, row, task, fs).nextRunAt == Some((fs[|fs| - 1].at as real + q * Wait(policy, k)).Floor)
  {
    LadderWaits(cal, row, task, fs, policy, k + 1);
    NextWait(AfterFailures(cal, row, task, fs).nextRunAt, fs[|fs| - 1].at, policy, k);
  }

  lemma NextWait(slot: Option<int>, at: int, policy: RetryPolicy, k: nat)
    requires slot == Some((at as real + Wait(policy, k + 1)).Floor)
    ensures slot == Some((at as real + (if policy.multiplier.Some? then policy.multiplier.value else 1.0) * Wait(policy, k)).Floor)
  {
  }

  lemma FirstFactor(policy: RetryPolicy)
    ensures Multiplier(policy) == if policy.multiplier.Some? then policy.multiplier.value else 1.0
  {
  }

  /** The waiting time of the first `n` retries. */
  function TotalBackoff(policy: RetryPolicy, n: nat): real {
    if n == 0 then 0.0 else TotalBackoff(policy, n - 1) + Backoff(policy, n - 1)
  }

  lemma {:induction false} TotalIs(policy: RetryPolicy, n: nat)
    ensures (Multiplier(policy) - 1.0) * TotalBackoff(policy, n) == policy.backoffMs * (Pow(Multiplier(policy), n) - 1.0)
  {
    if n > 0 {
      TotalIs(policy, n - 1);
      var q := Multiplier(policy);
      GeometricStep(q, policy.backoffMs, Pow(q, n - 1), Pow(q, n), TotalBackoff(policy, n - 1), TotalBackoff(policy, n));
    }
  }

  /** The waiting times of a ladder form a geometric sum with the configured multiplier, or 1. */
  lemma BackoffTotal(policy: RetryPolicy, n: nat)
    ensures var q := if policy.multiplier.Some? then policy.multiplier.value else 1.0;
            (q - 1.0) * TotalBackoff(policy, n) == policy.backoffMs * (Pow(q, n) - 1.0)
  {
    TotalIs(policy, n);
    FirstFactor(policy);
  }

  /** Without growth the waiting times are all the same. */
  lemma {:induction false} FixedBackoffTotal(policy: RetryPolicy, n: nat)
    requires policy.multiplier.None? || policy.multiplier == Some(1.0)
    ensures TotalBackoff(policy, n) == policy.backoffMs * n as real
  {
    if n > 0 {
      FixedBackoffTotal(policy, n - 1);
      SameWaits(policy, n - 1);
      BackoffIsWait(policy, n - 1);
    }
  }

  lemma {:induction false} SameWaits(policy: RetryPolicy, k: nat)
    requires policy.multiplier.None? || policy.multiplier == Some(1.0)
    ensures Wait(policy, k) == policy.backoffMs
  {
    if k > 0 { SameWaits(policy, k - 1); }
  }

  lemma GeometricStep(q: real, b: real, x: real, y: real, total: real, sum: real)
    requires (q - 1.0) * total == b * (x - 1.0) && y == q * x && sum == total + b * x
    ensures (q - 1.0) * sum == b * (y - 1.0)
  {
    assert (q - 1.0) * (b * x) == b * (q * x - x);
    assert b * (x - 1.0) + b * (q * x - x) == b * (q * x - 1.0);
  }
}
