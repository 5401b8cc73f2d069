/** Firing times, policy resolution and the retry ladder. */
module Policy {
  import opened Records

  /** A one-shot is exhausted once it has fired; anything else fires again, and later. */
  function ComputeNext(cal: Calendar, rule: Rule, tz: string, from: int): (next: Option<int>)
    ensures next.None? <==> rule.Once?
    ensures StrictlyLater(cal) && next.Some? ==> from < next.value
  {
    match rule
    case Cron(expr) => Some(cal(expr, tz, from))
    case Interval(ms) => Some(from + ms)
    case Once(_) => None
  }

  /** A schedule either carries a whole policy or inherits the task's. */
  function EffectiveRetry(task: Task, row: Row): Option<RetryPolicy> {
    if row.retry.Some? then row.retry else task.retry
  }

  function Pow(base: real, k: nat): real {
    if k == 0 then 1.0 else base * Pow(base, k - 1)
  }

  function Multiplier(policy: RetryPolicy): real {
    if policy.multiplier.Some? then policy.multiplier.value else 1.0
  }

  function Backoff(policy: RetryPolicy, retryCount: nat): real {
    policy.backoffMs * Pow(Multiplier(policy), retryCount)
  }

  datatype RetryPlan = RetryPlan(nextRunAt: int, count: nat)

  function PlanRetry(policy: Option<RetryPolicy>, retryCount: nat, now: int): Option<RetryPlan> {
    if policy.None? then None
    else if retryCount >= policy.value.maxAttempts - 1 then None
    else Some(RetryPlan((now as real + Backoff(policy.value, retryCount)).Floor, retryCount + 1))
  }

  /** What the completion of a run writes to its schedule row. */
  datatype Completion = Completion(nextRunAt: Option<int>, lastRunAt: int, failed: bool, retryCount: nat, lastRunId: RunId)

  /** The completion `completeScheduleRun` plans from the row and task snapshots taken at dispatch. */
  function PlanCompletion(cal: Calendar, row: Row, task: Task, run: RunId, outcome: Outcome, finishedAt: int, retry: bool := true): Completion {
    var plan := if retry && outcome == Failed then PlanRetry(EffectiveRetry(task, row), row.retryCount, finishedAt) else None;
    if plan.Some? then
      Completion(Some(plan.value.nextRunAt), finishedAt, false, plan.value.count, run)
    else
      Completion(ComputeNext(cal, row.rule, row.tz, finishedAt), finishedAt, outcome == Failed, 0, run)
  }
}
