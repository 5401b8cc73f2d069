/** The records the scheduler stores: tasks, schedule rows and runs. */
module Records {
  datatype Option<+T> = None | Some(value: T)

  type Id = string
  /** Run ids are random UUIDs; a run id is modelled by the order of its creation, so it is never reused. */
  type RunId = nat

  type Millis = n: int | 0 < n witness 1

  /** A firing rule. */
  datatype Rule = Cron(expr: string) | Interval(ms: Millis) | Once(at: int)

  /** First firing time strictly after a moment, for a cron expression in a time zone. */
  type Calendar = (string, string, int) -> int

  ghost predicate StrictlyLater(cal: Calendar) {
    forall expr, tz, from :: from < cal(expr, tz, from)
  }

  /** A retry policy: total attempts, first delay and growth per consumed retry. */
  datatype RetryPolicy = RetryPolicy(maxAttempts: int, backoffMs: real, multiplier: Option<real>)
  {
    predicate Valid() {
      1 <= maxAttempts && 0.0 <= backoffMs && (multiplier.Some? ==> 1.0 <= multiplier.value)
    }
  }

  /** One schedule row: the firing rule together with its run-time state. */
  datatype Row = Row(
    taskName: string,
    rule: Rule,
    tz: string,
    nextRunAt: Option<int>,
    lastRunAt: Option<int>,
    lockedAt: Option<int>,
    failCount: nat,
    priority: int,
    retry: Option<RetryPolicy>,
    retryCount: nat,
    lastRunId: Option<RunId>,
    paused: bool,
    disabled: bool)
  {
    predicate Locked() { lockedAt.Some? }
  }

  /** The part of a task the engine reads when it dispatches and finishes runs. */
  datatype Task = Task(timeoutMs: Option<int>, retry: Option<RetryPolicy>, paused: bool)

  datatype Outcome = Succeeded | Failed | Cancelled

  datatype Status = Queued | Running | Ended(outcome: Outcome)

  /** One execution attempt. `failed` remembers that a failed verdict was written for it at some point. */
  datatype Run = Run(scheduleId: Id, attempt: nat, retryOf: Option<RunId>, status: Status, failed: bool)

  /** What a runner can answer: a verdict, or an acceptance with or without a place to poll. */
  datatype Reply = Done(outcome: Outcome) | Accept(pollMs: nat, channel: bool) | AcceptWithoutPoll

  predicate Earlier(r: RunId, created: nat) { r < created }
}
