/**
 * Retry links. A pending retry points at the failed attempt before it, and every attempt can be followed
 * back to a first one, through crashes, reaped locks and overlapping finishes alike.
 */
module RetryChain {
  import opened Records
  import opened Policy
  import opened Store
  import opened Protocol
  import opened Finish
  import opened Failures

  type Runs = map<RunId, Run>

  /** `q` is attempt `k` of the schedule, and a failed verdict was written for it. */
  predicate FailedAttempt(runs: Runs, id: Id, q: RunId, k: nat) {
    q in runs && runs[q].scheduleId == id && runs[q].attempt == k && runs[q].failed
  }

  predicate RowLinked(runs: Runs, id: Id, row: Row) {
    row.retryCount > 0 ==> row.lastRunId.Some? && FailedAttempt(runs, id, row.lastRunId.value, row.retryCount)
  }

  predicate RunLinked(runs: Runs, run: Run) {
    && run.attempt >= 1
    && (run.attempt == 1 ==> run.retryOf == None)
    && (run.attempt > 1 ==> run.retryOf.Some? && FailedAttempt(runs, run.scheduleId, run.retryOf.value, run.attempt - 1))
  }

  /** The run row written for an activation whose row snapshot is `row`. */
  predicate Attempts(runs: Runs, id: Id, row: Row, r: RunId) {
    r in runs && runs[r].scheduleId == id && runs[r].attempt == row.retryCount + 1
  }

  predicate JobLinked(runs: Runs, r: RunId, j: Job) {
    && RowLinked(runs, j.id, j.row)
    && (if j.phase.Claimed? then r !in runs else Attempts(runs, j.id, j.row, r))
    && (j.phase.Written? && j.phase.outcome == Failed ==> runs[r].failed)
  }

  ghost predicate RunsLinked(runs: Runs) { forall r :: r in runs ==> RunLinked(runs, runs[r]) }

  ghost predicate RowsLinked(runs: Runs, rows: Rows) { forall i :: i in rows ==> RowLinked(runs, i, rows[i]) }

  ghost predicate JobsLinked(runs: Runs, jobs: map<RunId, Job>) { forall r :: r in jobs ==> JobLinked(runs, r, jobs[r]) }

  ghost predicate AsyncLinked(runs: Runs, ars: map<RunId, AsyncRun>) {
    forall r :: r in ars ==> Attempts(runs, ars[r].id, ars[r].row, r)
  }

  predicate PassLinked(runs: Runs, pass: Option<Pass>) {
    pass.Some? && pass.value.cur.Finished? && pass.value.cur.outcome == Failed ==>
      pass.value.cur.r in runs && runs[pass.value.cur.r].failed
  }

  ghost predicate TickLinked(runs: Runs, tick: Option<Tick>) {
    tick.Some? ==>
      && (forall k :: 0 <= k < |tick.value.todo| ==> RowLinked(runs, tick.value.todo[k].id, tick.value.todo[k].row))
      && (forall k :: 0 <= k < |tick.value.ready| ==> RowLinked(runs, tick.value.ready[k].id, tick.value.ready[k].row))
  }

  ghost predicate Linked(st: Sys) {
    && RunsLinked(st.db.runs)
    && RowsLinked(st.db.runs, st.db.rows)
    && JobsLinked(st.db.runs, st.work.jobs)
    && AsyncLinked(st.db.runs, st.poll.asyncRuns)
    && PassLinked(st.db.runs, st.poll.pass)
    && TickLinked(st.db.runs, st.tick)
  }

  /** Run rows are only added, and only their status changes. */
  ghost predicate Grows(runs: Runs, runs': Runs) {
    forall r :: r in runs ==>
      && r in runs' && runs'[r].scheduleId == runs[r].scheduleId && runs'[r].attempt == runs[r].attempt
      && runs'[r].retryOf == runs[r].retryOf && (runs[r].failed ==> runs'[r].failed)
  }

  lemma GrowsKeepsRows(runs: Runs, runs': Runs, rows: Rows)
    requires Grows(runs, runs') && RowsLinked(runs, rows)
    ensures RowsLinked(runs', rows)
  {
  }

  lemma GrowsKeepsTick(runs: Runs, runs': Runs, tick: Option<Tick>)
    requires Grows(runs, runs') && TickLinked(runs, tick)
    ensures TickLinked(runs', tick)
  {
  }

  lemma GrowsKeepsPoll(runs: Runs, runs': Runs, poll: Polling)
    requires Grows(runs, runs') && AsyncLinked(runs, poll.asyncRuns) && PassLinked(runs, poll.pass)
    ensures AsyncLinked(runs', poll.asyncRuns) && PassLinked(runs', poll.pass)
  {
  }

  /** A new run may be added only for the job that stands before its run row. */
  lemma GrowsKeepsJobs(runs: Runs, runs': Runs, jobs: map<RunId, Job>)
    requires Grows(runs, runs') && JobsLinked(runs, jobs) && runs'.Keys == runs.Keys
    ensures JobsLinked(runs', jobs)
  {
  }

  lemma GrowsKeepsRuns(runs: Runs, runs': Runs)
    requires Grows(runs, runs') && RunsLinked(runs) && runs'.Keys == runs.Keys
    ensures RunsLinked(runs')
  {
    forall r | r in runs' ensures RunLinked(runs', runs'[r]) {
      assert RunLinked(runs, runs[r]);
    }
  }

  /** Only statuses and verdicts changed among the run rows. */
  lemma GrowsKeepsLinked(st: Sys, runs': Runs)
    requires Linked(st) && Grows(st.db.runs, runs') && runs'.Keys == st.db.runs.Keys
    ensures Linked(st.(db := st.db.(runs := runs')))
  {
    GrowsKeepsRuns(st.db.runs, runs');
    GrowsKeepsRows(st.db.runs, runs', st.db.rows);
    GrowsKeepsTick(st.db.runs, runs', st.tick);
    GrowsKeepsPoll(st.db.runs, runs', st.poll);
    GrowsKeepsJobs(st.db.runs, runs', st.work.jobs);
  }

  lemma SetStatusGrows(runs: Runs, r: RunId, status: Status)
    ensures Grows(runs, SetStatus(runs, r, status)) && SetStatus(runs, r, status).Keys == runs.Keys
  {
  }

  lemma FinishRunGrows(runs: Runs, r: RunId, outcome: Outcome)
    ensures Grows(runs, FinishRun(runs, r, outcome)) && FinishRun(runs, r, outcome).Keys == runs.Keys
  {
  }

  lemma CreateLinked(st: Sys, r: RunId)
    requires Linked(st) && CanCreateRun(st, r)
    ensures Linked(DoCreateRun(st, r))
  {
    var j := st.work.jobs[r];
    assert JobLinked(st.db.runs, r, j);
    var runs' := DoCreateRun(st, r).db.runs;
    assert Grows(st.db.runs, runs');
    GrowsKeepsRows(st.db.runs, runs', st.db.rows);
    GrowsKeepsTick(st.db.runs, runs', st.tick);
    GrowsKeepsPoll(st.db.runs, runs', st.poll);
    JobCreated(st.db.runs, runs', st.work.jobs, r);
  }

  lemma JobCreated(runs: Runs, runs': Runs, jobs: map<RunId, Job>, r: RunId)
    requires JobsLinked(runs, jobs) && Grows(runs, runs') && runs'.Keys == runs.Keys + {r}
    requires r in jobs && jobs[r].phase.Claimed? && Attempts(runs', jobs[r].id, jobs[r].row, r)
    ensures JobsLinked(runs', jobs[r := jobs[r].(phase := Started)])
  {
  }

  lemma EnqueueLinked(st: Sys, r: RunId)
    requires Linked(st) && CanEnqueue(st, r)
    ensures Linked(DoEnqueue(st, r))
  {
    assert JobLinked(st.db.runs, r, st.work.jobs[r]);
    SetStatusGrows(st.db.runs, r, Queued);
    GrowsKeepsLinked(st, SetStatus(st.db.runs, r, Queued));
  }

  lemma JobWriteLinked(st: Sys, r: RunId)
    requires Linked(st) && CanJobWrite(st, r)
    ensures Linked(DoJobWrite(st, r))
  {
    assert JobLinked(st.db.runs, r, st.work.jobs[r]);
    FinishRunGrows(st.db.runs, r, st.work.jobs[r].phase.outcome);
    GrowsKeepsLinked(st, FinishRun(st.db.runs, r, st.work.jobs[r].phase.outcome));
  }

  /** A completion plans a retry only for a failed attempt, and then points at it. */
  lemma CompletionLinked(runs: Runs, rows: Rows, cal: Calendar, id: Id, row: Row, task: Task, r: RunId, outcome: Outcome, at: int, retry: bool)
    requires RowsLinked(runs, rows) && Attempts(runs, id, row, r) && (outcome == Failed ==> runs[r].failed)
    ensures RowsLinked(runs, Complete(rows, id, PlanCompletion(cal, row, task, r, outcome, at, retry)))
  {
  }

  lemma JobCompleteLinked(p: Params, st: Sys, r: RunId)
    requires Linked(st) && CanJobComplete(st, r)
    ensures Linked(DoJobComplete(p, st, r))
  {
    var j := st.work.jobs[r];
    assert JobLinked(st.db.runs, r, j);
    CompletionLinked(st.db.runs, st.db.rows, p.cal, j.id, j.row, j.task, r, j.phase.outcome, j.phase.at, j.phase.retry);
  }

  lemma RunStepLinked(p: Params, st: Sys, j: RunStep)
    requires Linked(st) && CanStepRun(st, j)
    ensures Linked(DoStepRun(p, st, j))
  {
    match j
    case CreateRun(r) => CreateLinked(st, r);
    case Settle(r, _) => assert JobLinked(st.db.runs, r, st.work.jobs[r]);
    case Enqueue(r) => EnqueueLinked(st, r);
    case JobWrite(r) => JobWriteLinked(st, r);
    case JobComplete(r) => JobCompleteLinked(p, st, r);
    case Heartbeat(r) => assert JobLinked(st.db.runs, r, st.work.jobs[r]);
  }

  /** A pass that has not finished its run changes neither the identity of any accepted run nor what was written. */
  lemma PollKept(runs: Runs, poll: Polling, ps: Pass, r: RunId, ar: AsyncRun)
    requires AsyncLinked(runs, poll.asyncRuns) && r in poll.asyncRuns && !ps.cur.Finished?
    requires ar.id == poll.asyncRuns[r].id && ar.row == poll.asyncRuns[r].row
    ensures AsyncLinked(runs, WithPass(poll, ps, r, ar).asyncRuns) && PassLinked(runs, WithPass(poll, ps, r, ar).pass)
  {
    assert Attempts(runs, poll.asyncRuns[r].id, poll.asyncRuns[r].row, r);
  }

  lemma PassVisitLinked(p: Params, st: Sys)
    requires Linked(st) && CanPassVisit(st)
    ensures Linked(DoPassVisit(p, st))
  {
    var ps := st.poll.pass.value;
    var r := ps.todo[0];
    var ar := st.poll.asyncRuns[r].(seen := ps.at);
    PollKept(st.db.runs, st.poll, Move(ps), r, ar);
    PollKept(st.db.runs, st.poll, ps.(cur := Signalling(r)), r, Decide(Signal(ar), st.clock));
    PollKept(st.db.runs, st.poll, ps.(cur := Asking(r)), r, ar.(asked := Some(ps.at)));
  }

  lemma StartFinishLinked(runs: Runs, poll: Polling, clock: int, r: RunId, outcome: Outcome)
    requires AsyncLinked(runs, poll.asyncRuns) && poll.pass.Some? && |poll.pass.value.todo| > 0 && r in poll.asyncRuns
    ensures AsyncLinked(runs, StartFinish(poll, clock, r, outcome).asyncRuns)
    ensures PassLinked(runs, StartFinish(poll, clock, r, outcome).pass)
  {
    var ps := poll.pass.value;
    var ar := poll.asyncRuns[r];
    PollKept(runs, poll, Move(ps), r, ar);
    PollKept(runs, poll, ps.(cur := Finishing(r, outcome, clock)), r,
             Decide(ar, clock).(finishing := true, claims := ar.claims + 1));
  }

  lemma PassStepLinked(p: Params, st: Sys, s: PassStep)
    requires Linked(st) && CanStepPass(st, s)
    ensures Linked(DoStepPass(p, st, s))
  {
    match s
    case PassBegin(_, _) =>
    case PassVisit => PassVisitLinked(p, st);
    case PassSignalled => StartFinishLinked(st.db.runs, st.poll, st.clock, st.poll.pass.value.cur.r, Failed);
    case PassAnswer(answer) => PassAnswerLinked(st, answer);
    case PassWrite => PassWriteLinked(st);
    case PassComplete => PassCompleteLinked(p, st);
    case PassEnd =>
  }

  lemma PassAnswerLinked(st: Sys, answer: Answer)
    requires Linked(st) && CanPassAnswer(st, answer)
    ensures Linked(DoPassAnswer(st, answer))
  {
    if answer.InProgress? {
      var r := st.poll.pass.value.cur.r;
      SetStatusGrows(st.db.runs, r, answer.status);
      GrowsKeepsLinked(st, SetStatus(st.db.runs, r, answer.status));
    } else {
      StartFinishLinked(st.db.runs, st.poll, st.clock, st.poll.pass.value.cur.r, Failed);
      StartFinishLinked(st.db.runs, st.poll, st.clock, st.poll.pass.value.cur.r, Succeeded);
    }
  }

  lemma PassWriteLinked(st: Sys)
    requires Linked(st) && CanPassWrite(st)
    ensures Linked(DoPassWrite(st))
  {
    var c := st.poll.pass.value.cur;
    FinishRunGrows(st.db.runs, c.r, c.outcome);
    GrowsKeepsLinked(st, FinishRun(st.db.runs, c.r, c.outcome));
  }

  lemma PassCompleteLinked(p: Params, st: Sys)
    requires Linked(st) && CanPassComplete(st)
    ensures Linked(DoPassComplete(p, st))
  {
    var c := st.poll.pass.value.cur;
    var ar := st.poll.asyncRuns[c.r];
    CompletionLinked(st.db.runs, st.db.rows, p.cal, ar.id, ar.row, ar.task, c.r, c.outcome, c.at, true);
  }

  lemma CancelStepLinked(p: Params, st: Sys, c: CancelStep)
    requires Linked(st) && CanStepCancel(st, c)
    ensures Linked(DoStepCancel(p, st, c))
  {
    match c
    case CancelBegin(r) =>
    case CancelWrite(r) =>
      FinishRunGrows(st.db.runs, r, Cancelled);
      GrowsKeepsLinked(st, FinishRun(st.db.runs, r, Cancelled));
    case CancelComplete(r) =>
      var ar := st.poll.asyncRuns[r];
      CompletionLinked(st.db.runs, st.db.rows, p.cal, ar.id, ar.row, ar.task, r, Cancelled, st.poll.cancels[r].at, true);
  }

  lemma TickStepLinked(st: Sys, t: TickStep)
    requires WellFormed(st) && Linked(st) && CanStepTick(st, t) && Reads(st, OfTick(t))
    ensures Linked(DoStepTick(st, t))
  {
    match t
    case TickBegin(now, due) => DueLinked(st.db.runs, st.db.rows, now, due);
    case TickCheck(k) =>
    case Dispatch(k) => DispatchLinked(st, k);
    case TickDrop(k) =>
    case TickEnd =>
  }

  lemma DueLinked(runs: Runs, rows: Rows, now: int, due: seq<Entry>)
    requires RowsLinked(runs, rows) && IsDueList(rows, now, due)
    ensures forall k :: 0 <= k < |due| ==> RowLinked(runs, due[k].id, due[k].row)
  {
  }

  lemma DispatchLinked(st: Sys, k: nat)
    requires WellFormed(st) && Linked(st) && CanDispatch(st, k)
    ensures Linked(DoDispatch(st, k))
  {
    assert RowLinked(st.db.runs, st.tick.value.ready[k].id, st.tick.value.ready[k].row);
  }

  lemma StoreLinked(p: Params, st: Sys, o: StoreStep)
    requires Linked(st) && CanStepStore(st, o)
    ensures Linked(DoStepStore(p, st, o))
  {
  }

  lemma CrashLinked(st: Sys, x: CrashStep)
    requires Linked(st) && CanStepCrash(st, x)
    ensures Linked(DoStepCrash(st, x))
  {
    match x
    case Crash =>
    case RecoverRun(r) =>
      FinishRunGrows(st.db.runs, r, Cancelled);
      GrowsKeepsLinked(st, FinishRun(st.db.runs, r, Cancelled));
    case RecoverLocks =>
  }

  lemma FreezeLinked(p: Params, st: Sys, f: FreezeStep)
    requires Linked(st) && CanStepFreeze(st, f)
    ensures Linked(DoStepFreeze(p, st, f))
  {
  }

  lemma LinkedAlong(p: Params, h: History, n: nat)
    requires IsRun(p, h) && n < |h.states|
    ensures Linked(h.states[n])
  {
    if n > 0 {
      LinkedAlong(p, h, n - 1);
      WellFormedAlong(p, h, n - 1);
      StepOf(p, h, n - 1);
      LinkedStep(p, h.states[n - 1], h.steps[n - 1]);
    }
  }

  lemma LinkedStep(p: Params, st: Sys, step: Step)
    requires WellFormed(st) && Linked(st) && Can(st, step) && Reads(st, step)
    ensures Linked(Do(p, st, step))
  {
    match step
    case Advance(_) =>
    case OfTick(t) => TickStepLinked(st, t);
    case OfRun(j) => RunStepLinked(p, st, j);
    case OfPass(s) => PassStepLinked(p, st, s);
    case OfCancel(c) => CancelStepLinked(p, st, c);
    case OfFreeze(f) => FreezeLinked(p, st, f);
    case OfStore(o) => StoreLinked(p, st, o);
    case OfCrash(x) => CrashLinked(st, x);
  }

  /** Follows `retryOf` for `k` steps. */
  function Follow(runs: Runs, r: RunId, k: nat): Option<RunId>
    decreases k
  {
    if k == 0 then Some(r)
    else if r in runs && runs[r].retryOf.Some? then Follow(runs, runs[r].retryOf.value, k - 1)
    else None
  }

  lemma {:induction false} FollowToFirst(runs: Runs, r: RunId, k: nat)
    requires RunsLinked(runs) && r in runs && k < runs[r].attempt
    ensures Follow(runs, r, k).Some?
    ensures var q := Follow(runs, r, k).value;
            && q in runs && runs[q].scheduleId == runs[r].scheduleId && runs[q].attempt == runs[r].attempt - k
            && (k > 0 ==> runs[q].failed)
    decreases k
  {
    assert RunLinked(runs, runs[r]);
    if k > 0 {
      FollowToFirst(runs, runs[r].retryOf.value, k - 1);
    }
  }

  /** The status of a run that has failed: failed, or cancelled when a late cancel was written after the verdict. */
  ghost predicate FailedOrHidden(h: History, n: nat, r: RunId)
    requires n < |h.states| && |h.states| == |h.steps| + 1
  {
    && r in h.states[n].db.runs
    && h.states[n].db.runs[r].status == Ended(if Overwritten(h, n, r) then Cancelled else Failed)
    && (Overwritten(h, n, r) ==> LateBefore(h, n, r))
  }

  /**
   * In every reachable state a pending retry (`retryCount` k > 0) sits on a row whose last run is its k-th attempt.
   * That run got a failed verdict, and has that status if and only if no late cancel was written after it.
   */
  lemma PendingRetry(p: Params, h: History, n: nat, id: Id)
    requires IsRun(p, h) && n < |h.states| && id in h.states[n].db.rows && h.states[n].db.rows[id].retryCount > 0
    ensures var row := h.states[n].db.rows[id];
            && row.lastRunId.Some? && FailedAttempt(h.states[n].db.runs, id, row.lastRunId.value, row.retryCount)
            && FailedOrHidden(h, n, row.lastRunId.value)
  {
    LinkedAlong(p, h, n);
    assert RowLinked(h.states[n].db.runs, id, h.states[n].db.rows[id]);
    FailedVerdictStands(p, h, n, h.states[n].db.rows[id].lastRunId.value);
  }

  /**
   * In every reachable state a run with attempt k reaches, in exactly k - 1 steps along `retryOf`, a first
   * attempt of the same schedule that has no predecessor. Every run passed on the way got a failed verdict, and has
   * that status if and only if no late cancel was written after it.
   */
  lemma RetryChain(p: Params, h: History, n: nat, r: RunId)
    requires IsRun(p, h) && n < |h.states| && r in h.states[n].db.runs
    ensures var runs := h.states[n].db.runs;
            && runs[r].attempt >= 1
            && (forall k: nat :: 0 < k < runs[r].attempt ==>
                  && Follow(runs, r, k).Some? && FailedAttempt(runs, runs[r].scheduleId, Follow(runs, r, k).value, runs[r].attempt - k)
                  && FailedOrHidden(h, n, Follow(runs, r, k).value))
            && Follow(runs, r, runs[r].attempt - 1).Some?
            && var q := Follow(runs, r, runs[r].attempt - 1).value;
               q in runs && runs[q].scheduleId == runs[r].scheduleId && runs[q].attempt == 1 && runs[q].retryOf == None
  {
    var runs := h.states[n].db.runs;
    LinkedAlong(p, h, n);
    ChainOf(runs, r);
    forall k: nat | 0 < k < runs[r].attempt ensures FailedOrHidden(h, n, Follow(runs, r, k).value) {
      FailedVerdictStands(p, h, n, Follow(runs, r, k).value);
    }
  }

  lemma ChainOf(runs: Runs, r: RunId)
    requires RunsLinked(runs) && r in runs
    ensures runs[r].attempt >= 1
    ensures forall k: nat :: 0 < k < runs[r].attempt ==>
              Follow(runs, r, k).Some? && FailedAttempt(runs, runs[r].scheduleId, Follow(runs, r, k).value, runs[r].attempt - k)
    ensures Follow(runs, r, runs[r].attempt - 1).Some?
    ensures var q := Follow(runs, r, runs[r].attempt - 1).value;
            q in runs && runs[q].scheduleId == runs[r].scheduleId && runs[q].attempt == 1 && runs[q].retryOf == None
  {
    assert RunLinked(runs, runs[r]);
    forall k: nat | 0 < k < runs[r].attempt
      ensures Follow(runs, r, k).Some? && FailedAttempt(runs, runs[r].scheduleId, Follow(runs, r, k).value, runs[r].attempt - k)
    {
      FollowToFirst(runs, r, k);
    }
    FollowToFirst(runs, r, runs[r].attempt - 1);
    assert RunLinked(runs, runs[Follow(runs, r, runs[r].attempt - 1).value]);
  }
}
