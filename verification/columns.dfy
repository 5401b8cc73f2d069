/**
 * Who writes which column. For every step of the engine and every schedule, what becomes of each column of the row, from
 * the step, the snapshots it goes by and the row before; and the same for the rows of the runs.
 */
module Columns {
  import opened Records
  import opened Store
  import opened Protocol
  import Ladder
  import Locks
  import Policy

  // ---- what the steps go by ----

  /** A run that ends: the snapshots of its dispatch, and its verdict. */
  datatype Ending = Ending(run: RunId, id: Id, row: Row, task: Task, outcome: Outcome, at: int, retry: bool)
  {
    /** The schedule's own policy, or else the task's. */
    function Policy(): Option<RetryPolicy> {
      if row.retry.Some? then row.retry else task.retry
    }

    /** The run has failed, and its ladder has an attempt left. */
    predicate Retries() {
      retry && outcome == Failed && Policy().Some? && row.retryCount + 1 < Policy().value.maxAttempts
    }
  }

  /** The run whose schedule the step completes. */
  function EndingOf(st: Sys, step: Step): Option<Ending> {
    match step
    case OfRun(JobComplete(r)) =>
      if r in st.work.jobs && st.work.jobs[r].phase.Written? then
        var j := st.work.jobs[r];
        Some(Ending(r, j.id, j.row, j.task, j.phase.outcome, j.phase.at, j.phase.retry))
      else None
    case OfPass(PassComplete) =>
      if st.poll.pass.Some? && st.poll.pass.value.cur.Finished? && st.poll.pass.value.cur.r in st.poll.asyncRuns then
        var c := st.poll.pass.value.cur;
        Some(Ending(c.r, st.poll.asyncRuns[c.r].id, st.poll.asyncRuns[c.r].row, st.poll.asyncRuns[c.r].task, c.outcome, c.at, true))
      else None
    case OfCancel(CancelComplete(r)) =>
      if r in st.poll.cancels && r in st.poll.asyncRuns then
        var ar := st.poll.asyncRuns[r];
        Some(Ending(r, ar.id, ar.row, ar.task, Cancelled, st.poll.cancels[r].at, true))
      else None
    case _ => None
  }

  predicate Ends(st: Sys, step: Step, id: Id) {
    EndingOf(st, step).Some? && EndingOf(st, step).value.id == id
  }

  /** The slot a rule gives after a moment. */
  predicate Follows(cal: Calendar, rule: Rule, tz: string, from: int, slot: Option<int>) {
    match rule
    case Cron(expr) => slot == Some(cal(expr, tz, from))
    case Interval(ms) => slot == Some(from + ms)
    case Once(_) => slot == None
  }

  /** The step claims the schedule, for a tick of this time. */
  predicate TakenAt(st: Sys, step: Step, id: Id, now: int) {
    && step.OfTick? && step.t.Dispatch? && st.tick.Some? && step.t.k < |st.tick.value.ready|
    && st.tick.value.ready[step.t.k].id == id && st.tick.value.now == now
  }

  predicate Beats(st: Sys, step: Step, id: Id) {
    step.OfRun? && step.j.Heartbeat? && step.j.r in st.work.jobs && st.work.jobs[step.j.r].id == id
  }

  /** A watchdog pass for which the lock is too old. */
  predicate Expires(p: Params, step: Step, row: Row) {
    step.OfStore? && step.o.ReapPass? && row.lockedAt.Some? && row.lockedAt.value < step.o.at - p.ttl
  }

  /** A resume pass of time `now` comes to the schedule, and found it recurring, as `seen`, without a pending retry. */
  predicate Passes(st: Sys, step: Step, id: Id, seen: Row, now: int) {
    && step.OfFreeze? && step.f.ResumeSkip? && step.f.q in st.freeze.resumes && st.freeze.resumes[step.f.q].now == now
    && st.freeze.resumes[step.f.q].todo != [] && st.freeze.resumes[step.f.q].todo[0] == Entry(id, seen)
    && !seen.rule.Once? && seen.retryCount == 0
  }

  predicate Toggles(step: Step, id: Id) {
    step.OfStore? && step.o.Toggle? && step.o.id == id
  }

  // ---- column by column ----

  /** The terms of a schedule: nothing the engine does changes them. */
  predicate SameTerms(a: Row, b: Row) {
    a.taskName == b.taskName && a.rule == b.rule && a.tz == b.tz && a.priority == b.priority && a.retry == b.retry
  }

  /** The switches: only an operator's edit of this row changes them, to what the edit says. */
  predicate Switches(step: Step, id: Id, a: Row, b: Row) {
    if Toggles(step, id) then b.paused == step.o.pausedFlag && b.disabled == step.o.disabledFlag
    else b.paused == a.paused && b.disabled == a.disabled
  }

  /** The columns the end of a run writes: its record, the retries consumed, the failures, the lock and the next slot. */
  predicate IsEnded(cal: Calendar, e: Ending, a: Row, b: Row) {
    && b.lockedAt == None && b.lastRunAt == Some(e.at) && b.lastRunId == Some(e.run)
    && b.retryCount == (if e.Retries() then e.row.retryCount + 1 else 0)
    && b.failCount == a.failCount + (if e.outcome == Failed && !e.Retries() then 1 else 0)
    && (if e.Retries() then b.nextRunAt == Some((e.at as real + Ladder.Wait(e.Policy().value, e.row.retryCount)).Floor)
        else Follows(cal, e.row.rule, e.row.tz, e.at, b.nextRunAt))
  }

  /** Otherwise the lock is taken by a claim, renewed by a heartbeat while it is held, and released by a watchdog pass or a restart. */
  ghost predicate LockIs(p: Params, st: Sys, step: Step, id: Id, a: Row, b: Row) {
    && (forall now :: TakenAt(st, step, id, now) ==> b.lockedAt == Some(now))
    && (Beats(st, step, id) ==> b.lockedAt == if a.lockedAt.Some? then Some(st.clock) else None)
    && (Expires(p, step, a) || step == OfCrash(RecoverLocks) ==> b.lockedAt == None)
    && (!TakesOrFrees(p, st, step, id, a) ==> b.lockedAt == a.lockedAt)
  }

  ghost predicate TakesOrFrees(p: Params, st: Sys, step: Step, id: Id, a: Row) {
    (exists now :: TakenAt(st, step, id, now)) || Beats(st, step, id) || Expires(p, step, a) || step == OfCrash(RecoverLocks)
  }

  /** The slot is moved by a resume only, to what the rule gives after the time of the resume. */
  ghost predicate SlotIs(p: Params, st: Sys, step: Step, id: Id, a: Row, b: Row) {
    && (forall seen, now :: Passes(st, step, id, seen, now) ==> Follows(p.cal, seen.rule, seen.tz, now, b.nextRunAt))
    && ((forall seen, now :: !Passes(st, step, id, seen, now)) ==> b.nextRunAt == a.nextRunAt)
  }

  /** The record of the last run and the retries stay, and a lock that expires counts as a failure. */
  predicate RecordStays(p: Params, step: Step, a: Row, b: Row) {
    && b.lastRunAt == a.lastRunAt && b.lastRunId == a.lastRunId && b.retryCount == a.retryCount
    && b.failCount == a.failCount + (if Expires(p, step, a) then 1 else 0)
  }

  ghost predicate Accounts(p: Params, st: Sys, step: Step, id: Id, a: Row, b: Row) {
    && SameTerms(a, b) && Switches(step, id, a, b)
    && if Ends(st, step, id) then IsEnded(p.cal, EndingOf(st, step).value, a, b)
       else LockIs(p, st, step, id, a, b) && SlotIs(p, st, step, id, a, b) && RecordStays(p, step, a, b)
  }

  // ---- kind by kind ----

  lemma TickColumns(p: Params, st: Sys, t: TickStep, id: Id)
    requires CanStepTick(st, t) && id in st.db.rows
    ensures id in DoStepTick(st, t).db.rows && Accounts(p, st, OfTick(t), id, st.db.rows[id], DoStepTick(st, t).db.rows[id])
  {
    assert t.Dispatch? ==> TakenAt(st, OfTick(t), st.tick.value.ready[t.k].id, st.tick.value.now);
  }

  /** A planned completion, applied to a row. */
  lemma PlanEnds(cal: Calendar, e: Ending, a: Row)
    ensures var b := RowAfter(a, Policy.PlanCompletion(cal, e.row, e.task, e.run, e.outcome, e.at, e.retry));
            IsEnded(cal, e, a, b) && SameTerms(a, b) && b.paused == a.paused && b.disabled == a.disabled
  {
    if e.Retries() { Ladder.BackoffIsWait(e.Policy().value, e.row.retryCount); }
  }

  /** The step has nothing to do with the schedule. */
  ghost predicate PassesBy(p: Params, st: Sys, step: Step, id: Id, a: Row) {
    && !Toggles(step, id) && !Ends(st, step, id) && !TakesOrFrees(p, st, step, id, a) && (forall seen, now :: !Passes(st, step, id, seen, now))
  }

  lemma Unmoved(p: Params, st: Sys, step: Step, id: Id, a: Row)
    requires PassesBy(p, st, step, id, a)
    ensures Accounts(p, st, step, id, a, a)
  {
  }

  lemma EndColumns(p: Params, st: Sys, step: Step, id: Id, a: Row)
    requires EndingOf(st, step).Some?
    ensures var e := EndingOf(st, step).value;
            var c := Policy.PlanCompletion(p.cal, e.row, e.task, e.run, e.outcome, e.at, e.retry);
            Accounts(p, st, step, id, a, if e.id == id then RowAfter(a, c) else a)
  {
    PlanEnds(p.cal, EndingOf(st, step).value, a);
    if EndingOf(st, step).value.id != id { Unmoved(p, st, step, id, a); }
  }

  lemma BeatColumns(p: Params, st: Sys, r: RunId, id: Id)
    requires CanHeartbeat(st, r) && id in st.db.rows
    ensures id in DoHeartbeat(st, r).db.rows && Accounts(p, st, OfRun(Heartbeat(r)), id, st.db.rows[id], DoHeartbeat(st, r).db.rows[id])
  {
  }

  lemma RunColumns(p: Params, st: Sys, j: RunStep, id: Id)
    requires CanStepRun(st, j) && id in st.db.rows
    ensures id in DoStepRun(p, st, j).db.rows && Accounts(p, st, OfRun(j), id, st.db.rows[id], DoStepRun(p, st, j).db.rows[id])
  {
    match j
    case JobComplete(_) => EndColumns(p, st, OfRun(j), id, st.db.rows[id]);
    case Heartbeat(r) => BeatColumns(p, st, r, id);
    case _ => Unmoved(p, st, OfRun(j), id, st.db.rows[id]);
  }

  lemma PassColumns(p: Params, st: Sys, s: PassStep, id: Id)
    requires CanStepPass(st, s) && id in st.db.rows
    ensures id in DoStepPass(p, st, s).db.rows && Accounts(p, st, OfPass(s), id, st.db.rows[id], DoStepPass(p, st, s).db.rows[id])
  {
    if s.PassComplete? {
      EndColumns(p, st, OfPass(s), id, st.db.rows[id]);
    } else {
      Unmoved(p, st, OfPass(s), id, st.db.rows[id]);
    }
  }

  lemma CancelColumns(p: Params, st: Sys, c: CancelStep, id: Id)
    requires CanStepCancel(st, c) && id in st.db.rows
    ensures id in DoStepCancel(p, st, c).db.rows && Accounts(p, st, OfCancel(c), id, st.db.rows[id], DoStepCancel(p, st, c).db.rows[id])
  {
    if c.CancelComplete? {
      EndColumns(p, st, OfCancel(c), id, st.db.rows[id]);
    } else {
      Unmoved(p, st, OfCancel(c), id, st.db.rows[id]);
    }
  }

  lemma SkipColumns(p: Params, st: Sys, q: nat, id: Id)
    requires CanResumeSkip(st, q) && id in st.db.rows
    ensures id in DoResumeSkip(p, st, q).db.rows
    ensures Accounts(p, st, OfFreeze(ResumeSkip(q)), id, st.db.rows[id], DoResumeSkip(p, st, q).db.rows[id])
  {
    var e := st.freeze.resumes[q].todo[0];
    assert Passes(st, OfFreeze(ResumeSkip(q)), e.id, e.row, st.freeze.resumes[q].now) <==> !e.row.rule.Once? && e.row.retryCount == 0;
  }

  lemma FreezeColumns(p: Params, st: Sys, f: FreezeStep, id: Id)
    requires CanStepFreeze(st, f) && id in st.db.rows
    ensures id in DoStepFreeze(p, st, f).db.rows && Accounts(p, st, OfFreeze(f), id, st.db.rows[id], DoStepFreeze(p, st, f).db.rows[id])
  {
    if f.ResumeSkip? { SkipColumns(p, st, f.q, id); }
  }

  lemma ReapColumns(p: Params, st: Sys, at: int, id: Id)
    requires CanReap(st, at) && id in st.db.rows
    ensures id in DoReap(p, st, at).db.rows && Accounts(p, st, OfStore(ReapPass(at)), id, st.db.rows[id], DoReap(p, st, at).db.rows[id])
  {
  }

  lemma ToggleColumns(p: Params, st: Sys, row: Id, pausedFlag: bool, disabledFlag: bool, id: Id)
    requires id in st.db.rows
    ensures id in DoToggle(st, row, pausedFlag, disabledFlag).db.rows
    ensures Accounts(p, st, OfStore(Toggle(row, pausedFlag, disabledFlag)), id, st.db.rows[id],
                     DoToggle(st, row, pausedFlag, disabledFlag).db.rows[id])
  {
    if row != id {
      Unmoved(p, st, OfStore(Toggle(row, pausedFlag, disabledFlag)), id, st.db.rows[id]);
    } else {
      assert DoToggle(st, row, pausedFlag, disabledFlag).db.rows[id] == st.db.rows[id].(paused := pausedFlag, disabled := disabledFlag);
    }
  }

  lemma StoreColumns(p: Params, st: Sys, o: StoreStep, id: Id)
    requires CanStepStore(st, o) && id in st.db.rows
    ensures id in DoStepStore(p, st, o).db.rows && Accounts(p, st, OfStore(o), id, st.db.rows[id], DoStepStore(p, st, o).db.rows[id])
  {
    match o
    case ReapPass(at) => ReapColumns(p, st, at, id);
    case Toggle(row, x, y) => ToggleColumns(p, st, row, x, y, id);
    case EditTask(_, _) => Unmoved(p, st, OfStore(o), id, st.db.rows[id]);
  }

  lemma CrashColumns(p: Params, st: Sys, x: CrashStep, id: Id)
    requires CanStepCrash(st, x) && id in st.db.rows
    ensures id in DoStepCrash(st, x).db.rows && Accounts(p, st, OfCrash(x), id, st.db.rows[id], DoStepCrash(st, x).db.rows[id])
  {
  }

  /** Over every step of the engine, what becomes of every column of every row; and no row appears or goes. */
  lemma EveryColumn(p: Params, st: Sys, step: Step, id: Id)
    requires Can(st, step)
    ensures id in Do(p, st, step).db.rows <==> id in st.db.rows
    ensures id in st.db.rows ==> Accounts(p, st, step, id, st.db.rows[id], Do(p, st, step).db.rows[id])
  {
    Locks.RowsStay(p, st, step);
    if id in st.db.rows {
      match step
      case Advance(_) =>
      case OfTick(t) => TickColumns(p, st, t, id);
      case OfRun(j) => RunColumns(p, st, j, id);
      case OfPass(s) => PassColumns(p, st, s, id);
      case OfCancel(c) => CancelColumns(p, st, c, id);
      case OfFreeze(f) => FreezeColumns(p, st, f, id);
      case OfStore(o) => StoreColumns(p, st, o, id);
      case OfCrash(x) => CrashColumns(p, st, x, id);
    }
  }

  // ---- over whole histories ----

  /** The terms of a row are the same in all states of a history. */
  lemma {:induction false} TermsStay(p: Params, h: History, m: nat, n: nat, id: Id)
    requires IsRun(p, h) && m <= n < |h.states| && id in h.states[m].db.rows
    ensures id in h.states[n].db.rows && SameTerms(h.states[m].db.rows[id], h.states[n].db.rows[id])
    decreases n
  {
    if m < n {
      TermsStay(p, h, m, n - 1, id);
      StepOf(p, h, n - 1);
      EveryColumn(p, h.states[n - 1], h.steps[n - 1], id);
    }
  }

  /** The row is paused and disabled as the last edit among these steps said, and as it was before if there was none. */
  ghost predicate EditedIn(h: History, m: nat, n: nat, id: Id)
    requires m <= n <= |h.steps| && n < |h.states| && id in h.states[m].db.rows && id in h.states[n].db.rows
  {
    var before, after := h.states[m].db.rows[id], h.states[n].db.rows[id];
    || (Untoggled(h, m, n, id) && after.paused == before.paused && after.disabled == before.disabled)
    || exists k :: m <= k < n && Toggles(h.steps[k], id) && Untoggled(h, k + 1, n, id)
                   && after.paused == h.steps[k].o.pausedFlag && after.disabled == h.steps[k].o.disabledFlag
  }

  ghost predicate Untoggled(h: History, m: nat, n: nat, id: Id)
    requires n <= |h.steps|
  {
    forall i :: m <= i < n ==> !Toggles(h.steps[i], id)
  }

  lemma EditedOnce(h: History, m: nat, n: nat, id: Id)
    requires m <= n < |h.steps| && n + 1 < |h.states|
    requires id in h.states[m].db.rows && id in h.states[n].db.rows && id in h.states[n + 1].db.rows && EditedIn(h, m, n, id)
    requires Switches(h.steps[n], id, h.states[n].db.rows[id], h.states[n + 1].db.rows[id])
    ensures EditedIn(h, m, n + 1, id)
  {
    if Toggles(h.steps[n], id) {
      assert Untoggled(h, n + 1, n + 1, id);
    } else if !Untoggled(h, m, n, id) {
      var k :| m <= k < n && Toggles(h.steps[k], id) && Untoggled(h, k + 1, n, id)
               && h.states[n].db.rows[id].paused == h.steps[k].o.pausedFlag && h.states[n].db.rows[id].disabled == h.steps[k].o.disabledFlag;
      assert Untoggled(h, k + 1, n + 1, id);
    }
  }

  /** So only operators pause, resume, disable or enable a schedule, over every history. */
  lemma {:induction false} SwitchesAreEdits(p: Params, h: History, m: nat, n: nat, id: Id)
    requires IsRun(p, h) && m <= n < |h.states| && id in h.states[m].db.rows
    ensures id in h.states[n].db.rows && EditedIn(h, m, n, id)
    decreases n
  {
    if m < n {
      SwitchesAreEdits(p, h, m, n - 1, id);
      StepOf(p, h, n - 1);
      EveryColumn(p, h.states[n - 1], h.steps[n - 1], id);
      EditedOnce(h, m, n - 1, id);
    }
  }

  // ---- the rows of the runs ----

  /** The verdict a step writes for a run. */
  function VerdictOf(st: Sys, step: Step, r: RunId): Option<Outcome> {
    match step
    case OfRun(JobWrite(q)) => if q == r && r in st.work.jobs && st.work.jobs[r].phase.Settled? then Some(st.work.jobs[r].phase.outcome) else None
    case OfPass(PassWrite) =>
      if st.poll.pass.Some? && st.poll.pass.value.cur.Finishing? && st.poll.pass.value.cur.r == r then Some(st.poll.pass.value.cur.outcome) else None
    case OfCancel(CancelWrite(q)) => if q == r then Some(Cancelled) else None
    case OfCrash(RecoverRun(q)) => if q == r then Some(Cancelled) else None
    case _ => None
  }

  /** The progress a step notes for a run: queued when it is accepted, and then what its worker reports. */
  function ProgressOf(st: Sys, step: Step, r: RunId): Option<Status> {
    match step
    case OfRun(Enqueue(q)) => if q == r then Some(Queued) else None
    case OfPass(PassAnswer(InProgress(status))) =>
      if st.poll.pass.Some? && st.poll.pass.value.cur == Asking(r) then Some(status) else None
    case _ => None
  }

  /** A run is created by its dispatch, as the next attempt of its schedule, and then only its status moves. */
  ghost predicate RunAccounts(st: Sys, step: Step, r: RunId, runs: map<RunId, Run>) {
    if step == OfRun(CreateRun(r)) && r in st.work.jobs then
      var row := st.work.jobs[r].row;
      && r in runs && runs[r].scheduleId == st.work.jobs[r].id && runs[r].attempt == row.retryCount + 1
      && runs[r].retryOf == (if row.retryCount > 0 then row.lastRunId else None) && runs[r].status == Running && !runs[r].failed
    else
      && (r in runs <==> r in st.db.runs)
      && (r in runs ==>
            && runs[r].scheduleId == st.db.runs[r].scheduleId && runs[r].attempt == st.db.runs[r].attempt
            && runs[r].retryOf == st.db.runs[r].retryOf
            && runs[r].status == (if VerdictOf(st, step, r).Some? then Ended(VerdictOf(st, step, r).value)
                                  else if ProgressOf(st, step, r).Some? then ProgressOf(st, step, r).value else st.db.runs[r].status)
            && (runs[r].failed <==> st.db.runs[r].failed || VerdictOf(st, step, r) == Some(Failed)))
  }

  lemma RunsOfPass(p: Params, st: Sys, s: PassStep, r: RunId)
    requires CanStepPass(st, s)
    ensures RunAccounts(st, OfPass(s), r, DoStepPass(p, st, s).db.runs)
  {
  }

  lemma RunsOfRun(p: Params, st: Sys, j: RunStep, r: RunId)
    requires CanStepRun(st, j)
    ensures RunAccounts(st, OfRun(j), r, DoStepRun(p, st, j).db.runs)
  {
  }

  lemma RunsOfCancel(p: Params, st: Sys, c: CancelStep, r: RunId)
    requires CanStepCancel(st, c)
    ensures RunAccounts(st, OfCancel(c), r, DoStepCancel(p, st, c).db.runs)
  {
  }

  lemma RunsOfCrash(st: Sys, x: CrashStep, r: RunId)
    requires CanStepCrash(st, x)
    ensures RunAccounts(st, OfCrash(x), r, DoStepCrash(st, x).db.runs)
  {
  }

  /** Over every step of the engine, what becomes of every run's row. */
  lemma EveryRun(p: Params, st: Sys, step: Step, r: RunId)
    requires Can(st, step)
    ensures RunAccounts(st, step, r, Do(p, st, step).db.runs)
  {
    match step
    case OfRun(j) => RunsOfRun(p, st, j, r);
    case OfPass(s) => RunsOfPass(p, st, s, r);
    case OfCancel(c) => RunsOfCancel(p, st, c, r);
    case OfCrash(x) => RunsOfCrash(st, x, r);
    case _ =>
  }

  // ---- the rest ----

  /** The clock moves by an advance only, and the tasks change by an operator's edit only, to what it says. */
  lemma TasksAndClock(p: Params, st: Sys, step: Step, name: string)
    requires Can(st, step)
    ensures Do(p, st, step).clock == st.clock + if step.Advance? then step.dt else 0
    ensures if step.OfStore? && step.o.EditTask? && step.o.name == name
            then name in Do(p, st, step).db.tasks && Do(p, st, step).db.tasks[name] == step.o.task
            else (name in Do(p, st, step).db.tasks <==> name in st.db.tasks)
                 && (name in st.db.tasks ==> Do(p, st, step).db.tasks[name] == st.db.tasks[name])
  {
  }
}
