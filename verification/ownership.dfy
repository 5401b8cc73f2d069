/**
 * Who holds a lock. As long as no cancel is late and no watchdog pass releases a lock, the locks and the
 * schedule-fired runs in flight correspond one to one, whatever the timing; and then no two runs of a task overlap.
 */
module Ownership {
  import opened Records
  import opened Policy
  import opened Store
  import opened Protocol
  import opened Finish
  import opened Locks
  import opened Polls

  type Jobs = map<RunId, Job>
  type Asyncs = map<RunId, AsyncRun>
  type Owners = map<Id, RunId>

  /** The schedule is locked, and by the claim that dispatched `r`. */
  predicate Held(rows: Rows, owners: Owners, id: Id, r: RunId) {
    id in rows && rows[id].Locked() && id in owners && owners[id] == r
  }

  ghost predicate JobsHeld(rows: Rows, owners: Owners, jobs: Jobs) {
    forall r :: r in jobs ==> Held(rows, owners, jobs[r].id, r)
  }

  ghost predicate AsyncsHeld(rows: Rows, owners: Owners, ars: Asyncs) {
    forall r :: r in ars && Open(ars[r]) ==> Held(rows, owners, ars[r].id, r)
  }

  predicate InFlight(jobs: Jobs, ars: Asyncs, r: RunId) {
    r in jobs || (r in ars && Open(ars[r]))
  }

  function IdOf(jobs: Jobs, ars: Asyncs, r: RunId): Id
    requires InFlight(jobs, ars, r)
  {
    if r in jobs then jobs[r].id else ars[r].id
  }

  ghost predicate LocksOwned(rows: Rows, owners: Owners, jobs: Jobs, ars: Asyncs) {
    forall id :: id in rows && rows[id].Locked() ==>
      id in owners && InFlight(jobs, ars, owners[id]) && IdOf(jobs, ars, owners[id]) == id
  }

  /** Locks and runs in flight correspond one to one. */
  ghost predicate Owned(st: Sys) {
    && JobsHeld(st.db.rows, st.past.owners, st.work.jobs)
    && AsyncsHeld(st.db.rows, st.past.owners, st.poll.asyncRuns)
    && (st.up ==> LocksOwned(st.db.rows, st.past.owners, st.work.jobs, st.poll.asyncRuns))
    && (!st.up ==> st.work.jobs == map[] && st.poll.asyncRuns == map[])
  }

  ghost predicate Unraced(ars: Asyncs) { forall r :: r in ars ==> !ars[r].raced }

  // ---- tick ----

  lemma OwnedDispatch(st: Sys, k: nat)
    requires WellFormed(st) && Owned(st) && CanDispatch(st, k)
    ensures Owned(DoDispatch(st, k))
  {
    assert !st.db.rows[st.tick.value.ready[k].id].Locked();
  }

  lemma OwnedTick(st: Sys, t: TickStep)
    requires WellFormed(st) && Owned(st) && CanStepTick(st, t)
    ensures Owned(DoStepTick(st, t))
  {
    if t.Dispatch? {
      OwnedDispatch(st, t.k);
    }
  }

  // ---- runs ----

  /** The job keeps its schedule. */
  lemma OwnedPhase(st: Sys, r: RunId, phase: Phase)
    requires Owned(st) && r in st.work.jobs
    ensures Owned(st.(work := st.work.(jobs := st.work.jobs[r := st.work.jobs[r].(phase := phase)])))
  {
  }

  lemma OwnedEnqueue(st: Sys, r: RunId)
    requires WellFormed(st) && Owned(st) && CanEnqueue(st, r)
    ensures Owned(DoEnqueue(st, r))
  {
  }

  lemma OwnedHeartbeat(st: Sys, r: RunId)
    requires WellFormed(st) && Owned(st) && CanHeartbeat(st, r)
    ensures Owned(DoHeartbeat(st, r))
  {
  }

  lemma OwnedJobComplete(p: Params, st: Sys, r: RunId)
    requires WellFormed(st) && Owned(st) && CanJobComplete(st, r)
    ensures Owned(DoJobComplete(p, st, r))
  {
  }

  lemma OwnedRun(p: Params, st: Sys, j: RunStep)
    requires WellFormed(st) && Owned(st) && CanStepRun(st, j)
    ensures Owned(DoStepRun(p, st, j))
  {
    match j
    case CreateRun(r) => OwnedPhase(st, r, Started);
    case Settle(r, reply) => OwnedPhase(st, r, DoSettle(st, r, reply).work.jobs[r].phase);
    case Enqueue(r) => OwnedEnqueue(st, r);
    case JobWrite(r) => OwnedPhase(st, r, DoJobWrite(st, r).work.jobs[r].phase);
    case JobComplete(r) => OwnedJobComplete(p, st, r);
    case Heartbeat(r) => OwnedHeartbeat(st, r);
  }

  // ---- poll pass and cancels ----

  predicate SameOwner(a: AsyncRun, b: AsyncRun) {
    a.id == b.id && a.completions == b.completions
  }

  lemma OwnedLook(st: Sys, runs: map<RunId, Run>, poll: Polling, r: RunId)
    requires Owned(st) && r in st.poll.asyncRuns && r in poll.asyncRuns
    requires poll.asyncRuns == st.poll.asyncRuns[r := poll.asyncRuns[r]] && SameOwner(st.poll.asyncRuns[r], poll.asyncRuns[r])
    ensures Owned(st.(db := st.db.(runs := runs), poll := poll))
  {
  }

  /** The only finisher of a run completes its schedule: the lock it held is released, all others stay. */
  lemma OwnedComplete(st: Sys, poll: Polling, r: RunId, c: Completion)
    requires WellFormed(st) && Owned(st) && r in st.poll.asyncRuns && Open(st.poll.asyncRuns[r])
    requires poll.asyncRuns == st.poll.asyncRuns[r := st.poll.asyncRuns[r].(completions := 1)]
    ensures Owned(st.(db := st.db.(rows := Complete(st.db.rows, st.poll.asyncRuns[r].id, c)), poll := poll))
  {
  }

  lemma OwnedPassComplete(p: Params, st: Sys)
    requires WellFormed(st) && Owned(st) && CanPassComplete(st)
    requires Unraced(st.poll.asyncRuns) && Accounted(st.poll, st.poll.pass.value.cur.r)
    ensures Owned(DoPassComplete(p, st))
  {
    var c := st.poll.pass.value.cur;
    var ar := st.poll.asyncRuns[c.r];
    assert PassFinishes(st.poll, c.r) && Open(ar);
    OwnedComplete(st, DoPassComplete(p, st).poll, c.r, AsyncCompletion(p, ar, c.r, c.outcome, c.at));
  }

  lemma OwnedCancelComplete(p: Params, st: Sys, r: RunId)
    requires WellFormed(st) && Owned(st) && CanCancelComplete(st, r)
    requires Unraced(st.poll.asyncRuns) && Accounted(st.poll, r)
    ensures Owned(DoCancelComplete(p, st, r))
  {
    var ar := st.poll.asyncRuns[r];
    assert Open(ar);
    OwnedComplete(st, DoCancelComplete(p, st, r).poll, r, AsyncCompletion(p, ar, r, Cancelled, st.poll.cancels[r].at));
  }

  lemma OwnedAnswer(st: Sys, answer: Answer)
    requires Owned(st) && CanPassAnswer(st, answer)
    ensures Owned(DoPassAnswer(st, answer))
  {
    OwnedLook(st, DoPassAnswer(st, answer).db.runs, DoPassAnswer(st, answer).poll, st.poll.pass.value.todo[0]);
  }

  lemma OwnedWrite(st: Sys)
    requires Owned(st) && CanPassWrite(st)
    ensures Owned(DoPassWrite(st))
  {
    OwnedLook(st, DoPassWrite(st).db.runs, DoPassWrite(st).poll, st.poll.pass.value.todo[0]);
  }

  lemma OwnedPass(p: Params, st: Sys, s: PassStep)
    requires WellFormed(st) && Owned(st) && CanStepPass(st, s) && Unraced(st.poll.asyncRuns)
    requires s.PassComplete? ==> Accounted(st.poll, st.poll.pass.value.cur.r)
    ensures Owned(DoStepPass(p, st, s))
  {
    match s
    case PassBegin(_, _) =>
    case PassVisit => OwnedLook(st, st.db.runs, DoPassVisit(p, st).poll, st.poll.pass.value.todo[0]);
    case PassSignalled => OwnedLook(st, st.db.runs, DoPassSignalled(st).poll, st.poll.pass.value.todo[0]);
    case PassAnswer(answer) => OwnedAnswer(st, answer);
    case PassWrite => OwnedWrite(st);
    case PassComplete => OwnedPassComplete(p, st);
    case PassEnd =>
  }

  lemma OwnedCancel(p: Params, st: Sys, c: CancelStep)
    requires WellFormed(st) && Owned(st) && CanStepCancel(st, c) && Unraced(st.poll.asyncRuns)
    requires Accounted(st.poll, c.r)
    ensures Owned(DoStepCancel(p, st, c))
  {
    match c
    case CancelBegin(r) => OwnedLook(st, st.db.runs, DoCancelBegin(st, r).poll, r);
    case CancelWrite(r) => OwnedLook(st, DoCancelWrite(st, r).db.runs, DoCancelWrite(st, r).poll, r);
    case CancelComplete(r) => OwnedCancelComplete(p, st, r);
  }

  // ---- everything else ----

  ghost predicate SameLocks(rows: Rows, rows': Rows) {
    rows'.Keys == rows.Keys && forall id :: id in rows ==> rows'[id].lockedAt == rows[id].lockedAt
  }

  lemma OwnedSameLocks(st: Sys, rows: Rows)
    requires Owned(st) && SameLocks(st.db.rows, rows)
    ensures Owned(st.(db := st.db.(rows := rows)))
  {
  }

  lemma OwnedFreeze(p: Params, st: Sys, f: FreezeStep)
    requires Owned(st) && CanStepFreeze(st, f)
    ensures Owned(DoStepFreeze(p, st, f))
  {
    OwnedSameLocks(st, DoStepFreeze(p, st, f).db.rows);
  }

  lemma OwnedStore(p: Params, st: Sys, o: StoreStep)
    requires Owned(st) && CanStepStore(st, o)
    requires o.ReapPass? ==> Reap(st.db.rows, o.at - p.ttl) == st.db.rows
    ensures Owned(DoStepStore(p, st, o))
  {
    match o
    case ReapPass(_) =>
    case Toggle(_, _, _) => OwnedSameLocks(st, DoStepStore(p, st, o).db.rows);
    case EditTask(_, _) =>
  }

  lemma OwnedCrash(st: Sys, x: CrashStep)
    requires Owned(st) && CanStepCrash(st, x)
    ensures Owned(DoStepCrash(st, x))
  {
  }

  /** A watchdog pass that releases no lock, or any other step. */
  predicate KeepsLocks(p: Params, st: Sys, step: Step) {
    step.OfStore? && step.o.ReapPass? ==> Reap(st.db.rows, step.o.at - p.ttl) == st.db.rows
  }

  /** A user cancel that takes a run while it is already being finished. */
  predicate IsLate(st: Sys, step: Step) {
    step.OfCancel? && step.c.CancelBegin? && Late(st, step, step.c.r)
  }

  /** None of the first `n` steps is a late cancel. */
  ghost predicate NoLate(h: History, n: nat)
    requires n <= |h.steps| && n <= |h.states|
  {
    forall k :: 0 <= k < n ==> !IsLate(h.states[k], h.steps[k])
  }

  /** None of the first `n` steps is a watchdog pass that releases a lock. */
  ghost predicate NothingReaped(p: Params, h: History, n: nat)
    requires n <= |h.steps| && n <= |h.states|
  {
    forall k :: 0 <= k < n ==> KeepsLocks(p, h.states[k], h.steps[k])
  }

  ghost predicate Calm(p: Params, h: History, n: nat)
    requires n <= |h.steps| && n <= |h.states|
  {
    NoLate(h, n) && NothingReaped(p, h, n)
  }

  /** None of the first `n` steps is a crash or part of a recovery. */
  ghost predicate NoCrash(h: History, n: nat)
    requires n <= |h.steps|
  {
    forall k :: 0 <= k < n ==> !h.steps[k].OfCrash?
  }

  /** What the theorems of the poll loop give at one state. */
  ghost predicate Settling(st: Sys) {
    WellFormed(st) && Unraced(st.poll.asyncRuns) && forall r :: Accounted(st.poll, r)
  }

  lemma OwnedStep(p: Params, st: Sys, step: Step)
    requires Settling(st) && Owned(st) && Can(st, step) && KeepsLocks(p, st, step)
    ensures Owned(Do(p, st, step))
  {
    match step
    case Advance(_) =>
    case OfTick(t) => OwnedTick(st, t);
    case OfRun(j) => OwnedRun(p, st, j);
    case OfPass(s) => OwnedPass(p, st, s);
    case OfCancel(c) => OwnedCancel(p, st, c);
    case OfFreeze(f) => OwnedFreeze(p, st, f);
    case OfStore(o) => OwnedStore(p, st, o);
    case OfCrash(x) => OwnedCrash(st, x);
  }

  lemma OwnedNext(p: Params, st: Sys, step: Step, st': Sys)
    requires Settling(st) && Owned(st) && Next(p, st, step, st') && KeepsLocks(p, st, step)
    ensures Owned(st')
  {
    OwnedStep(p, st, step);
  }

  lemma SettlingAlong(p: Params, h: History, n: nat)
    requires IsRun(p, h) && n < |h.states| && NoLate(h, n)
    ensures Settling(h.states[n])
  {
    WellFormedAlong(p, h, n);
    forall r ensures Accounted(h.states[n].poll, r) {
      AccountedAlong(p, h, n, r);
    }
    forall r | r in h.states[n].poll.asyncRuns ensures !h.states[n].poll.asyncRuns[r].raced {
      RacedAlong(p, h, n, r);
      assert !LateBefore(h, n, r) by {
        assert forall k :: 0 <= k < n ==> !IsLate(h.states[k], h.steps[k]);
      }
    }
  }

  lemma OwnedInit(st: Sys)
    requires Init(st)
    ensures Owned(st)
  {
  }

  /** Over every calm history, locks and runs in flight correspond one to one. */
  lemma {:induction false} OwnedAlong(p: Params, h: History, n: nat)
    requires IsRun(p, h) && n < |h.states| && Calm(p, h, n)
    ensures Owned(h.states[n])
  {
    if n == 0 {
      OwnedInit(h.states[0]);
    } else {
      OwnedAlong(p, h, n - 1);
      SettlingAlong(p, h, n - 1);
      StepOf(p, h, n - 1);
      OwnedNext(p, h.states[n - 1], h.steps[n - 1], h.states[n]);
    }
  }

  /** A pass that releases a lock takes it from a run in flight. */
  lemma ReapBreaks(p: Params, st: Sys, at: int)
    requires Owned(st) && CanReap(st, at) && Owned(DoReap(p, st, at))
    ensures Reap(st.db.rows, at - p.ttl) == st.db.rows
  {
    forall id | id in st.db.rows ensures !Stale(st.db.rows[id], at - p.ttl) {
      if Stale(st.db.rows[id], at - p.ttl) {
        assert false;
      }
    }
  }

  /**
   * Without late cancels, locks and runs in flight correspond in all states of a history if and only if no watchdog
   * pass releases a lock.
   */
  lemma OwnedIffNothingReaped(p: Params, h: History)
    requires IsRun(p, h) && NoLate(h, |h.steps|)
    ensures (forall n :: 0 <= n < |h.states| ==> Owned(h.states[n])) <==> NothingReaped(p, h, |h.steps|)
  {
    if NothingReaped(p, h, |h.steps|) {
      forall n | 0 <= n < |h.states| ensures Owned(h.states[n]) {
        OwnedAlong(p, h, n);
      }
    }
    if forall n :: 0 <= n < |h.states| ==> Owned(h.states[n]) {
      forall k | 0 <= k < |h.steps| ensures KeepsLocks(p, h.states[k], h.steps[k]) {
        StepOf(p, h, k);
        if h.steps[k].OfStore? && h.steps[k].o.ReapPass? {
          assert Owned(h.states[k]) && Owned(h.states[k + 1]);
          ReapBreaks(p, h.states[k], h.steps[k].o.at);
        }
      }
    }
  }

  /** The task of a run in flight. */
  function TaskOf(st: Sys, r: RunId): string
    requires InFlight(st.work.jobs, st.poll.asyncRuns, r)
  {
    var id := IdOf(st.work.jobs, st.poll.asyncRuns, r);
    if id in st.db.rows then st.db.rows[id].taskName else ""
  }

  /**
   * A schedule is locked if and only if exactly one run in flight was fired by it, and no two runs in flight belong to
   * the same task.
   */
  ghost predicate Exclusive(st: Sys) {
    var jobs, ars := st.work.jobs, st.poll.asyncRuns;
    && (forall id :: id in st.db.rows && st.db.rows[id].Locked() ==> exists r :: InFlight(jobs, ars, r) && IdOf(jobs, ars, r) == id)
    && (forall r :: InFlight(jobs, ars, r) ==> IdOf(jobs, ars, r) in st.db.rows && st.db.rows[IdOf(jobs, ars, r)].Locked())
    && (forall r, q :: InFlight(jobs, ars, r) && InFlight(jobs, ars, q) && TaskOf(st, r) == TaskOf(st, q) ==> r == q)
  }

  lemma OwnedIsExclusive(st: Sys)
    requires Owned(st) && OneLockPerTask(st.db.rows) && st.up
    ensures Exclusive(st)
  {
  }

  /** Exclusion holds in every state of a calm history. */
  lemma MutualExclusion(p: Params, h: History, n: nat)
    requires IsRun(p, h) && n < |h.states| && Calm(p, h, n) && h.states[n].up
    ensures Exclusive(h.states[n])
  {
    OwnedAlong(p, h, n);
    PerTaskCeiling(p, h, n);
    OwnedIsExclusive(h.states[n]);
  }
}
