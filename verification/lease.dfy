/**
 * Locks as leases. The heartbeat renews the lock of a busy run; an accepted run has to end before its lock gets
 * too old. With the right timing no live lock is ever reaped.
 */
module Lease {
  import opened Records
  import opened Store
  import opened Protocol
  import opened Finish
  import opened Polls
  import opened Ownership

  // ---- how old a held lock is ----

  ghost predicate JobsFresh(tm: Timing, rows: Rows, jobs: Jobs) {
    forall r :: r in jobs && jobs[r].id in rows && rows[jobs[r].id].Locked() ==>
      rows[jobs[r].id].lockedAt.value >= jobs[r].beat - tm.s
  }

  ghost predicate AsyncsFresh(tm: Timing, rows: Rows, ars: Asyncs) {
    forall r :: r in ars && Open(ars[r]) && ars[r].id in rows && rows[ars[r].id].Locked() ==>
      rows[ars[r].id].lockedAt.value >= ars[r].acceptedAt - tm.s - tm.h
  }

  /** Every lease is as fresh as the stage of its run promises. */
  ghost predicate Fresh(tm: Timing, st: Sys) {
    JobsFresh(tm, st.db.rows, st.work.jobs) && AsyncsFresh(tm, st.db.rows, st.poll.asyncRuns)
  }

  /** No lock is taken or renewed. */
  ghost predicate LocksStand(rows: Rows, rows': Rows) {
    forall id :: id in rows' && rows'[id].Locked() ==> id in rows && rows[id].lockedAt == rows'[id].lockedAt
  }

  /** No run starts or is accepted, and none is opened again. */
  ghost predicate RunsStand(st: Sys, st': Sys) {
    && (forall r :: r in st'.work.jobs ==>
          r in st.work.jobs && st'.work.jobs[r].id == st.work.jobs[r].id && st'.work.jobs[r].beat == st.work.jobs[r].beat)
    && (forall r :: r in st'.poll.asyncRuns ==>
          var ar, ar' := if r in st.poll.asyncRuns then st.poll.asyncRuns[r] else st'.poll.asyncRuns[r], st'.poll.asyncRuns[r];
          r in st.poll.asyncRuns && ar'.id == ar.id && ar'.acceptedAt == ar.acceptedAt && (Open(ar') ==> Open(ar)))
  }

  lemma FreshStands(tm: Timing, st: Sys, st': Sys)
    requires Fresh(tm, st) && LocksStand(st.db.rows, st'.db.rows) && RunsStand(st, st')
    ensures Fresh(tm, st')
  {
  }

  lemma FreshDispatch(tm: Timing, st: Sys, k: nat)
    requires WellFormed(st) && Owned(st) && Fresh(tm, st) && Timely(tm, st) && CanDispatch(st, k)
    ensures Fresh(tm, DoDispatch(st, k))
  {
    assert !st.db.rows[st.tick.value.ready[k].id].Locked();
  }

  lemma FreshEnqueue(tm: Timing, st: Sys, r: RunId)
    requires Fresh(tm, st) && Timely(tm, st) && CanEnqueue(st, r)
    ensures Fresh(tm, DoEnqueue(st, r))
  {
  }

  lemma FreshHeartbeat(tm: Timing, st: Sys, r: RunId)
    requires WellFormed(st) && Owned(st) && Fresh(tm, st) && CanHeartbeat(st, r)
    ensures Fresh(tm, DoHeartbeat(st, r))
  {
  }

  lemma FreshTick(tm: Timing, st: Sys, t: TickStep)
    requires WellFormed(st) && Owned(st) && Fresh(tm, st) && Timely(tm, st) && CanStepTick(st, t)
    ensures Fresh(tm, DoStepTick(st, t))
  {
    if t.Dispatch? {
      FreshDispatch(tm, st, t.k);
    } else {
      FreshStands(tm, st, DoStepTick(st, t));
    }
  }

  lemma FreshRun(p: Params, tm: Timing, st: Sys, j: RunStep)
    requires WellFormed(st) && Owned(st) && Fresh(tm, st) && Timely(tm, st) && CanStepRun(st, j)
    ensures Fresh(tm, DoStepRun(p, st, j))
  {
    match j
    case Enqueue(r) => FreshEnqueue(tm, st, r);
    case Heartbeat(r) => FreshHeartbeat(tm, st, r);
    case _ => FreshStands(tm, st, DoStepRun(p, st, j));
  }

  lemma FreshPass(p: Params, tm: Timing, st: Sys, s: PassStep)
    requires Fresh(tm, st) && CanStepPass(st, s)
    ensures Fresh(tm, DoStepPass(p, st, s))
  {
    PassStands(p, st, s);
    FreshStands(tm, st, DoStepPass(p, st, s));
  }

  /** The poll queue changes in one run only, which keeps its schedule and its acceptance. */
  ghost predicate OneRunStands(ars: Asyncs, ars': Asyncs, r: RunId) {
    && r in ars && r in ars' && ars' == ars[r := ars'[r]]
    && ars'[r].id == ars[r].id && ars'[r].acceptedAt == ars[r].acceptedAt && ars'[r].completions >= ars[r].completions
  }

  lemma VisitStands(p: Params, st: Sys)
    requires CanPassVisit(st)
    ensures OneRunStands(st.poll.asyncRuns, DoPassVisit(p, st).poll.asyncRuns, st.poll.pass.value.todo[0])
  {
  }

  lemma AnswerStands(st: Sys, answer: Answer)
    requires CanPassAnswer(st, answer)
    ensures OneRunStands(st.poll.asyncRuns, DoPassAnswer(st, answer).poll.asyncRuns, st.poll.pass.value.todo[0])
  {
  }

  lemma PassStands(p: Params, st: Sys, s: PassStep)
    requires CanStepPass(st, s)
    ensures LocksStand(st.db.rows, DoStepPass(p, st, s).db.rows) && RunsStand(st, DoStepPass(p, st, s))
  {
    match s
    case PassBegin(_, _) =>
    case PassVisit => VisitStands(p, st);
    case PassSignalled => assert OneRunStands(st.poll.asyncRuns, DoPassSignalled(st).poll.asyncRuns, st.poll.pass.value.todo[0]);
    case PassAnswer(answer) => AnswerStands(st, answer);
    case PassWrite =>
    case PassComplete => PassCompleteStands(p, st);
    case PassEnd =>
  }

  lemma PassCompleteStands(p: Params, st: Sys)
    requires CanPassComplete(st)
    ensures LocksStand(st.db.rows, DoPassComplete(p, st).db.rows) && RunsStand(st, DoPassComplete(p, st))
  {
  }

  lemma FreshOther(p: Params, tm: Timing, st: Sys, step: Step)
    requires Fresh(tm, st) && Can(st, step) && !step.OfTick? && !step.OfRun? && !step.OfPass?
    ensures Fresh(tm, Do(p, st, step))
  {
    OtherStands(p, st, step);
    FreshStands(tm, st, Do(p, st, step));
  }

  lemma CancelStands(p: Params, st: Sys, c: CancelStep)
    requires CanStepCancel(st, c)
    ensures LocksStand(st.db.rows, DoStepCancel(p, st, c).db.rows) && RunsStand(st, DoStepCancel(p, st, c))
  {
  }

  lemma StoreStands(p: Params, st: Sys, o: StoreStep)
    requires CanStepStore(st, o)
    ensures LocksStand(st.db.rows, DoStepStore(p, st, o).db.rows) && RunsStand(st, DoStepStore(p, st, o))
  {
  }

  lemma FreezeStands(p: Params, st: Sys, f: FreezeStep)
    requires CanStepFreeze(st, f)
    ensures LocksStand(st.db.rows, DoStepFreeze(p, st, f).db.rows) && RunsStand(st, DoStepFreeze(p, st, f))
  {
  }

  lemma OtherStands(p: Params, st: Sys, step: Step)
    requires Can(st, step) && !step.OfTick? && !step.OfRun? && !step.OfPass?
    ensures LocksStand(st.db.rows, Do(p, st, step).db.rows) && RunsStand(st, Do(p, st, step))
  {
    match step
    case Advance(_) =>
    case OfCancel(c) => CancelStands(p, st, c);
    case OfFreeze(f) => FreezeStands(p, st, f);
    case OfStore(o) => StoreStands(p, st, o);
    case OfCrash(_) =>
  }

  lemma FreshStep(p: Params, tm: Timing, st: Sys, step: Step)
    requires WellFormed(st) && Owned(st) && Fresh(tm, st) && Timely(tm, st) && Can(st, step)
    ensures Fresh(tm, Do(p, st, step))
  {
    match step
    case OfTick(t) => FreshTick(tm, st, t);
    case OfRun(j) => FreshRun(p, tm, st, j);
    case OfPass(s) => FreshPass(p, tm, st, s);
    case _ => FreshOther(p, tm, st, step);
  }

  lemma {:induction false} FreshAlong(p: Params, tm: Timing, h: History, n: nat)
    requires IsTimelyRun(p, tm, h) && n < |h.states| && Calm(p, h, n)
    ensures Fresh(tm, h.states[n])
  {
    if n > 0 {
      FreshAlong(p, tm, h, n - 1);
      OwnedAlong(p, h, n - 1);
      WellFormedAlong(p, h, n - 1);
      StepOf(p, h, n - 1);
      assert Timely(tm, h.states[n - 1]);
      FreshStep(p, tm, h.states[n - 1], h.steps[n - 1]);
    }
  }

  /** How old the lock of a run in flight can get; none if there is no limit. */
  function LeaseTerm(p: Params, tm: Timing, st: Sys, r: RunId): Option<nat>
    requires InFlight(st.work.jobs, st.poll.asyncRuns, r)
  {
    if r in st.work.jobs then Some(tm.s + tm.h)
    else if LifeOf(p, tm, st.poll.asyncRuns[r]).None? then None
    else Some(tm.s + tm.h + LifeOf(p, tm, st.poll.asyncRuns[r]).value + tm.d)
  }

  ghost predicate AllBounded(p: Params, tm: Timing, poll: Polling) {
    forall r :: r in poll.asyncRuns ==> Bounded(p, tm, poll, r)
  }

  lemma LockIsYoung(p: Params, tm: Timing, st: Sys, r: RunId)
    requires Owned(st) && Fresh(tm, st) && Timely(tm, st) && AllBounded(p, tm, st.poll)
    requires InFlight(st.work.jobs, st.poll.asyncRuns, r) && LeaseTerm(p, tm, st, r).Some?
    ensures var id := IdOf(st.work.jobs, st.poll.asyncRuns, r);
            id in st.db.rows && st.db.rows[id].Locked() && st.clock - st.db.rows[id].lockedAt.value <= LeaseTerm(p, tm, st, r).value
  {
    if r in st.work.jobs {
      assert st.clock <= st.work.jobs[r].beat + tm.h;
    } else {
      OpenRunIsYoung(p, tm, st.clock, st.poll, r);
    }
  }

  lemma BoundedAll(p: Params, tm: Timing, h: History, n: nat)
    requires IsTimelyRun(p, tm, h) && n < |h.states|
    ensures AllBounded(p, tm, h.states[n].poll)
  {
    forall r | r in h.states[n].poll.asyncRuns ensures Bounded(p, tm, h.states[n].poll, r) {
      BoundedAlong(p, tm, h, n, r);
    }
  }

  /**
   * Run by run: in a timely history in which no cancel was late and no lock was reaped so far, the lock of a run
   * in flight is no older than its own term, whatever the other runs of the history are.
   */
  lemma LockAge(p: Params, tm: Timing, h: History, n: nat, r: RunId)
    requires IsTimelyRun(p, tm, h) && n < |h.states| && Calm(p, h, n)
    requires var st := h.states[n]; InFlight(st.work.jobs, st.poll.asyncRuns, r) && LeaseTerm(p, tm, st, r).Some?
    ensures var st := h.states[n];
            var id := IdOf(st.work.jobs, st.poll.asyncRuns, r);
            id in st.db.rows && st.db.rows[id].Locked() && st.clock - st.db.rows[id].lockedAt.value <= LeaseTerm(p, tm, st, r).value
  {
    OwnedAlong(p, h, n);
    FreshAlong(p, tm, h, n);
    BoundedAll(p, tm, h, n);
    assert Timely(tm, h.states[n]);
    LockIsYoung(p, tm, h.states[n], r);
  }

  // ---- the watchdog ----

  /** The lease of a busy run, renewed by its heartbeat, outlasts the time between renewals. */
  predicate Fits(p: Params, tm: Timing) {
    tm.s + tm.h <= p.ttl
  }

  /** The lease of an accepted run with this setting and interval outlasts its life. */
  predicate FitsAccepted(p: Params, tm: Timing, timeoutMs: Option<int>, w: nat) {
    var life := Life(CeilingFor(p, timeoutMs), w, tm.l);
    life.Some? && tm.s + tm.h + life.value + tm.d <= p.ttl
  }

  ghost predicate Capped(p: Params, tm: Timing, ars: Asyncs) {
    forall r :: r in ars ==> FitsAccepted(p, tm, ars[r].task.timeoutMs, ars[r].pollMs)
  }

  /** A timely run of the machine without a late cancel in which every accepted run fits its lease. */
  ghost predicate IsOrderlyRun(p: Params, tm: Timing, h: History) {
    && IsTimelyRun(p, tm, h)
    && NoLate(h, |h.steps|)
    && (forall k :: 0 <= k < |h.states| ==> Capped(p, tm, h.states[k].poll.asyncRuns))
  }

  /** No watchdog pass changes the table. */
  lemma NothingToReap(p: Params, tm: Timing, st: Sys, at: int)
    requires Owned(st) && Fresh(tm, st) && Timely(tm, st) && AllBounded(p, tm, st.poll)
    requires Fits(p, tm) && Capped(p, tm, st.poll.asyncRuns) && CanReap(st, at)
    ensures Reap(st.db.rows, at - p.ttl) == st.db.rows
  {
    forall id | id in st.db.rows ensures !Stale(st.db.rows[id], at - p.ttl) {
      if st.db.rows[id].Locked() {
        LockIsYoung(p, tm, st, st.past.owners[id]);
      }
    }
  }

  /** Nothing is ever reaped in an orderly run, so everything that holds in calm histories holds in it. */
  lemma {:induction false} OrderlyIsCalm(p: Params, tm: Timing, h: History, n: nat)
    requires IsOrderlyRun(p, tm, h) && Fits(p, tm) && n < |h.states|
    ensures Calm(p, h, n)
    decreases n, 0
  {
    if n > 0 {
      OrderlyIsCalm(p, tm, h, n - 1);
      StepOf(p, h, n - 1);
      if h.steps[n - 1].OfStore? && h.steps[n - 1].o.ReapPass? {
        NoLiveLockIsReaped(p, tm, h, n - 1, h.steps[n - 1].o.at);
      }
    }
  }

  /** In every state of an orderly run, no watchdog pass would release any lock. */
  lemma {:induction false} NoLiveLockIsReaped(p: Params, tm: Timing, h: History, n: nat, at: int)
    requires IsOrderlyRun(p, tm, h) && Fits(p, tm) && n < |h.states| && CanReap(h.states[n], at)
    ensures DoReap(p, h.states[n], at) == h.states[n]
    decreases n, 1
  {
    OrderlyIsCalm(p, tm, h, n);
    OwnedAlong(p, h, n);
    FreshAlong(p, tm, h, n);
    BoundedAll(p, tm, h, n);
    NothingToReap(p, tm, h.states[n], at);
  }

  /** In an orderly run two runs in flight never share a task. */
  lemma OrderlyExclusion(p: Params, tm: Timing, h: History, n: nat, r: RunId, q: RunId)
    requires IsOrderlyRun(p, tm, h) && Fits(p, tm) && n < |h.states| && h.states[n].up
    requires var st := h.states[n];
             InFlight(st.work.jobs, st.poll.asyncRuns, r) && InFlight(st.work.jobs, st.poll.asyncRuns, q) && TaskOf(st, r) == TaskOf(st, q)
    ensures r == q
  {
    OrderlyIsCalm(p, tm, h, n);
    MutualExclusion(p, h, n);
  }
}
