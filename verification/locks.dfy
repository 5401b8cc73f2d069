/** What the steps do to the locks: one lock per task, and no slot is lost in a crash. */
module Locks {
  import opened Records
  import opened Policy
  import opened Store
  import opened Protocol

  /** No lock is taken, no row appears or goes, and no row changes its task. */
  ghost predicate LocksShrink(rows: Rows, rows': Rows) {
    && rows'.Keys == rows.Keys
    && forall i :: i in rows ==> rows'[i].taskName == rows[i].taskName && (rows'[i].Locked() ==> rows[i].Locked())
  }

  /** The parts of a row that decide which attempt fires next; with the slot, they decide all of the next firing. */
  predicate SameCounts(a: Row, b: Row) {
    a.failCount == b.failCount && a.retryCount == b.retryCount && a.lastRunId == b.lastRunId
  }

  predicate SameSlot(a: Row, b: Row) {
    a.nextRunAt == b.nextRunAt && SameCounts(a, b)
  }

  /** No lock is taken, and a row that stays locked keeps its slot. */
  ghost predicate HoldsSlots(rows: Rows, rows': Rows) {
    && LocksShrink(rows, rows')
    && forall i :: i in rows && rows'[i].Locked() ==> SameSlot(rows[i], rows'[i])
  }

  lemma CompleteHolds(rows: Rows, id: Id, c: Completion)
    ensures HoldsSlots(rows, Complete(rows, id, c))
  {
  }

  predicate IsDispatch(step: Step) {
    step.OfTick? && step.t.Dispatch?
  }

  lemma RunHolds(p: Params, st: Sys, j: RunStep)
    requires CanStepRun(st, j)
    ensures HoldsSlots(st.db.rows, DoStepRun(p, st, j).db.rows)
  {
    if j.JobComplete? {
      CompleteHolds(st.db.rows, st.work.jobs[j.r].id, JobCompletion(p, st, j.r));
    }
  }

  lemma PassHolds(p: Params, st: Sys, s: PassStep)
    requires CanStepPass(st, s)
    ensures HoldsSlots(st.db.rows, DoStepPass(p, st, s).db.rows)
  {
    if s.PassComplete? {
      var c := st.poll.pass.value.cur;
      var ar := st.poll.asyncRuns[c.r];
      CompleteHolds(st.db.rows, ar.id, AsyncCompletion(p, ar, c.r, c.outcome, c.at));
    }
  }

  lemma CancelHolds(p: Params, st: Sys, c: CancelStep)
    requires CanStepCancel(st, c)
    ensures HoldsSlots(st.db.rows, DoStepCancel(p, st, c).db.rows)
  {
    if c.CancelComplete? {
      var ar := st.poll.asyncRuns[c.r];
      CompleteHolds(st.db.rows, ar.id, AsyncCompletion(p, ar, c.r, Cancelled, st.poll.cancels[c.r].at));
    }
  }

  /** The step is a resume pass writing the slot of schedule `id`. */
  predicate Skips(st: Sys, step: Step, id: Id) {
    && step.OfFreeze? && step.f.ResumeSkip? && CanResumeSkip(st, step.f.q)
    && st.freeze.resumes[step.f.q].todo[0].id == id && !Deferred(st.freeze.resumes[step.f.q].todo[0].row)
  }

  /** It writes a slot that the row does not have. */
  predicate Drops(p: Params, st: Sys, step: Step, id: Id) {
    Skips(st, step, id) && id in st.db.rows && SkippedTo(p, st, step.f.q) != st.db.rows[id].nextRunAt
  }

  lemma SkipDrops(p: Params, st: Sys, q: nat, id: Id)
    requires CanResumeSkip(st, q) && id in st.db.rows
    ensures LocksShrink(st.db.rows, DoResumeSkip(p, st, q).db.rows)
    ensures SameCounts(st.db.rows[id], DoResumeSkip(p, st, q).db.rows[id])
    ensures DoResumeSkip(p, st, q).db.rows[id].nextRunAt == st.db.rows[id].nextRunAt <==> !Drops(p, st, OfFreeze(ResumeSkip(q)), id)
  {
  }

  lemma FreezeDrops(p: Params, st: Sys, f: FreezeStep, id: Id)
    requires CanStepFreeze(st, f) && id in st.db.rows
    ensures LocksShrink(st.db.rows, DoStepFreeze(p, st, f).db.rows)
    ensures SameCounts(st.db.rows[id], DoStepFreeze(p, st, f).db.rows[id])
    ensures DoStepFreeze(p, st, f).db.rows[id].nextRunAt == st.db.rows[id].nextRunAt <==> !Drops(p, st, OfFreeze(f), id)
  {
    if f.ResumeSkip? { SkipDrops(p, st, f.q, id); }
  }

  lemma StoreHolds(p: Params, st: Sys, o: StoreStep)
    requires CanStepStore(st, o)
    ensures HoldsSlots(st.db.rows, DoStepStore(p, st, o).db.rows)
  {
    match o
    case ReapPass(at) => ReapHolds(st.db.rows, at - p.ttl);
    case Toggle(_, _, _) =>
    case EditTask(_, _) =>
  }

  lemma ReapHolds(rows: Rows, cutoff: int)
    ensures HoldsSlots(rows, Reap(rows, cutoff))
  {
  }

  lemma CrashHolds(st: Sys, x: CrashStep)
    requires CanStepCrash(st, x)
    ensures HoldsSlots(st.db.rows, DoStepCrash(st, x).db.rows)
  {
  }

  /**
   * Only a dispatch takes a lock, and of all other steps only the write of a resume pass moves the slot of a row
   * that stays locked.
   */
  lemma OnlyDispatchLocks(p: Params, st: Sys, step: Step, id: Id)
    requires Can(st, step) && !IsDispatch(step) && id in st.db.rows
    ensures LocksShrink(st.db.rows, Do(p, st, step).db.rows)
    ensures var row := Do(p, st, step).db.rows[id];
            row.Locked() ==> SameCounts(st.db.rows[id], row) && (row.nextRunAt == st.db.rows[id].nextRunAt <==> !Drops(p, st, step, id))
  {
    match step
    case Advance(_) =>
    case OfTick(_) =>
    case OfRun(j) => RunHolds(p, st, j);
    case OfPass(s) => PassHolds(p, st, s);
    case OfCancel(c) => CancelHolds(p, st, c);
    case OfFreeze(f) => FreezeDrops(p, st, f, id);
    case OfStore(o) => StoreHolds(p, st, o);
    case OfCrash(x) => CrashHolds(st, x);
  }

  lemma LocksOnlyShrink(p: Params, st: Sys, step: Step)
    requires Can(st, step) && !IsDispatch(step)
    ensures LocksShrink(st.db.rows, Do(p, st, step).db.rows)
  {
    if id :| id in st.db.rows {
      OnlyDispatchLocks(p, st, step, id);
    } else {
      RowsStay(p, st, step);
    }
  }

  lemma RowsStay(p: Params, st: Sys, step: Step)
    requires Can(st, step)
    ensures Do(p, st, step).db.rows.Keys == st.db.rows.Keys
  {
    match step
    case Advance(_) =>
    case OfTick(_) =>
    case OfRun(j) => RunHolds(p, st, j);
    case OfPass(s) => PassHolds(p, st, s);
    case OfCancel(c) => CancelHolds(p, st, c);
    case OfFreeze(_) =>
    case OfStore(o) => StoreHolds(p, st, o);
    case OfCrash(x) => CrashHolds(st, x);
  }

  // ---- one lock per task ----

  ghost predicate OneLockPerTask(rows: Rows) {
    forall i, j :: i in rows && j in rows && rows[i].Locked() && rows[j].Locked() && rows[i].taskName == rows[j].taskName ==> i == j
  }

  lemma ClaimKeepsOne(rows: Rows, id: Id, at: int)
    requires OneLockPerTask(rows) && Claimable(rows, id)
    ensures OneLockPerTask(Claim(rows, id, at))
  {
    assert !TaskBusy(rows, rows[id].taskName);
  }

  lemma ShrinkKeepsOne(rows: Rows, rows': Rows)
    requires OneLockPerTask(rows) && LocksShrink(rows, rows')
    ensures OneLockPerTask(rows')
  {
  }

  /** In every reachable state at most one schedule of each task is locked. */
  lemma PerTaskCeiling(p: Params, h: History, n: nat)
    requires IsRun(p, h) && n < |h.states|
    ensures OneLockPerTask(h.states[n].db.rows)
  {
    if n > 0 {
      PerTaskCeiling(p, h, n - 1);
      StepOf(p, h, n - 1);
      var st, step := h.states[n - 1], h.steps[n - 1];
      if IsDispatch(step) {
        ClaimKeepsOne(st.db.rows, st.tick.value.ready[step.t.k].id, st.tick.value.now);
      } else {
        LocksOnlyShrink(p, st, step);
        ShrinkKeepsOne(st.db.rows, Do(p, st, step).db.rows);
      }
    }
  }

  // ---- the slot of a locked row ----

  /** Step `k` claims row `id`. */
  predicate Claims(st: Sys, step: Step, id: Id) {
    IsDispatch(step) && CanDispatch(st, step.t.k) && st.tick.value.ready[step.t.k].id == id
  }

  lemma DispatchLocksOne(st: Sys, k: nat, id: Id)
    requires CanDispatch(st, k) && id in DoDispatch(st, k).db.rows && st.tick.value.ready[k].id != id
    ensures id in st.db.rows && DoDispatch(st, k).db.rows[id] == st.db.rows[id]
  {
  }

  /** Claimed at step `k` and locked ever since, with the counters it had. */
  ghost predicate HeldSince(h: History, k: nat, n: nat, id: Id)
    requires k <= n < |h.states|
  {
    && id in h.states[k].db.rows
    && forall i :: k < i <= n ==>
         && id in h.states[i].db.rows && h.states[i].db.rows[id].Locked()
         && SameCounts(h.states[k].db.rows[id], h.states[i].db.rows[id])
  }

  /** The row has one and the same slot from state `m` to state `n`. */
  ghost predicate SlotKept(h: History, m: nat, n: nat, id: Id)
    requires m <= n < |h.states|
  {
    && id in h.states[m].db.rows
    && forall i :: m <= i <= n ==> id in h.states[i].db.rows && h.states[i].db.rows[id].nextRunAt == h.states[m].db.rows[id].nextRunAt
  }

  /** A resume pass moves the slot of the row in one of the steps from `m` up to `n`. */
  ghost predicate DroppedIn(p: Params, h: History, m: nat, n: nat, id: Id)
    requires n <= |h.steps| && n <= |h.states|
  {
    exists c :: m <= c < n && Drops(p, h.states[c], h.steps[c], id)
  }

  lemma LockedStep(p: Params, h: History, n: nat, id: Id)
    requires IsRun(p, h) && n < |h.steps| && id in h.states[n + 1].db.rows && h.states[n + 1].db.rows[id].Locked()
    requires !Claims(h.states[n], h.steps[n], id)
    ensures id in h.states[n].db.rows && h.states[n].db.rows[id].Locked()
    ensures SameCounts(h.states[n].db.rows[id], h.states[n + 1].db.rows[id])
    ensures h.states[n + 1].db.rows[id].nextRunAt == h.states[n].db.rows[id].nextRunAt <==> !Drops(p, h.states[n], h.steps[n], id)
  {
    StepOf(p, h, n);
    var st, step := h.states[n], h.steps[n];
    RowsStay(p, st, step);
    if IsDispatch(step) {
      DispatchLocksOne(st, step.t.k, id);
    } else {
      OnlyDispatchLocks(p, st, step, id);
    }
  }

  lemma {:induction false} ClaimBehind(p: Params, h: History, n: nat, id: Id) returns (k: nat)
    requires IsRun(p, h) && n < |h.states| && id in h.states[n].db.rows && h.states[n].db.rows[id].Locked()
    ensures k < n && Claims(h.states[k], h.steps[k], id) && HeldSince(h, k, n, id)
  {
    assert n > 0;
    if Claims(h.states[n - 1], h.steps[n - 1], id) {
      k := n - 1;
      StepOf(p, h, k);
    } else {
      LockedStep(p, h, n - 1, id);
      k := ClaimBehind(p, h, n - 1, id);
    }
  }

  lemma HeldSlotNext(p: Params, h: History, k: nat, n: nat, id: Id)
    requires IsRun(p, h) && k < n < |h.steps| && HeldSince(h, k, n + 1, id)
    requires SlotKept(h, k, n, id) <==> !DroppedIn(p, h, k + 1, n, id)
    ensures SlotKept(h, k, n + 1, id) <==> !DroppedIn(p, h, k + 1, n + 1, id)
  {
    assert h.states[n].db.rows[id].Locked();
    LockedStep(p, h, n, id);
    if DroppedIn(p, h, k + 1, n, id) {
      var c :| k + 1 <= c < n && Drops(p, h.states[c], h.steps[c], id);
      assert DroppedIn(p, h, k + 1, n + 1, id);
    }
  }

  lemma {:induction false} HeldSlot(p: Params, h: History, k: nat, n: nat, id: Id)
    requires IsRun(p, h) && k < n < |h.states| && Claims(h.states[k], h.steps[k], id) && HeldSince(h, k, n, id)
    ensures SlotKept(h, k, n, id) <==> !DroppedIn(p, h, k + 1, n, id)
  {
    if n == k + 1 {
      StepOf(p, h, k);
    } else {
      HeldSlot(p, h, k, n - 1, id);
      HeldSlotNext(p, h, k, n - 1, id);
    }
  }

  /** Pass `q` is under way in the states from `m` to `n`. */
  ghost predicate UnderWay(h: History, q: nat, m: nat, n: nat)
    requires n < |h.states|
  {
    forall i :: m <= i <= n ==> q in h.states[i].freeze.resumes
  }

  predicate Begins(step: Step, q: nat) {
    step.OfFreeze? && step.f.ResumeBegin? && step.f.q == q
  }

  lemma FreezePasses(p: Params, st: Sys, step: Step, q: nat)
    requires Can(st, step) && q in Do(p, st, step).freeze.resumes
    ensures || (Begins(step, q) && Do(p, st, step).freeze.resumes[q] == Resume(step.f.at, {}, []))
            || (q in st.freeze.resumes && Do(p, st, step).freeze.resumes[q].now == st.freeze.resumes[q].now)
  {
  }

  lemma FreezeEntries(p: Params, st: Sys, step: Step, q: nat, e: Entry)
    requires Can(st, step) && q in Do(p, st, step).freeze.resumes && e in Do(p, st, step).freeze.resumes[q].todo
    ensures q in st.freeze.resumes
    ensures e in st.freeze.resumes[q].todo || (step.OfFreeze? && step.f.ResumePage? && step.f.q == q && e in step.f.overdue)
  {
  }

  /** A pass under way began at some step, with the time it still has. */
  lemma {:induction false} PassBegan(p: Params, h: History, n: nat, q: nat) returns (b: nat)
    requires IsRun(p, h) && n < |h.states| && q in h.states[n].freeze.resumes
    ensures b < n && Begins(h.steps[b], q) && UnderWay(h, q, b + 1, n)
    ensures h.states[n].freeze.resumes[q].now == h.steps[b].f.at
  {
    assert n > 0;
    StepOf(p, h, n - 1);
    FreezePasses(p, h.states[n - 1], h.steps[n - 1], q);
    if Begins(h.steps[n - 1], q) {
      b := n - 1;
    } else {
      b := PassBegan(p, h, n - 1, q);
    }
  }

  /** What a pass still has to visit was read in one of its pages, where it was overdue. */
  lemma {:induction false} EntryRead(p: Params, h: History, n: nat, q: nat, e: Entry) returns (r: nat)
    requires IsRun(p, h) && n < |h.states| && q in h.states[n].freeze.resumes && e in h.states[n].freeze.resumes[q].todo
    ensures r < n && h.steps[r].OfFreeze? && UnderWay(h, q, r, n) && h.states[r].freeze.resumes[q].now == h.states[n].freeze.resumes[q].now
    ensures e.id in h.states[r].db.rows && e.row == h.states[r].db.rows[e.id] && Overdue(e.row, h.states[n].freeze.resumes[q].now)
  {
    assert n > 0;
    StepOf(p, h, n - 1);
    FreezePasses(p, h.states[n - 1], h.steps[n - 1], q);
    FreezeEntries(p, h.states[n - 1], h.steps[n - 1], q, e);
    if e in h.states[n - 1].freeze.resumes[q].todo {
      r := EntryRead(p, h, n - 1, q, e);
    } else {
      r := n - 1;
    }
  }

  lemma Releases(p: Params, st: Sys, step: Step)
    requires Can(st, step) && st.freeze.paused && !Do(p, st, step).freeze.paused
    ensures (step.OfFreeze? && step.f.ResumeEnd?) || Do(p, st, step).freeze.resumes == map[]
  {
  }

  /** A queue is released between a state in which it is paused and a later one in which it is not. */
  lemma {:induction false} ReleasedBetween(p: Params, h: History, m: nat, n: nat, q: nat) returns (j: nat)
    requires IsRun(p, h) && m <= n < |h.states| && h.states[m].freeze.paused && !h.states[n].freeze.paused
    requires UnderWay(h, q, m + 1, n)
    ensures m <= j < n && h.steps[j].OfFreeze? && h.steps[j].f.ResumeEnd?
  {
    StepOf(p, h, n - 1);
    if h.states[n - 1].freeze.paused {
      Releases(p, h.states[n - 1], h.steps[n - 1]);
      assert q in h.states[n].freeze.resumes;
      j := n - 1;
    } else {
      j := ReleasedBetween(p, h, m, n - 1, q);
    }
  }

  /** Pass `q` was under way already when step `j` ended another one, and at step `c` it moves the slot of the row. */
  ghost predicate Overruns(p: Params, h: History, j: nat, c: nat, q: nat, id: Id)
    requires j <= c < |h.steps| && c < |h.states|
  {
    && h.steps[j].OfFreeze? && h.steps[j].f.ResumeEnd? && UnderWay(h, q, j, c)
    && Drops(p, h.states[c], h.steps[c], id) && h.steps[c].f.q == q
  }

  /** A claim at `k` falls between the end of one resume and a slot-moving write, before `n`, of another one still under way. */
  ghost predicate Overrun(p: Params, h: History, k: nat, n: nat, id: Id)
    requires n <= |h.steps| && n <= |h.states|
  {
    exists j: nat, c: nat, q: nat :: j < k < c < n && Overruns(p, h, j, c, q, id)
  }

  lemma DropOverruns(p: Params, h: History, k: nat, c: nat, id: Id) returns (j: nat)
    requires IsRun(p, h) && k < c < |h.steps| && Claims(h.states[k], h.steps[k], id) && HeldSince(h, k, c, id)
    requires Drops(p, h.states[c], h.steps[c], id)
    ensures j < k && Overruns(p, h, j, c, h.steps[c].f.q, id)
  {
    var q := h.steps[c].f.q;
    var b := PassBegan(p, h, c, q);
    var r := EntryRead(p, h, c, q, h.states[c].freeze.resumes[q].todo[0]);
    StepOf(p, h, b);
    assert !h.states[r].db.rows[id].Locked();
    assert r < k;
    assert b < r by { NotBeforeBegin(p, h, b, q); }
    j := ReleasedBetween(p, h, b, k, q);
  }

  lemma NotBeforeBegin(p: Params, h: History, b: nat, q: nat)
    requires IsRun(p, h) && b < |h.steps| && Begins(h.steps[b], q)
    ensures q !in h.states[b].freeze.resumes
  {
    StepOf(p, h, b);
  }

  lemma HeldOverrun(p: Params, h: History, k: nat, n: nat, id: Id)
    requires IsRun(p, h) && k < n < |h.states| && Claims(h.states[k], h.steps[k], id) && HeldSince(h, k, n, id)
    ensures DroppedIn(p, h, k + 1, n, id) <==> Overrun(p, h, k, n, id)
  {
    if DroppedIn(p, h, k + 1, n, id) {
      var c :| k + 1 <= c < n && Drops(p, h.states[c], h.steps[c], id);
      var j := DropOverruns(p, h, k, c, id);
      assert Overruns(p, h, j, c, h.steps[c].f.q, id);
    }
    if Overrun(p, h, k, n, id) {
      var j: nat, c: nat, q: nat :| j < k < c < n && Overruns(p, h, j, c, q, id);
      assert Drops(p, h.states[c], h.steps[c], id);
    }
  }

  /**
   * A locked row was claimed at some earlier step and has been locked ever since, with the counters it had
   * then. It has also kept its slot all the time if and only if that claim does not fall between the end of one
   * resume and the write of another one that is still under way.
   */
  lemma LockedSinceClaim(p: Params, h: History, n: nat, id: Id) returns (k: nat)
    requires IsRun(p, h) && n < |h.states| && id in h.states[n].db.rows && h.states[n].db.rows[id].Locked()
    ensures k < n && Claims(h.states[k], h.steps[k], id) && HeldSince(h, k, n, id)
    ensures SlotKept(h, k, n, id) <==> !Overrun(p, h, k, n, id)
  {
    k := ClaimBehind(p, h, n, id);
    HeldSlot(p, h, k, n, id);
    HeldOverrun(p, h, k, n, id);
  }

  // ---- one resume at a time ----

  /** No resume begins while another one is under way: what `resume` would have to check. */
  ghost predicate Alone(h: History) {
    |h.states| == |h.steps| + 1
    && forall k :: 0 <= k < |h.steps| && h.steps[k].OfFreeze? && h.steps[k].f.ResumeBegin? ==> h.states[k].freeze.resumes == map[]
  }

  ghost predicate OnePass(freeze: Freeze) {
    && (forall q, r :: q in freeze.resumes && r in freeze.resumes ==> q == r)
    && (freeze.resumes != map[] ==> freeze.paused)
  }

  lemma OnePassStep(p: Params, st: Sys, step: Step)
    requires Can(st, step) && OnePass(st.freeze)
    requires step.OfFreeze? && step.f.ResumeBegin? ==> st.freeze.resumes == map[]
    ensures OnePass(Do(p, st, step).freeze)
  {
    if step.OfFreeze? && step.f.ResumeEnd? {
      assert st.freeze.resumes - {step.f.q} == map[];
    }
  }

  lemma {:induction false} OnePassAlong(p: Params, h: History, n: nat)
    requires IsRun(p, h) && Alone(h) && n < |h.states|
    ensures OnePass(h.states[n].freeze)
  {
    if n > 0 {
      OnePassAlong(p, h, n - 1);
      StepOf(p, h, n - 1);
      OnePassStep(p, h.states[n - 1], h.steps[n - 1]);
    }
  }

  /** With one resume at a time no claim is overrun. */
  lemma AloneKeepsSlots(p: Params, h: History, k: nat, n: nat, id: Id)
    requires IsRun(p, h) && Alone(h) && n < |h.states|
    ensures !Overrun(p, h, k, n, id)
  {
    if Overrun(p, h, k, n, id) {
      var j: nat, c: nat, q: nat :| j < k < c < n && Overruns(p, h, j, c, q, id);
      StepOf(p, h, j);
      OnePassAlong(p, h, j);
      assert false;
    }
  }

  lemma HeldAlone(p: Params, h: History, k: nat, n: nat, id: Id)
    requires IsRun(p, h) && Alone(h) && k < n < |h.states| && Claims(h.states[k], h.steps[k], id) && HeldSince(h, k, n, id)
    ensures !DroppedIn(p, h, k, n, id)
  {
    HeldOverrun(p, h, k, n, id);
    AloneKeepsSlots(p, h, k, n, id);
    assert !Drops(p, h.states[k], h.steps[k], id);
  }

  // ---- what the tick holds ----

  /** What the tick holds was due at the tick's time. */
  ghost predicate TickDue(tick: Option<Tick>, clock: int) {
    tick.Some? ==>
      && tick.value.now <= clock
      && (forall k :: 0 <= k < |tick.value.todo| ==> WasDue(tick.value.todo[k].row, tick.value.now))
      && (forall k :: 0 <= k < |tick.value.ready| ==> WasDue(tick.value.ready[k].row, tick.value.now))
  }

  predicate WasDue(row: Row, now: int) {
    row.nextRunAt.Some? && row.nextRunAt.value <= now
  }

  lemma TickDueTick(st: Sys, t: TickStep)
    requires CanStepTick(st, t) && Reads(st, OfTick(t)) && TickDue(st.tick, st.clock)
    ensures TickDue(DoStepTick(st, t).tick, DoStepTick(st, t).clock)
  {
    match t
    case TickBegin(now, due) =>
      forall k | 0 <= k < |due| ensures WasDue(due[k].row, now) { assert Due(st.db.rows, due[k].id, now); }
    case TickCheck(_) =>
    case Dispatch(_) =>
    case TickDrop(_) =>
    case TickEnd =>
  }

  /** No step but a tick's changes what the tick holds, except that a crash forgets it; the clock never goes back. */
  lemma TickKept(p: Params, st: Sys, step: Step)
    requires Can(st, step) && !step.OfTick?
    ensures Do(p, st, step).tick == st.tick || Do(p, st, step).tick == None
    ensures st.clock <= Do(p, st, step).clock
  {
  }

  lemma TickDueAlong(p: Params, h: History, n: nat)
    requires IsRun(p, h) && n < |h.states|
    ensures TickDue(h.states[n].tick, h.states[n].clock)
  {
    if n > 0 {
      TickDueAlong(p, h, n - 1);
      StepOf(p, h, n - 1);
      if h.steps[n - 1].OfTick? {
        TickDueTick(h.states[n - 1], h.steps[n - 1].t);
      } else {
        TickKept(p, h.states[n - 1], h.steps[n - 1]);
      }
    }
  }
}
