/**
 * Syncing beside the engine. `applySchedule` reads a schedule row, waits, and writes the whole row back with the
 * declared terms. Here these two statements are steps beside those of the engine; any number of them may be under way
 * (the sync timer, requests that register a task). A declaration writes to its own row: its key is held by no other one.
 */
module Rewrites {
  import opened Records
  import opened Policy
  import opened Store
  import opened Protocol
  import opened Finish
  import opened Locks
  import opened Ownership
  import Sync

  /** The engine, and the rows that have been read and not yet written back. */
  datatype World = World(sys: Sys, pending: map<nat, Entry>)

  datatype Action = ByEngine(step: Step) | ReadRow(q: nat, id: Id) | WriteRow(q: nat, s: Sync.ScheduleRow)

  /** The stored row behind a row of the engine; the columns the engine does not look at are those of `s`. */
  function Stored(row: Row, s: Sync.ScheduleRow): Sync.ScheduleRow {
    Sync.ScheduleRow(
      row.taskName, s.terms.(rule := row.rule, tz := row.tz, priority := row.priority, retry := row.retry), row.nextRunAt,
      Sync.Live(row.lastRunAt, row.lockedAt, row.failCount, row.retryCount, row.lastRunId, row.paused, row.disabled), s.fileManaged)
  }

  function Seen(s: Sync.ScheduleRow): Row {
    Row(s.taskName, s.terms.rule, s.terms.tz, s.nextRunAt, s.live.lastRunAt, s.live.lockedAt, s.live.failCount, s.terms.priority,
        s.terms.retry, s.live.retryCount, s.live.lastRunId, s.live.paused, s.live.disabled)
  }

  /** The row that is written for a declaration, given the row read. */
  function Rewritten(row: Row, s: Sync.ScheduleRow): Row {
    Seen(Sync.MergeSchedule(Stored(row, s), s))
  }

  function WriteBack(st: Sys, e: Entry, s: Sync.ScheduleRow): Sys {
    st.(db := st.db.(rows := st.db.rows[e.id := Rewritten(e.row, s)]))
  }

  ghost predicate CanAct(w: World, a: Action) {
    match a
    case ByEngine(step) => Can(w.sys, step) && Reads(w.sys, step)
    case ReadRow(q, id) => q !in w.pending && id in w.sys.db.rows
    case WriteRow(q, _) => q in w.pending
  }

  /** A crash takes the reads with it: the sync runs in the process of the engine. */
  ghost function Act(p: Params, w: World, a: Action): World
    requires CanAct(w, a)
  {
    match a
    case ByEngine(step) => World(Do(p, w.sys, step), if step == OfCrash(Crash) then map[] else w.pending)
    case ReadRow(q, id) => World(w.sys, w.pending[q := Entry(id, w.sys.db.rows[id])])
    case WriteRow(q, s) => World(WriteBack(w.sys, w.pending[q], s), w.pending - {q})
  }

  datatype Trace = Trace(worlds: seq<World>, actions: seq<Action>)

  ghost predicate ActionAt(p: Params, t: Trace, k: nat)
    requires k < |t.actions| && |t.worlds| == |t.actions| + 1
  {
    CanAct(t.worlds[k], t.actions[k]) && t.worlds[k + 1] == Act(p, t.worlds[k], t.actions[k])
  }

  /** A finite run of engine and syncs. */
  ghost predicate IsTrace(p: Params, t: Trace) {
    && |t.worlds| == |t.actions| + 1
    && Init(t.worlds[0].sys) && t.worlds[0].pending == map[]
    && forall k :: 0 <= k < |t.actions| ==> ActionAt(p, t, k)
  }

  // ---- what the steps of the engine change ----

  /** The schedule a step completes, and the completion. */
  ghost function CompletionOf(p: Params, st: Sys, step: Step): Option<(Id, Completion)>
    requires Can(st, step)
  {
    match step
    case OfRun(JobComplete(r)) => Some((st.work.jobs[r].id, JobCompletion(p, st, r)))
    case OfPass(PassComplete) =>
      var c := st.poll.pass.value.cur;
      Some((st.poll.asyncRuns[c.r].id, AsyncCompletion(p, st.poll.asyncRuns[c.r], c.r, c.outcome, c.at)))
    case OfCancel(CancelComplete(r)) =>
      Some((st.poll.asyncRuns[r].id, AsyncCompletion(p, st.poll.asyncRuns[r], r, Cancelled, st.poll.cancels[r].at)))
    case _ => None
  }

  ghost predicate Completes(p: Params, st: Sys, step: Step, id: Id)
    requires Can(st, step)
  {
    CompletionOf(p, st, step).Some? && CompletionOf(p, st, step).value.0 == id
  }

  /** The step takes or releases the lock of the schedule. */
  ghost predicate MovesLock(p: Params, st: Sys, step: Step, id: Id)
    requires Can(st, step) && id in st.db.rows
  {
    var row := st.db.rows[id];
    if !row.Locked() then Claims(st, step, id)
    else
      || Completes(p, st, step, id)
      || (step.OfStore? && step.o.ReapPass? && Stale(row, step.o.at - p.ttl))
      || step == OfCrash(RecoverLocks)
  }

  /** The step changes the row of the schedule and leaves its lock taken or free as it is. */
  ghost predicate MovesRest(p: Params, st: Sys, step: Step, id: Id)
    requires Can(st, step) && id in st.db.rows
  {
    var row := st.db.rows[id];
    || (!row.Locked() && Completes(p, st, step, id) && RowAfter(row, CompletionOf(p, st, step).value.1) != row)
    || (step.OfRun? && step.j.Heartbeat? && st.work.jobs[step.j.r].id == id && row.Locked() && row.lockedAt.value != st.clock)
    || (step.OfStore? && step.o.Toggle? && step.o.id == id && (step.o.pausedFlag != row.paused || step.o.disabledFlag != row.disabled))
    || Drops(p, st, step, id)
  }

  lemma TouchesRun(p: Params, st: Sys, j: RunStep, id: Id)
    requires CanStepRun(st, j) && id in st.db.rows
    ensures var row := DoStepRun(p, st, j).db.rows[id];
            && (row.Locked() != st.db.rows[id].Locked() <==> MovesLock(p, st, OfRun(j), id))
            && (row != st.db.rows[id] <==> MovesLock(p, st, OfRun(j), id) || MovesRest(p, st, OfRun(j), id))
  {
  }

  lemma TouchesPass(p: Params, st: Sys, s: PassStep, id: Id)
    requires CanStepPass(st, s) && id in st.db.rows
    ensures var row := DoStepPass(p, st, s).db.rows[id];
            && (row.Locked() != st.db.rows[id].Locked() <==> MovesLock(p, st, OfPass(s), id))
            && (row != st.db.rows[id] <==> MovesLock(p, st, OfPass(s), id) || MovesRest(p, st, OfPass(s), id))
  {
  }

  lemma TouchesCancel(p: Params, st: Sys, c: CancelStep, id: Id)
    requires CanStepCancel(st, c) && id in st.db.rows
    ensures var row := DoStepCancel(p, st, c).db.rows[id];
            && (row.Locked() != st.db.rows[id].Locked() <==> MovesLock(p, st, OfCancel(c), id))
            && (row != st.db.rows[id] <==> MovesLock(p, st, OfCancel(c), id) || MovesRest(p, st, OfCancel(c), id))
  {
  }

  lemma TouchesStore(p: Params, st: Sys, o: StoreStep, id: Id)
    requires CanStepStore(st, o) && id in st.db.rows
    ensures var row := DoStepStore(p, st, o).db.rows[id];
            && (row.Locked() != st.db.rows[id].Locked() <==> MovesLock(p, st, OfStore(o), id))
            && (row != st.db.rows[id] <==> MovesLock(p, st, OfStore(o), id) || MovesRest(p, st, OfStore(o), id))
  {
  }

  lemma TouchesFreeze(p: Params, st: Sys, f: FreezeStep, id: Id)
    requires CanStepFreeze(st, f) && id in st.db.rows
    ensures var row := DoStepFreeze(p, st, f).db.rows[id];
            && row.Locked() == st.db.rows[id].Locked()
            && (row != st.db.rows[id] <==> MovesRest(p, st, OfFreeze(f), id))
  {
    FreezeDrops(p, st, f, id);
  }

  /**
   * Exactly which steps of the engine change a schedule's row, and which of them its lock: a claim, a completion of a
   * locked row, a watchdog pass that finds it stale and the clearing of the locks move the lock; of the others a late
   * completion, a heartbeat, an operator's edit and a resume write that moves the slot change the rest.
   */
  lemma StepsThatTouch(p: Params, st: Sys, step: Step, id: Id)
    requires Can(st, step) && id in st.db.rows
    ensures id in Do(p, st, step).db.rows
    ensures var row := Do(p, st, step).db.rows[id];
            && (row.Locked() != st.db.rows[id].Locked() <==> MovesLock(p, st, step, id))
            && (row != st.db.rows[id] <==> MovesLock(p, st, step, id) || MovesRest(p, st, step, id))
  {
    RowsStay(p, st, step);
    match step
    case Advance(_) =>
    case OfTick(_) =>
    case OfRun(j) => TouchesRun(p, st, j, id);
    case OfPass(s) => TouchesPass(p, st, s, id);
    case OfCancel(c) => TouchesCancel(p, st, c, id);
    case OfFreeze(f) => TouchesFreeze(p, st, f, id);
    case OfStore(o) => TouchesStore(p, st, o, id);
    case OfCrash(_) =>
  }

  // ---- what a write finds ----

  /** A write of a sync that leaves the row of the schedule as it is, or only its lock. */
  predicate Agrees(w: World, q: nat, s: Sync.ScheduleRow, locksOnly: bool)
    requires q in w.pending
  {
    var e := w.pending[q];
    && e.id in w.sys.db.rows
    && if locksOnly then e.row.Locked() == w.sys.db.rows[e.id].Locked() else Rewritten(e.row, s) == w.sys.db.rows[e.id]
  }

  /** The action changes the row of the schedule, or only its lock. */
  ghost predicate Touches(p: Params, w: World, a: Action, id: Id, locksOnly: bool)
    requires id in w.sys.db.rows
  {
    CanAct(w, a) &&
    match a
    case ByEngine(step) => MovesLock(p, w.sys, step, id) || (!locksOnly && MovesRest(p, w.sys, step, id))
    case ReadRow(_, _) => false
    case WriteRow(q, s) => w.pending[q].id == id && !Agrees(w, q, s, locksOnly)
  }

  predicate Same(a: Row, b: Row, locksOnly: bool) {
    if locksOnly then a.Locked() == b.Locked() else a == b
  }

  lemma ActTouches(p: Params, w: World, a: Action, id: Id, locksOnly: bool)
    requires CanAct(w, a) && id in w.sys.db.rows
    ensures id in Act(p, w, a).sys.db.rows
    ensures Same(w.sys.db.rows[id], Act(p, w, a).sys.db.rows[id], locksOnly) <==> !Touches(p, w, a, id, locksOnly)
  {
    if a.ByEngine? { StepsThatTouch(p, w.sys, a.step, id); }
  }

  /** Read `q` is the read of the row of the schedule at `i`, still to be written at `n`, by the same process. */
  ghost predicate ReadAt(t: Trace, i: nat, n: nat, q: nat, e: Entry)
    requires n < |t.worlds| && |t.worlds| == |t.actions| + 1
  {
    && i < n && t.actions[i] == ReadRow(q, e.id) && e.id in t.worlds[i].sys.db.rows && e.row == t.worlds[i].sys.db.rows[e.id]
    && (forall k :: i < k <= n ==> q in t.worlds[k].pending && t.worlds[k].pending[q] == e)
    && forall k :: i < k < n ==> t.actions[k] != ByEngine(OfCrash(Crash))
  }

  lemma {:induction false} ReadBehind(p: Params, t: Trace, n: nat, q: nat) returns (i: nat)
    requires IsTrace(p, t) && n < |t.worlds| && q in t.worlds[n].pending
    ensures ReadAt(t, i, n, q, t.worlds[n].pending[q])
  {
    assert n > 0;
    assert ActionAt(p, t, n - 1);
    if q in t.worlds[n - 1].pending { i := ReadBehind(p, t, n - 1, q); } else { i := n - 1; }
  }

  /** Between two states in which the row differs, or its lock, lies an action that changes it. */
  lemma {:induction false} TouchedBetween(p: Params, t: Trace, i: nat, n: nat, id: Id, locksOnly: bool) returns (k: nat)
    requires IsTrace(p, t) && i <= n < |t.worlds| && id in t.worlds[i].sys.db.rows
    requires id in t.worlds[n].sys.db.rows ==> !Same(t.worlds[i].sys.db.rows[id], t.worlds[n].sys.db.rows[id], locksOnly)
    ensures i <= k < n && id in t.worlds[k].sys.db.rows && Touches(p, t.worlds[k], t.actions[k], id, locksOnly)
    decreases n
  {
    assert n > i;
    assert ActionAt(p, t, n - 1);
    if id in t.worlds[n - 1].sys.db.rows {
      ActTouches(p, t.worlds[n - 1], t.actions[n - 1], id, locksOnly);
      if Same(t.worlds[i].sys.db.rows[id], t.worlds[n - 1].sys.db.rows[id], locksOnly) {
        k := n - 1;
      } else {
        k := TouchedBetween(p, t, i, n - 1, id, locksOnly);
      }
    } else {
      k := TouchedBetween(p, t, i, n - 1, id, locksOnly);
    }
  }

  /** The row read, with the terms of the declaration; its slot moves only when the rule or the zone does. */
  predicate IsRewritten(read: Row, s: Sync.ScheduleRow, written: Row) {
    && written.rule == s.terms.rule && written.tz == s.terms.tz && written.priority == s.terms.priority && written.retry == s.terms.retry
    && written.nextRunAt == (if read.rule == s.terms.rule && read.tz == s.terms.tz then read.nextRunAt else s.nextRunAt)
    && written.(rule := read.rule, tz := read.tz, priority := read.priority, retry := read.retry, nextRunAt := read.nextRunAt) == read
  }

  lemma RewrittenIs(row: Row, s: Sync.ScheduleRow)
    ensures IsRewritten(row, s, Rewritten(row, s))
  {
  }

  /**
   * After the write the row is the one read, with the declared terms: all that happened to it since the read is undone.
   * Nothing else changes.
   */
  lemma WriteUndoes(p: Params, t: Trace, n: nat, q: nat, s: Sync.ScheduleRow) returns (i: nat)
    requires IsTrace(p, t) && n < |t.actions| && t.actions[n] == WriteRow(q, s)
    ensures q in t.worlds[n].pending && ReadAt(t, i, n, q, t.worlds[n].pending[q])
    ensures var id, before, after := t.worlds[n].pending[q].id, t.worlds[n].sys, t.worlds[n + 1].sys;
            && id in after.db.rows && IsRewritten(t.worlds[i].sys.db.rows[id], s, after.db.rows[id])
            && after.(db := before.db) == before && after.db.(rows := before.db.rows) == before.db
            && forall other :: other != id ==>
                 (other in after.db.rows <==> other in before.db.rows)
                 && (other in before.db.rows ==> after.db.rows[other] == before.db.rows[other])
  {
    assert ActionAt(p, t, n);
    i := ReadBehind(p, t, n, q);
    RewrittenIs(t.worlds[n].pending[q].row, s);
  }

  /**
   * A write that changes the lock of its row has lost the effect of an action between its read and itself: of a step of
   * the engine that moves the lock, or of another sync's write that did. If the declaration is the one the row was read
   * with, the same holds of the whole row.
   */
  lemma LostSinceRead(p: Params, t: Trace, n: nat, q: nat, s: Sync.ScheduleRow, locksOnly: bool) returns (i: nat, k: nat)
    requires IsTrace(p, t) && n < |t.actions| && t.actions[n] == WriteRow(q, s) && q in t.worlds[n].pending
    requires !Agrees(t.worlds[n], q, s, locksOnly) && (locksOnly || Rewritten(t.worlds[n].pending[q].row, s) == t.worlds[n].pending[q].row)
    ensures ReadAt(t, i, n, q, t.worlds[n].pending[q]) && i < k < n
    ensures var id := t.worlds[n].pending[q].id;
            id in t.worlds[k].sys.db.rows && Touches(p, t.worlds[k], t.actions[k], id, locksOnly)
  {
    i := ReadBehind(p, t, n, q);
    k := TouchedBetween(p, t, i, n, t.worlds[n].pending[q].id, locksOnly);
  }

  // ---- mutual exclusion beside syncs ----

  /** No cancel of the first `n` actions is late, and no watchdog pass of them releases a lock. */
  ghost predicate CalmUpTo(p: Params, t: Trace, n: nat)
    requires n <= |t.actions| && n <= |t.worlds|
  {
    forall k :: 0 <= k < n && t.actions[k].ByEngine? ==>
      !IsLate(t.worlds[k].sys, t.actions[k].step) && KeepsLocks(p, t.worlds[k].sys, t.actions[k].step)
  }

  /** While the engine is up, none of the first `n` actions writes a row back with another lock state than it has. */
  ghost predicate WritesAgree(t: Trace, n: nat)
    requires n <= |t.actions| && n <= |t.worlds|
  {
    forall k :: 0 <= k < n && t.actions[k].WriteRow? && t.actions[k].q in t.worlds[k].pending && t.worlds[k].sys.up ==>
      Agrees(t.worlds[k], t.actions[k].q, t.actions[k].s, true)
  }

  lemma SettlingStep(p: Params, st: Sys, step: Step)
    requires Settling(st) && Can(st, step) && Reads(st, step) && !IsLate(st, step)
    ensures Settling(Do(p, st, step))
  {
    WellFormedStep(p, st, step);
    forall r ensures Accounted(Do(p, st, step).poll, r) {
      AccountedStep(p, st, step, r);
    }
    forall r | r in Do(p, st, step).poll.asyncRuns ensures !Do(p, st, step).poll.asyncRuns[r].raced {
      TrackedStep(p, st, step, r);
    }
  }

  lemma {:induction false} SettlingTrace(p: Params, t: Trace, n: nat)
    requires IsTrace(p, t) && n < |t.worlds| && CalmUpTo(p, t, n)
    ensures Settling(t.worlds[n].sys)
  {
    if n > 0 {
      SettlingTrace(p, t, n - 1);
      assert ActionAt(p, t, n - 1);
      var w, a := t.worlds[n - 1], t.actions[n - 1];
      if a.ByEngine? { SettlingStep(p, w.sys, a.step); } else { assert t.worlds[n].sys.poll == w.sys.poll; }
    }
  }

  lemma TaskStays(p: Params, st: Sys, step: Step, id: Id)
    requires Can(st, step) && id in st.db.rows
    ensures id in Do(p, st, step).db.rows && Do(p, st, step).db.rows[id].taskName == st.db.rows[id].taskName
  {
    if !IsDispatch(step) { LocksOnlyShrink(p, st, step); }
  }

  /** A row that has been read is there, and its task is the same. */
  ghost predicate ReadsKnown(w: World) {
    forall q :: q in w.pending ==> w.pending[q].id in w.sys.db.rows && w.pending[q].row.taskName == w.sys.db.rows[w.pending[q].id].taskName
  }

  lemma {:induction false} ReadsKnownAlong(p: Params, t: Trace, n: nat)
    requires IsTrace(p, t) && n < |t.worlds|
    ensures ReadsKnown(t.worlds[n])
  {
    if n > 0 {
      ReadsKnownAlong(p, t, n - 1);
      assert ActionAt(p, t, n - 1);
      var w, a := t.worlds[n - 1], t.actions[n - 1];
      if a.ByEngine? {
        forall q | q in t.worlds[n].pending ensures w.pending[q].id in Do(p, w.sys, a.step).db.rows
            && w.pending[q].row.taskName == Do(p, w.sys, a.step).db.rows[w.pending[q].id].taskName {
          TaskStays(p, w.sys, a.step, w.pending[q].id);
        }
      }
    }
  }

  /** Locks and runs in flight still correspond after a write if and only if it leaves the lock taken or free as it is. */
  lemma OwnedWriteBack(st: Sys, e: Entry, s: Sync.ScheduleRow)
    requires Owned(st) && e.id in st.db.rows
    ensures Owned(WriteBack(st, e, s)) <==> (st.up ==> (e.row.Locked() == st.db.rows[e.id].Locked()))
  {
    var rows, jobs, ars := WriteBack(st, e, s).db.rows, st.work.jobs, st.poll.asyncRuns;
    assert rows[e.id].Locked() == e.row.Locked();
    if st.up && st.db.rows[e.id].Locked() && !e.row.Locked() {
      var r := st.past.owners[e.id];
      assert InFlight(jobs, ars, r) && IdOf(jobs, ars, r) == e.id && !Held(rows, st.past.owners, e.id, r);
    }
    if st.up && !st.db.rows[e.id].Locked() && e.row.Locked() && e.id in st.past.owners {
      assert !Held(st.db.rows, st.past.owners, e.id, st.past.owners[e.id]);
    }
  }

  lemma {:induction false} OwnedTrace(p: Params, t: Trace, n: nat)
    requires IsTrace(p, t) && n < |t.worlds| && CalmUpTo(p, t, n) && WritesAgree(t, n)
    ensures Owned(t.worlds[n].sys)
  {
    if n == 0 {
      OwnedInit(t.worlds[0].sys);
    } else {
      OwnedTrace(p, t, n - 1);
      SettlingTrace(p, t, n - 1);
      assert ActionAt(p, t, n - 1);
      var w, a := t.worlds[n - 1], t.actions[n - 1];
      if a.ByEngine? {
        OwnedStep(p, w.sys, a.step);
      } else if a.WriteRow? {
        ReadsKnownAlong(p, t, n - 1);
        OwnedWriteBack(w.sys, w.pending[a.q], a.s);
      }
    }
  }

  /**
   * Without late cancels and reaped locks, locks and runs in flight correspond in all states if and only if every
   * write of a sync finds its row locked just when it read it locked.
   */
  lemma OwnedIffWritesAgree(p: Params, t: Trace)
    requires IsTrace(p, t) && CalmUpTo(p, t, |t.actions|)
    ensures (forall n :: 0 <= n < |t.worlds| ==> Owned(t.worlds[n].sys)) <==> WritesAgree(t, |t.actions|)
  {
    if WritesAgree(t, |t.actions|) {
      forall n | 0 <= n < |t.worlds| ensures Owned(t.worlds[n].sys) {
        OwnedTrace(p, t, n);
      }
    }
    if forall n :: 0 <= n < |t.worlds| ==> Owned(t.worlds[n].sys) {
      forall k | 0 <= k < |t.actions| && t.actions[k].WriteRow? && t.actions[k].q in t.worlds[k].pending && t.worlds[k].sys.up
        ensures Agrees(t.worlds[k], t.actions[k].q, t.actions[k].s, true)
      {
        assert ActionAt(p, t, k);
        ReadsKnownAlong(p, t, k);
        assert Owned(t.worlds[k].sys) && Owned(t.worlds[k + 1].sys);
        OwnedWriteBack(t.worlds[k].sys, t.worlds[k].pending[t.actions[k].q], t.actions[k].s);
      }
    }
  }

  lemma OneLockStep(p: Params, st: Sys, step: Step)
    requires Can(st, step) && (st.up ==> OneLockPerTask(st.db.rows))
    ensures Do(p, st, step).up ==> OneLockPerTask(Do(p, st, step).db.rows)
  {
    if IsDispatch(step) {
      ClaimKeepsOne(st.db.rows, st.tick.value.ready[step.t.k].id, st.tick.value.now);
    } else if step != OfCrash(RecoverLocks) {
      LocksOnlyShrink(p, st, step);
      UpBefore(p, st, step);
    }
  }

  lemma UpBefore(p: Params, st: Sys, step: Step)
    requires Can(st, step) && step != OfCrash(RecoverLocks)
    ensures Do(p, st, step).up ==> st.up
  {
  }

  lemma {:induction false} OneLockTrace(p: Params, t: Trace, n: nat)
    requires IsTrace(p, t) && n < |t.worlds| && WritesAgree(t, n)
    ensures t.worlds[n].sys.up ==> OneLockPerTask(t.worlds[n].sys.db.rows)
  {
    if n > 0 {
      OneLockTrace(p, t, n - 1);
      assert ActionAt(p, t, n - 1);
      var w, a := t.worlds[n - 1], t.actions[n - 1];
      if a.ByEngine? {
        OneLockStep(p, w.sys, a.step);
      } else if a.WriteRow? {
        ReadsKnownAlong(p, t, n - 1);
      }
    }
  }

  /** As long as every write finds its row locked just when it read it locked, no two runs of a task overlap. */
  lemma ExclusionBesideSyncs(p: Params, t: Trace, n: nat)
    requires IsTrace(p, t) && n < |t.worlds| && CalmUpTo(p, t, n) && WritesAgree(t, n) && t.worlds[n].sys.up
    ensures Exclusive(t.worlds[n].sys)
  {
    OwnedTrace(p, t, n);
    OneLockTrace(p, t, n);
    SettlingTrace(p, t, n);
    OwnedIsExclusive(t.worlds[n].sys);
  }

  // ---- syncs nobody notices ----

  /** Every write of the first `n` actions leaves its row as it is. */
  ghost predicate WritesNothing(t: Trace, n: nat)
    requires n <= |t.actions| && n <= |t.worlds|
  {
    forall k :: 0 <= k < n && t.actions[k].WriteRow? && t.actions[k].q in t.worlds[k].pending ==>
      Agrees(t.worlds[k], t.actions[k].q, t.actions[k].s, false)
  }

  /**
   * Leave the syncs out of a trace in which every write leaves its row as it is: what remains is a history of the engine
   * that gets to the same state. So what holds of all histories holds of the engine beside such syncs.
   */
  lemma {:induction false} SyncsErased(p: Params, t: Trace, n: nat) returns (h: History)
    requires IsTrace(p, t) && n < |t.worlds| && WritesNothing(t, n)
    ensures IsRun(p, h) && |h.states| <= n + 1 && h.states[|h.states| - 1] == t.worlds[n].sys
  {
    if n == 0 {
      h := History([t.worlds[0].sys], []);
    } else {
      h := SyncsErased(p, t, n - 1);
      assert ActionAt(p, t, n - 1);
      var w, a := t.worlds[n - 1], t.actions[n - 1];
      if a.ByEngine? {
        h := Appended(p, h, a.step, t.worlds[n].sys);
      } else if a.WriteRow? {
        assert w.sys.db.rows[w.pending[a.q].id := Rewritten(w.pending[a.q].row, a.s)] == w.sys.db.rows;
      }
    }
  }

  lemma Appended(p: Params, h: History, step: Step, st': Sys) returns (h': History)
    requires IsRun(p, h) && Next(p, h.states[|h.states| - 1], step, st')
    ensures IsRun(p, h') && h' == History(h.states + [st'], h.steps + [step])
  {
    h' := History(h.states + [st'], h.steps + [step]);
    forall k | 0 <= k < |h'.steps| ensures StepAt(p, h', k) {
      if k < |h.steps| { StepOf(p, h, k); }
    }
  }

  /** If nothing touches a row between its read and its write, and no declaration changes it, then no write does anything. */
  lemma UntouchedWritesNothing(p: Params, t: Trace)
    requires IsTrace(p, t)
    requires forall n :: 0 <= n < |t.actions| && t.actions[n].WriteRow? && t.actions[n].q in t.worlds[n].pending ==>
               var e := t.worlds[n].pending[t.actions[n].q];
               && Rewritten(e.row, t.actions[n].s) == e.row
               && forall i: nat, k: nat :: ReadAt(t, i, n, t.actions[n].q, e) && i < k < n && e.id in t.worlds[k].sys.db.rows ==>
                    !Touches(p, t.worlds[k], t.actions[k], e.id, false)
    ensures WritesNothing(t, |t.actions|)
  {
    forall n | 0 <= n < |t.actions| && t.actions[n].WriteRow? && t.actions[n].q in t.worlds[n].pending
      ensures Agrees(t.worlds[n], t.actions[n].q, t.actions[n].s, false)
    {
      if !Agrees(t.worlds[n], t.actions[n].q, t.actions[n].s, false) {
        var i, k := LostSinceRead(p, t, n, t.actions[n].q, t.actions[n].s, false);
        assert false;
      }
    }
  }
}
