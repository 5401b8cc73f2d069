/** What moves a firing time and a failure count, and how long the rows a tick has read stay as they were. */
module Slots {
  import opened Records
  import opened Policy
  import opened Store
  import opened Protocol
  import opened Finish
  import opened Locks
  import opened Polls
  import opened Ownership
  import opened Verdicts

  lemma ClockStep(p: Params, st: Sys, step: Step)
    requires Can(st, step)
    ensures st.clock <= Do(p, st, step).clock
  {
  }

  lemma ClockAlong(p: Params, h: History, m: nat, n: nat)
    requires IsRun(p, h) && m <= n < |h.states|
    ensures h.states[m].clock <= h.states[n].clock
  {
    if m < n {
      ClockAlong(p, h, m, n - 1);
      StepOf(p, h, n - 1);
      ClockStep(p, h.states[n - 1], h.steps[n - 1]);
    }
  }

  /** The step is the completion of a run of schedule `id`. */
  predicate Completes(st: Sys, step: Step, id: Id) {
    match step
    case OfRun(j) => j.JobComplete? && CanJobComplete(st, j.r) && st.work.jobs[j.r].id == id
    case OfPass(s) => s.PassComplete? && CanPassComplete(st) && st.poll.asyncRuns[st.poll.pass.value.cur.r].id == id
    case OfCancel(c) => c.CancelComplete? && CanCancelComplete(st, c.r) && st.poll.asyncRuns[c.r].id == id
    case _ => false
  }

  lemma StoreKeepsNext(p: Params, st: Sys, o: StoreStep, id: Id)
    requires CanStepStore(st, o) && id in st.db.rows
    ensures id in DoStepStore(p, st, o).db.rows && DoStepStore(p, st, o).db.rows[id].nextRunAt == st.db.rows[id].nextRunAt
  {
  }

  /** A firing time moves only when a run of the schedule completes or a resume pass drops its slot. */
  lemma NextRunMoves(p: Params, st: Sys, step: Step, id: Id)
    requires Can(st, step) && id in st.db.rows
    ensures id in Do(p, st, step).db.rows
    ensures Do(p, st, step).db.rows[id].nextRunAt != st.db.rows[id].nextRunAt ==> Completes(st, step, id) || Drops(p, st, step, id)
    ensures Drops(p, st, step, id) ==> Do(p, st, step).db.rows[id].nextRunAt != st.db.rows[id].nextRunAt
  {
    match step
    case Advance(_) =>
    case OfTick(_) =>
    case OfRun(_) =>
    case OfPass(_) =>
    case OfCancel(_) =>
    case OfFreeze(f) => FreezeDrops(p, st, f, id);
    case OfStore(o) => StoreKeepsNext(p, st, o, id);
    case OfCrash(_) =>
  }

  /** The completion that a completing step writes. */
  function CompletionOf(p: Params, st: Sys, step: Step, id: Id): Completion
    requires Completes(st, step, id)
  {
    match step
    case OfRun(j) => JobCompletion(p, st, j.r)
    case OfPass(_) =>
      var c := st.poll.pass.value.cur;
      AsyncCompletion(p, st.poll.asyncRuns[c.r], c.r, c.outcome, c.at)
    case OfCancel(c) => AsyncCompletion(p, st.poll.asyncRuns[c.r], c.r, Cancelled, st.poll.cancels[c.r].at)
  }

  /** The step ends a run whose failure is final. */
  predicate Exhausts(p: Params, st: Sys, step: Step, id: Id) {
    Completes(st, step, id) && CompletionOf(p, st, step, id).failed
  }

  predicate ReapsLock(p: Params, st: Sys, step: Step, id: Id) {
    step.OfStore? && step.o.ReapPass? && id in st.db.rows && Stale(st.db.rows[id], step.o.at - p.ttl)
  }

  lemma StoreFailCount(p: Params, st: Sys, o: StoreStep, id: Id)
    requires CanStepStore(st, o) && id in st.db.rows
    ensures id in DoStepStore(p, st, o).db.rows
    ensures DoStepStore(p, st, o).db.rows[id].failCount == st.db.rows[id].failCount + (if ReapsLock(p, st, OfStore(o), id) then 1 else 0)
  {
  }

  lemma RunFailCount(p: Params, st: Sys, j: RunStep, id: Id)
    requires CanStepRun(st, j) && id in st.db.rows
    ensures id in DoStepRun(p, st, j).db.rows
    ensures DoStepRun(p, st, j).db.rows[id].failCount == st.db.rows[id].failCount + (if Exhausts(p, st, OfRun(j), id) then 1 else 0)
  {
  }

  lemma PassFailCount(p: Params, st: Sys, s: PassStep, id: Id)
    requires CanStepPass(st, s) && id in st.db.rows
    ensures id in DoStepPass(p, st, s).db.rows
    ensures DoStepPass(p, st, s).db.rows[id].failCount == st.db.rows[id].failCount + (if Exhausts(p, st, OfPass(s), id) then 1 else 0)
  {
  }

  lemma CancelFailCount(p: Params, st: Sys, c: CancelStep, id: Id)
    requires CanStepCancel(st, c) && id in st.db.rows
    ensures id in DoStepCancel(p, st, c).db.rows
    ensures DoStepCancel(p, st, c).db.rows[id].failCount == st.db.rows[id].failCount + (if Exhausts(p, st, OfCancel(c), id) then 1 else 0)
  {
  }

  lemma FailCountStep(p: Params, st: Sys, step: Step, id: Id)
    requires Can(st, step) && id in st.db.rows
    ensures id in Do(p, st, step).db.rows
    ensures Do(p, st, step).db.rows[id].failCount
            == st.db.rows[id].failCount + (if Exhausts(p, st, step, id) || ReapsLock(p, st, step, id) then 1 else 0)
  {
    match step
    case Advance(_) =>
    case OfTick(_) =>
    case OfRun(j) => RunFailCount(p, st, j, id);
    case OfPass(s) => PassFailCount(p, st, s, id);
    case OfCancel(c) => CancelFailCount(p, st, c, id);
    case OfFreeze(_) =>
    case OfStore(o) => StoreFailCount(p, st, o, id);
    case OfCrash(_) =>
  }

  /** How many of the first `n` steps ended a run of the schedule in final failure, or reaped its lock. */
  ghost function Incidents(p: Params, h: History, n: nat, id: Id): nat
    requires n <= |h.steps| && n < |h.states|
  {
    if n == 0 then 0
    else Incidents(p, h, n - 1, id)
         + (if Exhausts(p, h.states[n - 1], h.steps[n - 1], id) || ReapsLock(p, h.states[n - 1], h.steps[n - 1], id) then 1 else 0)
  }

  /**
   * Over every run of the machine, a schedule's failure count is the number of its exhausted ladders and reaped
   * locks; pending retries, cancels and recoveries do not count.
   */
  lemma {:induction false} FailCountIsIncidents(p: Params, h: History, n: nat, id: Id)
    requires IsRun(p, h) && n < |h.states| && id in h.states[0].db.rows
    ensures id in h.states[n].db.rows
    ensures h.states[n].db.rows[id].failCount == h.states[0].db.rows[id].failCount + Incidents(p, h, n, id)
  {
    if n > 0 {
      FailCountIsIncidents(p, h, n - 1, id);
      StepOf(p, h, n - 1);
      FailCountStep(p, h.states[n - 1], h.steps[n - 1], id);
    }
  }

  // ---- a tick holds each schedule once ----

  ghost predicate HoldsOnce(tick: Option<Tick>) {
    tick.Some? ==>
      && (forall i, j :: 0 <= i < j < |tick.value.todo| ==> tick.value.todo[i].id != tick.value.todo[j].id)
      && (forall i, j :: 0 <= i < j < |tick.value.ready| ==> tick.value.ready[i].id != tick.value.ready[j].id)
      && (forall i, j :: 0 <= i < |tick.value.todo| && 0 <= j < |tick.value.ready| ==> tick.value.todo[i].id != tick.value.ready[j].id)
  }

  lemma RemovedOnce(t: Tick, k: nat)
    requires HoldsOnce(Some(t))
    ensures k < |t.todo| ==> HoldsOnce(Some(t.(todo := RemoveAt(t.todo, k))))
    ensures k < |t.ready| ==> HoldsOnce(Some(t.(ready := RemoveAt(t.ready, k))))
  {
  }

  lemma OnceCheck(st: Sys, k: nat)
    requires CanTickCheck(st, k) && HoldsOnce(st.tick)
    ensures HoldsOnce(DoTickCheck(st, k).tick)
  {
    RemovedOnce(st.tick.value, k);
  }

  lemma OnceTick(st: Sys, t: TickStep)
    requires CanStepTick(st, t) && Reads(st, OfTick(t)) && HoldsOnce(st.tick)
    ensures HoldsOnce(DoStepTick(st, t).tick)
  {
    match t
    case TickBegin(_, _) =>
    case TickCheck(k) => OnceCheck(st, k);
    case Dispatch(k) => RemovedOnce(st.tick.value, k);
    case TickDrop(k) => RemovedOnce(st.tick.value, k);
    case TickEnd =>
  }

  lemma OnceAlong(p: Params, h: History, n: nat)
    requires IsRun(p, h) && n < |h.states|
    ensures HoldsOnce(h.states[n].tick)
  {
    if n > 0 {
      OnceAlong(p, h, n - 1);
      StepOf(p, h, n - 1);
      if h.steps[n - 1].OfTick? {
        OnceTick(h.states[n - 1], h.steps[n - 1].t);
      } else {
        TickKept(p, h.states[n - 1], h.steps[n - 1]);
      }
    }
  }

  // ---- what the tick holds is free ----

  ghost predicate IsFree(rows: Rows, id: Id) {
    id in rows && !rows[id].Locked()
  }

  /** The schedules the tick still holds are not locked: nobody else takes locks. */
  ghost predicate TickFree(tick: Option<Tick>, rows: Rows) {
    tick.Some? ==>
      && (forall k :: 0 <= k < |tick.value.todo| ==> IsFree(rows, tick.value.todo[k].id))
      && (forall k :: 0 <= k < |tick.value.ready| ==> IsFree(rows, tick.value.ready[k].id))
  }

  lemma TickFreeTick(st: Sys, t: TickStep)
    requires CanStepTick(st, t) && Reads(st, OfTick(t)) && TickFree(st.tick, st.db.rows) && HoldsOnce(st.tick)
    ensures TickFree(DoStepTick(st, t).tick, DoStepTick(st, t).db.rows)
  {
    match t
    case TickBegin(now, due) =>
      forall k | 0 <= k < |due| ensures IsFree(st.db.rows, due[k].id) { assert Due(st.db.rows, due[k].id, now); }
    case TickCheck(_) =>
    case Dispatch(k) => TickFreeDispatch(st, k);
    case TickDrop(_) =>
    case TickEnd =>
  }

  lemma TickFreeDispatch(st: Sys, k: nat)
    requires CanDispatch(st, k) && TickFree(st.tick, st.db.rows) && HoldsOnce(st.tick)
    ensures TickFree(DoDispatch(st, k).tick, DoDispatch(st, k).db.rows)
  {
  }

  lemma TickFreeAlong(p: Params, h: History, n: nat)
    requires IsRun(p, h) && n < |h.states|
    ensures TickFree(h.states[n].tick, h.states[n].db.rows)
  {
    if n > 0 {
      TickFreeAlong(p, h, n - 1);
      StepOf(p, h, n - 1);
      var st, step := h.states[n - 1], h.steps[n - 1];
      if step.OfTick? {
        OnceAlong(p, h, n - 1);
        TickFreeTick(st, step.t);
      } else {
        TickKept(p, st, step);
        LocksOnlyShrink(p, st, step);
      }
    }
  }

  // ---- snapshots ----

  /** A run completes only while its schedule is locked. */
  lemma CompletesLocked(st: Sys, step: Step, id: Id)
    requires Settling(st) && Owned(st) && Completes(st, step, id)
    ensures id in st.db.rows && st.db.rows[id].Locked()
  {
    match step
    case OfRun(j) =>
    case OfPass(_) =>
      assert Accounted(st.poll, st.poll.pass.value.cur.r) && PassFinishes(st.poll, st.poll.pass.value.cur.r);
      assert Open(st.poll.asyncRuns[st.poll.pass.value.cur.r]);
    case OfCancel(c) =>
      assert Accounted(st.poll, c.r);
      assert Open(st.poll.asyncRuns[c.r]);
  }

  /** While the tick holds a schedule, only a resume pass moves its slot. */
  lemma HeldByTick(p: Params, h: History, i: nat, t: Tick, id: Id)
    requires IsRun(p, h) && i < |h.steps| && Calm(p, h, i) && InTick(h.states[i], t.now, t.generation, id)
    ensures id in h.states[i].db.rows && id in h.states[i + 1].db.rows
    ensures h.states[i + 1].db.rows[id].nextRunAt == h.states[i].db.rows[id].nextRunAt <==> !Drops(p, h.states[i], h.steps[i], id)
  {
    StepOf(p, h, i);
    TickFreeAlong(p, h, i);
    OwnedAlong(p, h, i);
    SettlingAlong(p, h, i);
    assert IsFree(h.states[i].db.rows, id);
    NextRunMoves(p, h.states[i], h.steps[i], id);
    if Completes(h.states[i], h.steps[i], id) {
      CompletesLocked(h.states[i], h.steps[i], id);
      assert false;
    }
  }

  lemma BeginKeepsRows(p: Params, h: History, j: nat)
    requires IsRun(p, h) && j < |h.steps| && h.steps[j].OfTick? && h.steps[j].t.TickBegin?
    ensures h.states[j + 1].db == h.states[j].db
  {
    StepOf(p, h, j);
  }

  lemma SlotJustRead(p: Params, h: History, j: nat, id: Id)
    requires IsRun(p, h) && j < |h.steps| && h.steps[j].OfTick? && h.steps[j].t.TickBegin? && id in h.states[j].db.rows
    ensures SlotKept(h, j, j + 1, id) && !DroppedIn(p, h, j, j + 1, id)
  {
    BeginKeepsRows(p, h, j);
  }

  lemma SlotOneMore(p: Params, h: History, j: nat, n: nat, t: Tick, id: Id)
    requires IsRun(p, h) && j <= n < |h.steps| && Calm(p, h, n) && InTick(h.states[n], t.now, t.generation, id)
    requires SlotKept(h, j, n, id) <==> !DroppedIn(p, h, j, n, id)
    ensures SlotKept(h, j, n + 1, id) <==> !DroppedIn(p, h, j, n + 1, id)
  {
    HeldByTick(p, h, n, t, id);
    KeptOneMore(p, h, j, n, id);
  }

  lemma {:induction false} SlotSinceRead(p: Params, h: History, j: nat, n: nat, t: Tick, id: Id)
    requires IsRun(p, h) && j < n < |h.states| && Calm(p, h, n)
    requires h.steps[j].OfTick? && h.steps[j].t.TickBegin? && id in h.states[j].db.rows && SameTick(h, j, n, t, id)
    ensures SlotKept(h, j, n, id) <==> !DroppedIn(p, h, j, n, id)
  {
    if n == j + 1 {
      SlotJustRead(p, h, j, id);
    } else {
      SlotSinceRead(p, h, j, n - 1, t, id);
      assert InTick(h.states[n - 1], t.now, t.generation, id);
      SlotOneMore(p, h, j, n - 1, t, id);
    }
  }

  lemma KeptOneMore(p: Params, h: History, j: nat, n: nat, id: Id)
    requires j <= n < |h.steps| && |h.states| == |h.steps| + 1 && (SlotKept(h, j, n, id) <==> !DroppedIn(p, h, j, n, id))
    requires id in h.states[n].db.rows && id in h.states[n + 1].db.rows
    requires h.states[n + 1].db.rows[id].nextRunAt == h.states[n].db.rows[id].nextRunAt <==> !Drops(p, h.states[n], h.steps[n], id)
    ensures SlotKept(h, j, n + 1, id) <==> !DroppedIn(p, h, j, n + 1, id)
  {
    if DroppedIn(p, h, j, n, id) {
      var c :| j <= c < n && Drops(p, h.states[c], h.steps[c], id);
      assert DroppedIn(p, h, j, n + 1, id);
    } else {
      assert h.states[n].db.rows[id].nextRunAt == h.states[j].db.rows[id].nextRunAt;
      assert DroppedIn(p, h, j, n + 1, id) <==> Drops(p, h.states[n], h.steps[n], id);
    }
  }

  /**
   * In a calm history, the slot a tick has read for a schedule is the slot of its row all the time until the
   * claim if and only if no resume pass has moved it in between: the tick's own claims and everybody's
   * completions do not.
   */
  lemma SnapshotIsCurrent(p: Params, h: History, n: nat, k: nat) returns (c: nat, j: nat)
    requires IsRun(p, h) && n < |h.states| && Calm(p, h, n) && CanDispatch(h.states[n], k)
    ensures j < c < n
    ensures var t := h.states[n].tick.value;
            var e := t.ready[k];
            && ReadsTask(h.states[c], h.steps[c], t, e.row.taskName, e.task) && ReadsDue(h.states[j], h.steps[j], t, e.id, e.row)
            && SameTick(h, j, n, t, e.id)
            && ((forall i :: j <= i <= n ==> e.id in h.states[i].db.rows && h.states[i].db.rows[e.id].nextRunAt == e.row.nextRunAt)
                <==> !DroppedIn(p, h, j, n, e.id))
  {
    c, j := ReadyWasRead(p, h, n, k);
    var t := h.states[n].tick.value;
    SlotSinceRead(p, h, j, n, t, t.ready[k].id);
  }
}
