/** Crashes: at-least-once delivery. */
module Recovery {
  import opened Records
  import opened Store
  import opened Protocol
  import opened Locks
  import opened Ownership
  import opened Verdicts
  import opened Slots
  import opened Pausing

  /** The state after a crash, the recovery of some orphans and the clearing of the locks. */
  function AfterRecovery(st: Sys, orphans: seq<RunId>): Sys {
    DoRecoverLocks(CancelOrphans(DoCrash(st), orphans))
  }

  function CancelOrphans(st: Sys, orphans: seq<RunId>): Sys
    decreases |orphans|
  {
    if orphans == [] then st else CancelOrphans(DoRecoverRun(st, orphans[0]), orphans[1..])
  }

  lemma {:induction false} OrphansKeepRows(st: Sys, orphans: seq<RunId>)
    ensures CancelOrphans(st, orphans).db.rows == st.db.rows && CancelOrphans(st, orphans).clock == st.clock
    ensures CancelOrphans(st, orphans).up == st.up
    decreases |orphans|
  {
    if orphans != [] {
      OrphansKeepRows(DoRecoverRun(st, orphans[0]), orphans[1..]);
    }
  }

  /** What recovery makes of the table. */
  lemma RecoveredRows(st: Sys, orphans: seq<RunId>)
    ensures var after := AfterRecovery(st, orphans);
            && after.up && after.clock == st.clock && after.db.rows.Keys == st.db.rows.Keys
            && forall i :: i in after.db.rows ==> after.db.rows[i] == st.db.rows[i].(lockedAt := None)
  {
    OrphansKeepRows(DoCrash(st), orphans);
  }

  /**
   * Take any reachable state, crash there, and recover: no row is locked any more, and every row that was locked
   * has the counters it had when it was claimed. It has had the slot of that claim all the time since, up to and
   * including the recovery, if and only if the claim does not fall between the end of one resume and the write of
   * another one that is still under way.
   */
  lemma NoSlotLost(p: Params, h: History, n: nat, id: Id, orphans: seq<RunId>) returns (k: nat)
    requires IsRun(p, h) && n < |h.states| && id in h.states[n].db.rows && h.states[n].db.rows[id].Locked()
    ensures var after := AfterRecovery(h.states[n], orphans);
            && after.up
            && after.db.rows.Keys == h.states[n].db.rows.Keys
            && (forall i :: i in after.db.rows ==> !after.db.rows[i].Locked())
            && k < n && Claims(h.states[k], h.steps[k], id) && id in h.states[k].db.rows
            && SameCounts(h.states[k].db.rows[id], after.db.rows[id])
            && after.db.rows[id].nextRunAt == h.states[n].db.rows[id].nextRunAt
            && (SlotKept(h, k, n, id) <==> !Overrun(p, h, k, n, id))
  {
    k := LockedSinceClaim(p, h, n, id);
    RecoveredRows(h.states[n], orphans);
  }

  /** No operator has paused or disabled the schedule. */
  predicate SwitchedOn(rows: Rows, id: Id) {
    id in rows && !rows[id].paused && !rows[id].disabled
  }

  /** A row without a lock, switched on, in a table without locks, is due once its slot has come. */
  lemma DueWhenPast(rows: Rows, id: Id, clock: int)
    requires id in rows && (forall i :: i in rows ==> !rows[i].Locked())
    requires rows[id].nextRunAt.Some? && rows[id].nextRunAt.value <= clock
    ensures Due(rows, id, clock) <==> SwitchedOn(rows, id)
  {
  }

  /**
   * And it is due again. If the history was calm up to the claim, and no resume pass has moved the slot from the
   * read of the due row at `j` up to the crash, then after the recovery the schedule is due, unless an operator
   * has switched it off.
   */
  lemma DueAgain(p: Params, h: History, n: nat, id: Id, orphans: seq<RunId>) returns (k: nat, c: nat, j: nat)
    requires IsRun(p, h) && n < |h.states| && id in h.states[n].db.rows && h.states[n].db.rows[id].Locked()
    requires Calm(p, h, n)
    ensures k < n && Claims(h.states[k], h.steps[k], id) && HeldSince(h, k, n, id)
    ensures CheckedAt(h, j, c, k, h.states[k].tick.value, h.states[k].tick.value.ready[h.steps[k].t.k])
    ensures var after := AfterRecovery(h.states[n], orphans);
            !DroppedIn(p, h, j, n, id) ==> (Due(after.db.rows, id, after.clock) <==> SwitchedOn(after.db.rows, id))
  {
    k := LockedSinceClaim(p, h, n, id);
    c, j := SnapshotIsCurrent(p, h, k, h.steps[k].t.k);
    TickDueAlong(p, h, k);
    ClockAlong(p, h, k, n);
    RecoveredRows(h.states[n], orphans);
    var after := AfterRecovery(h.states[n], orphans);
    var e := h.states[k].tick.value.ready[h.steps[k].t.k];
    assert WasDue(e.row, h.states[k].tick.value.now);
    if !DroppedIn(p, h, j, n, id) {
      assert !DroppedIn(p, h, j, k, id);
      assert h.states[k].db.rows[id].nextRunAt == e.row.nextRunAt;
      if Overrun(p, h, k, n, id) { OverrunDrops(p, h, j, k, n, id); }
      DueWhenPast(after.db.rows, id, after.clock);
    }
  }

  lemma OverrunDrops(p: Params, h: History, j: nat, k: nat, n: nat, id: Id)
    requires j < k < n < |h.states| && |h.states| == |h.steps| + 1 && Overrun(p, h, k, n, id)
    ensures DroppedIn(p, h, j, n, id)
  {
    var i: nat, c: nat, q: nat :| i < k < c < n && Overruns(p, h, i, c, q, id);
    assert Drops(p, h.states[c], h.steps[c], id);
  }

  /**
   * With one resume at a time it is due again unless it is switched off or a whole pause and resume has landed
   * between its check and its claim.
   */
  lemma DueAgainAlone(p: Params, h: History, n: nat, id: Id, orphans: seq<RunId>) returns (k: nat, c: nat)
    requires IsRun(p, h) && n < |h.states| && id in h.states[n].db.rows && h.states[n].db.rows[id].Locked()
    requires Calm(p, h, n) && Alone(h)
    ensures c < k < n && Claims(h.states[k], h.steps[k], id)
    ensures var e := h.states[k].tick.value.ready[h.steps[k].t.k];
            ReadsTask(h.states[c], h.steps[c], h.states[k].tick.value, e.row.taskName, e.task)
    ensures var after := AfterRecovery(h.states[n], orphans);
            !PausedAndReleased(h, c, k) ==> (Due(after.db.rows, id, after.clock) <==> SwitchedOn(after.db.rows, id))
  {
    var j: nat;
    k, c, j := DueAgain(p, h, n, id, orphans);
    if DroppedIn(p, h, j, n, id) {
      var d :| j <= d < n && Drops(p, h.states[d], h.steps[d], id);
      if d < k {
        DropIsWhole(p, h, j, c, k, h.states[k].tick.value, h.states[k].tick.value.ready[h.steps[k].t.k], d);
      } else {
        HeldAlone(p, h, k, n, id);
        assert false;
      }
    }
  }
}
