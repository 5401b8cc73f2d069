/**
 * The loops of the engine that run over the whole table, in place: the resume pass, the restart and the
 * tick. Inside one loop nothing else is interleaved here; what happens between the loops is the subject of
 * the state machine.
 */
module EngineLoops {
  import opened Records
  import opened Policy
  import opened Store
  import opened Sqlite
  import opened Serving
  import Columns

  /** The table after a resume at `now`. */
  function Skipped(cal: Calendar, rows: Rows, now: int): Rows {
    map id | id in rows ::
      if Overdue(rows[id], now) && !Deferred(rows[id])
      then rows[id].(nextRunAt := ComputeNext(cal, rows[id].rule, rows[id].tz, now))
      else rows[id]
  }

  function OverdueIds(rows: Rows, now: int): set<Id> {
    set id | id in rows && Overdue(rows[id], now)
  }

  function DeferredIds(rows: Rows, now: int): set<Id> {
    set id | id in rows && Overdue(rows[id], now) && Deferred(rows[id])
  }

  /** The overdue rows among these, in this order. */
  function OverdueAmong(rows: Rows, ids: seq<Id>, now: int): seq<Entry>
    requires forall k :: 0 <= k < |ids| ==> ids[k] in rows
  {
    if ids == [] then []
    else
      var id := ids[|ids| - 1];
      OverdueAmong(rows, ids[..|ids| - 1], now) + (if Overdue(rows[id], now) then [Entry(id, rows[id])] else [])
  }

  lemma OverdueAmongNext(rows: Rows, ids: seq<Id>, n: nat, now: int)
    requires n < |ids| && forall k :: 0 <= k < |ids| ==> ids[k] in rows
    ensures OverdueAmong(rows, ids[..n + 1], now)
         == OverdueAmong(rows, ids[..n], now) + (if Overdue(rows[ids[n]], now) then [Entry(ids[n], rows[ids[n]])] else [])
  {
    assert ids[..n + 1][..n] == ids[..n];
  }

  lemma {:induction false} EachIsOverdue(rows: Rows, ids: seq<Id>, now: int, k: nat)
    requires (forall m :: 0 <= m < |ids| ==> ids[m] in rows) && k < |OverdueAmong(rows, ids, now)|
    ensures var e := OverdueAmong(rows, ids, now)[k];
            e.id in ids && e.id in rows && e.row == rows[e.id] && Overdue(e.row, now)
    decreases |ids|
  {
    if k < |OverdueAmong(rows, ids[..|ids| - 1], now)| { EachIsOverdue(rows, ids[..|ids| - 1], now, k); }
  }

  lemma {:induction false} EachIsFound(rows: Rows, ids: seq<Id>, now: int, m: nat)
    requires (forall m :: 0 <= m < |ids| ==> ids[m] in rows) && m < |ids| && Overdue(rows[ids[m]], now)
    ensures Entry(ids[m], rows[ids[m]]) in OverdueAmong(rows, ids, now)
    decreases |ids|
  {
    if m < |ids| - 1 { EachIsFound(rows, ids[..|ids| - 1], now, m); }
  }

  lemma {:induction false} NoneIsFoundTwice(rows: Rows, ids: seq<Id>, now: int, k: nat, l: nat)
    requires forall m :: 0 <= m < |ids| ==> ids[m] in rows
    requires forall m, n :: 0 <= m < n < |ids| ==> ids[m] != ids[n]
    requires k < l < |OverdueAmong(rows, ids, now)|
    ensures OverdueAmong(rows, ids, now)[k].id != OverdueAmong(rows, ids, now)[l].id
    decreases |ids|
  {
    var before := OverdueAmong(rows, ids[..|ids| - 1], now);
    if l < |before| {
      NoneIsFoundTwice(rows, ids[..|ids| - 1], now, k, l);
    } else {
      EachIsOverdue(rows, ids[..|ids| - 1], now, k);
    }
  }

  lemma OverdueAmongAll(rows: Rows, ids: seq<Id>, now: int)
    requires forall k :: 0 <= k < |ids| ==> ids[k] in rows
    requires forall k, l :: 0 <= k < l < |ids| ==> ids[k] != ids[l]
    requires forall id :: id in rows ==> id in ids
    ensures IsOverdueList(rows, now, OverdueAmong(rows, ids, now))
  {
    var s := OverdueAmong(rows, ids, now);
    forall k | 0 <= k < |s| ensures s[k].id in rows && s[k].row == rows[s[k].id] && Overdue(s[k].row, now) {
      EachIsOverdue(rows, ids, now, k);
    }
    forall k, l | 0 <= k < l < |s| ensures s[k].id != s[l].id {
      NoneIsFoundTwice(rows, ids, now, k, l);
    }
    forall id | id in rows && Overdue(rows[id], now) ensures exists k :: 0 <= k < |s| && s[k].id == id {
      var m :| 0 <= m < |ids| && ids[m] == id;
      EachIsFound(rows, ids, now, m);
      var k :| 0 <= k < |s| && s[k] == Entry(ids[m], rows[ids[m]]);
    }
  }

  /** The table after the resume pass has dealt with these overdue rows. */
  function SkipFirst(cal: Calendar, rows: Rows, s: seq<Entry>, now: int): Rows {
    if s == [] then rows
    else
      var e := s[|s| - 1];
      var before := SkipFirst(cal, rows, s[..|s| - 1], now);
      if Deferred(e.row) then before else SetNext(before, e.id, ComputeNext(cal, e.row.rule, e.row.tz, now))
  }

  function CountDeferred(s: seq<Entry>): nat {
    if s == [] then 0 else CountDeferred(s[..|s| - 1]) + (if Deferred(s[|s| - 1].row) then 1 else 0)
  }

  ghost predicate Distinct(s: seq<Entry>) {
    forall k, l :: 0 <= k < l < |s| ==> s[k].id != s[l].id
  }

  function Ids(s: seq<Entry>): set<Id> {
    if s == [] then {} else Ids(s[..|s| - 1]) + {s[|s| - 1].id}
  }

  function DeferredAmong(s: seq<Entry>): set<Id> {
    if s == [] then {}
    else
      var e := s[|s| - 1];
      DeferredAmong(s[..|s| - 1]) + (if Deferred(e.row) then {e.id} else {})
  }

  lemma {:induction false} InIds(s: seq<Entry>, id: Id)
    ensures id in Ids(s) <==> exists k :: 0 <= k < |s| && s[k].id == id
    ensures id in DeferredAmong(s) <==> exists k :: 0 <= k < |s| && s[k].id == id && Deferred(s[k].row)
    decreases |s|
  {
    if s != [] {
      var n := |s| - 1;
      InIds(s[..n], id);
      assert s == s[..n] + [s[n]];
    }
  }

  lemma {:induction false} CountsOf(s: seq<Entry>)
    requires Distinct(s)
    ensures |Ids(s)| == |s| && |DeferredAmong(s)| == CountDeferred(s)
    decreases |s|
  {
    if s != [] {
      CountsOf(s[..|s| - 1]);
      InIds(s[..|s| - 1], s[|s| - 1].id);
    }
  }

  function SkippedRow(cal: Calendar, row: Row, now: int): Row {
    if Deferred(row) then row else row.(nextRunAt := ComputeNext(cal, row.rule, row.tz, now))
  }

  /** One step of the pass writes the last row and no other. */
  lemma SkipLast(cal: Calendar, rows: Rows, s: seq<Entry>, now: int)
    requires s != []
    ensures var e, before := s[|s| - 1], SkipFirst(cal, rows, s[..|s| - 1], now);
            && (e.id in before && before[e.id] == e.row ==>
                  SkipFirst(cal, rows, s, now) == before[e.id := SkippedRow(cal, e.row, now)])
  {
    var e, before := s[|s| - 1], SkipFirst(cal, rows, s[..|s| - 1], now);
    if e.id in before && before[e.id] == e.row && Deferred(e.row) {
      assert before == before[e.id := e.row];
    }
  }

  lemma {:induction false} SkipFirstIs(cal: Calendar, rows: Rows, s: seq<Entry>, now: int)
    requires Distinct(s) && forall k :: 0 <= k < |s| ==> s[k].id in rows && s[k].row == rows[s[k].id]
    ensures var r := SkipFirst(cal, rows, s, now);
            && r.Keys == rows.Keys
            && forall id :: id in rows ==> r[id] == if id in Ids(s) then SkippedRow(cal, rows[id], now) else rows[id]
    decreases |s|
  {
    if s != [] {
      var n := |s| - 1;
      SkipFirstIs(cal, rows, s[..n], now);
      InIds(s[..n], s[n].id);
      SkipLast(cal, rows, s, now);
    }
  }

  lemma ScanIds(rows: Rows, s: seq<Entry>, now: int)
    requires IsOverdueList(rows, now, s)
    ensures Ids(s) == OverdueIds(rows, now)
  {
    forall id ensures id in Ids(s) <==> id in OverdueIds(rows, now) {
      InIds(s, id);
    }
  }

  lemma ScanDeferred(rows: Rows, s: seq<Entry>, now: int)
    requires IsOverdueList(rows, now, s)
    ensures DeferredAmong(s) == DeferredIds(rows, now)
  {
    forall id ensures id in DeferredAmong(s) <==> id in DeferredIds(rows, now) {
      InIds(s, id);
    }
  }

  /** A complete scan makes the pass what it should be. */
  lemma SkipPassIs(cal: Calendar, rows: Rows, s: seq<Entry>, now: int)
    requires IsOverdueList(rows, now, s)
    ensures SkipFirst(cal, rows, s, now) == Skipped(cal, rows, now)
    ensures CountDeferred(s) == |DeferredIds(rows, now)| && |s| == |OverdueIds(rows, now)|
  {
    ScanIds(rows, s, now);
    ScanDeferred(rows, s, now);
    SkipFirstIs(cal, rows, s, now);
    CountsOf(s);
  }

  /** Adds the overdue rows of one page. */
  method PushOverdue(rows: Rows, ids: seq<Id>, found: seq<Entry>, page: seq<Entry>, offset: nat, now: int) returns (overdue: seq<Entry>)
    requires offset + |page| <= |ids| && forall k :: 0 <= k < |ids| ==> ids[k] in rows
    requires found == OverdueAmong(rows, ids[..offset], now)
    requires forall k :: 0 <= k < |page| ==> page[k].id == ids[offset + k] && page[k].row == rows[page[k].id]
    ensures overdue == OverdueAmong(rows, ids[..offset + |page|], now)
  {
    overdue := found;
    var n := 0;
    while n < |page|
      invariant 0 <= n <= |page| && overdue == OverdueAmong(rows, ids[..offset + n], now)
    {
      OverdueAmongNext(rows, ids, offset + n, now);
      if Overdue(page[n].row, now) {
        overdue := overdue + [page[n]];
      }
      n := n + 1;
    }
  }

  datatype PauseWindow = PauseWindow(from: int, to: int)

  /** The rows a resume leaves alone: not overdue, not free to run, one-shots, and pending retries. */
  predicate KeepsSlot(row: Row, now: int) {
    || row.nextRunAt.None? || row.nextRunAt.value > now
    || row.lockedAt.Some? || row.paused || row.disabled
    || row.rule.Once? || row.retryCount > 0
  }

  /**
   * Every free, enabled, recurring schedule without a pending retry that was overdue has the slot its rule gives after the
   * resume; everything else is as it was.
   */
  ghost predicate Resumed(cal: Calendar, rows: Rows, after: Rows, now: int) {
    && after.Keys == rows.Keys
    && forall id :: id in rows ==>
         && after[id].(nextRunAt := rows[id].nextRunAt) == rows[id]
         && (KeepsSlot(rows[id], now) ==> after[id] == rows[id])
         && (!KeepsSlot(rows[id], now) ==> Columns.Follows(cal, rows[id].rule, rows[id].tz, now, after[id].nextRunAt))
  }

  lemma ResumeLeavesNothingOverdue(cal: Calendar, rows: Rows, now: int)
    ensures Resumed(cal, rows, Skipped(cal, rows, now), now)
    ensures StrictlyLater(cal) ==>
              forall id :: id in rows && !KeepsSlot(rows[id], now) ==> !Overdue(Skipped(cal, rows, now)[id], now)
  {
  }

  datatype ResumeInfo = ResumeInfo(pausedMs: int, skippedSchedules: nat, deferredRuns: nat)

  class Engine {
    const cal: Calendar
    const store: Storage
    const scheduleScanPage: nat := 500
    const maxConcurrent: nat

    /** Accepted runs waiting for the poll loop. */
    var asyncRuns: set<RunId>
    var ticking: bool
    var paused: bool
    var pausedAt: Option<int>
    var startPaused: bool
    var lastPauseWindow: Option<PauseWindow>
    var pauseGeneration: nat

    ghost predicate Valid()
      reads this, store
    {
      store.Valid() && 0 < maxConcurrent && (paused <==> pausedAt.Some?) && (!paused ==> !startPaused)
    }

    constructor (cal: Calendar, store: Storage, maxConcurrent: nat)
      requires store.Valid() && 0 < maxConcurrent
      ensures Valid() && this.cal == cal && this.store == store && this.maxConcurrent == maxConcurrent
      ensures !paused && pauseGeneration == 0 && asyncRuns == {} && !ticking
    {
      this.cal, this.store, this.maxConcurrent := cal, store, maxConcurrent;
      asyncRuns, ticking := {}, false;
      paused, pausedAt, startPaused, lastPauseWindow, pauseGeneration := false, None, false, None, 0;
    }

    /** A second pause keeps the first one's moment. */
    method Pause(at: int, atStart: bool)
      requires Valid()
      modifies this
      ensures Valid() && paused
      ensures old(paused) ==> pausedAt == old(pausedAt) && startPaused == old(startPaused) && pauseGeneration == old(pauseGeneration)
      ensures !old(paused) ==> pausedAt == Some(at) && startPaused == atStart && pauseGeneration == old(pauseGeneration) + 1
      ensures lastPauseWindow == old(lastPauseWindow)
    {
      if paused {
        return;
      }
      pausedAt := Some(at);
      paused := true;
      startPaused := atStart;
      pauseGeneration := pauseGeneration + 1;
    }

    /** The paged scan: every overdue row once, whatever the number of pages. */
    method ScanOverdue(now: int) returns (overdue: seq<Entry>)
      requires Valid()
      ensures IsOverdueList(store.rows, now, overdue)
    {
      overdue := [];
      Lists(store.index, store.rows.Keys);
      var offset := 0;
      while true
        invariant offset <= |store.index| && overdue == OverdueAmong(store.rows, store.index[..offset], now)
        decreases |store.index| - offset
      {
        var page := store.ListSchedules(scheduleScanPage, offset);
        overdue := PushOverdue(store.rows, store.index, overdue, page, offset, now);
        if |page| < scheduleScanPage {
          assert store.index[..offset + |page|] == store.index;
          break;
        }
        offset := offset + scheduleScanPage;
      }
      OverdueAmongAll(store.rows, store.index, now);
    }

    /**
     * Drops every overdue recurring slot, and leaves one-shots and pending retries where they are. The two
     * counts say what became of the overdue rows.
     */
    method SkipPausedSlots(now: int) returns (skipped: nat, deferred: nat)
      requires Valid()
      modifies store`rows
      ensures Valid()
      ensures store.rows == Skipped(cal, old(store.rows), now)
      ensures deferred == |DeferredIds(old(store.rows), now)|
      ensures skipped + deferred == |OverdueIds(old(store.rows), now)|
    {
      var overdue := ScanOverdue(now);
      ghost var rows := store.rows;
      skipped, deferred := 0, 0;
      var n := 0;
      while n < |overdue|
        invariant 0 <= n <= |overdue| && Valid()
        invariant store.rows == SkipFirst(cal, rows, overdue[..n], now)
        invariant deferred == CountDeferred(overdue[..n]) && skipped + deferred == n
      {
        var e := overdue[n];
        assert overdue[..n + 1][..n] == overdue[..n];
        if Deferred(e.row) {
          deferred := deferred + 1;
        } else {
          store.UpdateNextRunAt(e.id, ComputeNext(cal, e.row.rule, e.row.tz, now));
          skipped := skipped + 1;
        }
        n := n + 1;
      }
      assert overdue[..n] == overdue;
      SkipPassIs(cal, rows, overdue, now);
    }

    /** Still frozen while the pass runs; the flag flips after the last write. */
    method Resume(at: int) returns (info: ResumeInfo)
      requires Valid()
      modifies this, store`rows
      ensures Valid() && !paused && !startPaused
      ensures !old(paused) ==>
                && info == ResumeInfo(0, 0, 0) && store.rows == old(store.rows)
                && pauseGeneration == old(pauseGeneration) && lastPauseWindow == old(lastPauseWindow)
      ensures old(paused) ==>
                && pauseGeneration == old(pauseGeneration) + 1
                && lastPauseWindow == Some(PauseWindow(old(pausedAt).value, at))
                && store.rows == Skipped(cal, old(store.rows), at)
                && info.pausedMs == at - old(pausedAt).value
                && info.deferredRuns == |DeferredIds(old(store.rows), at)|
                && info.skippedSchedules + info.deferredRuns == |OverdueIds(old(store.rows), at)|
    {
      if !paused {
        return ResumeInfo(0, 0, 0);
      }
      var from := pausedAt.value;
      var skipped, deferred := SkipPausedSlots(at);
      lastPauseWindow := Some(PauseWindow(from, at));
      paused := false;
      pausedAt := None;
      startPaused := false;
      pauseGeneration := pauseGeneration + 1;
      info := ResumeInfo(at - from, skipped, deferred);
    }

    /**
     * After a restart every run the default pages list is cancelled and every lock is released. With up to
     * a hundred runs in a status that is all of them.
     */
    method RecoverOrphanRuns() returns (count: nat)
      requires Valid()
      modifies store`runs, store`rows
      ensures Valid()
      ensures store.rows == ClearLocks(old(store.rows))
      ensures exists running, queued :: IsPage(old(store.runs), Running, running) && IsPage(old(store.runs), Queued, queued)
                && store.runs == Finished(old(store.runs), Members(running + queued), Cancelled)
      ensures count == UpTo100(|InStatus(old(store.runs), Running)|) + UpTo100(|InStatus(old(store.runs), Queued)|)
      ensures |InStatus(old(store.runs), Running)| <= 100 ==> AllCancelled(InStatus(old(store.runs), Running), store.runs)
      ensures |InStatus(old(store.runs), Queued)| <= 100 ==> AllCancelled(InStatus(old(store.runs), Queued), store.runs)
    {
      var running := store.ListRuns(Running);
      var queued := store.ListRuns(Queued);
      var orphans := running + queued;
      OrphansEnd(store.runs, running, queued);
      FinishAll(orphans);
      var _ := store.ClearScheduleLocks();
      count := |orphans|;
    }

    /** One beat of a run's heartbeat: a lock that is still held is renewed, and no watchdog pass up to that time releases it. */
    method Heartbeat(id: Id, at: int)
      requires Valid()
      modifies store`rows
      ensures Valid() && store.rows.Keys == old(store.rows.Keys)
      ensures forall other :: other in store.rows && other != id ==> store.rows[other] == old(store.rows)[other]
      ensures id in store.rows ==>
                store.rows[id] == old(store.rows)[id].(lockedAt := if old(store.rows)[id].Locked() then Some(at) else None)
      ensures forall cutoff :: cutoff <= at && id in store.rows ==> !Stale(store.rows[id], cutoff)
    {
      store.RefreshScheduleLock(id, at);
    }

    method FinishAll(orphans: seq<RunId>)
      requires Valid()
      modifies store`runs
      ensures Valid() && store.runs == Finished(old(store.runs), Members(orphans), Cancelled)
    {
      ghost var runs := store.runs;
      var n := 0;
      while n < |orphans|
        invariant 0 <= n <= |orphans| && Valid() && store.runs == Finished(runs, Members(orphans[..n]), Cancelled)
      {
        store.FinishRun(orphans[n], Cancelled);
        FinishNext(runs, orphans, n);
        n := n + 1;
      }
      assert orphans[..n] == orphans;
    }

    /** `runSchedule` up to the call of the runner: the claim and the new run. */
    method BeginRun(e: Entry, now: int) returns (run: Option<RunId>)
      requires Valid()
      modifies store`rows, store`runs, store`created
      ensures Valid()
      ensures run.Some? <==>
                (!paused && Runnable(store.tasks, e.row) && !e.row.paused && Claimable(old(store.rows), e.id))
      ensures run.None? ==> store.rows == old(store.rows) && store.runs == old(store.runs) && store.created == old(store.created)
      ensures run.Some? ==>
                && run.value == old(store.created) && store.created == run.value + 1 && run.value !in old(store.runs)
                && store.rows == Claim(old(store.rows), e.id, now)
                && store.runs == old(store.runs)[run.value := RunStarted(e)]
    {
      if e.row.taskName !in store.tasks {
        return None;
      }
      if paused || store.tasks[e.row.taskName].paused || e.row.paused {
        return None;
      }
      var claimed := store.ClaimSchedule(e.id, now);
      if !claimed {
        return None;
      }
      var r := store.CreateRun(Run(e.id, e.row.retryCount + 1, if e.row.retryCount > 0 then e.row.lastRunId else None, Running, false));
      run := Some(r);
    }

    /** The verdict of the run, and then the completion of its schedule. */
    method CompleteRun(r: RunId, e: Entry, outcome: Outcome, c: Completion)
      requires Valid() && r in store.runs
      modifies store`rows, store`runs
      ensures Valid() && store.rows == Complete(old(store.rows), e.id, c)
      ensures var run := old(store.runs)[r];
              store.runs == old(store.runs)[r := run.(status := Ended(outcome), failed := run.failed || outcome == Failed)]
    {
      store.FinishRun(r, outcome);
      store.CompleteSchedule(e.id, c);
    }

    /** `runSchedule` from the runner's answer on: the run goes to the poll queue, or is finished and completed. */
    method EndRun(r: RunId, e: Entry, task: Task, play: Play)
      requires Valid() && r in store.runs && store.runs[r] == RunStarted(e)
      requires e.row.taskName in store.tasks && task == store.tasks[e.row.taskName] && !task.paused
      modifies this`asyncRuns, store`rows, store`runs
      ensures Valid()
      ensures store.runs == old(store.runs)[r := RunLeft(e, play.reply)]
      ensures asyncRuns == old(asyncRuns) + (if play.reply.Accept? then {r} else {})
      ensures play.reply.Accept? ==> store.rows == old(store.rows)
      ensures !play.reply.Accept? ==>
                store.rows == Complete(old(store.rows), e.id, PlanCompletion(cal, e.row, task, r, Verdict(play.reply), play.at, play.reply.Done?))
    {
      if play.reply.Accept? {
        store.UpdateRun(r, Queued);
        asyncRuns := asyncRuns + {r};
        return;
      }
      var outcome := if play.reply.Done? then play.reply.outcome else Failed;
      CompleteRun(r, e, outcome, PlanCompletion(cal, e.row, task, r, outcome, play.at, play.reply.Done?));
    }

    /** The first `k` due schedules have had their turn, and the dispatches among the first `p` are answered. */
    ghost predicate Serving(t: Round, k: nat, p: nat)
      requires t.Valid() && k <= |t.due| && p <= |t.due|
      reads this, store
    {
      && store.rows == t.RowsAt(k, p) && store.runs == t.RunsAt(k, p)
      && store.created == t.start.created + t.Count(k) && asyncRuns == t.QueueAt(p)
    }

    /** Offers the k-th due schedule to `runSchedule`. */
    method Offer(t: Round, k: nat, p: nat) returns (run: Option<RunId>)
      requires Valid() && !paused && store.tasks == t.start.tasks && t.Valid()
      requires k < |t.due| && p == k - k % t.size && Serving(t, k, p)
      modifies store`rows, store`runs, store`created
      ensures Valid() && Serving(t, k + 1, p)
      ensures run == if t.Goes(k) then Some(t.RunOf(k)) else None
    {
      ClaimTurn(t, k, p);
      run := BeginRun(t.due[k], t.now);
    }

    method ClaimNext(t: Round, p: nat, before: seq<Option<RunId>>) returns (runs: seq<Option<RunId>>)
      requires Valid() && !paused && store.tasks == t.start.tasks && t.Valid() && AreRuns(t, before)
      requires |before| < |t.due| && p == |before| - |before| % t.size && Serving(t, |before|, p)
      modifies store`rows, store`runs, store`created
      ensures Valid() && |runs| == |before| + 1 && AreRuns(t, runs) && Serving(t, |runs|, p)
    {
      var run := Offer(t, |before|, p);
      runs := before + [run];
    }

    /** Takes the answer of the run the p-th due schedule was dispatched with, if it was. */
    method AnswerNext(t: Round, p: nat, runs: seq<Option<RunId>>)
      requires Valid() && store.tasks == t.start.tasks && cal == t.cal && t.Valid()
      requires p < |runs| && AreRuns(t, runs) && Serving(t, |runs|, p)
      modifies this`asyncRuns, store`rows, store`runs
      ensures Valid() && Serving(t, |runs|, p + 1)
    {
      AnswerTurn(t, |runs|, p);
      RunsAnswered(t, |runs|, p);
      if runs[p].Some? {
        Unanswered(t, |runs|, p, p);
        EndRun(runs[p].value, t.due[p], store.tasks[t.due[p].row.taskName], t.script(t.due[p].id));
      }
    }

    /** The claims of one batch, in order. */
    method ClaimBatch(t: Round, hi: nat, before: seq<Option<RunId>>) returns (runs: seq<Option<RunId>>)
      requires Valid() && !paused && store.tasks == t.start.tasks && t.Valid() && AreRuns(t, before)
      requires |before| <= hi <= |t.due| && hi <= |before| + t.size && |before| % t.size == 0
      requires Serving(t, |before|, |before|)
      modifies store`rows, store`runs, store`created
      ensures Valid() && |runs| == hi && AreRuns(t, runs) && Serving(t, |runs|, |before|)
    {
      runs := before;
      while |runs| < hi
        invariant |before| <= |runs| <= hi && Valid() && AreRuns(t, runs) && Serving(t, |runs|, |before|)
      {
        BatchStart(|before|, t.size, |runs|);
        runs := ClaimNext(t, |before|, runs);
      }
    }

    /** The dispatches of the batch are to be answered from the `p`-th on. */
    ghost predicate Answering(t: Round, p: nat, runs: seq<Option<RunId>>)
      reads this, store
    {
      && Valid() && store.tasks == t.start.tasks && cal == t.cal && t.Valid() && AreRuns(t, runs)
      && p <= |runs| && Serving(t, |runs|, p)
    }

    /** The answers of one batch. */
    method AnswerBatch(t: Round, lo: nat, runs: seq<Option<RunId>>)
      requires Answering(t, lo, runs)
      modifies this`asyncRuns, store`rows, store`runs
      ensures Answering(t, |runs|, runs)
      decreases |runs| - lo
    {
      if lo < |runs| {
        AnswerNext(t, lo, runs);
        AnswerBatch(t, lo + 1, runs);
      }
    }

    method ServeBatch(t: Round, before: seq<Option<RunId>>) returns (runs: seq<Option<RunId>>)
      requires Valid() && !paused && store.tasks == t.start.tasks && cal == t.cal && t.Valid() && AreRuns(t, before)
      requires |before| < |t.due| && |before| % t.size == 0 && Serving(t, |before|, |before|)
      modifies this`asyncRuns, store`rows, store`runs, store`created
      ensures Valid() && AreRuns(t, runs) && Serving(t, |runs|, |runs|)
      ensures |runs| == if |before| + t.size < |t.due| then |before| + t.size else |t.due|
    {
      var hi := if |before| + t.size < |t.due| then |before| + t.size else |t.due|;
      runs := ClaimBatch(t, hi, before);
      AnswerBatch(t, |before|, runs);
    }

    /** All batches of a due list. */
    method ServeAll(t: Round) returns (runs: seq<Option<RunId>>)
      requires Valid() && !paused && store.tasks == t.start.tasks && cal == t.cal && t.Valid() && Serving(t, 0, 0)
      modifies this`asyncRuns, store`rows, store`runs, store`created
      ensures Valid() && Serving(t, |t.due|, |t.due|) && |runs| == |t.due| && AreRuns(t, runs)
    {
      runs := [];
      while |runs| < |t.due|
        invariant Valid() && AreRuns(t, runs) && (|runs| % t.size == 0 || |runs| == |t.due|) && Serving(t, |runs|, |runs|)
      {
        NextBatch(|runs|, t.size);
        runs := ServeBatch(t, runs);
      }
    }

    /**
     * One tick over the whole due list, in batches of `maxConcurrent`; `runs` says with which run each due
     * schedule was dispatched, if it was. `script` gives the answers of the runners. Nothing happens while
     * the queue is frozen or another tick is under way.
     */
    method Tick(now: int, script: Script) returns (due: seq<Entry>, runs: seq<Option<RunId>>)
      requires Valid()
      modifies this`asyncRuns, this`ticking, store`rows, store`runs, store`created
      ensures Valid() && ticking == old(ticking)
      ensures old(ticking) || old(paused) ==>
                && due == [] && runs == [] && store.rows == old(store.rows) && store.runs == old(store.runs)
                && store.created == old(store.created) && asyncRuns == old(asyncRuns)
      ensures !old(ticking) && !old(paused) ==>
                var start := Tables(store.tasks, old(store.rows), old(store.runs), old(asyncRuns), old(store.created));
                var t := Round(cal, start, due, now, script, maxConcurrent);
                t.Valid() && |runs| == |due| && AreRuns(t, runs) && Serving(t, |due|, |due|)
    {
      due, runs := [], [];
      if ticking {
        return;
      }
      ticking := true;
      if !paused {
        due := store.ListDueSchedules(now);
        var start := Tables(store.tasks, store.rows, store.runs, asyncRuns, store.created);
        runs := ServeAll(Round(cal, start, due, now, script, maxConcurrent));
      }
      ticking := false;
    }
  }

  /** The runs the first due schedules were dispatched with. */
  ghost predicate AreRuns(t: Round, runs: seq<Option<RunId>>)
    requires t.Valid()
  {
    |runs| <= |t.due| && forall k :: 0 <= k < |runs| ==> runs[k] == if t.Goes(k) then Some(t.RunOf(k)) else None
  }

  function Members(s: seq<RunId>): set<RunId> {
    set k | 0 <= k < |s| :: s[k]
  }

  function InStatus(runs: map<RunId, Run>, status: Status): set<RunId> {
    set r | r in runs && runs[r].status == status
  }

  function UpTo100(n: nat): nat {
    if n < 100 then n else 100
  }

  ghost predicate AllCancelled(which: set<RunId>, runs: map<RunId, Run>) {
    forall r :: r in which ==> r in runs && runs[r].status == Ended(Cancelled)
  }

  /** What a default page gives: runs in the status, each once, and of more than a hundred the newest. */
  ghost predicate IsPage(runs: map<RunId, Run>, status: Status, page: seq<RunId>) {
    && |page| <= 100
    && (forall k :: 0 <= k < |page| ==> page[k] in runs && runs[page[k]].status == status)
    && (forall k, l :: 0 <= k < l < |page| ==> page[l] < page[k])
    && (forall r :: r in runs && runs[r].status == status && r !in page ==> |page| == 100 && r < page[99])
  }

  lemma {:induction false} MembersCount(s: seq<RunId>)
    requires forall k, l :: 0 <= k < l < |s| ==> s[l] < s[k]
    ensures |Members(s)| == |s|
    decreases |s|
  {
    if s != [] {
      var n := |s| - 1;
      MembersCount(s[..n]);
      assert Members(s) == Members(s[..n]) + {s[n]};
    } else {
      assert Members(s) == {};
    }
  }

  lemma SubsetCount(a: set<RunId>, b: set<RunId>)
    requires a <= b
    ensures |a| <= |b| && (|a| == |b| ==> a == b)
  {
    assert b == a + (b - a);
  }

  /** A page has all runs in its status when there are no more than a hundred. */
  lemma PageCovers(runs: map<RunId, Run>, status: Status, page: seq<RunId>)
    requires IsPage(runs, status, page)
    ensures |page| == UpTo100(|InStatus(runs, status)|)
    ensures |InStatus(runs, status)| <= 100 ==> Members(page) == InStatus(runs, status)
  {
    MembersCount(page);
    SubsetCount(Members(page), InStatus(runs, status));
    if |page| < 100 {
      assert Members(page) == InStatus(runs, status);
    }
  }

  lemma MembersAre(s: seq<RunId>, t: seq<RunId>)
    ensures Members(s + t) == Members(s) + Members(t)
  {
    forall r | r in Members(s) + Members(t) ensures r in Members(s + t) {
      if r in Members(s) {
        var k :| 0 <= k < |s| && s[k] == r;
        assert (s + t)[k] == r;
      } else {
        var k :| 0 <= k < |t| && t[k] == r;
        assert (s + t)[|s| + k] == r;
      }
    }
  }

  lemma OrphansEnd(runs: map<RunId, Run>, running: seq<RunId>, queued: seq<RunId>)
    requires IsPage(runs, Running, running) && IsPage(runs, Queued, queued)
    ensures |running| == UpTo100(|InStatus(runs, Running)|) && |queued| == UpTo100(|InStatus(runs, Queued)|)
    ensures var after := Finished(runs, Members(running + queued), Cancelled);
            && (|InStatus(runs, Running)| <= 100 ==> AllCancelled(InStatus(runs, Running), after))
            && (|InStatus(runs, Queued)| <= 100 ==> AllCancelled(InStatus(runs, Queued), after))
  {
    PageCovers(runs, Running, running);
    PageCovers(runs, Queued, queued);
    MembersAre(running, queued);
  }

  lemma FinishNext(runs: map<RunId, Run>, s: seq<RunId>, n: nat)
    requires n < |s|
    ensures Finished(Finished(runs, Members(s[..n]), Cancelled), {s[n]}, Cancelled) == Finished(runs, Members(s[..n + 1]), Cancelled)
  {
    assert Members(s[..n + 1]) == Members(s[..n]) + {s[n]};
  }
}
