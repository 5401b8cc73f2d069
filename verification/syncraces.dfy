/** A sync that takes a lock away: its write puts back the row from before a claim, and the task is dispatched again. */
module SyncRaces {
  import opened Records
  import opened Store
  import opened Protocol
  import opened Polls
  import opened Ownership
  import opened Rewrites
  import opened Witness
  import Sync

  function LastWorld(t: Trace): World
    requires |t.worlds| > 0
  {
    t.worlds[|t.worlds| - 1]
  }

  /** A timely trace without late cancels and reaped locks. */
  ghost predicate IsTimelyTrace(p: Params, tm: Timing, t: Trace) {
    && IsTrace(p, t) && CalmUpTo(p, t, |t.actions|)
    && forall k :: 0 <= k < |t.worlds| ==> Timely(tm, t.worlds[k].sys)
  }

  /** The action leads from `w` to `w'`, is no late cancel and no watchdog pass, and the environment keeps its promises there. */
  ghost predicate Brings(p: Params, tm: Timing, w: World, a: Action, w': World) {
    CanAct(w, a) && w' == Act(p, w, a) && Timely(tm, w'.sys) && (a.ByEngine? ==> !a.step.OfCancel? && !a.step.OfStore?)
  }

  lemma TraceOnward(p: Params, tm: Timing, t: Trace, a: Action, w': World) returns (t': Trace)
    requires IsTimelyTrace(p, tm, t) && Brings(p, tm, LastWorld(t), a, w')
    ensures IsTimelyTrace(p, tm, t') && LastWorld(t') == w' && t' == Trace(t.worlds + [w'], t.actions + [a])
  {
    t' := Trace(t.worlds + [w'], t.actions + [a]);
    forall k | 0 <= k < |t'.actions| ensures ActionAt(p, t', k) {
      if k < |t.actions| { assert ActionAt(p, t, k); }
    }
    forall k | 0 <= k < |t'.worlds| ensures Timely(tm, t'.worlds[k].sys) {
      if k < |t.worlds| { assert t'.worlds[k] == t.worlds[k]; }
    }
    forall k | 0 <= k < |t'.actions| && t'.actions[k].ByEngine?
      ensures !IsLate(t'.worlds[k].sys, t'.actions[k].step) && KeepsLocks(p, t'.worlds[k].sys, t'.actions[k].step)
    {
      if k < |t.actions| { assert t'.worlds[k] == t.worlds[k] && t'.actions[k] == t.actions[k]; }
    }
  }

  const TASK := Task(None, None, false)
  const TICK := Tick(0, 0, [], [])
  const READ := Entry("a", ROW)
  const READY := Ready("a", ROW, TASK)

  /** A step of the engine while the row of the schedule waits to be written. */
  lemma EngineBrings(p: Params, tm: Timing, st: Sys, step: Step, st': Sys, pending: map<nat, Entry>)
    requires Leads(p, tm, st, step, st') && step.OfTick?
    ensures Brings(p, tm, World(st, pending), ByEngine(step), World(st', pending))
  {
  }

  /** The row is read, and then its schedule is claimed. */
  lemma ClaimedMeanwhile(p: Params, tm: Timing) returns (t: Trace)
    ensures IsTimelyTrace(p, tm, t) && LastWorld(t) == World(Busy(TASK, 0, 0, Claimed).(tick := Some(TICK)), map[0 := READ])
    ensures |t.actions| == 4 && t.actions[0] == ReadRow(0, "a")
  {
    TickMoves(p, tm, TASK);
    ClaimMoves(p, tm, TASK, 0);
    t := JustRead(p, tm);
    EngineBrings(p, tm, Start(TASK), OfTick(TickBegin(0, [READ])), Ticking(TASK), map[0 := READ]);
    t := TraceOnward(p, tm, t, ByEngine(OfTick(TickBegin(0, [READ]))), World(Ticking(TASK), map[0 := READ]));
    EngineBrings(p, tm, Ticking(TASK), OfTick(TickCheck(0)), Checked(TASK, 0), map[0 := READ]);
    t := TraceOnward(p, tm, t, ByEngine(OfTick(TickCheck(0))), World(Checked(TASK, 0), map[0 := READ]));
    EngineBrings(p, tm, Checked(TASK, 0), OfTick(Dispatch(0)), Busy(TASK, 0, 0, Claimed).(tick := Some(TICK)), map[0 := READ]);
    t := TraceOnward(p, tm, t, ByEngine(OfTick(Dispatch(0))), World(Busy(TASK, 0, 0, Claimed).(tick := Some(TICK)), map[0 := READ]));
  }

  lemma JustRead(p: Params, tm: Timing) returns (t: Trace)
    ensures IsTimelyTrace(p, tm, t) && LastWorld(t) == World(Start(TASK), map[0 := READ])
    ensures |t.actions| == 1 && t.actions[0] == ReadRow(0, "a")
  {
    t := TraceOnward(p, tm, Trace([World(Start(TASK), map[])], []), ReadRow(0, "a"), World(Start(TASK), map[0 := READ]));
  }

  /** The run is at work, and its lock is gone. */
  function Robbed(tick: Option<Tick>): Sys {
    Sys(0, Db(map["t" := TASK], map["a" := ROW], map[]), true, Work(1, map[0 := Job("a", ROW, TASK, Claimed, 0)]),
        Polling(map[], {}, None, map[]), tick, OPEN, Past(map["a" := 0]))
  }

  /** The schedule has been claimed a second time. */
  const DOUBLED := Sys(0, Db(map["t" := TASK], map["a" := LOCKED], map[]), true,
                       Work(2, map[0 := Job("a", ROW, TASK, Claimed, 0), 1 := Job("a", ROW, TASK, Claimed, 0)]),
                       Polling(map[], {}, None, map[]), Some(TICK), OPEN, Past(map["a" := 1]))

  lemma WriteBrings(p: Params, tm: Timing, s: Sync.ScheduleRow)
    requires Rewritten(ROW, s) == ROW
    ensures Brings(p, tm, World(Busy(TASK, 0, 0, Claimed).(tick := Some(TICK)), map[0 := READ]), WriteRow(0, s),
                   World(Robbed(Some(TICK)), map[]))
  {
    assert map["a" := LOCKED]["a" := ROW] == map["a" := ROW];
    assert map[0 := READ] - {0} == map[];
  }

  lemma TickAgain(p: Params, tm: Timing)
    ensures Leads(p, tm, Robbed(Some(TICK)), OfTick(TickEnd), Robbed(None))
    ensures Leads(p, tm, Robbed(None), OfTick(TickBegin(0, [READ])), Robbed(Some(TICK.(todo := [READ]))))
    ensures Leads(p, tm, Robbed(Some(TICK.(todo := [READ]))), OfTick(TickCheck(0)), Robbed(Some(TICK.(ready := [READY]))))
  {
    FreeTask(map["a" := ROW], ROW);
    OneEntry(map["a" := ROW], ROW, 0);
    assert RemoveAt([READ], 0) == [];
    assert [] + [READY] == [READY];
  }

  lemma ClaimAgain(p: Params, tm: Timing)
    ensures Leads(p, tm, Robbed(Some(TICK.(ready := [READY]))), OfTick(Dispatch(0)), DOUBLED)
  {
    FreeTask(map["a" := ROW], ROW);
    assert RemoveAt([READY], 0) == [];
    assert Claim(map["a" := ROW], "a", 0) == map["a" := LOCKED];
    assert map["a" := 0]["a" := 1] == map["a" := 1];
  }

  lemma DispatchedAgain(p: Params, tm: Timing, t: Trace) returns (t': Trace)
    requires IsTimelyTrace(p, tm, t) && LastWorld(t) == World(Robbed(Some(TICK)), map[])
    ensures IsTimelyTrace(p, tm, t') && LastWorld(t') == World(DOUBLED, map[]) && t.actions <= t'.actions
  {
    TickAgain(p, tm);
    ClaimAgain(p, tm);
    EngineBrings(p, tm, Robbed(Some(TICK)), OfTick(TickEnd), Robbed(None), map[]);
    t' := TraceOnward(p, tm, t, ByEngine(OfTick(TickEnd)), World(Robbed(None), map[]));
    EngineBrings(p, tm, Robbed(None), OfTick(TickBegin(0, [READ])), Robbed(Some(TICK.(todo := [READ]))), map[]);
    t' := TraceOnward(p, tm, t', ByEngine(OfTick(TickBegin(0, [READ]))), World(Robbed(Some(TICK.(todo := [READ]))), map[]));
    EngineBrings(p, tm, Robbed(Some(TICK.(todo := [READ]))), OfTick(TickCheck(0)), Robbed(Some(TICK.(ready := [READY]))), map[]);
    t' := TraceOnward(p, tm, t', ByEngine(OfTick(TickCheck(0))), World(Robbed(Some(TICK.(ready := [READY]))), map[]));
    EngineBrings(p, tm, Robbed(Some(TICK.(ready := [READY]))), OfTick(Dispatch(0)), DOUBLED, map[]);
    t' := TraceOnward(p, tm, t', ByEngine(OfTick(Dispatch(0))), World(DOUBLED, map[]));
  }

  /**
   * A sync reads the row of a schedule, the schedule is claimed, and the sync writes the row back, its declaration being
   * the one the row has: the lock is gone while the run goes on, the next tick claims the schedule again, and two runs of
   * one task are in flight. Nobody is late for anything, no cancel comes, and no lock is reaped.
   */
  lemma SyncBreaksExclusion(p: Params, tm: Timing, s: Sync.ScheduleRow) returns (t: Trace)
    requires Rewritten(ROW, s) == ROW
    ensures IsTimelyTrace(p, tm, t) && |t.actions| > 4 && t.actions[0] == ReadRow(0, "a") && t.actions[4] == WriteRow(0, s)
    ensures var st := LastWorld(t).sys;
            && !Exclusive(st) && 0 in st.work.jobs && 1 in st.work.jobs && st.work.jobs[0].id == st.work.jobs[1].id == "a"
  {
    t := ClaimedMeanwhile(p, tm);
    WriteBrings(p, tm, s);
    t := TraceOnward(p, tm, t, WriteRow(0, s), World(Robbed(Some(TICK)), map[]));
    ghost var actions := t.actions;
    t := DispatchedAgain(p, tm, t);
    assert t.actions[0] == actions[0] && t.actions[4] == actions[4];
    DoubledIsShared();
  }

  lemma DoubledIsShared()
    ensures !Exclusive(DOUBLED)
  {
    var jobs, ars := DOUBLED.work.jobs, DOUBLED.poll.asyncRuns;
    assert InFlight(jobs, ars, 0) && InFlight(jobs, ars, 1) && TaskOf(DOUBLED, 0) == TaskOf(DOUBLED, 1);
  }
}
