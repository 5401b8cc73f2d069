/** Runs in which a pause and a resume, or two resumes, meet a tick at the wrong moment. */
module Freezes {
  import opened Records
  import opened Store
  import opened Protocol
  import opened Locks
  import opened Polls
  import opened Ownership
  import opened Pausing
  import opened Recovery
  import opened Bursts
  import opened Witness

  const PLAIN := Plain(None)

  // ---- a stale dispatch ----

  const SKIPPED := ROW.(nextRunAt := Some(1))

  /** The tick holds the checked schedule while the queue is frozen and released. */
  function Frozen(row: Row, freeze: Freeze): Sys {
    Checked(PLAIN, 0).(db := Db(map["t" := PLAIN], map["a" := row], map[]), freeze := freeze)
  }

  /** A pass begun at time `x` that has scanned the table and has this left to do. */
  function Scanned(x: int, left: seq<Entry>): Resume {
    Resume(x, {"a"}, left)
  }

  lemma OnePage(rows: Rows, x: int)
    requires rows == map["a" := ROW] && x >= 0
    ensures IsOverduePage(rows, x, {"a"}, TODO)
  {
    assert TODO[0].id == "a";
  }

  /** One page covers the table. */
  lemma PageMove(p: Params, tm: Timing, st: Sys, q: nat, x: int)
    requires st.up && Timely(tm, st) && st.db.rows == map["a" := ROW] && x >= 0
    requires q in st.freeze.resumes && st.freeze.resumes[q] == Resume(x, {}, [])
    ensures Leads(p, tm, st, OfFreeze(ResumePage(q, {"a"}, TODO)), st.(freeze := st.freeze.(resumes := st.freeze.resumes[q := Scanned(x, TODO)])))
  {
    OnePage(st.db.rows, x);
    assert st.db.rows.Keys == {"a"} && "a" !in Resume(x, {}, []).scanned;
    assert {} + {"a"} == {"a"} && [] + TODO == TODO;
    assert DoResumePage(st, q, {"a"}, TODO) == st.(freeze := st.freeze.(resumes := st.freeze.resumes[q := Scanned(x, TODO)]));
  }

  lemma FreezeMoves(p: Params, tm: Timing)
    ensures Leads(p, tm, Checked(PLAIN, 0), OfFreeze(Pause), Frozen(ROW, Freeze(true, 1, map[])))
    ensures Leads(p, tm, Frozen(ROW, Freeze(true, 1, map[])), OfFreeze(ResumeBegin(0, 0)), Frozen(ROW, Freeze(true, 1, map[0 := Resume(0, {}, [])])))
    ensures Leads(p, tm, Frozen(ROW, Freeze(true, 1, map[0 := Resume(0, {}, [])])), OfFreeze(ResumePage(0, {"a"}, TODO)),
                  Frozen(ROW, Freeze(true, 1, map[0 := Scanned(0, TODO)])))
  {
    assert map[][0 := Resume(0, {}, [])] == map[0 := Resume(0, {}, [])];
    PageMove(p, tm, Frozen(ROW, Freeze(true, 1, map[0 := Resume(0, {}, [])])), 0, 0);
    assert map[0 := Resume(0, {}, [])][0 := Scanned(0, TODO)] == map[0 := Scanned(0, TODO)];
  }

  lemma SkipMoves(p: Params, tm: Timing)
    ensures Leads(p, tm, Frozen(ROW, Freeze(true, 1, map[0 := Scanned(0, TODO)])),
                  OfFreeze(ResumeSkip(0)), Frozen(SKIPPED, Freeze(true, 1, map[0 := Scanned(0, [])])))
    ensures Leads(p, tm, Frozen(SKIPPED, Freeze(true, 1, map[0 := Scanned(0, [])])),
                  OfFreeze(ResumeEnd(0)), Frozen(SKIPPED, Freeze(false, 2, map[])))
  {
    assert map["a" := ROW]["a" := SKIPPED] == map["a" := SKIPPED];
    assert TODO[1..] == [];
    assert map[0 := Scanned(0, TODO)][0 := Scanned(0, [])] == map[0 := Scanned(0, [])];
    assert map[0 := Scanned(0, [])] - {0} == map[];
  }

  lemma CheckedThenFrozen(p: Params, tm: Timing) returns (h: History)
    ensures IsTimelyRun(p, tm, h) && |h.steps| == 5 && h.steps[2] == OfFreeze(Pause)
    ensures Last(h) == Frozen(ROW, Freeze(true, 1, map[0 := Scanned(0, TODO)]))
  {
    h := History([Start(PLAIN)], []);
    StartsAllowed(p, tm, iset{}, PLAIN);
    TickMoves(p, tm, PLAIN);
    FreezeMoves(p, tm);
    h := Onward(p, tm, h, OfTick(TickBegin(0, TODO)), Ticking(PLAIN));
    h := Onward(p, tm, h, OfTick(TickCheck(0)), Checked(PLAIN, 0));
    h := Onward(p, tm, h, OfFreeze(Pause), Frozen(ROW, Freeze(true, 1, map[])));
    h := Onward(p, tm, h, OfFreeze(ResumeBegin(0, 0)), Frozen(ROW, Freeze(true, 1, map[0 := Resume(0, {}, [])])));
    h := Onward(p, tm, h, OfFreeze(ResumePage(0, {"a"}, TODO)), Frozen(ROW, Freeze(true, 1, map[0 := Scanned(0, TODO)])));
  }

  /**
   * A pause and a resume that both land between the generation check and the claim: the slot the resume
   * has dropped is dispatched all the same, although the row says it is not due.
   */
  lemma SkippedSlotIsDispatched(p: Params, tm: Timing) returns (h: History)
    ensures IsTimelyRun(p, tm, h) && PausedAndReleased(h, 1, |h.steps|)
    ensures CanDispatch(Last(h), 0) && Last(h).tick.value.ready[0].id == "a" && !Due(Last(h).db.rows, "a", Last(h).clock)
    ensures Last(h).tick.value.ready[0].row.nextRunAt != Last(h).db.rows["a"].nextRunAt
  {
    h := CheckedThenFrozen(p, tm);
    SkipMoves(p, tm);
    h := Onward(p, tm, h, OfFreeze(ResumeSkip(0)), Frozen(SKIPPED, Freeze(true, 1, map[0 := Scanned(0, [])])));
    h := Onward(p, tm, h, OfFreeze(ResumeEnd(0)), Frozen(SKIPPED, Freeze(false, 2, map[])));
    FreeTask(map["a" := SKIPPED], SKIPPED);
    assert h.steps[2] == OfFreeze(Pause) && Ends(h.steps[6]);
  }

  // ---- two resumes at once ----

  const TODO := [Entry("a", ROW)]

  /** No accepted runs: the row, the runs, the run at work, the queue, the tick and the clock. */
  function At(now: int, row: Row, freeze: Freeze, runs: map<RunId, Run>, work: Work, tick: Option<Tick>, past: Past): Sys {
    Sys(now, Db(map["t" := PLAIN], map["a" := row], runs), true, work, Polling(map[], {}, None, map[]), tick, freeze, past)
  }

  /** No run at all. */
  function Still(clock: int, row: Row, freeze: Freeze): Sys {
    At(clock, row, freeze, map[], Work(0, map[]), None, Past(map[]))
  }

  /** The passes begun at times `x` and `y`, the second with everything still to do. */
  function Both(x: nat, y: nat, left: seq<Entry>): map<nat, Resume> {
    map[x := Scanned(x, left), y := Scanned(y, TODO)]
  }

  function Other(y: nat): Freeze {
    Freeze(false, 2, map[y := Scanned(y, TODO)])
  }

  /** The row after the pass begun at time `x` has dropped its slot. */
  function Moved(x: int): Row { ROW.(nextRunAt := Some(x + 1)) }

  const SCANNED0 := map[0 := Scanned(0, TODO)]

  lemma BeginMoves(p: Params, tm: Timing)
    ensures Leads(p, tm, Start(PLAIN), OfFreeze(Pause), Still(0, ROW, Freeze(true, 1, map[])))
    ensures Leads(p, tm, Still(0, ROW, Freeze(true, 1, map[])), OfFreeze(ResumeBegin(0, 0)), Still(0, ROW, Freeze(true, 1, map[0 := Resume(0, {}, [])])))
    ensures Leads(p, tm, Still(0, ROW, Freeze(true, 1, map[0 := Resume(0, {}, [])])), OfFreeze(ResumePage(0, {"a"}, TODO)),
                  Still(0, ROW, Freeze(true, 1, SCANNED0)))
  {
    assert map[][0 := Resume(0, {}, [])] == map[0 := Resume(0, {}, [])];
    PageMove(p, tm, Still(0, ROW, Freeze(true, 1, map[0 := Resume(0, {}, [])])), 0, 0);
    assert map[0 := Resume(0, {}, [])][0 := Scanned(0, TODO)] == SCANNED0;
  }

  lemma SecondBeginMoves(p: Params, tm: Timing)
    ensures Leads(p, tm, Still(0, ROW, Freeze(true, 1, SCANNED0)), Advance(1), Still(1, ROW, Freeze(true, 1, SCANNED0)))
    ensures Leads(p, tm, Still(1, ROW, Freeze(true, 1, SCANNED0)), OfFreeze(ResumeBegin(1, 1)),
                  Still(1, ROW, Freeze(true, 1, SCANNED0[1 := Resume(1, {}, [])])))
    ensures Leads(p, tm, Still(1, ROW, Freeze(true, 1, SCANNED0[1 := Resume(1, {}, [])])), OfFreeze(ResumePage(1, {"a"}, TODO)),
                  Still(1, ROW, Freeze(true, 1, Both(0, 1, TODO))))
  {
    PageMove(p, tm, Still(1, ROW, Freeze(true, 1, SCANNED0[1 := Resume(1, {}, [])])), 1, 1);
    assert SCANNED0[1 := Resume(1, {}, [])][1 := Scanned(1, TODO)] == Both(0, 1, TODO);
  }

  lemma FirstSkipMove(p: Params, tm: Timing, x: nat, y: nat)
    requires x != y
    ensures Leads(p, tm, Still(1, ROW, Freeze(true, 1, Both(x, y, TODO))), OfFreeze(ResumeSkip(x)),
                  Still(1, Moved(x), Freeze(true, 1, Both(x, y, []))))
  {
    assert TODO[1..] == [];
    assert Both(x, y, TODO)[x := Scanned(x, [])] == Both(x, y, []);
    assert map["a" := ROW]["a" := Moved(x)] == map["a" := Moved(x)];
  }

  lemma FirstEndMoves(p: Params, tm: Timing, x: nat, y: nat)
    requires x != y
    ensures Leads(p, tm, Still(1, Moved(x), Freeze(true, 1, Both(x, y, []))), OfFreeze(ResumeEnd(x)), Still(1, Moved(x), Other(y)))
    ensures Leads(p, tm, Still(1, Moved(x), Other(y)), Advance(x), Still(x + 1, Moved(x), Other(y)))
  {
    assert Both(x, y, []) - {x} == map[y := Scanned(y, TODO)];
  }

  lemma BothBegun(p: Params, tm: Timing) returns (h: History)
    ensures IsTimelyRun(p, tm, h) && Last(h) == Still(1, ROW, Freeze(true, 1, Both(0, 1, TODO)))
    ensures h.steps == [OfFreeze(Pause), OfFreeze(ResumeBegin(0, 0)), OfFreeze(ResumePage(0, {"a"}, TODO)),
                        Advance(1), OfFreeze(ResumeBegin(1, 1)), OfFreeze(ResumePage(1, {"a"}, TODO))]
  {
    h := OneBegun(p, tm);
    SecondBeginMoves(p, tm);
    h := Onward(p, tm, h, Advance(1), Still(1, ROW, Freeze(true, 1, SCANNED0)));
    h := Onward(p, tm, h, OfFreeze(ResumeBegin(1, 1)), Still(1, ROW, Freeze(true, 1, SCANNED0[1 := Resume(1, {}, [])])));
    h := Onward(p, tm, h, OfFreeze(ResumePage(1, {"a"}, TODO)), Still(1, ROW, Freeze(true, 1, Both(0, 1, TODO))));
  }

  lemma OneBegun(p: Params, tm: Timing) returns (h: History)
    ensures IsTimelyRun(p, tm, h) && Last(h) == Still(0, ROW, Freeze(true, 1, SCANNED0))
    ensures h.steps == [OfFreeze(Pause), OfFreeze(ResumeBegin(0, 0)), OfFreeze(ResumePage(0, {"a"}, TODO))]
  {
    h := History([Start(PLAIN)], []);
    StartsAllowed(p, tm, iset{}, PLAIN);
    BeginMoves(p, tm);
    h := Onward(p, tm, h, OfFreeze(Pause), Still(0, ROW, Freeze(true, 1, map[])));
    h := Onward(p, tm, h, OfFreeze(ResumeBegin(0, 0)), Still(0, ROW, Freeze(true, 1, map[0 := Resume(0, {}, [])])));
    h := Onward(p, tm, h, OfFreeze(ResumePage(0, {"a"}, TODO)), Still(0, ROW, Freeze(true, 1, SCANNED0)));
  }

  /** None of the steps is a cancel, a watchdog pass or a crash. */
  ghost predicate Quietly(h: History) {
    forall k :: 0 <= k < |h.steps| ==> !h.steps[k].OfCancel? && !h.steps[k].OfStore? && !h.steps[k].OfCrash?
  }

  lemma On(p: Params, tm: Timing, h: History, step: Step, st': Sys) returns (h': History)
    requires IsTimelyRun(p, tm, h) && Quietly(h) && Leads(p, tm, Last(h), step, st') && !step.OfCancel?
    requires !step.OfStore? && !step.OfCrash?
    ensures IsTimelyRun(p, tm, h') && Quietly(h') && Last(h') == st' && h' == History(h.states + [st'], h.steps + [step])
  {
    h' := Onward(p, tm, h, step, st');
  }

  lemma FirstEnds(p: Params, tm: Timing, h: History, x: nat, y: nat) returns (h': History)
    requires IsTimelyRun(p, tm, h) && Quietly(h) && |h.steps| == 6
    requires Last(h) == Still(1, ROW, Freeze(true, 1, Both(x, y, TODO))) && x != y
    ensures IsTimelyRun(p, tm, h') && Quietly(h') && |h'.steps| == 9
    ensures Last(h') == Still(x + 1, Moved(x), Other(y))
    ensures h'.steps[7] == OfFreeze(ResumeEnd(x)) && UnderWay(h', y, 7, 9)
  {
    FirstSkipMove(p, tm, x, y);
    FirstEndMoves(p, tm, x, y);
    h' := On(p, tm, h, OfFreeze(ResumeSkip(x)), Still(1, Moved(x), Freeze(true, 1, Both(x, y, []))));
    h' := On(p, tm, h', OfFreeze(ResumeEnd(x)), Still(1, Moved(x), Other(y)));
    h' := On(p, tm, h', Advance(x), Still(x + 1, Moved(x), Other(y)));
  }

  /** Two requests to resume a paused queue: the pass begun at time `x` ends first, and the other one is still to write. */
  lemma TwoResumes(p: Params, tm: Timing, x: nat, y: nat) returns (h: History)
    requires (x == 0 && y == 1) || (x == 1 && y == 0)
    ensures IsTimelyRun(p, tm, h) && Quietly(h) && |h.steps| == 9
    ensures Last(h) == Still(x + 1, Moved(x), Other(y))
    ensures h.steps[7] == OfFreeze(ResumeEnd(x)) && UnderWay(h, y, 7, 9)
  {
    h := BothBegun(p, tm);
    assert Both(0, 1, TODO) == Both(x, y, TODO);
    h := FirstEnds(p, tm, h, x, y);
  }

  /** The queue is paused again; pass 1 has this left to do. */
  function Again(row: Row, left: seq<Entry>): Sys {
    Still(1, row, Freeze(true, 3, map[1 := Scanned(1, left)]))
  }

  lemma PauseAgainMove(p: Params, tm: Timing)
    ensures Leads(p, tm, Still(1, Moved(0), Other(1)), OfFreeze(Pause), Again(Moved(0), TODO))
    ensures Leads(p, tm, Again(Moved(1), []), OfFreeze(ResumeEnd(1)), Still(1, Moved(1), Freeze(false, 4, map[])))
  {
    assert map[1 := Scanned(1, [])] - {1} == map[];
  }

  lemma SkipAgainMove(p: Params, tm: Timing)
    ensures Leads(p, tm, Again(Moved(0), TODO), OfFreeze(ResumeSkip(1)), Again(Moved(1), []))
  {
    assert TODO[1..] == [];
    assert map[1 := Scanned(1, TODO)][1 := Scanned(1, [])] == map[1 := Scanned(1, [])];
    assert map["a" := Moved(0)]["a" := Moved(1)] == map["a" := Moved(1)];
  }

  /**
   * Two overlapping resumes: one ends, an operator pauses the queue again, and the other one, called before that
   * pause, opens it.
   */
  lemma OlderResumeUndoesPause(p: Params, tm: Timing) returns (h: History)
    ensures IsTimelyRun(p, tm, h) && |h.steps| == 12 && h.steps[9] == OfFreeze(Pause) && Ends(h.steps[11]) && UnderWay(h, 1, 7, 11)
    ensures h.states[10].freeze.paused && !Last(h).freeze.paused
  {
    h := TwoResumes(p, tm, 0, 1);
    ghost var g := h;
    PauseAgainMove(p, tm);
    SkipAgainMove(p, tm);
    h := On(p, tm, h, OfFreeze(Pause), Again(Moved(0), TODO));
    h := On(p, tm, h, OfFreeze(ResumeSkip(1)), Again(Moved(1), []));
    h := On(p, tm, h, OfFreeze(ResumeEnd(1)), Still(1, Moved(1), Freeze(false, 4, map[])));
    forall i | 7 <= i <= 9 ensures 1 in h.states[i].freeze.resumes { assert h.states[i] == g.states[i]; }
  }

  /** The run `r`, claimed from this row at time `now`. */
  function JobOf(row: Row, phase: Phase, now: int): Job {
    Job("a", row, PLAIN, phase, now)
  }

  lemma ReadAndClaimMoves(p: Params, tm: Timing, now: int, row: Row, freeze: Freeze, runs: map<RunId, Run>, r: nat, past: Past)
    requires row.taskName == "t" && !row.Locked() && !row.paused && !row.disabled && row.nextRunAt.Some?
    requires row.nextRunAt.value <= now && !freeze.paused
    ensures Leads(p, tm, At(now, row, freeze, runs, Work(r, map[]), None, past), OfTick(TickBegin(now, [Entry("a", row)])),
                 At(now, row, freeze, runs, Work(r, map[]), Some(Tick(now, freeze.generation, [Entry("a", row)], [])), past))
    ensures Leads(p, tm, At(now, row, freeze, runs, Work(r, map[]), Some(Tick(now, freeze.generation, [Entry("a", row)], [])), past),
                  OfTick(TickCheck(0)),
                 At(now, row, freeze, runs, Work(r, map[]), Some(Tick(now, freeze.generation, [], [Ready("a", row, PLAIN)])), past))
  {
    FreeTask(map["a" := row], row);
    OneEntry(map["a" := row], row, now);
    assert RemoveAt([Entry("a", row)], 0) == [];
    assert [] + [Ready("a", row, PLAIN)] == [Ready("a", row, PLAIN)];
  }

  lemma ClaimMove(p: Params, tm: Timing, now: int, row: Row, freeze: Freeze, runs: map<RunId, Run>, r: nat, past: Past)
    requires row.taskName == "t" && !row.Locked() && !row.paused && !row.disabled && !freeze.paused
    ensures Leads(p, tm, At(now, row, freeze, runs, Work(r, map[]), Some(Tick(now, freeze.generation, [], [Ready("a", row, PLAIN)])), past),
                  OfTick(Dispatch(0)),
                 At(now, row.(lockedAt := Some(now)), freeze, runs, Work(r + 1, map[r := JobOf(row, Claimed, now)]), Some(Tick(now, freeze.generation, [], [])),
                    Past(past.owners["a" := r])))
  {
    FreeTask(map["a" := row], row);
    assert RemoveAt([Ready("a", row, PLAIN)], 0) == [];
    assert Claim(map["a" := row], "a", now) == map["a" := row.(lockedAt := Some(now))];
    assert map[][r := JobOf(row, Claimed, now)] == map[r := JobOf(row, Claimed, now)];
  }

  /** The tick reads the row, checks it and claims it. */
  lemma ReadAndClaim(p: Params, tm: Timing, h: History, now: int, row: Row, freeze: Freeze, runs: map<RunId, Run>, r: nat, past: Past)
    returns (h': History)
    requires IsTimelyRun(p, tm, h) && Quietly(h) && Last(h) == At(now, row, freeze, runs, Work(r, map[]), None, past)
    requires row.taskName == "t" && !row.Locked() && !row.paused && !row.disabled && row.nextRunAt.Some?
    requires row.nextRunAt.value <= now && !freeze.paused
    ensures IsTimelyRun(p, tm, h') && Quietly(h') && |h'.steps| == |h.steps| + 3 && h.states <= h'.states && h.steps <= h'.steps
    ensures var n := |h.steps| + 2;
            Claims(h'.states[n], h'.steps[n], "a") && h'.states[n].tick.value.ready[h'.steps[n].t.k].row == row && TickTime(h', n) == now
    ensures forall i :: |h.steps| <= i < |h'.states| ==> h'.states[i].freeze == freeze
    ensures Last(h') == At(now, row.(lockedAt := Some(now)), freeze, runs, Work(r + 1, map[r := JobOf(row, Claimed, now)]),
                           Some(Tick(now, freeze.generation, [], [])), Past(past.owners["a" := r]))
  {
    ReadAndClaimMoves(p, tm, now, row, freeze, runs, r, past);
    ClaimMove(p, tm, now, row, freeze, runs, r, past);
    var read, checked := Tick(now, freeze.generation, [Entry("a", row)], []), Tick(now, freeze.generation, [], [Ready("a", row, PLAIN)]);
    h' := On(p, tm, h, OfTick(TickBegin(now, [Entry("a", row)])), At(now, row, freeze, runs, Work(r, map[]), Some(read), past));
    h' := On(p, tm, h', OfTick(TickCheck(0)), At(now, row, freeze, runs, Work(r, map[]), Some(checked), past));
    h' := On(p, tm, h', OfTick(Dispatch(0)),
             At(now, row.(lockedAt := Some(now)), freeze, runs, Work(r + 1, map[r := JobOf(row, Claimed, now)]),
                Some(Tick(now, freeze.generation, [], [])), Past(past.owners["a" := r])));
  }

  /** What the watchdog, crashes and cancels could disturb is not disturbed. */
  lemma QuietIsCalm(p: Params, h: History)
    requires |h.states| == |h.steps| + 1 && Quietly(h)
    ensures Calm(p, h, |h.steps|) && NoCrash(h, |h.steps|)
  {
  }

  /** The tick at clock 1 has claimed the row after the pass begun at time 0; the pass begun at time 1 has this left to do. */
  function Overtaken(row: Row, left: seq<Entry>): Sys {
    At(1, row.(lockedAt := Some(1)), Freeze(false, 2, map[1 := Scanned(1, left)]), map[],
       Work(1, map[0 := JobOf(Moved(0), Claimed, 1)]), Some(Tick(1, 2, [], [])), Past(map[]["a" := 0]))
  }

  lemma SkipLockedMove(p: Params, tm: Timing)
    ensures Leads(p, tm, Overtaken(Moved(0), TODO), OfFreeze(ResumeSkip(1)), Overtaken(Moved(1), []))
  {
    var before, after := Moved(0).(lockedAt := Some(1)), Moved(1).(lockedAt := Some(1));
    assert TODO[1..] == [];
    assert map[1 := Scanned(1, TODO)][1 := Scanned(1, [])] == map[1 := Scanned(1, [])];
    assert map["a" := before]["a" := after] == map["a" := after];
  }

  /** Two overlapping resumes: one has ended and a tick has claimed the schedule; the other one is still to write. */
  lemma ClaimedMeanwhile(p: Params, tm: Timing) returns (h: History)
    ensures IsTimelyRun(p, tm, h) && Quietly(h) && |h.steps| == 12 && Last(h) == Overtaken(Moved(0), TODO)
    ensures h.steps[7] == OfFreeze(ResumeEnd(0)) && UnderWay(h, 1, 7, 12)
  {
    h := TwoResumes(p, tm, 0, 1);
    ghost var g := h;
    h := ReadAndClaim(p, tm, h, 1, Moved(0), Other(1), map[], 0, Past(map[]));
    assert h.steps[7] == g.steps[7];
    forall i | 7 <= i <= 9 ensures 1 in h.states[i].freeze.resumes { assert h.states[i] == g.states[i]; }
  }

  /**
   * Two overlapping resumes: one ends, a tick claims the schedule, and the other one moves the slot of the locked
   * row. After a crash now and the recovery the schedule is not due, so the slot that was running is lost.
   */
  lemma OverrunLosesSlot(p: Params, tm: Timing, orphans: seq<RunId>) returns (h: History)
    ensures IsTimelyRun(p, tm, h) && Calm(p, h, |h.steps|)
    ensures "a" in Last(h).db.rows && Last(h).db.rows["a"].Locked() && Overrun(p, h, 11, |h.steps|, "a")
    ensures var after := AfterRecovery(Last(h), orphans);
            SwitchedOn(after.db.rows, "a") && !Due(after.db.rows, "a", after.clock)
  {
    h := ClaimedMeanwhile(p, tm);
    ghost var g := h;
    SkipLockedMove(p, tm);
    h := On(p, tm, h, OfFreeze(ResumeSkip(1)), Overtaken(Moved(1), []));
    QuietIsCalm(p, h);
    forall i | 7 <= i <= 12 ensures 1 in h.states[i].freeze.resumes { assert h.states[i] == g.states[i]; }
    assert Overruns(p, h, 7, 12, 1, "a");
    RecoveredRows(Last(h), orphans);
  }

  // ---- two ladders at once ----

  /** The completed run leaves this row behind, at clock 2. */
  const FINISHED := ROW.(nextRunAt := Some(3), lastRunAt := Some(2), lastRunId := Some(0))

  const HELD := Moved(1).(lockedAt := Some(2))

  /** The run claimed at clock 2 stands here; the pass begun at time 0 is still to write. */
  function RunningAt(phase: Phase, runs: map<RunId, Run>, tick: Option<Tick>): Sys {
    At(2, HELD, Other(0), runs, Work(1, map[0 := JobOf(Moved(1), phase, 2)]), tick, Past(map[]["a" := 0]))
  }

  lemma StartMoves(p: Params, tm: Timing)
    ensures Leads(p, tm, RunningAt(Claimed, map[], Some(Tick(2, 2, [], []))), OfTick(TickEnd), RunningAt(Claimed, map[], None))
    ensures Leads(p, tm, RunningAt(Claimed, map[], None), OfRun(CreateRun(0)), RunningAt(Started, RunAs(Running), None))
  {
    assert map[][0 := Run("a", 1, None, Running, false)] == RunAs(Running);
    assert map[0 := JobOf(Moved(1), Claimed, 2)][0 := JobOf(Moved(1), Started, 2)] == map[0 := JobOf(Moved(1), Started, 2)];
  }

  lemma EndMoves(p: Params, tm: Timing)
    ensures Leads(p, tm, RunningAt(Started, RunAs(Running), None), OfRun(Settle(0, Done(Succeeded))),
                  RunningAt(Settled(Succeeded, 2, true), RunAs(Running), None))
    ensures Leads(p, tm, RunningAt(Settled(Succeeded, 2, true), RunAs(Running), None), OfRun(JobWrite(0)),
                  RunningAt(Written(Succeeded, 2, true), RunAs(Ended(Succeeded)), None))
  {
    var started, settled := JobOf(Moved(1), Started, 2), JobOf(Moved(1), Settled(Succeeded, 2, true), 2);
    var written := JobOf(Moved(1), Written(Succeeded, 2, true), 2);
    assert map[0 := started][0 := settled] == map[0 := settled];
    assert map[0 := settled][0 := written] == map[0 := written];
    assert RunAs(Running)[0 := Run("a", 1, None, Ended(Succeeded), false)] == RunAs(Ended(Succeeded));
  }

  /** The run is over; the pass begun at time 0 is still to write, or has written. */
  function Over(row: Row, left: seq<Entry>): Sys {
    At(2, row, Freeze(false, 2, map[0 := Scanned(0, left)]), RunAs(Ended(Succeeded)), Work(1, map[]), None, Past(map[]["a" := 0]))
  }

  const EARLY := FINISHED.(nextRunAt := Some(1))

  lemma CompleteMove(p: Params, tm: Timing)
    ensures Leads(p, tm, RunningAt(Written(Succeeded, 2, true), RunAs(Ended(Succeeded)), None), OfRun(JobComplete(0)), Over(FINISHED, TODO))
  {
    assert map[0 := JobOf(Moved(1), Written(Succeeded, 2, true), 2)] - {0} == map[];
    assert map["a" := HELD]["a" := FINISHED] == map["a" := FINISHED];
  }

  lemma OldSkipMove(p: Params, tm: Timing)
    ensures Leads(p, tm, Over(FINISHED, TODO), OfFreeze(ResumeSkip(0)), Over(EARLY, []))
  {
    assert TODO[1..] == [];
    assert map[0 := Scanned(0, TODO)][0 := Scanned(0, [])] == map[0 := Scanned(0, [])];
    assert map["a" := FINISHED]["a" := EARLY] == map["a" := EARLY];
  }

  lemma Working(p: Params, tm: Timing, h: History) returns (h': History)
    requires IsTimelyRun(p, tm, h) && Quietly(h) && Last(h) == RunningAt(Claimed, map[], Some(Tick(2, 2, [], [])))
    ensures IsTimelyRun(p, tm, h') && Quietly(h') && h.states <= h'.states && h.steps <= h'.steps
    ensures Last(h') == RunningAt(Settled(Succeeded, 2, true), RunAs(Running), None)
  {
    StartMoves(p, tm);
    EndMoves(p, tm);
    h' := On(p, tm, h, OfTick(TickEnd), RunningAt(Claimed, map[], None));
    h' := On(p, tm, h', OfRun(CreateRun(0)), RunningAt(Started, RunAs(Running), None));
    h' := On(p, tm, h', OfRun(Settle(0, Done(Succeeded))), RunningAt(Settled(Succeeded, 2, true), RunAs(Running), None));
  }

  lemma Finishing(p: Params, tm: Timing, h: History) returns (h': History)
    requires IsTimelyRun(p, tm, h) && Quietly(h) && Last(h) == RunningAt(Settled(Succeeded, 2, true), RunAs(Running), None)
    ensures IsTimelyRun(p, tm, h') && Quietly(h') && h.states <= h'.states && h.steps <= h'.steps
    ensures Last(h') == Over(EARLY, [])
  {
    EndMoves(p, tm);
    CompleteMove(p, tm);
    OldSkipMove(p, tm);
    h' := On(p, tm, h, OfRun(JobWrite(0)), RunningAt(Written(Succeeded, 2, true), RunAs(Ended(Succeeded)), None));
    h' := On(p, tm, h', OfRun(JobComplete(0)), Over(FINISHED, TODO));
    h' := On(p, tm, h', OfFreeze(ResumeSkip(0)), Over(EARLY, []));
  }

  /** The run of the first ladder is over, and the older pass has moved the slot back. */
  lemma RunThenSkipped(p: Params, tm: Timing) returns (h: History, m: nat)
    ensures IsTimelyRun(p, tm, h) && Quietly(h) && m < |h.steps| && Last(h) == Over(EARLY, [])
    ensures Starts(h.states[m], h.steps[m], "a") && TickTime(h, m) == 2
  {
    h := TwoResumes(p, tm, 1, 0);
    m := |h.steps| + 2;
    h := ReadAndClaim(p, tm, h, 2, Moved(1), Other(0), map[], 0, Past(map[]));
    ghost var g := h;
    h := Working(p, tm, h);
    h := Finishing(p, tm, h);
    assert h.states[m] == g.states[m] && h.steps[m] == g.steps[m];
  }

  /**
   * Two overlapping resumes: the older one moves the slot of a schedule that has just run back into the past, and a
   * second ladder starts at the very time of the first.
   */
  lemma OldPassStartsAgain(p: Params, tm: Timing) returns (h: History, m: nat, n: nat)
    ensures IsTimelyRun(p, tm, h) && Calm(p, h, |h.steps|) && NoCrash(h, |h.steps|) && m < n < |h.steps|
    ensures Starts(h.states[m], h.steps[m], "a") && Starts(h.states[n], h.steps[n], "a") && TickTime(h, m) == TickTime(h, n)
  {
    h, m := RunThenSkipped(p, tm);
    ghost var g := h;
    n := |h.steps| + 2;
    h := ReadAndClaim(p, tm, h, 2, EARLY, Freeze(false, 2, map[0 := Scanned(0, [])]), RunAs(Ended(Succeeded)), 1, Past(map[]["a" := 0]));
    assert h.states[m] == g.states[m] && h.steps[m] == g.steps[m];
    QuietIsCalm(p, h);
  }
}
