/**
 * What becomes of a failed verdict. It is written once, and nothing but the write of a late cancel overwrites the
 * status of its run.
 */
module Failures {
  import opened Records
  import opened Protocol
  import opened Finish
  import opened Polls

  predicate HasFailed(runs: map<RunId, Run>, r: RunId) {
    r in runs && runs[r].failed
  }

  /** The poll pass will neither look at the run nor write it again. */
  ghost predicate Shut(poll: Polling, r: RunId) {
    r in poll.asyncRuns ==>
      poll.asyncRuns[r].finishing && poll.asyncRuns[r].writes >= 1 && !PassWillWrite(poll, r) && Over(poll, r)
  }

  /** The step overwrites the failed verdict of the run. */
  predicate Overwrites(st: Sys, step: Step, r: RunId) {
    step == OfCancel(CancelWrite(r)) && HasFailed(st.db.runs, r)
  }

  ghost predicate Overwritten(h: History, n: nat, r: RunId)
    requires n <= |h.steps| && n <= |h.states|
  {
    exists k :: 0 <= k < n && Overwrites(h.states[k], h.steps[k], r)
  }

  ghost predicate Stands(st: Sys, r: RunId, overwritten: bool) {
    if HasFailed(st.db.runs, r) then
      && (r in st.work.jobs ==> st.work.jobs[r].phase.Written?) && Shut(st.poll, r)
      && st.db.runs[r].status == Ended(if overwritten then Cancelled else Failed)
    else !overwritten
  }

  lemma StandsTick(st: Sys, t: TickStep, r: RunId, o: bool)
    requires WellFormed(st) && Stands(st, r, o) && CanStepTick(st, t)
    ensures Stands(DoStepTick(st, t), r, o)
  {
  }

  lemma StandsRun(p: Params, st: Sys, j: RunStep, r: RunId, o: bool)
    requires WellFormed(st) && Stands(st, r, o) && CanStepRun(st, j)
    ensures Stands(DoStepRun(p, st, j), r, o)
  {
  }

  /** A look that writes no verdict: the run of the pass changes, and no run that has failed. */
  lemma StandsLook(st: Sys, st': Sys, r: RunId, o: bool)
    requires WellFormed(st) && WellFormed(st') && Stands(st, r, o) && AtRun(st) && !Finishes(st.poll.pass.value)
    requires st'.work == st.work && st'.poll.queue == st.poll.queue && st'.poll.pass.Some?
    requires var q := st.poll.pass.value.todo[0];
             && q in st'.poll.asyncRuns && st'.poll.asyncRuns == st.poll.asyncRuns[q := st'.poll.asyncRuns[q]]
             && (st'.poll.pass.value.todo == st.poll.pass.value.todo || st'.poll.pass.value.todo == st.poll.pass.value.todo[1..])
             && (q != r ==> (r in st'.db.runs <==> r in st.db.runs) && (r in st.db.runs ==> st'.db.runs[r] == st.db.runs[r]))
             && (PassFinishes(st'.poll, r) ==> q == r)
             && (HasFailed(st'.db.runs, q) ==> HasFailed(st.db.runs, q))
    ensures Stands(st', r, o)
  {
  }

  lemma StandsWrite(st: Sys, r: RunId, o: bool)
    requires WellFormed(st) && Accounted(st.poll, r) && Stands(st, r, o) && CanPassWrite(st)
    ensures Stands(DoPassWrite(st), r, o)
  {
    assert PassFinishes(st.poll, st.poll.pass.value.cur.r);
  }

  lemma StandsComplete(p: Params, st: Sys, r: RunId, o: bool)
    requires WellFormed(st) && Stands(st, r, o) && CanPassComplete(st)
    ensures Stands(DoPassComplete(p, st), r, o)
  {
  }

  lemma StandsVisit(p: Params, st: Sys, r: RunId, o: bool)
    requires WellFormed(st) && Stands(st, r, o) && CanPassVisit(st)
    ensures Stands(DoPassVisit(p, st), r, o)
  {
    WellFormedVisit(p, st);
    StandsLook(st, DoPassVisit(p, st), r, o);
  }

  lemma StandsAnswer(st: Sys, answer: Answer, r: RunId, o: bool)
    requires WellFormed(st) && Stands(st, r, o) && CanPassAnswer(st, answer)
    ensures Stands(DoPassAnswer(st, answer), r, o)
  {
    WellFormedAnswer(st, answer);
    StandsLook(st, DoPassAnswer(st, answer), r, o);
  }

  lemma StandsSignalled(st: Sys, r: RunId, o: bool)
    requires WellFormed(st) && Stands(st, r, o) && CanPassSignalled(st)
    ensures Stands(DoPassSignalled(st), r, o)
  {
    StartFinishWellFormed(st.poll, st.clock, st.poll.pass.value.cur.r, Failed);
    StandsLook(st, DoPassSignalled(st), r, o);
  }

  lemma StandsPass(p: Params, st: Sys, s: PassStep, r: RunId, o: bool)
    requires WellFormed(st) && Accounted(st.poll, r) && Stands(st, r, o) && CanStepPass(st, s) && Reads(st, OfPass(s))
    ensures Stands(DoStepPass(p, st, s), r, o)
  {
    match s
    case PassBegin(_, _) =>
    case PassVisit => StandsVisit(p, st, r, o);
    case PassSignalled => StandsSignalled(st, r, o);
    case PassAnswer(answer) => StandsAnswer(st, answer, r, o);
    case PassWrite => StandsWrite(st, r, o);
    case PassComplete => StandsComplete(p, st, r, o);
    case PassEnd =>
  }

  lemma StandsCancel(p: Params, st: Sys, c: CancelStep, r: RunId, o: bool)
    requires WellFormed(st) && Stands(st, r, o) && CanStepCancel(st, c)
    ensures Stands(DoStepCancel(p, st, c), r, o || Overwrites(st, OfCancel(c), r))
  {
  }

  lemma StandsFreeze(p: Params, st: Sys, f: FreezeStep, r: RunId, o: bool)
    requires Stands(st, r, o) && CanStepFreeze(st, f)
    ensures Stands(DoStepFreeze(p, st, f), r, o)
  {
  }

  lemma StandsStore(p: Params, st: Sys, t: StoreStep, r: RunId, o: bool)
    requires Stands(st, r, o) && CanStepStore(st, t)
    ensures Stands(DoStepStore(p, st, t), r, o)
  {
  }

  lemma StandsCrash(st: Sys, x: CrashStep, r: RunId, o: bool)
    requires Stands(st, r, o) && CanStepCrash(st, x)
    ensures Stands(DoStepCrash(st, x), r, o)
  {
  }

  lemma StandsStep(p: Params, st: Sys, step: Step, r: RunId, o: bool)
    requires WellFormed(st) && Accounted(st.poll, r) && Stands(st, r, o) && Can(st, step) && Reads(st, step)
    ensures Stands(Do(p, st, step), r, o || Overwrites(st, step, r))
  {
    match step
    case Advance(_) =>
    case OfTick(t) => StandsTick(st, t, r, o);
    case OfRun(j) => StandsRun(p, st, j, r, o);
    case OfPass(s) => StandsPass(p, st, s, r, o);
    case OfCancel(c) => StandsCancel(p, st, c, r, o);
    case OfFreeze(f) => StandsFreeze(p, st, f, r, o);
    case OfStore(t) => StandsStore(p, st, t, r, o);
    case OfCrash(x) => StandsCrash(st, x, r, o);
  }

  lemma OverwrittenLast(h: History, n: nat, r: RunId)
    requires n < |h.steps| && |h.states| == |h.steps| + 1
    ensures Overwritten(h, n + 1, r) <==> Overwritten(h, n, r) || Overwrites(h.states[n], h.steps[n], r)
  {
  }

  lemma {:induction false} StandsAlong(p: Params, h: History, n: nat, r: RunId)
    requires IsRun(p, h) && n < |h.states|
    ensures Stands(h.states[n], r, Overwritten(h, n, r))
  {
    if n > 0 {
      StandsAlong(p, h, n - 1, r);
      WellFormedAlong(p, h, n - 1);
      AccountedAlong(p, h, n - 1, r);
      StepOf(p, h, n - 1);
      StandsStep(p, h.states[n - 1], h.steps[n - 1], r, Overwritten(h, n - 1, r));
      OverwrittenLast(h, n - 1, r);
    }
  }

  /**
   * In every reachable state, a run for which a failed verdict was written has that status if and only if no user's
   * cancel was written after it, and is cancelled otherwise; and such a cancel was late.
   */
  lemma FailedVerdictStands(p: Params, h: History, n: nat, r: RunId)
    requires IsRun(p, h) && n < |h.states| && HasFailed(h.states[n].db.runs, r)
    ensures h.states[n].db.runs[r].status == Ended(if Overwritten(h, n, r) then Cancelled else Failed)
    ensures Overwritten(h, n, r) ==> LateBefore(h, n, r)
  {
    StandsAlong(p, h, n, r);
    if Overwritten(h, n, r) {
      var k :| 0 <= k < n && Overwrites(h.states[k], h.steps[k], r);
      OverwriterIsLate(p, h, k, r);
    }
  }

  lemma OverwriterIsLate(p: Params, h: History, k: nat, r: RunId)
    requires IsRun(p, h) && k < |h.steps| && Overwrites(h.states[k], h.steps[k], r)
    ensures LateBefore(h, k, r)
  {
    StepOf(p, h, k);
    StandsAlong(p, h, k, r);
    AccountedAlong(p, h, k, r);
    RacedAlong(p, h, k, r);
    assert CancelWillWrite(h.states[k].poll, r);
  }
}
