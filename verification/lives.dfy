/**
 * What is under way, and since when. A run, a place in the poll queue, a cancel, a tick, a pass, a resume or a pause is there
 * exactly from the step that began it to the one that ends it; and the end of a run goes back to its dispatch and to the
 * moment its end was decided.
 */
module Lives {
  import opened Records
  import opened Protocol
  import opened Finish
  import Columns

  // ---- what is there ----

  datatype Activity = Flight(r: RunId) | Queueing(r: RunId) | Cancelling(r: RunId) | Ticking | Passing | Resuming(q: nat) | Pausing | Down

  predicate Present(st: Sys, a: Activity) {
    match a
    case Flight(r) => r in st.work.jobs
    case Queueing(r) => r in st.poll.queue
    case Cancelling(r) => r in st.poll.cancels
    case Ticking => st.tick.Some?
    case Passing => st.poll.pass.Some?
    case Resuming(q) => q in st.freeze.resumes
    case Pausing => st.freeze.paused
    case Down => !st.up
  }

  predicate Starts(st: Sys, step: Step, a: Activity) {
    match a
    case Flight(r) => step.OfTick? && step.t.Dispatch? && st.work.nextRun == r
    case Queueing(r) => step == OfRun(Enqueue(r))
    case Cancelling(r) => step == OfCancel(CancelBegin(r))
    case Ticking => step.OfTick? && step.t.TickBegin?
    case Passing => step.OfPass? && step.s.PassBegin?
    case Resuming(q) => step.OfFreeze? && step.f.ResumeBegin? && step.f.q == q
    case Pausing => step == OfFreeze(Pause)
    case Down => step == OfCrash(Crash)
  }

  /** A crash ends everything; a resume that ends releases the queue, whoever paused it. */
  predicate Stops(st: Sys, step: Step, a: Activity) {
    if a.Down? then step == OfCrash(RecoverLocks)
    else
      || step == OfCrash(Crash)
      || match a
         case Flight(r) => step == OfRun(Enqueue(r)) || step == OfRun(JobComplete(r))
         case Queueing(r) =>
           || step == OfCancel(CancelBegin(r))
           || (step == OfPass(PassComplete) && st.poll.pass.Some? && st.poll.pass.value.todo != [] && st.poll.pass.value.todo[0] == r)
         case Cancelling(r) => step == OfCancel(CancelComplete(r))
         case Ticking => step == OfTick(TickEnd)
         case Passing => step == OfPass(PassEnd)
         case Resuming(q) => step == OfFreeze(ResumeEnd(q))
         case Pausing => step.OfFreeze? && step.f.ResumeEnd?
         case Down => false
  }

  lemma PresentFlight(p: Params, st: Sys, step: Step, r: RunId)
    requires Can(st, step)
    ensures Present(Do(p, st, step), Flight(r)) <==> Starts(st, step, Flight(r)) || (Present(st, Flight(r)) && !Stops(st, step, Flight(r)))
  {
  }

  lemma PresentQueueing(p: Params, st: Sys, step: Step, r: RunId)
    requires Can(st, step)
    ensures Present(Do(p, st, step), Queueing(r)) <==>
            Starts(st, step, Queueing(r)) || (Present(st, Queueing(r)) && !Stops(st, step, Queueing(r)))
  {
  }

  lemma PresentCancelling(p: Params, st: Sys, step: Step, r: RunId)
    requires Can(st, step)
    ensures Present(Do(p, st, step), Cancelling(r)) <==>
            Starts(st, step, Cancelling(r)) || (Present(st, Cancelling(r)) && !Stops(st, step, Cancelling(r)))
  {
  }

  lemma PresentLoops(p: Params, st: Sys, step: Step, a: Activity)
    requires Can(st, step) && (a.Ticking? || a.Passing? || a.Down?)
    ensures Present(Do(p, st, step), a) <==> Starts(st, step, a) || (Present(st, a) && !Stops(st, step, a))
  {
  }

  lemma PresentFreeze(p: Params, st: Sys, step: Step, a: Activity)
    requires Can(st, step) && (a.Resuming? || a.Pausing?)
    ensures Present(Do(p, st, step), a) <==> Starts(st, step, a) || (Present(st, a) && !Stops(st, step, a))
  {
  }

  lemma PresentNext(p: Params, st: Sys, step: Step, a: Activity)
    requires Can(st, step)
    ensures Present(Do(p, st, step), a) <==> Starts(st, step, a) || (Present(st, a) && !Stops(st, step, a))
  {
    match a
    case Flight(r) => PresentFlight(p, st, step, r);
    case Queueing(r) => PresentQueueing(p, st, step, r);
    case Cancelling(r) => PresentCancelling(p, st, step, r);
    case Resuming(_) => PresentFreeze(p, st, step, a);
    case Pausing => PresentFreeze(p, st, step, a);
    case _ => PresentLoops(p, st, step, a);
  }

  /** It began at `k`, and nothing has ended it since. */
  ghost predicate BegunAt(h: History, k: nat, n: nat, a: Activity)
    requires n <= |h.steps| && n <= |h.states|
  {
    k < n && Starts(h.states[k], h.steps[k], a) && forall i :: k < i < n ==> !Stops(h.states[i], h.steps[i], a)
  }

  lemma BegunNext(h: History, k: nat, n: nat, a: Activity)
    requires n < |h.steps| && n < |h.states|
    ensures BegunAt(h, k, n + 1, a) <==>
            (k == n && Starts(h.states[n], h.steps[n], a)) || (BegunAt(h, k, n, a) && !Stops(h.states[n], h.steps[n], a))
  {
  }

  /** In every state of every history, what is under way is what was begun and has not been ended since. */
  lemma {:induction false} UnderWayIff(p: Params, h: History, n: nat, a: Activity)
    requires IsRun(p, h) && n < |h.states|
    ensures Present(h.states[n], a) <==> exists k: nat :: BegunAt(h, k, n, a)
  {
    if n > 0 {
      UnderWayIff(p, h, n - 1, a);
      StepOf(p, h, n - 1);
      PresentNext(p, h.states[n - 1], h.steps[n - 1], a);
      if k: nat :| BegunAt(h, k, n, a) { BegunNext(h, k, n - 1, a); }
      if Present(h.states[n], a) {
        if Starts(h.states[n - 1], h.steps[n - 1], a) {
          assert BegunAt(h, n - 1, n, a);
        } else {
          var k: nat :| BegunAt(h, k, n - 1, a);
          assert BegunAt(h, k, n, a);
        }
      }
    }
  }

  // ---- where the end of a run comes from ----

  /** The tick dispatches the run with these snapshots. */
  predicate FiresWith(st: Sys, step: Step, r: RunId, id: Id, row: Row, task: Task) {
    && step.OfTick? && step.t.Dispatch? && st.work.nextRun == r
    && st.tick.Some? && step.t.k < |st.tick.value.ready| && st.tick.value.ready[step.t.k] == Ready(id, row, task)
  }

  lemma JobStep(p: Params, st: Sys, step: Step, r: RunId)
    requires Can(st, step) && r in Do(p, st, step).work.jobs
    ensures var j := Do(p, st, step).work.jobs[r];
            || FiresWith(st, step, r, j.id, j.row, j.task)
            || (r in st.work.jobs && st.work.jobs[r].id == j.id && st.work.jobs[r].row == j.row && st.work.jobs[r].task == j.task)
  {
  }

  lemma {:induction false} JobFired(p: Params, h: History, n: nat, r: RunId) returns (d: nat)
    requires IsRun(p, h) && n < |h.states| && r in h.states[n].work.jobs
    ensures var j := h.states[n].work.jobs[r]; d < n && FiresWith(h.states[d], h.steps[d], r, j.id, j.row, j.task)
  {
    StepOf(p, h, n - 1);
    JobStep(p, h.states[n - 1], h.steps[n - 1], r);
    var j := h.states[n].work.jobs[r];
    if FiresWith(h.states[n - 1], h.steps[n - 1], r, j.id, j.row, j.task) { d := n - 1; } else { d := JobFired(p, h, n - 1, r); }
  }

  lemma PhaseStep(p: Params, st: Sys, step: Step, r: RunId)
    requires Can(st, step) && r in Do(p, st, step).work.jobs && r < st.work.nextRun
    ensures var phase := Do(p, st, step).work.jobs[r].phase;
            && r in st.work.jobs
            && (phase.Accepted? ==> step == OfRun(Settle(r, Accept(phase.pollMs, phase.channel))) || st.work.jobs[r].phase == phase)
            && (phase.Settled? ==>
                  || (step == OfRun(Settle(r, Done(phase.outcome))) && phase.retry && phase.at == st.clock)
                  || (step == OfRun(Settle(r, AcceptWithoutPoll)) && phase.outcome == Failed && !phase.retry && phase.at == st.clock)
                  || st.work.jobs[r].phase == phase)
            && (phase.Written? ==>
                  st.work.jobs[r].phase == phase || st.work.jobs[r].phase == Settled(phase.outcome, phase.at, phase.retry))
  {
  }

  /** The runner answered the run so at this clock. */
  predicate Decided(st: Sys, step: Step, r: RunId, outcome: Outcome, at: int, retry: bool) {
    && at == st.clock
    && if retry then step == OfRun(Settle(r, Done(outcome))) else step == OfRun(Settle(r, AcceptWithoutPoll)) && outcome == Failed
  }

  lemma {:induction false} JobDecided(p: Params, h: History, n: nat, r: RunId) returns (c: nat)
    requires IsRun(p, h) && n < |h.states| && r in h.states[n].work.jobs
    requires h.states[n].work.jobs[r].phase.Settled? || h.states[n].work.jobs[r].phase.Written?
    ensures var phase := h.states[n].work.jobs[r].phase; c < n && Decided(h.states[c], h.steps[c], r, phase.outcome, phase.at, phase.retry)
  {
    StepOf(p, h, n - 1);
    WellFormedAlong(p, h, n - 1);
    JobStep(p, h.states[n - 1], h.steps[n - 1], r);
    assert r in h.states[n - 1].work.jobs;
    PhaseStep(p, h.states[n - 1], h.steps[n - 1], r);
    var phase := h.states[n].work.jobs[r].phase;
    if Decided(h.states[n - 1], h.steps[n - 1], r, phase.outcome, phase.at, phase.retry) {
      c := n - 1;
    } else {
      c := JobDecided(p, h, n - 1, r);
    }
  }

  lemma {:induction false} JobAccepted(p: Params, h: History, n: nat, r: RunId) returns (s: nat)
    requires IsRun(p, h) && n < |h.states| && r in h.states[n].work.jobs && h.states[n].work.jobs[r].phase.Accepted?
    ensures var phase := h.states[n].work.jobs[r].phase; s < n && h.steps[s] == OfRun(Settle(r, Accept(phase.pollMs, phase.channel)))
  {
    StepOf(p, h, n - 1);
    WellFormedAlong(p, h, n - 1);
    JobStep(p, h.states[n - 1], h.steps[n - 1], r);
    PhaseStep(p, h.states[n - 1], h.steps[n - 1], r);
    var phase := h.states[n].work.jobs[r].phase;
    if h.steps[n - 1] == OfRun(Settle(r, Accept(phase.pollMs, phase.channel))) { s := n - 1; } else { s := JobAccepted(p, h, n - 1, r); }
  }

  // ---- accepted runs ----

  /** The run enters the poll queue, with the snapshots of its dispatch and the terms of its runner. */
  predicate Enters(st: Sys, step: Step, r: RunId, ar: AsyncRun) {
    && step == OfRun(Enqueue(r)) && r in st.work.jobs && ar.acceptedAt == st.clock
    && st.work.jobs[r].id == ar.id && st.work.jobs[r].row == ar.row && st.work.jobs[r].task == ar.task
    && st.work.jobs[r].phase == Accepted(ar.pollMs, ar.channel)
  }

  predicate SameTerms(a: AsyncRun, b: AsyncRun) {
    a.id == b.id && a.row == b.row && a.task == b.task && a.channel == b.channel && a.pollMs == b.pollMs && a.acceptedAt == b.acceptedAt
  }

  lemma AsyncOfRun(p: Params, st: Sys, j: RunStep, r: RunId)
    requires CanStepRun(st, j) && r in DoStepRun(p, st, j).poll.asyncRuns
    ensures var ar := DoStepRun(p, st, j).poll.asyncRuns[r];
            Enters(st, OfRun(j), r, ar) || (r in st.poll.asyncRuns && st.poll.asyncRuns[r] == ar)
  {
  }

  lemma FinishTerms(poll: Polling, clock: int, run: RunId, outcome: Outcome, r: RunId)
    requires poll.pass.Some? && |poll.pass.value.todo| > 0 && run in poll.asyncRuns
    ensures r in StartFinish(poll, clock, run, outcome).asyncRuns <==> r in poll.asyncRuns
    ensures r in poll.asyncRuns ==> SameTerms(poll.asyncRuns[r], StartFinish(poll, clock, run, outcome).asyncRuns[r])
  {
  }

  lemma AsyncOfPass(p: Params, st: Sys, s: PassStep, r: RunId)
    requires CanStepPass(st, s) && r in DoStepPass(p, st, s).poll.asyncRuns
    ensures r in st.poll.asyncRuns && SameTerms(st.poll.asyncRuns[r], DoStepPass(p, st, s).poll.asyncRuns[r])
  {
    match s
    case PassSignalled => FinishTerms(st.poll, st.clock, st.poll.pass.value.cur.r, Failed, r);
    case PassAnswer(Verdict(ok)) => FinishTerms(st.poll, st.clock, st.poll.pass.value.cur.r, if ok then Succeeded else Failed, r);
    case PassAnswer(Threw) => FinishTerms(st.poll, st.clock, st.poll.pass.value.cur.r, Failed, r);
    case _ =>
  }

  lemma AsyncOfCancel(p: Params, st: Sys, c: CancelStep, r: RunId)
    requires CanStepCancel(st, c) && r in DoStepCancel(p, st, c).poll.asyncRuns
    ensures r in st.poll.asyncRuns && SameTerms(st.poll.asyncRuns[r], DoStepCancel(p, st, c).poll.asyncRuns[r])
  {
  }

  lemma AsyncStep(p: Params, st: Sys, step: Step, r: RunId)
    requires Can(st, step) && r in Do(p, st, step).poll.asyncRuns
    ensures var ar := Do(p, st, step).poll.asyncRuns[r];
            Enters(st, step, r, ar) || (r in st.poll.asyncRuns && SameTerms(st.poll.asyncRuns[r], ar))
  {
    match step
    case OfRun(j) => AsyncOfRun(p, st, j, r);
    case OfPass(s) => AsyncOfPass(p, st, s, r);
    case OfCancel(c) => AsyncOfCancel(p, st, c, r);
    case _ =>
  }

  lemma {:induction false} AsyncEntered(p: Params, h: History, n: nat, r: RunId) returns (a: nat)
    requires IsRun(p, h) && n < |h.states| && r in h.states[n].poll.asyncRuns
    ensures a < n && Enters(h.states[a], h.steps[a], r, h.states[n].poll.asyncRuns[r])
  {
    StepOf(p, h, n - 1);
    AsyncStep(p, h.states[n - 1], h.steps[n - 1], r);
    if Enters(h.states[n - 1], h.steps[n - 1], r, h.states[n].poll.asyncRuns[r]) { a := n - 1; } else { a := AsyncEntered(p, h, n - 1, r); }
  }

  /** An accepted run has the terms its runner gave, the clock at which it entered the queue, and the snapshots of its dispatch. */
  lemma AcceptedGoesBack(p: Params, h: History, n: nat, r: RunId) returns (d: nat, s: nat, a: nat)
    requires IsRun(p, h) && n < |h.states| && r in h.states[n].poll.asyncRuns
    ensures var ar := h.states[n].poll.asyncRuns[r];
            && d < a && s < a < n && FiresWith(h.states[d], h.steps[d], r, ar.id, ar.row, ar.task)
            && h.steps[s] == OfRun(Settle(r, Accept(ar.pollMs, ar.channel)))
            && h.steps[a] == OfRun(Enqueue(r)) && h.states[a].clock == ar.acceptedAt
  {
    a := AsyncEntered(p, h, n, r);
    d := JobFired(p, h, a, r);
    s := JobAccepted(p, h, a, r);
  }

  /** The pass decides how the run ends, at this clock: it has timed out, or its worker says so, or cannot be asked. */
  predicate PassDecides(st: Sys, step: Step, r: RunId, outcome: Outcome, at: int) {
    && at == st.clock && st.poll.pass.Some?
    && ((step == OfPass(PassSignalled) && st.poll.pass.value.cur == Signalling(r) && outcome == Failed)
        || (step == OfPass(PassAnswer(Verdict(outcome == Succeeded))) && st.poll.pass.value.cur == Asking(r) && outcome != Cancelled)
        || (step == OfPass(PassAnswer(Threw)) && st.poll.pass.value.cur == Asking(r) && outcome == Failed))
  }

  predicate IsFinisher(pass: Option<Pass>, r: RunId, outcome: Outcome, at: int) {
    pass.Some? && (pass.value.cur == Finishing(r, outcome, at) || pass.value.cur == Finished(r, outcome, at))
  }

  lemma FinisherOfPass(p: Params, st: Sys, s: PassStep, r: RunId, outcome: Outcome, at: int)
    requires CanStepPass(st, s) && IsFinisher(DoStepPass(p, st, s).poll.pass, r, outcome, at)
    ensures PassDecides(st, OfPass(s), r, outcome, at) || IsFinisher(st.poll.pass, r, outcome, at)
  {
  }

  lemma FinisherStep(p: Params, st: Sys, step: Step, r: RunId, outcome: Outcome, at: int)
    requires Can(st, step) && IsFinisher(Do(p, st, step).poll.pass, r, outcome, at)
    ensures PassDecides(st, step, r, outcome, at) || IsFinisher(st.poll.pass, r, outcome, at)
  {
    if step.OfPass? { FinisherOfPass(p, st, step.s, r, outcome, at); }
  }

  lemma {:induction false} FinisherDecided(p: Params, h: History, n: nat, r: RunId, outcome: Outcome, at: int) returns (c: nat)
    requires IsRun(p, h) && n < |h.states| && IsFinisher(h.states[n].poll.pass, r, outcome, at)
    ensures c < n && PassDecides(h.states[c], h.steps[c], r, outcome, at)
  {
    StepOf(p, h, n - 1);
    FinisherStep(p, h.states[n - 1], h.steps[n - 1], r, outcome, at);
    if PassDecides(h.states[n - 1], h.steps[n - 1], r, outcome, at) { c := n - 1; } else { c := FinisherDecided(p, h, n - 1, r, outcome, at); }
  }

  lemma CancelStep(p: Params, st: Sys, step: Step, r: RunId)
    requires Can(st, step) && r in Do(p, st, step).poll.cancels
    ensures var at := Do(p, st, step).poll.cancels[r].at;
            (step == OfCancel(CancelBegin(r)) && at == st.clock) || (r in st.poll.cancels && st.poll.cancels[r].at == at)
  {
  }

  lemma {:induction false} CancelDecided(p: Params, h: History, n: nat, r: RunId) returns (c: nat)
    requires IsRun(p, h) && n < |h.states| && r in h.states[n].poll.cancels
    ensures c < n && h.steps[c] == OfCancel(CancelBegin(r)) && h.states[c].clock == h.states[n].poll.cancels[r].at
  {
    StepOf(p, h, n - 1);
    CancelStep(p, h.states[n - 1], h.steps[n - 1], r);
    if h.steps[n - 1] == OfCancel(CancelBegin(r)) && h.states[n - 1].clock == h.states[n].poll.cancels[r].at {
      c := n - 1;
    } else {
      c := CancelDecided(p, h, n - 1, r);
    }
  }

  /** The step decides that the run ends so, at its clock. */
  predicate Decides(st: Sys, step: Step, e: Columns.Ending) {
    || Decided(st, step, e.run, e.outcome, e.at, e.retry)
    || (e.retry && PassDecides(st, step, e.run, e.outcome, e.at))
    || (e.retry && step == OfCancel(CancelBegin(e.run)) && e.outcome == Cancelled && e.at == st.clock)
  }

  /**
   * Whatever completes a schedule completes it for a run that was dispatched at `d`, from the row and the task of that
   * dispatch, with the outcome decided at `c` and the clock of that moment.
   */
  lemma EndGoesBack(p: Params, h: History, n: nat) returns (d: nat, c: nat)
    requires IsRun(p, h) && n < |h.steps| && Columns.EndingOf(h.states[n], h.steps[n]).Some?
    ensures d < n && c < n
    ensures var e := Columns.EndingOf(h.states[n], h.steps[n]).value;
            FiresWith(h.states[d], h.steps[d], e.run, e.id, e.row, e.task) && Decides(h.states[c], h.steps[c], e)
  {
    var st, e := h.states[n], Columns.EndingOf(h.states[n], h.steps[n]).value;
    match h.steps[n]
    case OfRun(_) =>
      d := JobFired(p, h, n, e.run);
      c := JobDecided(p, h, n, e.run);
    case OfPass(_) =>
      d := AsyncFired(p, h, n, e.run);
      c := FinisherDecided(p, h, n, e.run, e.outcome, e.at);
    case OfCancel(_) =>
      d := AsyncFired(p, h, n, e.run);
      c := CancelDecided(p, h, n, e.run);
  }

  lemma AsyncFired(p: Params, h: History, n: nat, r: RunId) returns (d: nat)
    requires IsRun(p, h) && n < |h.states| && r in h.states[n].poll.asyncRuns
    ensures var ar := h.states[n].poll.asyncRuns[r]; d < n && FiresWith(h.states[d], h.steps[d], r, ar.id, ar.row, ar.task)
  {
    var a := AsyncEntered(p, h, n, r);
    d := JobFired(p, h, a, r);
  }
}
