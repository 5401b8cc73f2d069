/**
 * Where verdicts come from. Every outcome a run ends with was caused by an answer, a timeout, a cancel or a
 * restart for that very run; workers are told; and every dispatch goes back to reads its own tick made.
 */
module Verdicts {
  import opened Records
  import opened Protocol
  import opened Finish
  import opened Locks

  /** What can end a run. */
  datatype Cause = Answered(outcome: Outcome) | NoPoll | Polled(ok: bool) | PollThrew | TimeOut | UserCancel | Orphaned

  function OutcomeOf(c: Cause): Outcome {
    match c
    case Answered(outcome) => outcome
    case Polled(ok) => if ok then Succeeded else Failed
    case NoPoll | PollThrew | TimeOut => Failed
    case UserCancel | Orphaned => Cancelled
  }

  type Causes = set<(RunId, Cause)>

  /** The cause a step gives, and to which run. */
  function CausesOf(p: Params, st: Sys, step: Step): Causes {
    match step
    case OfRun(Settle(r, Done(outcome))) => {(r, Answered(outcome))}
    case OfRun(Settle(r, AcceptWithoutPoll)) => {(r, NoPoll)}
    case OfPass(PassVisit) =>
      if CanPassVisit(st) && st.poll.asyncRuns[st.poll.pass.value.todo[0]].nextPollAt <= st.poll.pass.value.at
         && TimedOut(p, st.poll.asyncRuns[st.poll.pass.value.todo[0]], st.poll.pass.value.at)
      then {(st.poll.pass.value.todo[0], TimeOut)} else {}
    case OfPass(PassAnswer(Verdict(ok))) => if AtRun(st) then {(st.poll.pass.value.todo[0], Polled(ok))} else {}
    case OfPass(PassAnswer(Threw)) => if AtRun(st) then {(st.poll.pass.value.todo[0], PollThrew)} else {}
    case OfCancel(CancelBegin(r)) => {(r, UserCancel)}
    case OfCrash(RecoverRun(r)) => {(r, Orphaned)}
    case _ => {}
  }

  ghost function CausesBefore(p: Params, h: History, n: nat): Causes
    requires n <= |h.steps| && n < |h.states|
  {
    if n == 0 then {} else CausesBefore(p, h, n - 1) + CausesOf(p, h.states[n - 1], h.steps[n - 1])
  }

  lemma {:induction false} CauseAt(p: Params, h: History, n: nat, r: RunId, c: Cause) returns (k: nat)
    requires n <= |h.steps| && n < |h.states| && (r, c) in CausesBefore(p, h, n)
    ensures k < n && (r, c) in CausesOf(p, h.states[k], h.steps[k])
  {
    if (r, c) in CausesOf(p, h.states[n - 1], h.steps[n - 1]) { k := n - 1; } else { k := CauseAt(p, h, n - 1, r, c); }
  }

  lemma {:induction false} CauseStays(p: Params, h: History, k: nat, n: nat, r: RunId, c: Cause)
    requires k < n <= |h.steps| && n < |h.states| && (r, c) in CausesOf(p, h.states[k], h.steps[k])
    ensures (r, c) in CausesBefore(p, h, n)
  {
    if k < n - 1 { CauseStays(p, h, k, n - 1, r, c); }
  }

  ghost predicate Backed(cs: Causes, r: RunId, outcome: Outcome) {
    exists c :: (r, c) in cs && OutcomeOf(c) == outcome
  }

  // ---- what is known of a state ----

  predicate PhaseBacked(cs: Causes, r: RunId, phase: Phase) {
    phase.Settled? || phase.Written? ==>
      (r, if phase.retry then Answered(phase.outcome) else NoPoll) in cs && (!phase.retry ==> phase.outcome == Failed)
  }

  ghost predicate JobsBacked(cs: Causes, jobs: map<RunId, Job>) {
    forall r :: r in jobs ==> PhaseBacked(cs, r, jobs[r].phase)
  }

  ghost predicate PassBacked(cs: Causes, pass: Option<Pass>) {
    pass.Some? ==>
      match pass.value.cur
      case Signalling(r) => (r, TimeOut) in cs
      case Finishing(r, outcome, _) => Backed(cs, r, outcome)
      case Finished(r, outcome, _) => Backed(cs, r, outcome)
      case _ => true
  }

  ghost predicate CancelsBacked(cs: Causes, cancels: map<RunId, Cancel>) {
    forall r :: r in cancels ==> (r, UserCancel) in cs
  }

  ghost predicate RunsBacked(cs: Causes, runs: map<RunId, Run>) {
    forall r :: r in runs ==>
      && (runs[r].status.Ended? ==> Backed(cs, r, runs[r].status.outcome))
      && (runs[r].failed ==> Backed(cs, r, Failed))
  }

  ghost predicate Justified(cs: Causes, st: Sys) {
    && JobsBacked(cs, st.work.jobs) && PassBacked(cs, st.poll.pass) && CancelsBacked(cs, st.poll.cancels)
    && RunsBacked(cs, st.db.runs)
  }

  lemma BackedMore(cs: Causes, more: Causes, r: RunId, outcome: Outcome)
    requires Backed(cs, r, outcome)
    ensures Backed(cs + more, r, outcome)
  {
    var c :| (r, c) in cs && OutcomeOf(c) == outcome;
    assert (r, c) in cs + more;
  }

  lemma RunsBackedMore(cs: Causes, more: Causes, runs: map<RunId, Run>)
    requires RunsBacked(cs, runs)
    ensures RunsBacked(cs + more, runs)
  {
    forall r | r in runs
      ensures runs[r].status.Ended? ==> Backed(cs + more, r, runs[r].status.outcome)
      ensures runs[r].failed ==> Backed(cs + more, r, Failed)
    {
      if runs[r].status.Ended? { BackedMore(cs, more, r, runs[r].status.outcome); }
      if runs[r].failed { BackedMore(cs, more, r, Failed); }
    }
  }

  lemma JustifiedMore(cs: Causes, more: Causes, st: Sys)
    requires Justified(cs, st)
    ensures Justified(cs + more, st)
  {
    RunsBackedMore(cs, more, st.db.runs);
    if st.poll.pass.Some? {
      match st.poll.pass.value.cur
      case Finishing(r, outcome, _) => BackedMore(cs, more, r, outcome);
      case Finished(r, outcome, _) => BackedMore(cs, more, r, outcome);
      case _ =>
    }
  }

  lemma FinishBacked(cs: Causes, runs: map<RunId, Run>, r: RunId, outcome: Outcome)
    requires RunsBacked(cs, runs) && Backed(cs, r, outcome)
    ensures RunsBacked(cs, FinishRun(runs, r, outcome))
  {
  }

  // ---- steps, with their own causes already added ----

  lemma JustifiedRun(p: Params, cs: Causes, st: Sys, j: RunStep)
    requires Justified(cs, st) && CanStepRun(st, j) && CausesOf(p, st, OfRun(j)) <= cs
    ensures Justified(cs, DoStepRun(p, st, j))
  {
    match j
    case JobWrite(r) =>
      var phase := st.work.jobs[r].phase;
      assert PhaseBacked(cs, r, phase);
      assert (r, if phase.retry then Answered(phase.outcome) else NoPoll) in cs;
      FinishBacked(cs, st.db.runs, r, phase.outcome);
    case _ =>
  }

  lemma StartFinishBacked(cs: Causes, poll: Polling, clock: int, r: RunId, outcome: Outcome)
    requires PassBacked(cs, poll.pass) && CancelsBacked(cs, poll.cancels) && Backed(cs, r, outcome)
    requires poll.pass.Some? && |poll.pass.value.todo| > 0 && r in poll.asyncRuns
    ensures PassBacked(cs, StartFinish(poll, clock, r, outcome).pass) && StartFinish(poll, clock, r, outcome).cancels == poll.cancels
  {
  }

  lemma JustifiedPass(p: Params, cs: Causes, st: Sys, s: PassStep)
    requires Justified(cs, st) && CanStepPass(st, s) && CausesOf(p, st, OfPass(s)) <= cs
    ensures Justified(cs, DoStepPass(p, st, s))
  {
    match s
    case PassSignalled =>
      assert OutcomeOf(TimeOut) == Failed;
      StartFinishBacked(cs, st.poll, st.clock, st.poll.pass.value.cur.r, Failed);
    case PassAnswer(Verdict(ok)) =>
      assert OutcomeOf(Polled(ok)) == if ok then Succeeded else Failed;
      StartFinishBacked(cs, st.poll, st.clock, st.poll.pass.value.cur.r, if ok then Succeeded else Failed);
    case PassAnswer(Threw) =>
      assert OutcomeOf(PollThrew) == Failed;
      StartFinishBacked(cs, st.poll, st.clock, st.poll.pass.value.cur.r, Failed);
    case PassWrite =>
      FinishBacked(cs, st.db.runs, st.poll.pass.value.cur.r, st.poll.pass.value.cur.outcome);
    case _ =>
  }

  lemma JustifiedCancel(p: Params, cs: Causes, st: Sys, c: CancelStep)
    requires Justified(cs, st) && CanStepCancel(st, c) && CausesOf(p, st, OfCancel(c)) <= cs
    ensures Justified(cs, DoStepCancel(p, st, c))
  {
    if c.CancelWrite? {
      assert (c.r, UserCancel) in cs && OutcomeOf(UserCancel) == Cancelled;
      FinishBacked(cs, st.db.runs, c.r, Cancelled);
    }
  }

  lemma JustifiedCrash(p: Params, cs: Causes, st: Sys, x: CrashStep)
    requires Justified(cs, st) && CanStepCrash(st, x) && CausesOf(p, st, OfCrash(x)) <= cs
    ensures Justified(cs, DoStepCrash(st, x))
  {
    if x.RecoverRun? {
      assert OutcomeOf(Orphaned) == Cancelled;
      FinishBacked(cs, st.db.runs, x.r, Cancelled);
    }
  }

  lemma JustifiedTick(cs: Causes, st: Sys, t: TickStep)
    requires Justified(cs, st) && CanStepTick(st, t)
    ensures Justified(cs, DoStepTick(st, t))
  {
  }

  lemma JustifiedStep(p: Params, cs: Causes, st: Sys, step: Step)
    requires Justified(cs, st) && Can(st, step)
    ensures Justified(cs + CausesOf(p, st, step), Do(p, st, step))
  {
    var more := cs + CausesOf(p, st, step);
    JustifiedMore(cs, CausesOf(p, st, step), st);
    match step
    case OfTick(t) => JustifiedTick(more, st, t);
    case OfRun(j) => JustifiedRun(p, more, st, j);
    case OfPass(s) => JustifiedPass(p, more, st, s);
    case OfCancel(c) => JustifiedCancel(p, more, st, c);
    case OfCrash(x) => JustifiedCrash(p, more, st, x);
    case _ =>
  }

  lemma {:induction false} JustifiedAlong(p: Params, h: History, n: nat)
    requires IsRun(p, h) && n < |h.states|
    ensures Justified(CausesBefore(p, h, n), h.states[n])
  {
    if n > 0 {
      JustifiedAlong(p, h, n - 1);
      StepOf(p, h, n - 1);
      JustifiedStep(p, CausesBefore(p, h, n - 1), h.states[n - 1], h.steps[n - 1]);
    }
  }

  /**
   * No verdict is invented. The outcome a run has ended with was given to that run, at some earlier step, by
   * its runner, by a poll, by a timeout, by a user's cancel or by a restart.
   */
  lemma VerdictHasCause(p: Params, h: History, n: nat, r: RunId) returns (k: nat, c: Cause)
    requires IsRun(p, h) && n < |h.states| && r in h.states[n].db.runs && h.states[n].db.runs[r].status.Ended?
    ensures k < n && (r, c) in CausesOf(p, h.states[k], h.steps[k])
    ensures h.states[n].db.runs[r].status == Ended(OutcomeOf(c))
  {
    JustifiedAlong(p, h, n);
    var outcome := h.states[n].db.runs[r].status.outcome;
    c :| (r, c) in CausesBefore(p, h, n) && OutcomeOf(c) == outcome;
    k := CauseAt(p, h, n, r, c);
  }

  /** When the completion of a dispatched run plans a retry, its runner itself had answered with a failure. */
  lemma OnlyAnswersAreRetried(p: Params, h: History, n: nat, r: RunId) returns (k: nat)
    requires IsRun(p, h) && n < |h.states| && CanJobComplete(h.states[n], r)
    requires JobCompletion(p, h.states[n], r).retryCount > 0
    ensures k < n && h.steps[k] == OfRun(Settle(r, Done(Failed)))
  {
    JustifiedAlong(p, h, n);
    var phase := h.states[n].work.jobs[r].phase;
    assert PhaseBacked(CausesBefore(p, h, n), r, phase);
    k := CauseAt(p, h, n, r, Answered(Failed));
  }

  // ---- signals ----

  predicate Stops(c: Cause) { c.TimeOut? || c.UserCancel? }

  ghost predicate Told(cs: Causes, work: Work, ars: map<RunId, AsyncRun>) {
    && (forall r, c :: (r, c) in cs && Stops(c) ==> r !in work.jobs && r < work.nextRun && (r in ars ==> ars[r].cancelSignaled))
    && (forall r :: r in ars ==> ars[r].signals == Count(ars[r].cancelSignaled && ars[r].channel))
  }

  /** The run stays signalled if it was, and its signals are counted. */
  predicate SignalKept(a: AsyncRun, b: AsyncRun) {
    (a.cancelSignaled ==> b.cancelSignaled) && b.signals == Count(b.cancelSignaled && b.channel)
  }

  lemma ToldLook(cs: Causes, more: Causes, work: Work, ars: map<RunId, AsyncRun>, r: RunId, ar: AsyncRun)
    requires Told(cs, work, ars) && r in ars && SignalKept(ars[r], ar)
    requires forall q, c :: (q, c) in more && Stops(c) ==> q == r && ar.cancelSignaled
    requires r !in work.jobs && r < work.nextRun
    ensures Told(cs + more, work, ars[r := ar])
  {
  }

  lemma ToldRun(p: Params, cs: Causes, st: Sys, j: RunStep)
    requires WellFormed(st) && Told(cs, st.work, st.poll.asyncRuns) && CanStepRun(st, j)
    ensures Told(cs + CausesOf(p, st, OfRun(j)), DoStepRun(p, st, j).work, DoStepRun(p, st, j).poll.asyncRuns)
  {
  }

  lemma ToldPass(p: Params, cs: Causes, st: Sys, s: PassStep)
    requires WellFormed(st) && Told(cs, st.work, st.poll.asyncRuns) && CanStepPass(st, s)
    ensures Told(cs + CausesOf(p, st, OfPass(s)), DoStepPass(p, st, s).work, DoStepPass(p, st, s).poll.asyncRuns)
  {
    if !s.PassBegin? && !s.PassEnd? {
      var r := st.poll.pass.value.todo[0];
      var ars := DoStepPass(p, st, s).poll.asyncRuns;
      LookedAt(p, st, s);
      ToldLook(cs, CausesOf(p, st, OfPass(s)), st.work, st.poll.asyncRuns, r, ars[r]);
    }
  }

  /** The pass changed one run, and has signalled it if it stops it. */
  ghost predicate Looked(st: Sys, poll: Polling, more: Causes) {
    && AtRun(st)
    && var r := st.poll.pass.value.todo[0];
       && r in poll.asyncRuns && poll.asyncRuns == st.poll.asyncRuns[r := poll.asyncRuns[r]]
       && SignalKept(st.poll.asyncRuns[r], poll.asyncRuns[r])
       && forall q, c :: (q, c) in more && Stops(c) ==> q == r && poll.asyncRuns[r].cancelSignaled
  }

  ghost predicate SignalsCounted(ars: map<RunId, AsyncRun>) {
    forall r :: r in ars ==> ars[r].signals == Count(ars[r].cancelSignaled && ars[r].channel)
  }

  lemma LookedVisit(p: Params, st: Sys)
    requires CanPassVisit(st) && SignalsCounted(st.poll.asyncRuns)
    ensures Looked(st, DoPassVisit(p, st).poll, CausesOf(p, st, OfPass(PassVisit)))
  {
  }

  lemma LookedStartFinish(st: Sys, r: RunId, outcome: Outcome)
    requires AtRun(st) && r == st.poll.pass.value.todo[0] && SignalsCounted(st.poll.asyncRuns)
    ensures Looked(st, StartFinish(st.poll, st.clock, r, outcome), {})
  {
  }

  lemma LookedAnswer(p: Params, st: Sys, answer: Answer)
    requires CanPassAnswer(st, answer) && SignalsCounted(st.poll.asyncRuns)
    ensures Looked(st, DoPassAnswer(st, answer).poll, CausesOf(p, st, OfPass(PassAnswer(answer))))
  {
    LookedStartFinish(st, st.poll.pass.value.todo[0], Failed);
    LookedStartFinish(st, st.poll.pass.value.todo[0], Succeeded);
  }

  lemma LookedAt(p: Params, st: Sys, s: PassStep)
    requires WellFormed(st) && CanStepPass(st, s) && !s.PassBegin? && !s.PassEnd? && SignalsCounted(st.poll.asyncRuns)
    ensures Looked(st, DoStepPass(p, st, s).poll, CausesOf(p, st, OfPass(s)))
    ensures DoStepPass(p, st, s).work == st.work
  {
    match s
    case PassVisit => LookedVisit(p, st);
    case PassSignalled => LookedStartFinish(st, st.poll.pass.value.todo[0], Failed);
    case PassAnswer(answer) => LookedAnswer(p, st, answer);
    case PassWrite =>
    case PassComplete =>
  }

  lemma ToldCancel(p: Params, cs: Causes, st: Sys, c: CancelStep)
    requires WellFormed(st) && Told(cs, st.work, st.poll.asyncRuns) && CanStepCancel(st, c)
    ensures Told(cs + CausesOf(p, st, OfCancel(c)), DoStepCancel(p, st, c).work, DoStepCancel(p, st, c).poll.asyncRuns)
  {
    var ars := DoStepCancel(p, st, c).poll.asyncRuns;
    ToldLook(cs, CausesOf(p, st, OfCancel(c)), st.work, st.poll.asyncRuns, c.r, ars[c.r]);
  }

  lemma ToldStep(p: Params, cs: Causes, st: Sys, step: Step)
    requires WellFormed(st) && Told(cs, st.work, st.poll.asyncRuns) && Can(st, step)
    ensures Told(cs + CausesOf(p, st, step), Do(p, st, step).work, Do(p, st, step).poll.asyncRuns)
  {
    match step
    case OfRun(j) => ToldRun(p, cs, st, j);
    case OfPass(s) => ToldPass(p, cs, st, s);
    case OfCancel(c) => ToldCancel(p, cs, st, c);
    case _ =>
  }

  lemma {:induction false} ToldAlong(p: Params, h: History, n: nat)
    requires IsRun(p, h) && n < |h.states|
    ensures Told(CausesBefore(p, h, n), h.states[n].work, h.states[n].poll.asyncRuns)
  {
    if n > 0 {
      ToldAlong(p, h, n - 1);
      WellFormedAlong(p, h, n - 1);
      StepOf(p, h, n - 1);
      ToldStep(p, CausesBefore(p, h, n - 1), h.states[n - 1], h.steps[n - 1]);
    }
  }

  /** The worker of a run that timed out or was cancelled by a user has been told to stop, exactly once, if it has a channel. */
  lemma StoppedRunsAreSignalled(p: Params, h: History, k: nat, n: nat, r: RunId, c: Cause)
    requires IsRun(p, h) && k < n < |h.states| && (r, c) in CausesOf(p, h.states[k], h.steps[k]) && Stops(c)
    requires r in h.states[n].poll.asyncRuns
    ensures h.states[n].poll.asyncRuns[r].signals == if h.states[n].poll.asyncRuns[r].channel then 1 else 0
  {
    CauseStays(p, h, k, n, r, c);
    ToldAlong(p, h, n);
  }

  // ---- dispatches ----

  /** The step read this row as due, at the time of the tick it began. */
  ghost predicate ReadsDue(st: Sys, step: Step, t: Tick, id: Id, row: Row) {
    && step.OfTick? && step.t.TickBegin? && step.t.now == t.now && st.freeze.generation == t.generation && !st.freeze.paused
    && id in st.db.rows && st.db.rows[id] == row
    && row.nextRunAt.Some? && row.nextRunAt.value <= t.now && row.lockedAt == None && !row.paused && !row.disabled
  }

  /** The step read this task for an entry of the tick, with no pause or resume since the tick began. */
  predicate ReadsTask(st: Sys, step: Step, t: Tick, name: string, task: Task) {
    && step.OfTick? && step.t.TickCheck? && st.freeze.generation == t.generation
    && name in st.db.tasks && st.db.tasks[name] == task
  }

  function CameFrom<T>(s: seq<T>, m: nat, k: nat): (j: nat)
    requires m < |s| && k < |s| - 1
    ensures j < |s| && RemoveAt(s, m)[k] == s[j]
  {
    if k < m then k else k + 1
  }

  lemma TickOf(p: Params, h: History, n: nat)
    requires IsRun(p, h) && n < |h.steps| && h.states[n + 1].tick.Some? && !(h.steps[n].OfTick? && h.steps[n].t.TickBegin?)
    ensures h.states[n].tick.Some?
    ensures var t, t' := h.states[n].tick.value, h.states[n + 1].tick.value;
            && t'.now == t.now && t'.generation == t.generation
            && (!h.steps[n].OfTick? ==> t' == t)
  {
    StepOf(p, h, n);
    if !h.steps[n].OfTick? { TickKept(p, h.states[n], h.steps[n]); }
  }

  /** The tick of this time and generation is going on, and has not dispatched or dropped the schedule yet. */
  ghost predicate InTick(st: Sys, now: int, generation: nat, id: Id) {
    && st.tick.Some? && st.tick.value.now == now && st.tick.value.generation == generation
    && ((exists k :: 0 <= k < |st.tick.value.todo| && st.tick.value.todo[k].id == id)
        || exists k :: 0 <= k < |st.tick.value.ready| && st.tick.value.ready[k].id == id)
  }

  /** The same tick, with the schedule in it, from just after step `j` to state `n`. */
  ghost predicate SameTick(h: History, j: nat, n: nat, t: Tick, id: Id)
    requires n < |h.states|
  {
    forall i :: j < i <= n ==> InTick(h.states[i], t.now, t.generation, id)
  }

  lemma {:induction false} TodoWasRead(p: Params, h: History, n: nat, k: nat) returns (j: nat)
    requires IsRun(p, h) && n < |h.states| && h.states[n].tick.Some? && k < |h.states[n].tick.value.todo|
    ensures j < n
    ensures var t := h.states[n].tick.value;
            ReadsDue(h.states[j], h.steps[j], t, t.todo[k].id, t.todo[k].row) && SameTick(h, j, n, t, t.todo[k].id)
  {
    var m := n - 1;
    assert InTick(h.states[n], h.states[n].tick.value.now, h.states[n].tick.value.generation, h.states[n].tick.value.todo[k].id);
    StepOf(p, h, m);
    if h.steps[m].OfTick? && h.steps[m].t.TickBegin? {
      j := m;
    } else {
      TickOf(p, h, m);
      var from := k;
      if h.steps[m].OfTick? && h.steps[m].t.TickCheck? {
        from := CameFrom(h.states[m].tick.value.todo, h.steps[m].t.k, k);
      }
      j := TodoWasRead(p, h, m, from);
    }
  }

  lemma {:induction false} ReadyWasRead(p: Params, h: History, n: nat, k: nat) returns (i: nat, j: nat)
    requires IsRun(p, h) && n < |h.states| && h.states[n].tick.Some? && k < |h.states[n].tick.value.ready|
    ensures j < i < n
    ensures var t := h.states[n].tick.value;
            var e := t.ready[k];
            ReadsTask(h.states[i], h.steps[i], t, e.row.taskName, e.task) && ReadsDue(h.states[j], h.steps[j], t, e.id, e.row)
            && SameTick(h, j, n, t, e.id)
    ensures h.steps[n - 1].OfTick? && h.steps[n - 1].t.TickCheck? && h.states[n - 1].tick.Some? ==>
              (k == |h.states[n - 1].tick.value.ready| ==> i == n - 1)
  {
    var m := n - 1;
    assert InTick(h.states[n], h.states[n].tick.value.now, h.states[n].tick.value.generation, h.states[n].tick.value.ready[k].id);
    StepOf(p, h, m);
    TickOf(p, h, m);
    var step, ready := h.steps[m], h.states[m].tick.value.ready;
    if step.OfTick? && step.t.TickCheck? && k == |ready| {
      i := m;
      j := TodoWasRead(p, h, m, step.t.k);
    } else {
      var from := k;
      if step.OfTick? && (step.t.Dispatch? || step.t.TickDrop?) { from := CameFrom(ready, step.t.k, k); }
      i, j := ReadyWasRead(p, h, m, from);
    }
  }

  /**
   * Every dispatch goes back to two reads of its own tick: the row was due, and then the task was there and
   * not paused. At the claim itself the queue is not paused, and the row is free, enabled and without a locked sibling.
   */
  lemma DispatchesAreDue(p: Params, h: History, n: nat, k: nat) returns (i: nat, j: nat)
    requires IsRun(p, h) && n < |h.states| && CanDispatch(h.states[n], k)
    ensures j < i < n
    ensures var st, t := h.states[n], h.states[n].tick.value;
            var e := t.ready[k];
            && ReadsDue(h.states[j], h.steps[j], t, e.id, e.row)
            && ReadsTask(h.states[i], h.steps[i], t, e.row.taskName, e.task) && !h.states[i].db.tasks[e.row.taskName].paused
            && !st.freeze.paused && e.id in st.db.rows
            && !st.db.rows[e.id].paused && !st.db.rows[e.id].disabled
            && forall other :: other in st.db.rows && st.db.rows[other].taskName == st.db.rows[e.id].taskName ==> st.db.rows[other].lockedAt == None
  {
    i, j := ReadyWasRead(p, h, n, k);
  }
}
