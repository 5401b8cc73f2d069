/**
 * The finishes of the engine's runs as the events the failure streaks are counted by. In a calm history finishes of
 * one task never overlap, so every alert is the one the history deserves.
 */
module Streaks {
  import opened Records
  import opened Policy
  import opened Store
  import opened Protocol
  import opened Finish
  import opened Locks
  import opened Polls
  import opened Ownership
  import A = Alerts
  import Columns

  // ---- snapshots name the task of their row ----

  predicate Named(rows: Rows, id: Id, row: Row) {
    id in rows && rows[id].taskName == row.taskName
  }

  ghost predicate TickNamed(tick: Option<Tick>, rows: Rows) {
    tick.Some? ==>
      && (forall k :: 0 <= k < |tick.value.todo| ==> Named(rows, tick.value.todo[k].id, tick.value.todo[k].row))
      && (forall k :: 0 <= k < |tick.value.ready| ==> Named(rows, tick.value.ready[k].id, tick.value.ready[k].row))
  }

  ghost predicate RunsNamed(st: Sys) {
    && (forall r :: r in st.work.jobs ==> Named(st.db.rows, st.work.jobs[r].id, st.work.jobs[r].row))
    && (forall r :: r in st.poll.asyncRuns ==> Named(st.db.rows, st.poll.asyncRuns[r].id, st.poll.asyncRuns[r].row))
  }

  ghost predicate SameNames(rows: Rows, rows': Rows) {
    forall id :: id in rows ==> id in rows' && rows'[id].taskName == rows[id].taskName
  }

  lemma NamesKept(p: Params, st: Sys, step: Step)
    requires Can(st, step)
    ensures SameNames(st.db.rows, Do(p, st, step).db.rows)
  {
    if !IsDispatch(step) {
      LocksOnlyShrink(p, st, step);
    }
  }

  lemma TickNamedTick(st: Sys, t: TickStep)
    requires CanStepTick(st, t) && Reads(st, OfTick(t)) && TickNamed(st.tick, st.db.rows)
    ensures TickNamed(DoStepTick(st, t).tick, DoStepTick(st, t).db.rows)
  {
    match t
    case TickBegin(now, due) =>
      forall k | 0 <= k < |due| ensures Named(st.db.rows, due[k].id, due[k].row) { assert Due(st.db.rows, due[k].id, now); }
    case TickCheck(_) =>
    case Dispatch(_) =>
    case TickDrop(_) =>
    case TickEnd =>
  }

  /** A run of the new state carries the schedule and snapshot of a run of the old one. */
  ghost predicate RunsFrom(st: Sys, st': Sys) {
    && (forall r :: r in st'.work.jobs ==>
          r in st.work.jobs && st'.work.jobs[r].id == st.work.jobs[r].id && st'.work.jobs[r].row == st.work.jobs[r].row)
    && (forall r :: r in st'.poll.asyncRuns ==> AsyncFrom(st, r, st'.poll.asyncRuns[r]))
  }

  predicate AsyncFrom(st: Sys, r: RunId, ar: AsyncRun) {
    || (r in st.poll.asyncRuns && ar.id == st.poll.asyncRuns[r].id && ar.row == st.poll.asyncRuns[r].row)
    || (r in st.work.jobs && ar.id == st.work.jobs[r].id && ar.row == st.work.jobs[r].row)
  }

  /** The pass changes one run, which keeps its schedule and snapshot. */
  lemma RunsFromLook(st: Sys, st': Sys, r: RunId)
    requires st'.work == st.work && r in st.poll.asyncRuns && r in st'.poll.asyncRuns
    requires st'.poll.asyncRuns == st.poll.asyncRuns[r := st'.poll.asyncRuns[r]]
    requires st'.poll.asyncRuns[r].id == st.poll.asyncRuns[r].id && st'.poll.asyncRuns[r].row == st.poll.asyncRuns[r].row
    ensures RunsFrom(st, st')
  {
  }

  /** The pass changes run `r` only, and not its schedule and snapshot. */
  predicate Looks(poll: Polling, poll': Polling, r: RunId) {
    && r in poll.asyncRuns && r in poll'.asyncRuns && poll'.asyncRuns == poll.asyncRuns[r := poll'.asyncRuns[r]]
    && poll'.asyncRuns[r].id == poll.asyncRuns[r].id && poll'.asyncRuns[r].row == poll.asyncRuns[r].row
  }

  lemma StartFinishLooks(poll: Polling, clock: int, r: RunId, outcome: Outcome)
    requires poll.pass.Some? && |poll.pass.value.todo| > 0 && r in poll.asyncRuns
    ensures Looks(poll, StartFinish(poll, clock, r, outcome), r)
  {
  }

  lemma VisitLooks(p: Params, st: Sys)
    requires CanPassVisit(st)
    ensures Looks(st.poll, DoPassVisit(p, st).poll, st.poll.pass.value.todo[0])
  {
  }

  lemma PassLooks(p: Params, st: Sys, s: PassStep)
    requires CanStepPass(st, s) && !s.PassBegin? && !s.PassEnd?
    ensures DoStepPass(p, st, s).work == st.work && Looks(st.poll, DoStepPass(p, st, s).poll, st.poll.pass.value.todo[0])
  {
    match s
    case PassVisit => VisitLooks(p, st);
    case PassSignalled => StartFinishLooks(st.poll, st.clock, st.poll.pass.value.cur.r, Failed);
    case PassAnswer(_) =>
      StartFinishLooks(st.poll, st.clock, st.poll.pass.value.cur.r, Failed);
      StartFinishLooks(st.poll, st.clock, st.poll.pass.value.cur.r, Succeeded);
    case PassWrite =>
    case PassComplete =>
  }

  lemma RunsFromPass(p: Params, st: Sys, s: PassStep)
    requires CanStepPass(st, s)
    ensures RunsFrom(st, DoStepPass(p, st, s))
  {
    if !s.PassBegin? && !s.PassEnd? {
      PassLooks(p, st, s);
      RunsFromLook(st, DoStepPass(p, st, s), st.poll.pass.value.todo[0]);
    }
  }

  lemma RunsFromStep(p: Params, st: Sys, step: Step)
    requires Can(st, step) && !IsDispatch(step)
    ensures RunsFrom(st, Do(p, st, step))
  {
    match step
    case OfTick(_) =>
    case OfRun(j) => RunsFromRun(p, st, j);
    case OfPass(s) => RunsFromPass(p, st, s);
    case OfCancel(c) => RunsFromCancel(p, st, c);
    case _ => RunsUntouched(p, st, step);
  }

  lemma RunsFromRun(p: Params, st: Sys, j: RunStep)
    requires CanStepRun(st, j)
    ensures RunsFrom(st, DoStepRun(p, st, j))
  {
  }

  lemma RunsFromCancel(p: Params, st: Sys, c: CancelStep)
    requires CanStepCancel(st, c)
    ensures RunsFrom(st, DoStepCancel(p, st, c))
  {
  }

  lemma RunsUntouched(p: Params, st: Sys, step: Step)
    requires Can(st, step) && !step.OfTick? && !step.OfRun? && !step.OfPass? && !step.OfCancel?
    ensures RunsFrom(st, Do(p, st, step))
  {
  }

  lemma RunsNamedStep(p: Params, st: Sys, step: Step)
    requires Can(st, step) && RunsNamed(st) && TickNamed(st.tick, st.db.rows)
    ensures RunsNamed(Do(p, st, step))
  {
    NamesKept(p, st, step);
    if IsDispatch(step) {
      assert Named(st.db.rows, st.tick.value.ready[step.t.k].id, st.tick.value.ready[step.t.k].row);
    } else {
      RunsFromStep(p, st, step);
    }
  }

  lemma {:induction false} NamedAlong(p: Params, h: History, n: nat)
    requires IsRun(p, h) && n < |h.states|
    ensures RunsNamed(h.states[n]) && TickNamed(h.states[n].tick, h.states[n].db.rows)
  {
    if n > 0 {
      NamedAlong(p, h, n - 1);
      StepOf(p, h, n - 1);
      RunsNamedStep(p, h.states[n - 1], h.steps[n - 1]);
      TickNamedStep(p, h.states[n - 1], h.steps[n - 1]);
    }
  }

  lemma TickNamedStep(p: Params, st: Sys, step: Step)
    requires Can(st, step) && Reads(st, step) && TickNamed(st.tick, st.db.rows)
    ensures TickNamed(Do(p, st, step).tick, Do(p, st, step).db.rows)
  {
    if step.OfTick? {
      TickNamedTick(st, step.t);
    } else {
      TickKept(p, st, step);
      NamesKept(p, st, step);
    }
  }

  // ---- events ----

  /** A completion that plans no retry: the finish is final. */
  predicate Final(c: Completion) { c.retryCount == 0 }

  function Begins(poll: Polling, r: RunId): seq<A.Event> {
    if r in poll.asyncRuns && !poll.asyncRuns[r].finishing then [A.Begins(r, poll.asyncRuns[r].row.taskName)] else []
  }

  /**
   * What a step is to the streaks. A finish takes its snapshot when its verdict is known, and lands with the terminal
   * write of the run. (A user's cancel takes it a signal later, and never looks at it.)
   */
  function EventOf(p: Params, st: Sys, step: Step): seq<A.Event> {
    match step
    case OfRun(Settle(r, reply)) => if CanSettle(st, r) && !reply.Accept? then [A.Begins(r, st.work.jobs[r].row.taskName)] else []
    case OfRun(JobWrite(r)) =>
      if CanJobWrite(st, r) then
        var j := st.work.jobs[r];
        [A.Lands(r, j.phase.outcome, Final(PlanCompletion(p.cal, j.row, j.task, r, j.phase.outcome, j.phase.at, j.phase.retry)))]
      else []
    case OfPass(PassSignalled) => if CanPassSignalled(st) then Begins(st.poll, st.poll.pass.value.cur.r) else []
    case OfPass(PassAnswer(answer)) => if CanPassAnswer(st, answer) && !answer.InProgress? then Begins(st.poll, st.poll.pass.value.cur.r) else []
    case OfPass(PassWrite) =>
      if CanPassWrite(st) then
        var c := st.poll.pass.value.cur;
        [A.Lands(c.r, c.outcome, Final(AsyncCompletion(p, st.poll.asyncRuns[c.r], c.r, c.outcome, c.at)))]
      else []
    case OfCancel(CancelBegin(r)) => Begins(st.poll, r)
    case OfCancel(CancelWrite(r)) => [A.Lands(r, Cancelled, true)]
    case _ => []
  }

  /** The run whose verdict the step writes fails with an attempt of its ladder left. */
  predicate IsRetried(st: Sys, step: Step, r: RunId) {
    match step
    case OfRun(JobWrite(_)) =>
      && r in st.work.jobs && st.work.jobs[r].phase.Settled?
      && var j := st.work.jobs[r];
         Columns.Ending(r, j.id, j.row, j.task, j.phase.outcome, j.phase.at, j.phase.retry).Retries()
    case OfPass(PassWrite) =>
      && r in st.poll.asyncRuns && st.poll.pass.Some? && st.poll.pass.value.cur.Finishing?
      && var ar, c := st.poll.asyncRuns[r], st.poll.pass.value.cur;
         Columns.Ending(r, ar.id, ar.row, ar.task, c.outcome, c.at, true).Retries()
    case _ => false
  }

  /** Every verdict that is written while the process is up lands, and tells its hook unless the run is to be retried. */
  lemma VerdictsLand(p: Params, st: Sys, step: Step, r: RunId)
    requires Can(st, step)
    ensures var verdict := Columns.VerdictOf(st, step, r);
            if verdict.Some? && !step.OfCrash? then EventOf(p, st, step) == [A.Lands(r, verdict.value, !IsRetried(st, step, r))]
            else forall outcome, notify :: EventOf(p, st, step) != [A.Lands(r, outcome, notify)]
  {
  }

  ghost function EventsOf(p: Params, h: History, n: nat): seq<A.Event>
    requires n <= |h.steps| && n < |h.states|
  {
    if n == 0 then [] else EventsOf(p, h, n - 1) + EventOf(p, h.states[n - 1], h.steps[n - 1])
  }

  // ---- the finishes in flight ----

  /** The terminal write of the run is in flight. */
  predicate Finishing(st: Sys, r: RunId) {
    || (r in st.work.jobs && st.work.jobs[r].phase.Settled?)
    || (r in st.poll.asyncRuns && (PassWillWrite(st.poll, r) || CancelWillWrite(st.poll, r)))
  }

  function NameOf(st: Sys, r: RunId): string {
    if r in st.work.jobs then st.work.jobs[r].row.taskName
    else if r in st.poll.asyncRuns then st.poll.asyncRuns[r].row.taskName else ""
  }

  ghost predicate Follows(b: A.Board, st: Sys) {
    forall r :: (r in b.flights <==> Finishing(st, r)) && (Finishing(st, r) ==> b.flights[r].task == NameOf(st, r))
  }

  /** What a step makes of the finishes in flight, by its event. */
  ghost predicate Matches(st: Sys, st': Sys, event: seq<A.Event>) {
    if event == [] then
      forall r :: (Finishing(st', r) <==> Finishing(st, r)) && (Finishing(st, r) ==> NameOf(st', r) == NameOf(st, r))
    else if event[0].Begins? then
      && !Finishing(st, event[0].id) && InFlight(st.work.jobs, st.poll.asyncRuns, event[0].id) && NameOf(st, event[0].id) == event[0].task
      && forall r :: (Finishing(st', r) <==> Finishing(st, r) || r == event[0].id) && (Finishing(st', r) ==> NameOf(st', r) == NameOf(st, r))
    else
      && Finishing(st, event[0].id)
      && forall r :: (Finishing(st', r) <==> Finishing(st, r) && r != event[0].id) && (Finishing(st', r) ==> NameOf(st', r) == NameOf(st, r))
  }

  lemma RunMatches(p: Params, st: Sys, j: RunStep)
    requires WellFormed(st) && CanStepRun(st, j)
    ensures Matches(st, DoStepRun(p, st, j), EventOf(p, st, OfRun(j)))
  {
    match j
    case Enqueue(r) => EnqueueMatches(st, r);
    case _ =>
  }

  lemma EnqueueMatches(st: Sys, r: RunId)
    requires WellFormed(st) && CanEnqueue(st, r)
    ensures Matches(st, DoEnqueue(st, r), [])
  {
    assert r !in st.poll.asyncRuns && r !in st.poll.cancels;
  }

  lemma TickMatches(p: Params, st: Sys, t: TickStep)
    requires WellFormed(st) && CanStepTick(st, t)
    ensures Matches(st, DoStepTick(st, t), EventOf(p, st, OfTick(t)))
  {
  }

  lemma StartFinishMatches(st: Sys, r: RunId, outcome: Outcome)
    requires Settling(st) && AtRun(st) && r == st.poll.pass.value.todo[0]
    requires st.poll.pass.value.cur == Signalling(r) || st.poll.pass.value.cur == Asking(r)
    ensures Matches(st, st.(poll := StartFinish(st.poll, st.clock, r, outcome)), Begins(st.poll, r))
  {
    assert Accounted(st.poll, r);
  }

  lemma WriteMatches(p: Params, st: Sys)
    requires Settling(st) && CanPassWrite(st)
    ensures Matches(st, DoPassWrite(st), EventOf(p, st, OfPass(PassWrite)))
  {
    assert Accounted(st.poll, st.poll.pass.value.cur.r) && PassFinishes(st.poll, st.poll.pass.value.cur.r);
  }

  lemma LookMatches(st: Sys, st': Sys, r: RunId)
    requires AtRun(st) && !Finishes(st.poll.pass.value) && r == st.poll.pass.value.todo[0]
    requires st'.work == st.work && st'.poll.cancels == st.poll.cancels && st'.poll.pass.Some? && !Finishes(st'.poll.pass.value)
    requires r in st'.poll.asyncRuns && st'.poll.asyncRuns == st.poll.asyncRuns[r := st'.poll.asyncRuns[r]]
    requires st'.poll.asyncRuns[r].row == st.poll.asyncRuns[r].row
    ensures Matches(st, st', [])
  {
  }

  lemma PassMatches(p: Params, st: Sys, s: PassStep)
    requires Settling(st) && CanStepPass(st, s)
    ensures Matches(st, DoStepPass(p, st, s), EventOf(p, st, OfPass(s)))
  {
    match s
    case PassBegin(_, _) =>
    case PassVisit => LookMatches(st, DoPassVisit(p, st), st.poll.pass.value.todo[0]);
    case PassSignalled => StartFinishMatches(st, st.poll.pass.value.todo[0], Failed);
    case PassAnswer(answer) => AnswerMatches(p, st, answer);
    case PassWrite => WriteMatches(p, st);
    case PassComplete =>
    case PassEnd =>
  }

  lemma AnswerMatches(p: Params, st: Sys, answer: Answer)
    requires Settling(st) && CanPassAnswer(st, answer)
    ensures Matches(st, DoPassAnswer(st, answer), EventOf(p, st, OfPass(PassAnswer(answer))))
  {
    var r := st.poll.pass.value.todo[0];
    match answer
    case InProgress(_) => LookMatches(st, DoPassAnswer(st, answer), r);
    case Verdict(ok) => StartFinishMatches(st, r, if ok then Succeeded else Failed);
    case Threw => StartFinishMatches(st, r, Failed);
  }

  lemma CancelMatches(p: Params, st: Sys, c: CancelStep)
    requires Settling(st) && CanStepCancel(st, c) && !IsLate(st, OfCancel(c))
    ensures Matches(st, DoStepCancel(p, st, c), EventOf(p, st, OfCancel(c)))
  {
    assert Accounted(st.poll, c.r);
    match c
    case CancelBegin(r) => TakenMatches(st, r);
    case CancelWrite(r) => assert r in st.poll.cancels;
    case CancelComplete(_) =>
  }

  lemma TakenMatches(st: Sys, r: RunId)
    requires Settling(st) && CanCancelBegin(st, r) && !st.poll.asyncRuns[r].finishing
    ensures Matches(st, DoCancelBegin(st, r), Begins(st.poll, r))
  {
    assert Accounted(st.poll, r);
  }

  lemma StepMatches(p: Params, st: Sys, step: Step)
    requires Settling(st) && Can(st, step) && !IsLate(st, step) && !step.OfCrash?
    ensures Matches(st, Do(p, st, step), EventOf(p, st, step))
  {
    match step
    case Advance(_) =>
    case OfTick(t) => TickMatches(p, st, t);
    case OfRun(j) => RunMatches(p, st, j);
    case OfPass(s) => PassMatches(p, st, s);
    case OfCancel(c) => CancelMatches(p, st, c);
    case OfFreeze(_) =>
    case OfStore(_) =>
  }

  /** A finish that begins is the only one of its task. */
  lemma AloneInTask(st: Sys, r: RunId, q: RunId)
    requires Settling(st) && Owned(st) && OneLockPerTask(st.db.rows) && RunsNamed(st)
    requires InFlight(st.work.jobs, st.poll.asyncRuns, r) && Finishing(st, q) && NameOf(st, r) == NameOf(st, q)
    ensures r == q
  {
    if q !in st.work.jobs {
      assert Accounted(st.poll, q);
      assert Open(st.poll.asyncRuns[q]);
    }
    var i, j := IdOf(st.work.jobs, st.poll.asyncRuns, r), IdOf(st.work.jobs, st.poll.asyncRuns, q);
    assert Held(st.db.rows, st.past.owners, i, r) && Held(st.db.rows, st.past.owners, j, q);
    assert st.db.rows[i].taskName == st.db.rows[j].taskName;
  }

  lemma FollowsNext(b: A.Board, st: Sys, st': Sys, event: seq<A.Event>)
    requires Follows(b, st) && Matches(st, st', event) && |event| <= 1
    ensures Follows(if event == [] then b else A.After(b, event[0]), st')
  {
  }

  lemma ApartNext(b: A.Board, st: Sys, st': Sys, event: seq<A.Event>)
    requires Follows(b, st) && Matches(st, st', event) && |event| == 1 && event[0].Begins?
    requires Settling(st) && Owned(st) && OneLockPerTask(st.db.rows) && RunsNamed(st)
    ensures forall id :: id in b.flights ==> b.flights[id].task != event[0].task
  {
    forall id | id in b.flights ensures b.flights[id].task != event[0].task {
      if b.flights[id].task == event[0].task {
        AloneInTask(st, event[0].id, id);
      }
    }
  }

  /** No finish of a task has begun while another one of it was in flight, and the counters follow the finishes. */
  ghost predicate ApartUpTo(p: Params, h: History, n: nat)
    requires n < |h.states| && |h.states| == |h.steps| + 1
  {
    A.Apart(EventsOf(p, h, n)) && Follows(A.Replay(EventsOf(p, h, n)), h.states[n])
  }

  /** In a calm history without crashes, no finish begins while another one of its task is in flight. */
  lemma {:induction false} FinishesAreApart(p: Params, h: History, n: nat)
    requires IsRun(p, h) && n < |h.states| && Calm(p, h, n) && NoCrash(h, n)
    ensures ApartUpTo(p, h, n)
  {
    if n == 0 {
      NothingFinishes(h.states[0]);
    } else {
      FinishesAreApart(p, h, n - 1);
      FinishesGoOn(p, h, n - 1);
    }
  }

  lemma NothingFinishes(st: Sys)
    requires Init(st)
    ensures A.Apart([]) && Follows(A.Replay([]), st)
  {
  }

  lemma FinishesGoOn(p: Params, h: History, n: nat)
    requires IsRun(p, h) && n < |h.steps| && Calm(p, h, n + 1) && NoCrash(h, n + 1)
    requires ApartUpTo(p, h, n)
    ensures ApartUpTo(p, h, n + 1)
  {
    var st, st', before := h.states[n], h.states[n + 1], EventsOf(p, h, n);
    var event, b := EventOf(p, st, h.steps[n]), A.Replay(before);
    StepOf(p, h, n);
    SettlingAlong(p, h, n);
    StepMatches(p, st, h.steps[n]);
    FollowsNext(b, st, st', event);
    if event == [] {
      assert EventsOf(p, h, n + 1) == before;
    } else {
      assert event == [event[0]] && (before + event)[..|before|] == before;
      A.ReplayMore(before, event[0]);
      if event[0].Begins? {
        OwnedAlong(p, h, n);
        PerTaskCeiling(p, h, n);
        NamedAlong(p, h, n);
        ApartNext(b, st, st', event);
      }
    }
  }

  /**
   * In a calm history without crashes, every alert is the one the history deserves: when a final terminal write lands,
   * the hook gets the length of the streak that the task's finishes before it make.
   */
  lemma EveryAlertIsDeserved(p: Params, h: History, n: nat, config: A.AlertsConfig, r: RunId, outcome: Outcome)
    requires IsRun(p, h) && n < |h.steps| && Calm(p, h, n + 1) && NoCrash(h, n + 1)
    requires EventOf(p, h.states[n], h.steps[n]) == [A.Lands(r, outcome, true)]
    ensures var b, task := A.Replay(EventsOf(p, h, n)), NameOf(h.states[n], r);
            var after := A.Replay(EventsOf(p, h, n + 1));
            && r in b.flights && b.flights[r].previousFailures == A.Streak(b.history, task)
            && after.history == b.history + [A.Finish(task, outcome, true)]
            && A.Deserved(config, after.history, |b.history|)
               == A.HandleFinal(A.ResolveFor(config, task), outcome, b.flights[r].previousFailures)
  {
    FinishesAreApart(p, h, n);
    FinishesAreApart(p, h, n + 1);
    LandsInFlight(p, h, n, r, outcome);
    LastAlert(config, EventsOf(p, h, n), r, outcome);
  }

  lemma LandsInFlight(p: Params, h: History, n: nat, r: RunId, outcome: Outcome)
    requires IsRun(p, h) && n < |h.steps| && NoLate(h, n + 1) && !h.steps[n].OfCrash?
    requires EventOf(p, h.states[n], h.steps[n]) == [A.Lands(r, outcome, true)]
    ensures Finishing(h.states[n], r) && EventsOf(p, h, n + 1) == EventsOf(p, h, n) + [A.Lands(r, outcome, true)]
  {
    StepOf(p, h, n);
    SettlingAlong(p, h, n);
    StepMatches(p, h.states[n], h.steps[n]);
  }

  /** The alert of the last event. */
  lemma LastAlert(config: A.AlertsConfig, before: seq<A.Event>, r: RunId, outcome: Outcome)
    requires A.Apart(before) && A.Apart(before + [A.Lands(r, outcome, true)]) && r in A.Replay(before).flights
    ensures var b, after := A.Replay(before), A.Replay(before + [A.Lands(r, outcome, true)]);
            var task := b.flights[r].task;
            && b.flights[r].previousFailures == A.Streak(b.history, task)
            && after.history == b.history + [A.Finish(task, outcome, true)]
            && A.Deserved(config, after.history, |b.history|)
               == A.HandleFinal(A.ResolveFor(config, task), outcome, b.flights[r].previousFailures)
  {
    var events := before + [A.Lands(r, outcome, true)];
    A.CounterIsHistory(before);
    A.ReplayMore(before, A.Lands(r, outcome, true));
    assert events[..|before|] == before && events[..|before| + 1] == events;
    A.AlertsFollowHistory(config, events, |before|);
  }
}
