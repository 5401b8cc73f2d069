/** No back-fill bursts: an interval schedule starts retry ladders at least its interval apart. */
module Bursts {
  import opened Records
  import opened Policy
  import opened Store
  import opened Protocol
  import opened Finish
  import opened Locks
  import opened Polls
  import opened Ownership
  import opened Slots

  // ---- after a ladder started at t, nothing sends the schedule off before t + ms ----

  /** A row of the interval schedule that would start a new ladder does so no earlier than `from`. */
  predicate NotBefore(row: Row, ms: Millis, from: int) {
    row.rule == Interval(ms) && (row.retryCount == 0 ==> row.nextRunAt.Some? && row.nextRunAt.value >= from)
  }

  ghost predicate RowsCool(rows: Rows, id: Id, ms: Millis, t: int) {
    id in rows ==> rows[id].rule == Interval(ms) && (!rows[id].Locked() ==> NotBefore(rows[id], ms, t + ms))
  }

  ghost predicate TickCool(tick: Option<Tick>, id: Id, ms: Millis, t: int) {
    tick.Some? ==>
      && (forall k :: 0 <= k < |tick.value.todo| && tick.value.todo[k].id == id ==> NotBefore(tick.value.todo[k].row, ms, t + ms))
      && (forall k :: 0 <= k < |tick.value.ready| && tick.value.ready[k].id == id ==> NotBefore(tick.value.ready[k].row, ms, t + ms))
  }

  ghost predicate PassRules(freeze: Freeze, rows: Rows) {
    forall q, k :: q in freeze.resumes && 0 <= k < |freeze.resumes[q].todo| ==>
      RuledBy(rows, freeze.resumes[q].todo[k].id, freeze.resumes[q].todo[k].row)
  }

  predicate PhaseSince(phase: Phase, t: int) {
    phase.Settled? || phase.Written? ==> phase.at >= t
  }

  ghost predicate JobsCool(jobs: Jobs, id: Id, ms: Millis, t: int) {
    forall r :: r in jobs && jobs[r].id == id ==> jobs[r].row.rule == Interval(ms) && PhaseSince(jobs[r].phase, t)
  }

  ghost predicate PollCool(poll: Polling, id: Id, ms: Millis, t: int) {
    && (forall r :: r in poll.asyncRuns && poll.asyncRuns[r].id == id && Open(poll.asyncRuns[r]) ==> poll.asyncRuns[r].row.rule == Interval(ms))
    && (poll.pass.Some? && Finishes(poll.pass.value) && poll.pass.value.cur.r in poll.asyncRuns ==>
          (poll.asyncRuns[poll.pass.value.cur.r].id == id ==> poll.pass.value.cur.at >= t))
    && (forall r :: r in poll.cancels && r in poll.asyncRuns && poll.asyncRuns[r].id == id ==> poll.cancels[r].at >= t)
  }

  ghost predicate Cool(st: Sys, id: Id, ms: Millis, t: int) {
    && st.clock >= t
    && RowsCool(st.db.rows, id, ms, t)
    && TickCool(st.tick, id, ms, t)
    && PassRules(st.freeze, st.db.rows)
    && JobsCool(st.work.jobs, id, ms, t)
    && PollCool(st.poll, id, ms, t)
  }

  /** A completion of an interval schedule that plans no retry puts the next firing a full interval after its end. */
  lemma CompleteCool(rows: Rows, cal: Calendar, i: Id, row: Row, task: Task, r: RunId, outcome: Outcome, at: int, retry: bool,
                     id: Id, ms: Millis, t: int)
    requires RowsCool(rows, id, ms, t) && (i == id ==> row.rule == Interval(ms) && at >= t)
    ensures RowsCool(Complete(rows, i, PlanCompletion(cal, row, task, r, outcome, at, retry)), id, ms, t)
  {
  }

  lemma CoolRun(p: Params, st: Sys, j: RunStep, id: Id, ms: Millis, t: int)
    requires Cool(st, id, ms, t) && CanStepRun(st, j)
    ensures RowsCool(DoStepRun(p, st, j).db.rows, id, ms, t)
    ensures JobsCool(DoStepRun(p, st, j).work.jobs, id, ms, t)
  {
    if j.JobComplete? {
      var job := st.work.jobs[j.r];
      CompleteCool(st.db.rows, p.cal, job.id, job.row, job.task, j.r, job.phase.outcome, job.phase.at, job.phase.retry, id, ms, t);
    }
  }

  lemma CoolEnqueue(p: Params, st: Sys, j: RunStep, id: Id, ms: Millis, t: int)
    requires WellFormed(st) && Cool(st, id, ms, t) && CanStepRun(st, j)
    ensures PollCool(DoStepRun(p, st, j).poll, id, ms, t)
  {
    if j.Enqueue? {
      assert j.r !in st.poll.cancels && j.r !in st.poll.asyncRuns;
    }
  }

  lemma CoolRunStep(p: Params, st: Sys, j: RunStep, id: Id, ms: Millis, t: int)
    requires WellFormed(st) && Cool(st, id, ms, t) && CanStepRun(st, j)
    ensures Cool(DoStepRun(p, st, j), id, ms, t)
  {
    CoolRun(p, st, j, id, ms, t);
    CoolEnqueue(p, st, j, id, ms, t);
  }

  lemma CoolTick(st: Sys, s: TickStep, id: Id, ms: Millis, t: int)
    requires Cool(st, id, ms, t) && CanStepTick(st, s) && Reads(st, OfTick(s))
    ensures Cool(DoStepTick(st, s), id, ms, t)
  {
    match s
    case TickBegin(now, due) =>
      forall k | 0 <= k < |due| && due[k].id == id ensures NotBefore(due[k].row, ms, t + ms) {
        assert Due(st.db.rows, due[k].id, now);
      }
    case TickCheck(_) =>
    case Dispatch(k) => CoolDispatch(st, k, id, ms, t);
    case TickDrop(_) =>
    case TickEnd =>
  }

  lemma CoolDispatch(st: Sys, k: nat, id: Id, ms: Millis, t: int)
    requires Cool(st, id, ms, t) && CanDispatch(st, k)
    ensures Cool(DoDispatch(st, k), id, ms, t)
  {
  }

  lemma CoolPassComplete(p: Params, st: Sys, id: Id, ms: Millis, t: int)
    requires Cool(st, id, ms, t) && CanPassComplete(st)
    requires Unraced(st.poll.asyncRuns) && Accounted(st.poll, st.poll.pass.value.cur.r)
    ensures RowsCool(DoPassComplete(p, st).db.rows, id, ms, t) && PollCool(DoPassComplete(p, st).poll, id, ms, t)
  {
    var c := st.poll.pass.value.cur;
    var ar := st.poll.asyncRuns[c.r];
    assert PassFinishes(st.poll, c.r) && Open(ar);
    CompleteCool(st.db.rows, p.cal, ar.id, ar.row, ar.task, c.r, c.outcome, c.at, true, id, ms, t);
  }

  lemma CoolStartFinish(poll: Polling, clock: int, r: RunId, outcome: Outcome, id: Id, ms: Millis, t: int)
    requires PollCool(poll, id, ms, t) && clock >= t && poll.pass.Some? && |poll.pass.value.todo| > 0 && r in poll.asyncRuns
    ensures PollCool(StartFinish(poll, clock, r, outcome), id, ms, t)
  {
  }

  /** A pass that does not finish its run, and leaves it the same schedule and row. */
  lemma CoolLook(poll: Polling, ps: Pass, r: RunId, ar: AsyncRun, id: Id, ms: Millis, t: int)
    requires PollCool(poll, id, ms, t) && r in poll.asyncRuns && !Finishes(ps)
    requires ar.id == poll.asyncRuns[r].id && ar.row == poll.asyncRuns[r].row && ar.completions == poll.asyncRuns[r].completions
    ensures PollCool(WithPass(poll, ps, r, ar), id, ms, t)
  {
  }

  lemma CoolVisit(p: Params, st: Sys, id: Id, ms: Millis, t: int)
    requires PollCool(st.poll, id, ms, t) && CanPassVisit(st)
    ensures PollCool(DoPassVisit(p, st).poll, id, ms, t)
  {
    var ps := st.poll.pass.value;
    var r := ps.todo[0];
    var ar := st.poll.asyncRuns[r].(seen := ps.at);
    CoolLook(st.poll, Move(ps), r, ar, id, ms, t);
    CoolLook(st.poll, ps.(cur := Signalling(r)), r, Decide(Signal(ar), st.clock), id, ms, t);
    CoolLook(st.poll, ps.(cur := Asking(r)), r, ar.(asked := Some(ps.at)), id, ms, t);
  }

  lemma CoolAnswer(st: Sys, answer: Answer, id: Id, ms: Millis, t: int)
    requires PollCool(st.poll, id, ms, t) && st.clock >= t && CanPassAnswer(st, answer)
    ensures PollCool(DoPassAnswer(st, answer).poll, id, ms, t)
  {
    CoolStartFinish(st.poll, st.clock, st.poll.pass.value.cur.r, Failed, id, ms, t);
    CoolStartFinish(st.poll, st.clock, st.poll.pass.value.cur.r, Succeeded, id, ms, t);
  }

  lemma CoolWrite(st: Sys, id: Id, ms: Millis, t: int)
    requires PollCool(st.poll, id, ms, t) && CanPassWrite(st)
    ensures PollCool(DoPassWrite(st).poll, id, ms, t)
  {
  }

  lemma CoolPass(p: Params, st: Sys, s: PassStep, id: Id, ms: Millis, t: int)
    requires Cool(st, id, ms, t) && CanStepPass(st, s) && Unraced(st.poll.asyncRuns)
    requires s.PassComplete? ==> Accounted(st.poll, st.poll.pass.value.cur.r)
    ensures Cool(DoStepPass(p, st, s), id, ms, t)
  {
    match s
    case PassBegin(_, _) =>
    case PassVisit => CoolVisit(p, st, id, ms, t);
    case PassSignalled => CoolStartFinish(st.poll, st.clock, st.poll.pass.value.cur.r, Failed, id, ms, t);
    case PassAnswer(answer) => CoolAnswer(st, answer, id, ms, t);
    case PassWrite => CoolWrite(st, id, ms, t);
    case PassComplete => CoolPassComplete(p, st, id, ms, t);
    case PassEnd =>
  }

  lemma CoolCancel(p: Params, st: Sys, c: CancelStep, id: Id, ms: Millis, t: int)
    requires Cool(st, id, ms, t) && CanStepCancel(st, c) && Unraced(st.poll.asyncRuns) && Accounted(st.poll, c.r)
    ensures Cool(DoStepCancel(p, st, c), id, ms, t)
  {
    if c.CancelComplete? {
      var ar := st.poll.asyncRuns[c.r];
      assert Open(ar);
      CompleteCool(st.db.rows, p.cal, ar.id, ar.row, ar.task, c.r, Cancelled, st.poll.cancels[c.r].at, true, id, ms, t);
    }
  }

  /** The row is not locked and has no retry pending: what fires it next is a new ladder. */
  predicate Resting(rows: Rows, id: Id) {
    id in rows && !rows[id].Locked() && rows[id].retryCount == 0
  }

  /** A resume pass begun before `t` writes the slot of the resting schedule. */
  predicate OldSkip(st: Sys, step: Step, id: Id, t: int) {
    Skips(st, step, id) && st.freeze.resumes[step.f.q].now < t && Resting(st.db.rows, id)
  }

  lemma CoolFreeze(p: Params, st: Sys, f: FreezeStep, id: Id, ms: Millis, t: int)
    requires Cool(st, id, ms, t) && CanStepFreeze(st, f) && Reads(st, OfFreeze(f)) && !OldSkip(st, OfFreeze(f), id, t)
    ensures Cool(DoStepFreeze(p, st, f), id, ms, t)
  {
    if f.ResumeSkip? {
      CoolSkip(p, st, f.q, id, ms, t);
    }
  }

  lemma CoolSkip(p: Params, st: Sys, q: nat, id: Id, ms: Millis, t: int)
    requires Cool(st, id, ms, t) && CanResumeSkip(st, q) && !OldSkip(st, OfFreeze(ResumeSkip(q)), id, t)
    ensures Cool(DoResumeSkip(p, st, q), id, ms, t)
  {
  }

  lemma CoolStore(p: Params, st: Sys, o: StoreStep, id: Id, ms: Millis, t: int)
    requires Cool(st, id, ms, t) && CanStepStore(st, o)
    requires o.ReapPass? ==> Reap(st.db.rows, o.at - p.ttl) == st.db.rows
    ensures Cool(DoStepStore(p, st, o), id, ms, t)
  {
  }

  lemma CoolStep(p: Params, st: Sys, step: Step, id: Id, ms: Millis, t: int)
    requires Settling(st) && Owned(st) && KeepsLocks(p, st, step)
    requires Cool(st, id, ms, t) && Can(st, step) && Reads(st, step) && !step.OfCrash? && !OldSkip(st, step, id, t)
    ensures Cool(Do(p, st, step), id, ms, t)
  {
    match step
    case Advance(_) =>
    case OfTick(s) => CoolTick(st, s, id, ms, t);
    case OfRun(j) => CoolRunStep(p, st, j, id, ms, t);
    case OfPass(s) => CoolPass(p, st, s, id, ms, t);
    case OfCancel(c) => CoolCancel(p, st, c, id, ms, t);
    case OfFreeze(f) => CoolFreeze(p, st, f, id, ms, t);
    case OfStore(o) => CoolStore(p, st, o, id, ms, t);
  }

  /** Step `k` starts a retry ladder of schedule `id` (its snapshot has no retry pending). */
  predicate Starts(st: Sys, step: Step, id: Id) {
    Claims(st, step, id) && st.tick.value.ready[step.t.k].row.retryCount == 0
  }

  /** Nothing of the schedule is in flight when it is claimed, so right after the claim everything is cool. */
  lemma CoolAfterStart(p: Params, st: Sys, k: nat, id: Id, ms: Millis)
    requires Settling(st) && Owned(st) && CanDispatch(st, k) && st.tick.value.ready[k].id == id
    requires HoldsOnce(st.tick) && TickDue(st.tick, st.clock) && PassRules(st.freeze, st.db.rows)
    requires st.db.rows[id].rule == Interval(ms) && st.tick.value.ready[k].row.rule == Interval(ms)
    ensures Cool(DoDispatch(st, k), id, ms, st.tick.value.now)
  {
    var t := st.tick.value.now;
    assert !st.db.rows[id].Locked();
    forall r | r in st.work.jobs ensures st.work.jobs[r].id != id {
    }
    forall r | r in st.poll.asyncRuns && Open(st.poll.asyncRuns[r]) ensures st.poll.asyncRuns[r].id != id {
    }
    FinishersAreOpen(st.poll);
    assert PollCool(st.poll, id, ms, t);
    assert TickCool(DoDispatch(st, k).tick, id, ms, t);
  }

  /** Who is being finished, by the pass or by a cancel, is not completed yet. */
  lemma FinishersAreOpen(poll: Polling)
    requires Unraced(poll.asyncRuns) && (forall r :: Accounted(poll, r))
    ensures forall r :: r in poll.cancels && r in poll.asyncRuns ==> Open(poll.asyncRuns[r])
    ensures poll.pass.Some? && Finishes(poll.pass.value) && poll.pass.value.cur.r in poll.asyncRuns ==> Open(poll.asyncRuns[poll.pass.value.cur.r])
  {
    forall r | r in poll.cancels && r in poll.asyncRuns ensures Open(poll.asyncRuns[r]) {
      assert Accounted(poll, r);
    }
    if poll.pass.Some? && Finishes(poll.pass.value) && poll.pass.value.cur.r in poll.asyncRuns {
      assert Accounted(poll, poll.pass.value.cur.r) && PassFinishes(poll, poll.pass.value.cur.r);
    }
  }

  // ---- the firing rule of a schedule stays ----

  ghost predicate SameRules(rows: Rows, rows': Rows) {
    forall id :: id in rows ==> id in rows' && rows'[id].rule == rows[id].rule
  }

  lemma StoreKeepsRules(p: Params, st: Sys, o: StoreStep)
    requires CanStepStore(st, o)
    ensures SameRules(st.db.rows, DoStepStore(p, st, o).db.rows)
  {
  }

  lemma RunKeepsRules(p: Params, st: Sys, j: RunStep)
    requires CanStepRun(st, j)
    ensures SameRules(st.db.rows, DoStepRun(p, st, j).db.rows)
  {
  }

  lemma PassKeepsRules(p: Params, st: Sys, s: PassStep)
    requires CanStepPass(st, s)
    ensures SameRules(st.db.rows, DoStepPass(p, st, s).db.rows)
  {
  }

  lemma RulesKept(p: Params, st: Sys, step: Step)
    requires Can(st, step)
    ensures SameRules(st.db.rows, Do(p, st, step).db.rows)
  {
    match step
    case OfStore(o) => StoreKeepsRules(p, st, o);
    case Advance(_) =>
    case OfTick(_) =>
    case OfRun(j) => RunKeepsRules(p, st, j);
    case OfPass(s) => PassKeepsRules(p, st, s);
    case OfCancel(_) =>
    case OfFreeze(_) =>
    case OfCrash(_) =>
  }

  predicate RuledBy(rows: Rows, id: Id, row: Row) {
    id in rows && row.rule == rows[id].rule
  }

  ghost predicate TickRules(tick: Option<Tick>, rows: Rows) {
    tick.Some? ==>
      && (forall k :: 0 <= k < |tick.value.todo| ==> RuledBy(rows, tick.value.todo[k].id, tick.value.todo[k].row))
      && (forall k :: 0 <= k < |tick.value.ready| ==> RuledBy(rows, tick.value.ready[k].id, tick.value.ready[k].row))
  }

  lemma TickRulesTick(st: Sys, t: TickStep)
    requires CanStepTick(st, t) && Reads(st, OfTick(t)) && TickRules(st.tick, st.db.rows)
    ensures TickRules(DoStepTick(st, t).tick, DoStepTick(st, t).db.rows)
  {
    match t
    case TickBegin(now, due) =>
      forall k | 0 <= k < |due| ensures due[k].id in st.db.rows && due[k].row.rule == st.db.rows[due[k].id].rule {
        assert Due(st.db.rows, due[k].id, now);
      }
    case TickCheck(_) =>
    case Dispatch(_) =>
    case TickDrop(_) =>
    case TickEnd =>
  }

  lemma TickRulesAlong(p: Params, h: History, n: nat)
    requires IsRun(p, h) && n < |h.states|
    ensures TickRules(h.states[n].tick, h.states[n].db.rows)
  {
    if n > 0 {
      TickRulesAlong(p, h, n - 1);
      StepOf(p, h, n - 1);
      if h.steps[n - 1].OfTick? {
        TickRulesTick(h.states[n - 1], h.steps[n - 1].t);
      } else {
        TickKept(p, h.states[n - 1], h.steps[n - 1]);
        RulesKept(p, h.states[n - 1], h.steps[n - 1]);
      }
    }
  }

  lemma PassRulesAlong(p: Params, h: History, n: nat)
    requires IsRun(p, h) && n < |h.states|
    ensures PassRules(h.states[n].freeze, h.states[n].db.rows)
  {
    if n > 0 {
      PassRulesAlong(p, h, n - 1);
      StepOf(p, h, n - 1);
      RulesKept(p, h.states[n - 1], h.steps[n - 1]);
      PassRulesStep(p, h.states[n - 1], h.steps[n - 1]);
    }
  }

  lemma PassRulesStep(p: Params, st: Sys, step: Step)
    requires Can(st, step) && Reads(st, step) && PassRules(st.freeze, st.db.rows)
    requires SameRules(st.db.rows, Do(p, st, step).db.rows)
    ensures PassRules(Do(p, st, step).freeze, Do(p, st, step).db.rows)
  {
    if step.OfFreeze? {
      PassRulesFreeze(p, st, step.f);
    } else {
      FreezeUntouched(p, st, step);
    }
  }

  lemma PassRulesFreeze(p: Params, st: Sys, f: FreezeStep)
    requires CanStepFreeze(st, f) && Reads(st, OfFreeze(f)) && PassRules(st.freeze, st.db.rows)
    ensures PassRules(DoStepFreeze(p, st, f).freeze, DoStepFreeze(p, st, f).db.rows)
  {
  }

  lemma FreezeUntouched(p: Params, st: Sys, step: Step)
    requires Can(st, step) && !step.OfFreeze?
    ensures Do(p, st, step).freeze == st.freeze || Do(p, st, step).freeze.resumes == map[]
  {
  }

  // ---- the theorems ----

  /** The time of the tick that takes step `k`. */
  function TickTime(h: History, k: nat): int
    requires k < |h.states|
  {
    if h.states[k].tick.Some? then h.states[k].tick.value.now else 0
  }

  lemma CoolNext(p: Params, st: Sys, step: Step, st': Sys, id: Id, ms: Millis, t: int)
    requires Settling(st) && Owned(st) && KeepsLocks(p, st, step) && Cool(st, id, ms, t) && Next(p, st, step, st')
    requires !step.OfCrash?
    requires !OldSkip(st, step, id, t)
    ensures Cool(st', id, ms, t)
  {
    CoolStep(p, st, step, id, ms, t);
  }

  lemma CoolFirst(p: Params, h: History, m: nat, id: Id, ms: Millis)
    requires IsRun(p, h) && m < |h.steps| && Calm(p, h, m) && Starts(h.states[m], h.steps[m], id)
    requires h.states[m].db.rows[id].rule == Interval(ms)
    ensures Cool(h.states[m + 1], id, ms, TickTime(h, m))
  {
    StepOf(p, h, m);
    OwnedAlong(p, h, m);
    SettlingAlong(p, h, m);
    OnceAlong(p, h, m);
    TickDueAlong(p, h, m);
    TickRulesAlong(p, h, m);
    PassRulesAlong(p, h, m);
    CoolAfterStart(p, h.states[m], h.steps[m].t.k, id, ms);
  }

  lemma CoolOne(p: Params, h: History, n: nat, id: Id, ms: Millis, t: int)
    requires IsRun(p, h) && n < |h.steps| && Calm(p, h, n + 1) && NoCrash(h, n + 1) && Cool(h.states[n], id, ms, t)
    requires !OldSkip(h.states[n], h.steps[n], id, t)
    ensures Cool(h.states[n + 1], id, ms, t)
  {
    StepOf(p, h, n);
    OwnedAlong(p, h, n);
    SettlingAlong(p, h, n);
    CoolNext(p, h.states[n], h.steps[n], h.states[n + 1], id, ms, t);
  }

  /**
   * Pass `q` was under way already when step `j` ended another one, and at step `c` it writes the slot of the
   * resting schedule as of a time before `t`.
   */
  ghost predicate WritesOld(h: History, j: nat, c: nat, q: nat, id: Id, t: int)
    requires j <= c < |h.steps| && c < |h.states|
  {
    && h.steps[j].OfFreeze? && h.steps[j].f.ResumeEnd? && UnderWay(h, q, j, c)
    && OldSkip(h.states[c], h.steps[c], id, t) && h.steps[c].f.q == q
  }

  /** Step `m` falls between the end of one resume and such a write, before `n`, of an older one still under way. */
  ghost predicate OldWrite(h: History, m: nat, n: nat, id: Id)
    requires n <= |h.steps| && n <= |h.states| && m < |h.states|
  {
    exists j: nat, c: nat, q: nat :: j < m < c < n && WritesOld(h, j, c, q, id, TickTime(h, m))
  }

  ghost predicate CoolSince(h: History, m: nat, n: nat, id: Id, ms: Millis, t: int)
    requires n < |h.states|
  {
    forall i :: m < i <= n ==> Cool(h.states[i], id, ms, t)
  }

  lemma OverdueIsLater(st: Sys, id: Id, ms: Millis, t: int, at: int)
    requires Cool(st, id, ms, t) && id in st.db.rows && Overdue(st.db.rows[id], at) && !Deferred(st.db.rows[id])
    ensures at >= t
  {
  }

  /**
   * A pass that writes the slot of the schedule after a ladder started began before that, or has a later time: it
   * read the schedule as overdue.
   */
  lemma PassIsOldOrLater(p: Params, h: History, m: nat, c: nat, id: Id, ms: Millis) returns (b: nat)
    requires IsRun(p, h) && m < c < |h.steps| && Starts(h.states[m], h.steps[m], id) && CoolSince(h, m, c, id, ms, TickTime(h, m))
    requires Skips(h.states[c], h.steps[c], id)
    ensures b < c && Begins(h.steps[b], h.steps[c].f.q) && h.states[b].freeze.paused && UnderWay(h, h.steps[c].f.q, b + 1, c)
    ensures b < m || h.states[c].freeze.resumes[h.steps[c].f.q].now >= TickTime(h, m)
  {
    var q := h.steps[c].f.q;
    b := PassBegan(p, h, c, q);
    StepOf(p, h, b);
    var r := EntryRead(p, h, c, q, h.states[c].freeze.resumes[q].todo[0]);
    NotBeforeBegin(p, h, b, q);
    if m < r {
      OverdueIsLater(h.states[r], id, ms, TickTime(h, m), h.states[c].freeze.resumes[q].now);
    }
  }

  lemma OldPassOverlaps(p: Params, h: History, m: nat, c: nat, id: Id, ms: Millis) returns (j: nat)
    requires IsRun(p, h) && m < c < |h.steps| && Starts(h.states[m], h.steps[m], id) && CoolSince(h, m, c, id, ms, TickTime(h, m))
    requires OldSkip(h.states[c], h.steps[c], id, TickTime(h, m))
    ensures j < m && WritesOld(h, j, c, h.steps[c].f.q, id, TickTime(h, m))
  {
    var b := PassIsOldOrLater(p, h, m, c, id, ms);
    assert b != m;
    j := ReleasedBetween(p, h, b, m, h.steps[c].f.q);
  }

  lemma {:induction false} CoolAlong(p: Params, h: History, m: nat, n: nat, id: Id, ms: Millis)
    requires IsRun(p, h) && m < n < |h.states| && Calm(p, h, n) && NoCrash(h, n)
    requires Starts(h.states[m], h.steps[m], id) && h.states[m].db.rows[id].rule == Interval(ms)
    ensures CoolSince(h, m, n, id, ms, TickTime(h, m)) || OldWrite(h, m, n, id)
  {
    if n == m + 1 {
      CoolFirst(p, h, m, id, ms);
    } else {
      CoolAlong(p, h, m, n - 1, id, ms);
      if OldWrite(h, m, n - 1, id) {
        OldWriteStays(h, m, n - 1, id);
      } else if OldSkip(h.states[n - 1], h.steps[n - 1], id, TickTime(h, m)) {
        var j := OldPassOverlaps(p, h, m, n - 1, id, ms);
      } else {
        CoolOne(p, h, n - 1, id, ms, TickTime(h, m));
      }
    }
  }

  lemma OldWriteStays(h: History, m: nat, n: nat, id: Id)
    requires m < n < |h.steps| && |h.states| == |h.steps| + 1 && OldWrite(h, m, n, id)
    ensures OldWrite(h, m, n + 1, id)
  {
    var j: nat, c: nat, q: nat :| j < m < c < n && WritesOld(h, j, c, q, id, TickTime(h, m));
  }

  /** As long as the row is resting its slot is not before `from`. */
  ghost predicate RestsUntil(h: History, m: nat, n: nat, id: Id, from: int)
    requires n < |h.states|
  {
    forall i :: m < i <= n && Resting(h.states[i].db.rows, id) ==> SlotFrom(h.states[i].db.rows[id], from)
  }

  predicate SlotFrom(row: Row, from: int) {
    row.nextRunAt.Some? && row.nextRunAt.value >= from
  }

  /** An old write leaves the resting row with a slot that comes too early. */
  lemma OldWriteIsEarly(p: Params, h: History, m: nat, c: nat, id: Id, ms: Millis)
    requires IsRun(p, h) && m <= c < |h.steps| && OldSkip(h.states[c], h.steps[c], id, TickTime(h, m))
    requires id in h.states[m].db.rows && h.states[m].db.rows[id].rule == Interval(ms)
    ensures Resting(h.states[c + 1].db.rows, id) && !SlotFrom(h.states[c + 1].db.rows[id], TickTime(h, m) + ms)
  {
    StepOf(p, h, c);
    RuleAlong(p, h, m, c, id);
    PassRulesAlong(p, h, c);
  }

  /**
   * Exactly when a started ladder keeps the next one away. In a calm history without crashes, after a ladder of an
   * interval schedule has started at time t, the slot of the schedule lies at t + interval or later in every state in
   * which it is neither locked nor waiting for a retry, whatever the timing, the downtimes and the pauses, if and only
   * if that start does not fall between the end of one resume and the write, to the resting row, of an older one that
   * is still under way. Writes to a row that is locked or waits for a retry do no harm.
   */
  lemma SlotsStayAway(p: Params, h: History, m: nat, n: nat, id: Id, ms: Millis)
    requires IsRun(p, h) && m < n < |h.states| && Calm(p, h, n) && NoCrash(h, n)
    requires Starts(h.states[m], h.steps[m], id) && h.states[m].db.rows[id].rule == Interval(ms)
    ensures RestsUntil(h, m, n, id, TickTime(h, m) + ms) <==> !OldWrite(h, m, n, id)
  {
    CoolAlong(p, h, m, n, id, ms);
    if OldWrite(h, m, n, id) {
      var j: nat, c: nat, q: nat :| j < m < c < n && WritesOld(h, j, c, q, id, TickTime(h, m));
      OldWriteIsEarly(p, h, m, c, id, ms);
    } else {
      forall i | m < i <= n && Resting(h.states[i].db.rows, id) ensures SlotFrom(h.states[i].db.rows[id], TickTime(h, m) + ms) {
        assert Cool(h.states[i], id, ms, TickTime(h, m));
      }
    }
  }

  /** So without such a write two ladders of the schedule start at least its interval apart. */
  lemma LaddersStartApart(p: Params, h: History, m: nat, n: nat, id: Id, ms: Millis)
    requires IsRun(p, h) && m < n < |h.steps| && Calm(p, h, n) && NoCrash(h, n)
    requires Starts(h.states[m], h.steps[m], id) && Starts(h.states[n], h.steps[n], id)
    requires h.states[m].db.rows[id].rule == Interval(ms)
    ensures TickTime(h, n) >= TickTime(h, m) + ms || OldWrite(h, m, n, id)
  {
    CoolAlong(p, h, m, n, id, ms);
    TickDueAlong(p, h, n);
    if CoolSince(h, m, n, id, ms, TickTime(h, m)) {
      assert Cool(h.states[n], id, ms, TickTime(h, m));
      assert WasDue(h.states[n].tick.value.ready[h.steps[n].t.k].row, h.states[n].tick.value.now);
    }
  }

  /** With one resume at a time nothing brings a ladder forward. */
  lemma AloneStartsApart(p: Params, h: History, m: nat, n: nat, id: Id)
    requires IsRun(p, h) && Alone(h) && m < n <= |h.steps|
    ensures !OldWrite(h, m, n, id)
  {
    if OldWrite(h, m, n, id) {
      var j: nat, c: nat, q: nat :| j < m < c < n && WritesOld(h, j, c, q, id, TickTime(h, m));
      StepOf(p, h, j);
      OnePassAlong(p, h, j);
      assert false;
    }
  }

  lemma RuleAlong(p: Params, h: History, m: nat, n: nat, id: Id)
    requires IsRun(p, h) && m <= n < |h.states| && id in h.states[m].db.rows
    ensures id in h.states[n].db.rows && h.states[n].db.rows[id].rule == h.states[m].db.rows[id].rule
  {
    if m < n {
      RuleAlong(p, h, m, n - 1, id);
      StepOf(p, h, n - 1);
      RulesKept(p, h.states[n - 1], h.steps[n - 1]);
    }
  }

  /** Ladder starts of the schedule, in order, with no old write between one and the next. */
  ghost predicate AreStarts(h: History, starts: seq<nat>, id: Id) {
    && |h.states| == |h.steps| + 1
    && (forall i :: 0 <= i < |starts| ==> starts[i] < |h.steps| && Starts(h.states[starts[i]], h.steps[starts[i]], id))
    && (forall i, j :: 0 <= i < j < |starts| ==> starts[i] < starts[j])
    && (forall i :: 0 < i < |starts| ==> !OldWrite(h, starts[i - 1], starts[i], id))
  }

  lemma {:induction false} StartsSpread(p: Params, h: History, starts: seq<nat>, i: nat, id: Id, ms: Millis)
    requires IsRun(p, h) && Calm(p, h, |h.steps|) && NoCrash(h, |h.steps|) && AreStarts(h, starts, id) && i < |starts|
    requires h.states[starts[0]].db.rows[id].rule == Interval(ms)
    ensures TickTime(h, starts[i]) >= TickTime(h, starts[0]) + i * ms
  {
    if i > 0 {
      StartsSpread(p, h, starts, i - 1, id, ms);
      RuleAlong(p, h, starts[0], starts[i - 1], id);
      LaddersStartApart(p, h, starts[i - 1], starts[i], id, ms);
      assert (i - 1) * ms + ms == i * ms;
    }
  }

  /** Any window of time of a length has at most length / interval + 1 ladder starts in it. */
  lemma NoBackfillBurst(p: Params, h: History, starts: seq<nat>, id: Id, ms: Millis, length: nat)
    requires IsRun(p, h) && Calm(p, h, |h.steps|) && NoCrash(h, |h.steps|) && AreStarts(h, starts, id) && |starts| > 0
    requires h.states[starts[0]].db.rows[id].rule == Interval(ms)
    requires TickTime(h, starts[|starts| - 1]) <= TickTime(h, starts[0]) + length
    ensures |starts| <= length / ms + 1
  {
    StartsSpread(p, h, starts, |starts| - 1, id, ms);
    AtMost(|starts| - 1, ms, length);
  }

  lemma AtMost(n: nat, ms: Millis, length: nat)
    requires n * ms <= length
    ensures n <= length / ms
  {
    var q := length / ms;
    assert length < (q + 1) * ms;
    TimesGrows(q + 1, n, ms);
  }

  lemma TimesGrows(a: nat, b: nat, ms: Millis)
    ensures a <= b ==> a * ms <= b * ms
  {
    if a <= b {
      assert b * ms == a * ms + (b - a) * ms;
    }
  }
}
