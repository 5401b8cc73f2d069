/** Timing of accepted runs: they end in bounded time, and their workers are polled at their own pace. */
module Polls {
  import opened Records
  import opened Protocol
  import opened Finish

  /**
   * Bounds on the environment: the age `s` of the tick's time at a claim, the heartbeat `h`, the gap `l`
   * between two looks of the poll pass at the same run, and the time `d` from the decision that an accepted
   * run ends to the completion of its schedule.
   */
  datatype Timing = Timing(s: nat, h: nat, l: nat, d: nat)

  /** The accepted run is not completed yet. */
  predicate Open(ar: AsyncRun) { ar.completions == 0 }

  ghost predicate TimelyJobs(tm: Timing, clock: int, jobs: map<RunId, Job>) {
    forall r :: r in jobs ==> clock <= jobs[r].beat + tm.h
  }

  predicate TimelyRun(tm: Timing, clock: int, ar: AsyncRun) {
    if ar.since.None? then clock <= ar.seen + tm.l else clock <= ar.since.value + tm.d
  }

  ghost predicate TimelyPolls(tm: Timing, clock: int, ars: map<RunId, AsyncRun>) {
    forall r :: r in ars && Open(ars[r]) ==> TimelyRun(tm, clock, ars[r])
  }

  /** The environment keeps its bounds in this state. */
  ghost predicate Timely(tm: Timing, st: Sys) {
    && (st.tick.Some? ==> st.clock <= st.tick.value.now + tm.s)
    && TimelyJobs(tm, st.clock, st.work.jobs)
    && TimelyPolls(tm, st.clock, st.poll.asyncRuns)
  }

  // ---- accepted runs end in bounded time ----

  /** The last moment of a poll interval at which the pass still leaves the run alone. */
  function Rest(w: nat): nat {
    if w == 0 then 0 else w - 1
  }

  /** `m` polls can bring the last one `off` after acceptance: two of them are an interval apart, and at most a gap more. */
  predicate Beats(m: nat, w: nat, l: nat, off: int) {
    m * (Rest(w) + 1) <= off <= m * (Rest(w) + l)
  }

  /** How long after acceptance a run with ceiling `t` can be polled last. */
  function LastPoll(t: int, w: nat, l: nat): nat {
    if t <= 1 then 0
    else
      var polls := (t - 1) / (Rest(w) + 1) * (Rest(w) + l);
      if 0 <= polls <= t - 1 then polls else t - 1
  }

  /** How long after acceptance the end of a run can be decided at the latest; none if there is no limit. */
  function Life(ceiling: Option<int>, w: nat, l: nat): (life: Option<nat>)
    ensures life.None? <==> ceiling.None? && l > 0
    ensures ceiling.Some? && 0 < ceiling.value && 0 < w ==> life.value < ceiling.value + w + l
  {
    if l == 0 then Some(0)
    else if ceiling.None? then None
    else Some(LastPoll(ceiling.value, w, l) + Rest(w) + l)
  }

  function LifeOf(p: Params, tm: Timing, ar: AsyncRun): Option<nat> {
    Life(Ceiling(p, ar.task), ar.pollMs, tm.l)
  }

  /** The last poll of the run, its acceptance when there was none. */
  function LastAsked(ar: AsyncRun): int {
    if ar.asked.Some? then ar.asked.value else ar.acceptedAt
  }

  ghost predicate Paced(ceiling: Option<int>, w: nat, l: nat, off: int) {
    && (ceiling.Some? ==> off == 0 || off <= ceiling.value - 1)
    && exists m: nat :: Beats(m, w, l, off)
  }

  /** The time of the pass, when it is asking the worker of this run. */
  function AskedNow(poll: Polling, r: RunId): Option<int> {
    if poll.pass.Some? && poll.pass.value.cur == Asking(r) then Some(poll.pass.value.at) else None
  }

  ghost predicate Undecided(p: Params, tm: Timing, ar: AsyncRun) {
    && !ar.finishing && Open(ar)
    && Paced(Ceiling(p, ar.task), ar.pollMs, tm.l, LastAsked(ar) - ar.acceptedAt)
    && ar.seen <= LastAsked(ar) + Rest(ar.pollMs) && (tm.l == 0 ==> ar.seen <= ar.acceptedAt)
  }

  ghost predicate Within(p: Params, tm: Timing, ar: AsyncRun, now: Option<int>) {
    if ar.since.None? then
      Undecided(p, tm, ar) && if now.Some? then ar.asked == now else ar.nextPollAt == LastAsked(ar) + ar.pollMs
    else Open(ar) && LifeOf(p, tm, ar).Some? ==> ar.since.value <= ar.acceptedAt + LifeOf(p, tm, ar).value
  }

  ghost predicate Bounded(p: Params, tm: Timing, poll: Polling, r: RunId) {
    r in poll.asyncRuns ==> Within(p, tm, poll.asyncRuns[r], AskedNow(poll, r))
  }

  lemma TimesLeq(a: nat, b: nat, c: nat)
    requires a <= b
    ensures a * c <= b * c
  {
    assert b * c == a * c + (b - a) * c;
  }

  /** However the polls are spread, the last one comes no later than `LastPoll`. */
  lemma LastPollBound(m: nat, t: int, w: nat, l: nat, off: int)
    requires Beats(m, w, l, off) && (off == 0 || off <= t - 1)
    ensures off <= LastPoll(t, w, l)
  {
    if t > 1 {
      var u, f := Rest(w) + 1, (t - 1) / (Rest(w) + 1);
      assert (f + 1) * u > t - 1;
      if m > f {
        TimesLeq(f + 1, m, u);
        assert false;
      }
      TimesLeq(m, f, Rest(w) + l);
    }
  }

  /** Deciding the end of an undecided run now keeps it within its life. */
  lemma DecideInTime(p: Params, tm: Timing, clock: int, ar: AsyncRun)
    requires Undecided(p, tm, ar) && clock <= ar.seen + tm.l
    ensures LifeOf(p, tm, ar).Some? ==> clock <= ar.acceptedAt + LifeOf(p, tm, ar).value
  {
    if tm.l > 0 && Ceiling(p, ar.task).Some? {
      var m: nat :| Beats(m, ar.pollMs, tm.l, LastAsked(ar) - ar.acceptedAt);
      LastPollBound(m, Ceiling(p, ar.task).value, ar.pollMs, tm.l, LastAsked(ar) - ar.acceptedAt);
    }
  }

  /** One more poll, an interval or more after the last one and at most a gap after the last look. */
  lemma OneMoreBeat(m: nat, w: nat, l: nat, off: int, g: nat)
    requires Beats(m, w, l, off) && w <= g <= Rest(w) + l
    ensures Beats(if g == 0 then m else m + 1, w, l, off + g)
  {
    assert (m + 1) * (Rest(w) + 1) == m * (Rest(w) + 1) + Rest(w) + 1;
    assert (m + 1) * (Rest(w) + l) == m * (Rest(w) + l) + Rest(w) + l;
  }

  /** A poll at `at` keeps the pace. */
  lemma AskInPace(p: Params, tm: Timing, clock: int, ar: AsyncRun, at: int)
    requires Undecided(p, tm, ar) && clock <= ar.seen + tm.l && at <= clock
    requires LastAsked(ar) + ar.pollMs <= at && !TimedOut(p, ar, at)
    ensures Undecided(p, tm, ar.(seen := at, asked := Some(at)))
  {
    var m: nat :| Beats(m, ar.pollMs, tm.l, LastAsked(ar) - ar.acceptedAt);
    var g := at - LastAsked(ar);
    OneMoreBeat(m, ar.pollMs, tm.l, LastAsked(ar) - ar.acceptedAt, g);
    assert at - ar.acceptedAt == LastAsked(ar) - ar.acceptedAt + g;
    assert Beats(if g == 0 then m else m + 1, ar.pollMs, tm.l, at - ar.acceptedAt);
  }

  /** What a look of the pass makes of a run: it leaves it alone, decides its end, or asks its worker. */
  lemma LookedAt(p: Params, tm: Timing, clock: int, ar: AsyncRun, at: int)
    requires Within(p, tm, ar, None) && at <= clock && (Open(ar) ==> TimelyRun(tm, clock, ar))
    ensures ar.nextPollAt > at ==> Within(p, tm, ar.(seen := at), None)
    ensures Within(p, tm, Decide(Signal(ar.(seen := at)), clock), None)
    ensures ar.nextPollAt <= at && !TimedOut(p, ar, at) ==> Within(p, tm, ar.(seen := at, asked := Some(at)), Some(at))
  {
    if ar.since.None? {
      DecideInTime(p, tm, clock, ar);
      if ar.nextPollAt <= at && !TimedOut(p, ar, at) {
        AskInPace(p, tm, clock, ar, at);
      }
    }
  }

  lemma VisitHere(p: Params, st: Sys)
    requires CanPassVisit(st)
    ensures var r, ar, at := st.poll.pass.value.todo[0], st.poll.asyncRuns[st.poll.pass.value.todo[0]], st.poll.pass.value.at;
            var poll := DoPassVisit(p, st).poll;
            if ar.nextPollAt > at then poll.asyncRuns[r] == ar.(seen := at) && AskedNow(poll, r) == None
            else if TimedOut(p, ar, at) then poll.asyncRuns[r] == Decide(Signal(ar.(seen := at)), st.clock) && AskedNow(poll, r) == None
            else poll.asyncRuns[r] == ar.(seen := at, asked := Some(at)) && AskedNow(poll, r) == Some(at)
  {
  }

  lemma VisitElsewhere(p: Params, st: Sys, r: RunId)
    requires CanPassVisit(st) && r != st.poll.pass.value.todo[0]
    ensures r in DoPassVisit(p, st).poll.asyncRuns <==> r in st.poll.asyncRuns
    ensures r in st.poll.asyncRuns ==> DoPassVisit(p, st).poll.asyncRuns[r] == st.poll.asyncRuns[r]
    ensures AskedNow(DoPassVisit(p, st).poll, r) == None == AskedNow(st.poll, r)
  {
  }

  lemma BoundedVisit(p: Params, tm: Timing, st: Sys, r: RunId)
    requires Bounded(p, tm, st.poll, r) && CanPassVisit(st) && st.poll.pass.value.at <= st.clock
    requires TimelyPolls(tm, st.clock, st.poll.asyncRuns)
    ensures Bounded(p, tm, DoPassVisit(p, st).poll, r)
  {
    if r == st.poll.pass.value.todo[0] {
      LookedAt(p, tm, st.clock, st.poll.asyncRuns[r], st.poll.pass.value.at);
      VisitHere(p, st);
    } else {
      VisitElsewhere(p, st, r);
    }
  }

  lemma BoundedStartFinish(p: Params, tm: Timing, poll: Polling, clock: int, q: RunId, outcome: Outcome, r: RunId)
    requires Bounded(p, tm, poll, r) && TimelyPolls(tm, clock, poll.asyncRuns)
    requires poll.pass.Some? && |poll.pass.value.todo| > 0 && q in poll.asyncRuns && q == poll.pass.value.todo[0]
    requires !poll.pass.value.cur.Idle? && q == poll.pass.value.cur.r
    ensures Bounded(p, tm, StartFinish(poll, clock, q, outcome), r)
  {
    if r in poll.asyncRuns && poll.asyncRuns[r].since.None? {
      assert TimelyRun(tm, clock, poll.asyncRuns[r]);
      DecideInTime(p, tm, clock, poll.asyncRuns[r]);
    }
  }

  lemma BoundedAnswer(p: Params, tm: Timing, st: Sys, answer: Answer, r: RunId)
    requires Bounded(p, tm, st.poll, r) && CanPassAnswer(st, answer) && TimelyPolls(tm, st.clock, st.poll.asyncRuns)
    ensures Bounded(p, tm, DoPassAnswer(st, answer).poll, r)
  {
    if !answer.InProgress? {
      BoundedStartFinish(p, tm, st.poll, st.clock, st.poll.pass.value.cur.r, Failed, r);
      BoundedStartFinish(p, tm, st.poll, st.clock, st.poll.pass.value.cur.r, Succeeded, r);
    }
  }

  lemma BoundedFinish(p: Params, tm: Timing, st: Sys, s: PassStep, r: RunId)
    requires Bounded(p, tm, st.poll, r) && Accounted(st.poll, r) && CanStepPass(st, s) && (s.PassWrite? || s.PassComplete?)
    ensures Bounded(p, tm, DoStepPass(p, st, s).poll, r)
  {
    assert PassFinishes(st.poll, st.poll.pass.value.cur.r);
  }

  lemma BoundedPass(p: Params, tm: Timing, st: Sys, s: PassStep, r: RunId)
    requires Bounded(p, tm, st.poll, r) && Accounted(st.poll, r) && CanStepPass(st, s) && TimelyPolls(tm, st.clock, st.poll.asyncRuns)
    requires st.poll.pass.Some? ==> st.poll.pass.value.at <= st.clock
    ensures Bounded(p, tm, DoStepPass(p, st, s).poll, r)
  {
    match s
    case PassBegin(_, _) =>
    case PassVisit => BoundedVisit(p, tm, st, r);
    case PassSignalled => BoundedStartFinish(p, tm, st.poll, st.clock, st.poll.pass.value.cur.r, Failed, r);
    case PassAnswer(answer) => BoundedAnswer(p, tm, st, answer, r);
    case PassWrite => BoundedFinish(p, tm, st, s, r);
    case PassComplete => BoundedFinish(p, tm, st, s, r);
    case PassEnd =>
  }

  lemma BoundedTaken(p: Params, tm: Timing, st: Sys, q: RunId, r: RunId)
    requires Bounded(p, tm, st.poll, r) && CanCancelBegin(st, q) && TimelyPolls(tm, st.clock, st.poll.asyncRuns)
    ensures Bounded(p, tm, DoCancelBegin(st, q).poll, r)
  {
    if r in st.poll.asyncRuns && st.poll.asyncRuns[r].since.None? {
      assert TimelyRun(tm, st.clock, st.poll.asyncRuns[r]);
      DecideInTime(p, tm, st.clock, st.poll.asyncRuns[r]);
    }
  }

  lemma BoundedCancel(p: Params, tm: Timing, st: Sys, c: CancelStep, r: RunId)
    requires Bounded(p, tm, st.poll, r) && Accounted(st.poll, r) && CanStepCancel(st, c) && TimelyPolls(tm, st.clock, st.poll.asyncRuns)
    ensures Bounded(p, tm, DoStepCancel(p, st, c).poll, r)
  {
    match c
    case CancelBegin(q) => BoundedTaken(p, tm, st, q, r);
    case CancelWrite(_) =>
    case CancelComplete(q) =>
  }

  lemma BoundedRun(p: Params, tm: Timing, st: Sys, j: RunStep, r: RunId)
    requires WellFormed(st) && Bounded(p, tm, st.poll, r) && CanStepRun(st, j)
    ensures Bounded(p, tm, DoStepRun(p, st, j).poll, r)
  {
    if j.Enqueue? && j.r == r {
      assert st.poll.pass.Some? && !st.poll.pass.value.cur.Idle? ==> st.poll.pass.value.cur.r != r;
      var ar := DoEnqueue(st, r).poll.asyncRuns[r];
      assert Beats(0, ar.pollMs, tm.l, 0);
      assert Undecided(p, tm, ar);
    }
  }

  /** Only the steps of runs, of the poll pass and of cancels touch the poll queue; a crash empties it. */
  lemma PollTouchedBy(p: Params, st: Sys, step: Step)
    requires Can(st, step) && !step.OfRun? && !step.OfPass? && !step.OfCancel?
    ensures Do(p, st, step).poll == st.poll || Do(p, st, step).poll == Polling(map[], {}, None, map[])
    ensures Do(p, st, step).clock >= st.clock
  {
  }

  /** The pass carries a time that has come. */
  predicate PassPast(st: Sys) {
    st.poll.pass.Some? ==> st.poll.pass.value.at <= st.clock
  }

  lemma PassPastStep(p: Params, st: Sys, step: Step)
    requires PassPast(st) && Can(st, step)
    ensures PassPast(Do(p, st, step))
  {
    if !step.OfRun? && !step.OfPass? && !step.OfCancel? {
      PollTouchedBy(p, st, step);
    }
  }

  lemma BoundedStep(p: Params, tm: Timing, st: Sys, step: Step, r: RunId)
    requires WellFormed(st) && Accounted(st.poll, r) && PassPast(st) && Bounded(p, tm, st.poll, r)
    requires Can(st, step) && TimelyPolls(tm, st.clock, st.poll.asyncRuns)
    ensures Bounded(p, tm, Do(p, st, step).poll, r)
  {
    match step
    case OfRun(j) => BoundedRun(p, tm, st, j, r);
    case OfPass(s) => BoundedPass(p, tm, st, s, r);
    case OfCancel(c) => BoundedCancel(p, tm, st, c, r);
    case _ => PollTouchedBy(p, st, step);
  }

  ghost predicate IsTimelyRun(p: Params, tm: Timing, h: History) {
    IsRun(p, h) && forall k :: 0 <= k < |h.states| ==> Timely(tm, h.states[k])
  }

  lemma PassPastAlong(p: Params, h: History, n: nat)
    requires IsRun(p, h) && n < |h.states|
    ensures PassPast(h.states[n])
  {
    if n > 0 {
      PassPastAlong(p, h, n - 1);
      StepOf(p, h, n - 1);
      PassPastStep(p, h.states[n - 1], h.steps[n - 1]);
    }
  }

  lemma BoundedAlong(p: Params, tm: Timing, h: History, n: nat, r: RunId)
    requires IsTimelyRun(p, tm, h) && n < |h.states|
    ensures Bounded(p, tm, h.states[n].poll, r)
  {
    if n > 0 {
      BoundedAlong(p, tm, h, n - 1, r);
      WellFormedAlong(p, h, n - 1);
      AccountedAlong(p, h, n - 1, r);
      PassPastAlong(p, h, n - 1);
      StepOf(p, h, n - 1);
      assert Timely(tm, h.states[n - 1]);
      BoundedStep(p, tm, h.states[n - 1], h.steps[n - 1], r);
    }
  }

  /** An accepted run that is not completed yet is no older than its life and the time of a completion. */
  lemma OpenRunIsYoung(p: Params, tm: Timing, clock: int, poll: Polling, r: RunId)
    requires Bounded(p, tm, poll, r) && TimelyPolls(tm, clock, poll.asyncRuns)
    requires r in poll.asyncRuns && Open(poll.asyncRuns[r]) && LifeOf(p, tm, poll.asyncRuns[r]).Some?
    ensures clock <= poll.asyncRuns[r].acceptedAt + LifeOf(p, tm, poll.asyncRuns[r]).value + tm.d
  {
    var ar := poll.asyncRuns[r];
    assert TimelyRun(tm, clock, ar);
    if ar.since.None? {
      DecideInTime(p, tm, clock, ar);
    }
  }

  /**
   * In a timely history an accepted run with a ceiling - its task's own, or the engine's for a task without a
   * setting - is completed within its life plus the time a completion takes, whatever the worker answers and
   * however the passes are spread. `Witness.LongestRun` shows that no smaller bound will do.
   */
  lemma AcceptedRunsEnd(p: Params, tm: Timing, h: History, n: nat, r: RunId)
    requires IsTimelyRun(p, tm, h) && n < |h.states| && r in h.states[n].poll.asyncRuns
    requires LifeOf(p, tm, h.states[n].poll.asyncRuns[r]).Some?
    ensures var ar := h.states[n].poll.asyncRuns[r];
            ar.completions == 0 ==> h.states[n].clock <= ar.acceptedAt + LifeOf(p, tm, ar).value + tm.d
  {
    BoundedAlong(p, tm, h, n, r);
    assert Timely(tm, h.states[n]);
    if Open(h.states[n].poll.asyncRuns[r]) {
      OpenRunIsYoung(p, tm, h.states[n].clock, h.states[n].poll, r);
    }
  }

  // ---- polls of one run are spaced ----

  /** The poll pass will not look at the run again. */
  ghost predicate Over(poll: Polling, r: RunId) {
    && (r in poll.queue ==> PassFinishes(poll, r))
    && (poll.pass.Some? ==> forall k :: 0 <= k < |poll.pass.value.todo| && poll.pass.value.todo[k] == r ==> PassFinishes(poll, r))
  }

  ghost predicate Spaced(poll: Polling, r: RunId) {
    r in poll.asyncRuns ==>
      var ar := poll.asyncRuns[r];
      if poll.pass.Some? && poll.pass.value.cur == Asking(r) then ar.asked == Some(poll.pass.value.at)
      else if ar.asked.None? then ar.nextPollAt >= ar.acceptedAt + ar.pollMs
      else ar.nextPollAt >= ar.asked.value + ar.pollMs || Over(poll, r)
  }

  /** A finishing run that the pass leaves behind is over. */
  lemma LeftBehind(poll: Polling, r: RunId)
    requires PollWellFormed(poll) && Accounted(poll, r) && r in poll.asyncRuns && poll.asyncRuns[r].finishing
    requires poll.pass.Some? && |poll.pass.value.todo| > 0 && poll.pass.value.todo[0] == r && !Finishes(poll.pass.value)
    ensures Over(poll.(pass := Some(Move(poll.pass.value))), r)
  {
  }

  lemma SpacedVisit(p: Params, st: Sys, r: RunId)
    requires PollWellFormed(st.poll) && Spaced(st.poll, r) && CanPassVisit(st)
    ensures Spaced(DoPassVisit(p, st).poll, r)
  {
  }

  lemma SpacedStartFinish(poll: Polling, clock: int, q: RunId, outcome: Outcome, r: RunId)
    requires PollWellFormed(poll) && Accounted(poll, r) && Spaced(poll, r)
    requires poll.pass.Some? && |poll.pass.value.todo| > 0 && q == poll.pass.value.todo[0] && !Finishes(poll.pass.value)
    ensures Spaced(StartFinish(poll, clock, q, outcome), r)
  {
    if q == r && poll.asyncRuns[r].finishing {
      LeftBehind(poll, r);
    }
  }

  lemma SpacedPass(p: Params, st: Sys, s: PassStep, r: RunId)
    requires WellFormed(st) && Accounted(st.poll, r) && Spaced(st.poll, r) && CanStepPass(st, s) && Reads(st, OfPass(s))
    ensures Spaced(DoStepPass(p, st, s).poll, r)
  {
    match s
    case PassBegin(_, _) =>
    case PassVisit => SpacedVisit(p, st, r);
    case PassSignalled => SpacedStartFinish(st.poll, st.clock, st.poll.pass.value.cur.r, Failed, r);
    case PassAnswer(answer) =>
      if !answer.InProgress? {
        SpacedStartFinish(st.poll, st.clock, st.poll.pass.value.cur.r, Failed, r);
        SpacedStartFinish(st.poll, st.clock, st.poll.pass.value.cur.r, Succeeded, r);
      }
    case PassWrite =>
    case PassComplete =>
    case PassEnd =>
  }

  lemma SpacedRun(p: Params, st: Sys, j: RunStep, r: RunId)
    requires WellFormed(st) && Spaced(st.poll, r) && CanStepRun(st, j)
    ensures Spaced(DoStepRun(p, st, j).poll, r)
  {
    if j.Enqueue? {
      assert j.r !in st.poll.asyncRuns;
    }
  }

  lemma SpacedCancel(p: Params, st: Sys, c: CancelStep, r: RunId)
    requires Spaced(st.poll, r) && CanStepCancel(st, c)
    ensures Spaced(DoStepCancel(p, st, c).poll, r)
  {
  }

  lemma SpacedStep(p: Params, st: Sys, step: Step, r: RunId)
    requires WellFormed(st) && Accounted(st.poll, r) && Spaced(st.poll, r) && Can(st, step) && Reads(st, step)
    ensures Spaced(Do(p, st, step).poll, r)
  {
    match step
    case OfRun(j) => SpacedRun(p, st, j, r);
    case OfPass(s) => SpacedPass(p, st, s, r);
    case OfCancel(c) => SpacedCancel(p, st, c, r);
    case _ => PollTouchedBy(p, st, step);
  }

  lemma SpacedAlong(p: Params, h: History, n: nat, r: RunId)
    requires IsRun(p, h) && n < |h.states|
    ensures Spaced(h.states[n].poll, r)
  {
    if n > 0 {
      SpacedAlong(p, h, n - 1, r);
      WellFormedAlong(p, h, n - 1);
      AccountedAlong(p, h, n - 1, r);
      StepOf(p, h, n - 1);
      SpacedStep(p, h.states[n - 1], h.steps[n - 1], r);
    }
  }

  /** The worker of an accepted run is never polled twice within its poll interval, nor within it after acceptance. */
  lemma PollsAreSpaced(p: Params, h: History, n: nat, r: RunId)
    requires IsRun(p, h) && n < |h.states| && CanPassVisit(h.states[n]) && r in h.states[n].poll.asyncRuns
    requires DoPassVisit(p, h.states[n]).poll.pass.value.cur == Asking(r)
    ensures var ar := h.states[n].poll.asyncRuns[r];
            h.states[n].poll.pass.value.at >= (if ar.asked.Some? then ar.asked.value else ar.acceptedAt) + ar.pollMs
  {
    SpacedAlong(p, h, n, r);
    AccountedAlong(p, h, n, r);
  }
}
