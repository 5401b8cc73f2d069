/**
 * How often an accepted run is finished. The poll pass and a user cancel can both reach for the same run;
 * `finishing` decides, but `cancelRun` does not look at it.
 */
module Finish {
  import opened Records
  import opened Protocol

  /** Run ids are used once, and everything that refers to an accepted run refers to a known one. */
  ghost predicate WellFormed(st: Sys) {
    IdsOnce(st.work, st.poll.asyncRuns.Keys, st.db.runs.Keys) && PollWellFormed(st.poll)
  }

  ghost predicate IdsOnce(work: Work, accepted: set<RunId>, known: set<RunId>) {
    && (forall r :: r in work.jobs ==> r < work.nextRun && r !in accepted)
    && (forall r :: r in accepted ==> r < work.nextRun)
    && (forall r :: r in known ==> r < work.nextRun)
  }

  ghost predicate PollWellFormed(poll: Polling) {
    && poll.queue <= poll.asyncRuns.Keys
    && poll.cancels.Keys <= poll.asyncRuns.Keys
    && (poll.pass.Some? ==> PassWellFormed(poll.asyncRuns.Keys, poll.pass.value))
  }

  ghost predicate PassWellFormed(accepted: set<RunId>, ps: Pass) {
    && (forall k :: 0 <= k < |ps.todo| ==> ps.todo[k] in accepted)
    && (forall k, l :: 0 <= k < l < |ps.todo| ==> ps.todo[k] != ps.todo[l])
    && (!ps.cur.Idle? ==> |ps.todo| > 0 && ps.todo[0] == ps.cur.r)
  }

  lemma WellFormedTick(st: Sys, t: TickStep)
    requires WellFormed(st) && CanStepTick(st, t)
    ensures WellFormed(DoStepTick(st, t))
  {
  }

  lemma WellFormedRun(p: Params, st: Sys, j: RunStep)
    requires WellFormed(st) && CanStepRun(st, j)
    ensures WellFormed(DoStepRun(p, st, j))
  {
  }

  lemma MoveWellFormed(accepted: set<RunId>, ps: Pass)
    requires PassWellFormed(accepted, ps) && |ps.todo| > 0
    ensures PassWellFormed(accepted, Move(ps))
  {
  }

  lemma StartFinishWellFormed(poll: Polling, clock: int, r: RunId, outcome: Outcome)
    requires PollWellFormed(poll) && poll.pass.Some? && |poll.pass.value.todo| > 0 && r == poll.pass.value.todo[0]
    ensures PollWellFormed(StartFinish(poll, clock, r, outcome))
    ensures StartFinish(poll, clock, r, outcome).asyncRuns.Keys == poll.asyncRuns.Keys
  {
    MoveWellFormed(poll.asyncRuns.Keys, poll.pass.value);
  }

  lemma WellFormedVisit(p: Params, st: Sys)
    requires WellFormed(st) && CanPassVisit(st)
    ensures WellFormed(DoPassVisit(p, st))
  {
    MoveWellFormed(st.poll.asyncRuns.Keys, st.poll.pass.value);
  }

  lemma WellFormedAnswer(st: Sys, answer: Answer)
    requires WellFormed(st) && CanPassAnswer(st, answer)
    ensures WellFormed(DoPassAnswer(st, answer))
  {
    MoveWellFormed(st.poll.asyncRuns.Keys, st.poll.pass.value);
    StartFinishWellFormed(st.poll, st.clock, st.poll.pass.value.cur.r, Failed);
    StartFinishWellFormed(st.poll, st.clock, st.poll.pass.value.cur.r, Succeeded);
  }

  lemma WellFormedComplete(p: Params, st: Sys)
    requires WellFormed(st) && CanPassComplete(st)
    ensures WellFormed(DoPassComplete(p, st))
  {
    MoveWellFormed(st.poll.asyncRuns.Keys, st.poll.pass.value);
  }

  lemma WellFormedPass(p: Params, st: Sys, s: PassStep)
    requires WellFormed(st) && CanStepPass(st, s) && Reads(st, OfPass(s))
    ensures WellFormed(DoStepPass(p, st, s))
  {
    match s
    case PassBegin(_, _) =>
    case PassVisit => WellFormedVisit(p, st);
    case PassSignalled => StartFinishWellFormed(st.poll, st.clock, st.poll.pass.value.cur.r, Failed);
    case PassAnswer(answer) => WellFormedAnswer(st, answer);
    case PassWrite =>
    case PassComplete => WellFormedComplete(p, st);
    case PassEnd =>
  }

  lemma WellFormedCancel(p: Params, st: Sys, c: CancelStep)
    requires WellFormed(st) && CanStepCancel(st, c)
    ensures WellFormed(DoStepCancel(p, st, c))
  {
  }

  lemma WellFormedFreeze(p: Params, st: Sys, f: FreezeStep)
    requires WellFormed(st) && CanStepFreeze(st, f)
    ensures WellFormed(DoStepFreeze(p, st, f))
  {
  }

  lemma WellFormedStore(p: Params, st: Sys, o: StoreStep)
    requires WellFormed(st) && CanStepStore(st, o)
    ensures WellFormed(DoStepStore(p, st, o))
  {
  }

  lemma WellFormedCrash(st: Sys, x: CrashStep)
    requires WellFormed(st) && CanStepCrash(st, x)
    ensures WellFormed(DoStepCrash(st, x))
  {
  }

  lemma WellFormedStep(p: Params, st: Sys, step: Step)
    requires WellFormed(st) && Can(st, step) && Reads(st, step)
    ensures WellFormed(Do(p, st, step))
  {
    match step
    case Advance(_) =>
    case OfTick(t) => WellFormedTick(st, t);
    case OfRun(j) => WellFormedRun(p, st, j);
    case OfPass(s) => WellFormedPass(p, st, s);
    case OfCancel(c) => WellFormedCancel(p, st, c);
    case OfFreeze(f) => WellFormedFreeze(p, st, f);
    case OfStore(o) => WellFormedStore(p, st, o);
    case OfCrash(x) => WellFormedCrash(st, x);
  }

  /** The poll pass is a finisher of `r`, before or after its terminal write. */
  predicate PassFinishes(poll: Polling, r: RunId) {
    poll.pass.Some? && (poll.pass.value.cur.Finishing? || poll.pass.value.cur.Finished?) && poll.pass.value.cur.r == r
  }

  predicate PassWillWrite(poll: Polling, r: RunId) {
    poll.pass.Some? && poll.pass.value.cur.Finishing? && poll.pass.value.cur.r == r
  }

  predicate CancelWillWrite(poll: Polling, r: RunId) {
    r in poll.cancels && poll.cancels[r].CancelSignalling?
  }

  function Count(b: bool): nat { if b then 1 else 0 }

  /** Every finisher that got started writes once and completes once; two get started only in a race. */
  predicate Accounted(poll: Polling, r: RunId) {
    r in poll.asyncRuns ==>
      var ar := poll.asyncRuns[r];
      && ar.claims == Count(ar.finishing) + Count(ar.raced)
      && (ar.raced ==> ar.finishing)
      && ar.writes + Count(PassWillWrite(poll, r)) + Count(CancelWillWrite(poll, r)) == ar.claims
      && ar.completions + Count(PassFinishes(poll, r)) + Count(r in poll.cancels) == ar.claims
      && (r in poll.queue ==> r !in poll.cancels && !ar.raced && (ar.finishing ==> PassFinishes(poll, r)))
      && (PassFinishes(poll, r) ==> ar.finishing)
      && ar.signals <= Count(ar.cancelSignaled)
  }

  lemma AccountedTick(st: Sys, t: TickStep, r: RunId)
    requires WellFormed(st) && Accounted(st.poll, r) && CanStepTick(st, t)
    ensures Accounted(DoStepTick(st, t).poll, r)
  {
  }

  lemma AccountedRun(p: Params, st: Sys, j: RunStep, r: RunId)
    requires WellFormed(st) && Accounted(st.poll, r) && CanStepRun(st, j)
    ensures Accounted(DoStepRun(p, st, j).poll, r)
  {
  }

  predicate SameFinishers(a: AsyncRun, b: AsyncRun) {
    && a.claims == b.claims && a.finishing == b.finishing && a.raced == b.raced
    && a.writes == b.writes && a.completions == b.completions && b.signals <= Count(b.cancelSignaled)
  }

  predicate Finishes(ps: Pass) {
    ps.cur.Finishing? || ps.cur.Finished?
  }

  lemma AccountedLook(poll: Polling, ps: Pass, q: RunId, ar: AsyncRun, r: RunId)
    requires Accounted(poll, r) && poll.pass.Some? && !Finishes(poll.pass.value) && !Finishes(ps)
    requires q in poll.asyncRuns && (q == r ==> SameFinishers(poll.asyncRuns[q], ar))
    ensures Accounted(WithPass(poll, ps, q, ar), r)
  {
  }

  lemma AccountedVisit(p: Params, st: Sys, r: RunId)
    requires Accounted(st.poll, r) && CanPassVisit(st)
    ensures Accounted(DoPassVisit(p, st).poll, r)
  {
    var ps := st.poll.pass.value;
    var q := ps.todo[0];
    var ar := st.poll.asyncRuns[q].(seen := ps.at);
    AccountedLook(st.poll, Move(ps), q, ar, r);
    AccountedLook(st.poll, ps.(cur := Signalling(q)), q, Decide(Signal(ar), st.clock), r);
    AccountedLook(st.poll, ps.(cur := Asking(q)), q, ar.(asked := Some(ps.at)), r);
  }

  lemma AccountedStartFinish(poll: Polling, clock: int, r: RunId, q: RunId, outcome: Outcome)
    requires PollWellFormed(poll) && Accounted(poll, r)
    requires poll.pass.Some? && |poll.pass.value.todo| > 0 && q == poll.pass.value.todo[0]
    requires poll.pass.value.cur.Signalling? || poll.pass.value.cur.Asking?
    ensures Accounted(StartFinish(poll, clock, q, outcome), r)
  {
  }

  lemma AccountedAnswer(st: Sys, answer: Answer, r: RunId)
    requires WellFormed(st) && Accounted(st.poll, r) && CanPassAnswer(st, answer)
    ensures Accounted(DoPassAnswer(st, answer).poll, r)
  {
    AccountedStartFinish(st.poll, st.clock, r, st.poll.pass.value.cur.r, Failed);
    AccountedStartFinish(st.poll, st.clock, r, st.poll.pass.value.cur.r, Succeeded);
  }

  lemma AccountedWrite(st: Sys, r: RunId)
    requires WellFormed(st) && Accounted(st.poll, r) && CanPassWrite(st)
    ensures Accounted(DoPassWrite(st).poll, r)
  {
  }

  lemma AccountedComplete(p: Params, st: Sys, r: RunId)
    requires WellFormed(st) && Accounted(st.poll, r) && CanPassComplete(st)
    ensures Accounted(DoPassComplete(p, st).poll, r)
  {
  }

  lemma AccountedPass(p: Params, st: Sys, s: PassStep, r: RunId)
    requires WellFormed(st) && Accounted(st.poll, r) && CanStepPass(st, s)
    ensures Accounted(DoStepPass(p, st, s).poll, r)
  {
    match s
    case PassBegin(_, _) =>
    case PassVisit => AccountedVisit(p, st, r);
    case PassSignalled => AccountedStartFinish(st.poll, st.clock, r, st.poll.pass.value.cur.r, Failed);
    case PassAnswer(answer) => AccountedAnswer(st, answer, r);
    case PassWrite => AccountedWrite(st, r);
    case PassComplete => AccountedComplete(p, st, r);
    case PassEnd =>
  }

  lemma AccountedTaken(st: Sys, q: RunId, r: RunId)
    requires WellFormed(st) && Accounted(st.poll, r) && CanCancelBegin(st, q)
    ensures Accounted(DoCancelBegin(st, q).poll, r)
  {
  }

  lemma AccountedCancelWrite(st: Sys, q: RunId, r: RunId)
    requires WellFormed(st) && Accounted(st.poll, r) && CanCancelWrite(st, q)
    ensures Accounted(DoCancelWrite(st, q).poll, r)
  {
  }

  lemma AccountedCancelComplete(p: Params, st: Sys, q: RunId, r: RunId)
    requires WellFormed(st) && Accounted(st.poll, r) && CanCancelComplete(st, q)
    ensures Accounted(DoCancelComplete(p, st, q).poll, r)
  {
  }

  lemma AccountedCancel(p: Params, st: Sys, c: CancelStep, r: RunId)
    requires WellFormed(st) && Accounted(st.poll, r) && CanStepCancel(st, c)
    ensures Accounted(DoStepCancel(p, st, c).poll, r)
  {
    match c
    case CancelBegin(q) => AccountedTaken(st, q, r);
    case CancelWrite(q) => AccountedCancelWrite(st, q, r);
    case CancelComplete(q) => AccountedCancelComplete(p, st, q, r);
  }

  lemma AccountedFreeze(p: Params, st: Sys, f: FreezeStep, r: RunId)
    requires WellFormed(st) && Accounted(st.poll, r) && CanStepFreeze(st, f)
    ensures Accounted(DoStepFreeze(p, st, f).poll, r)
  {
  }

  lemma AccountedStore(p: Params, st: Sys, o: StoreStep, r: RunId)
    requires WellFormed(st) && Accounted(st.poll, r) && CanStepStore(st, o)
    ensures Accounted(DoStepStore(p, st, o).poll, r)
  {
  }

  lemma AccountedCrash(st: Sys, x: CrashStep, r: RunId)
    requires WellFormed(st) && Accounted(st.poll, r) && CanStepCrash(st, x)
    ensures Accounted(DoStepCrash(st, x).poll, r)
  {
  }

  lemma AccountedStep(p: Params, st: Sys, step: Step, r: RunId)
    requires WellFormed(st) && Accounted(st.poll, r) && Can(st, step)
    ensures Accounted(Do(p, st, step).poll, r)
  {
    match step
    case Advance(_) =>
    case OfTick(t) => AccountedTick(st, t, r);
    case OfRun(j) => AccountedRun(p, st, j, r);
    case OfPass(s) => AccountedPass(p, st, s, r);
    case OfCancel(c) => AccountedCancel(p, st, c, r);
    case OfFreeze(f) => AccountedFreeze(p, st, f, r);
    case OfStore(o) => AccountedStore(p, st, o, r);
    case OfCrash(x) => AccountedCrash(st, x, r);
  }

  lemma WellFormedAlong(p: Params, h: History, n: nat)
    requires IsRun(p, h) && n < |h.states|
    ensures WellFormed(h.states[n])
  {
    if n > 0 {
      WellFormedAlong(p, h, n - 1);
      StepOf(p, h, n - 1);
      WellFormedStep(p, h.states[n - 1], h.steps[n - 1]);
    }
  }

  lemma AccountedAlong(p: Params, h: History, n: nat, r: RunId)
    requires IsRun(p, h) && n < |h.states|
    ensures Accounted(h.states[n].poll, r)
  {
    if n > 0 {
      AccountedAlong(p, h, n - 1, r);
      WellFormedAlong(p, h, n - 1);
      StepOf(p, h, n - 1);
      AccountedStep(p, h.states[n - 1], h.steps[n - 1], r);
    }
  }

  /** No finisher of `r` is in flight. */
  predicate Quiet(poll: Polling, r: RunId) {
    !PassFinishes(poll, r) && r !in poll.cancels
  }

  /** A user cancel that takes `r` while it is already being finished. */
  predicate Late(st: Sys, step: Step, r: RunId) {
    step == OfCancel(CancelBegin(r)) && r in st.poll.asyncRuns && st.poll.asyncRuns[r].finishing
  }

  ghost predicate LateBefore(h: History, n: nat, r: RunId)
    requires n < |h.states| && n <= |h.steps|
  {
    exists k :: 0 <= k < n && Late(h.states[k], h.steps[k], r)
  }

  /** `r` can still become an accepted run. */
  predicate Ahead(work: Work, r: RunId) {
    r in work.jobs || r >= work.nextRun
  }

  /** How one step moves a run into the accepted runs, and when it marks it as raced. */
  ghost predicate Tracked(st: Sys, step: Step, st': Sys, r: RunId) {
    && (r in st'.poll.asyncRuns ==>
          if r in st.poll.asyncRuns
          then st'.poll.asyncRuns[r].raced == (st.poll.asyncRuns[r].raced || Late(st, step, r))
          else Ahead(st.work, r) && !st'.poll.asyncRuns[r].raced)
    && (Ahead(st'.work, r) ==> Ahead(st.work, r))
  }

  lemma TrackedVisit(p: Params, st: Sys, r: RunId)
    requires CanPassVisit(st)
    ensures Tracked(st, OfPass(PassVisit), DoPassVisit(p, st), r)
  {
  }

  lemma TrackedStartFinish(poll: Polling, clock: int, q: RunId, outcome: Outcome, r: RunId)
    requires poll.pass.Some? && |poll.pass.value.todo| > 0 && q in poll.asyncRuns
    ensures r in StartFinish(poll, clock, q, outcome).asyncRuns ==>
              r in poll.asyncRuns && StartFinish(poll, clock, q, outcome).asyncRuns[r].raced == poll.asyncRuns[r].raced
  {
  }

  lemma TrackedTick(st: Sys, t: TickStep, r: RunId)
    requires CanStepTick(st, t)
    ensures Tracked(st, OfTick(t), DoStepTick(st, t), r)
  {
  }

  lemma TrackedRun(p: Params, st: Sys, j: RunStep, r: RunId)
    requires WellFormed(st) && CanStepRun(st, j)
    ensures Tracked(st, OfRun(j), DoStepRun(p, st, j), r)
  {
  }

  lemma TrackedPass(p: Params, st: Sys, s: PassStep, r: RunId)
    requires CanStepPass(st, s)
    ensures Tracked(st, OfPass(s), DoStepPass(p, st, s), r)
  {
    match s
    case PassBegin(_, _) =>
    case PassVisit => TrackedVisit(p, st, r);
    case PassSignalled => TrackedStartFinish(st.poll, st.clock, st.poll.pass.value.cur.r, Failed, r);
    case PassAnswer(answer) =>
      TrackedStartFinish(st.poll, st.clock, st.poll.pass.value.cur.r, Failed, r);
      TrackedStartFinish(st.poll, st.clock, st.poll.pass.value.cur.r, Succeeded, r);
    case PassWrite =>
    case PassComplete =>
    case PassEnd =>
  }

  lemma TrackedCancel(p: Params, st: Sys, c: CancelStep, r: RunId)
    requires Accounted(st.poll, r) && CanStepCancel(st, c)
    ensures Tracked(st, OfCancel(c), DoStepCancel(p, st, c), r)
  {
  }

  lemma TrackedFreeze(p: Params, st: Sys, f: FreezeStep, r: RunId)
    requires CanStepFreeze(st, f)
    ensures Tracked(st, OfFreeze(f), DoStepFreeze(p, st, f), r)
  {
  }

  lemma TrackedStore(p: Params, st: Sys, o: StoreStep, r: RunId)
    requires CanStepStore(st, o)
    ensures Tracked(st, OfStore(o), DoStepStore(p, st, o), r)
  {
  }

  lemma TrackedCrash(st: Sys, x: CrashStep, r: RunId)
    requires CanStepCrash(st, x)
    ensures Tracked(st, OfCrash(x), DoStepCrash(st, x), r)
  {
  }

  lemma TrackedStep(p: Params, st: Sys, step: Step, r: RunId)
    requires WellFormed(st) && Accounted(st.poll, r) && Can(st, step)
    ensures Tracked(st, step, Do(p, st, step), r)
  {
    match step
    case Advance(_) =>
    case OfTick(t) => TrackedTick(st, t, r);
    case OfRun(j) => TrackedRun(p, st, j, r);
    case OfPass(s) => TrackedPass(p, st, s, r);
    case OfCancel(c) => TrackedCancel(p, st, c, r);
    case OfFreeze(f) => TrackedFreeze(p, st, f, r);
    case OfStore(o) => TrackedStore(p, st, o, r);
    case OfCrash(x) => TrackedCrash(st, x, r);
  }

  ghost predicate Marked(st: Sys, r: RunId, late: bool) {
    && (r in st.poll.asyncRuns ==> (st.poll.asyncRuns[r].raced <==> late))
    && (Ahead(st.work, r) ==> !late)
  }

  lemma MarkedNext(st: Sys, step: Step, st': Sys, r: RunId, late: bool)
    requires WellFormed(st) && Tracked(st, step, st', r) && Marked(st, r, late)
    ensures Marked(st', r, late || Late(st, step, r))
  {
  }

  /** A run is marked as raced exactly when some late cancel hit it; none can have, before it is accepted. */
  lemma RacedAlong(p: Params, h: History, n: nat, r: RunId)
    requires IsRun(p, h) && n < |h.states|
    ensures Marked(h.states[n], r, LateBefore(h, n, r))
  {
    if n > 0 {
      RacedAlong(p, h, n - 1, r);
      WellFormedAlong(p, h, n - 1);
      AccountedAlong(p, h, n - 1, r);
      StepOf(p, h, n - 1);
      TrackedStep(p, h.states[n - 1], h.steps[n - 1], r);
      MarkedNext(h.states[n - 1], h.steps[n - 1], h.states[n], r, LateBefore(h, n - 1, r));
      LateBeforeLast(h, n - 1, r);
    }
  }

  lemma LateBeforeLast(h: History, n: nat, r: RunId)
    requires n < |h.steps| && |h.states| == |h.steps| + 1
    ensures LateBefore(h, n + 1, r) <==> LateBefore(h, n, r) || Late(h.states[n], h.steps[n], r)
  {
  }

  /**
   * Every accepted run whose finishing has settled was written and completed exactly once if and only if
   * no user cancel came while it was already being finished; otherwise both happened twice.
   */
  lemma ExactlyOneFinish(p: Params, h: History, n: nat, r: RunId)
    requires IsRun(p, h) && n < |h.states|
    requires r in h.states[n].poll.asyncRuns && h.states[n].poll.asyncRuns[r].finishing && Quiet(h.states[n].poll, r)
    ensures var ar := h.states[n].poll.asyncRuns[r];
            && (ar.writes == 1 && ar.completions == 1 <==> !LateBefore(h, n, r))
            && (ar.writes == 2 && ar.completions == 2 <==> LateBefore(h, n, r))
  {
    AccountedAlong(p, h, n, r);
    RacedAlong(p, h, n, r);
  }

  /**
   * The worker is told to stop at most once, in every state of every run; a run never ends up written or completed
   * more often than it was claimed.
   */
  lemma AtMostOneSignal(p: Params, h: History, n: nat, r: RunId)
    requires IsRun(p, h) && n < |h.states| && r in h.states[n].poll.asyncRuns
    ensures var ar := h.states[n].poll.asyncRuns[r];
            && ar.signals <= 1
            && ar.completions <= ar.writes <= ar.claims <= 2
            && (!LateBefore(h, n, r) ==> ar.claims <= 1)
  {
    AccountedAlong(p, h, n, r);
    RacedAlong(p, h, n, r);
  }
}
