/** Nothing gets stuck: whatever is under way in a reachable state has a next step. */
module Progress {
  import opened Records
  import opened Store
  import opened Protocol
  import opened Finish
  import opened Locks

  /** The next step of a dispatched run, by its phase. */
  function NextOfRun(r: RunId, phase: Phase, reply: Reply): RunStep {
    match phase
    case Claimed => CreateRun(r)
    case Started => Settle(r, reply)
    case Accepted(_, _) => Enqueue(r)
    case Settled(_, _, _) => JobWrite(r)
    case Written(_, _, _) => JobComplete(r)
  }

  /** The next step of the poll pass. */
  function NextOfPass(ps: Pass, answer: Answer): PassStep {
    match ps.cur
    case Idle => if ps.todo == [] then PassEnd else PassVisit
    case Signalling(_) => PassSignalled
    case Asking(_) => PassAnswer(answer)
    case Finishing(_, _, _) => PassWrite
    case Finished(_, _, _) => PassComplete
  }

  function NextOfCancel(r: RunId, c: Cancel): CancelStep {
    if c.CancelSignalling? then CancelWrite(r) else CancelComplete(r)
  }

  /** The next step of a tick: a check while rows are left, then a dispatch or a drop. */
  function NextOfTick(st: Sys, t: Tick): TickStep {
    if t.todo != [] then TickCheck(0)
    else if t.ready == [] then TickEnd
    else if Dispatchable(st, t.ready[0]) then Dispatch(0) else TickDrop(0)
  }

  /** The next step of a resume: a page while rows are left, then a visit, then the end. */
  function NextOfResume(st: Sys, q: nat, rs: Resume, overdue: seq<Entry>): FreezeStep {
    if rs.scanned != st.db.rows.Keys then ResumePage(q, st.db.rows.Keys - rs.scanned, overdue)
    else if rs.todo != [] then ResumeSkip(q) else ResumeEnd(q)
  }

  /** Everything under way can go on, whatever the runner and the worker answer. */
  ghost predicate GoesOn(st: Sys) {
    && (forall r, reply :: r in st.work.jobs ==> CanStepRun(st, NextOfRun(r, st.work.jobs[r].phase, reply)))
    && (forall r :: r in st.work.jobs ==> CanStepRun(st, Heartbeat(r)))
    && (forall answer: Answer :: st.poll.pass.Some? && (answer.InProgress? ==> !answer.status.Ended?) ==>
          CanStepPass(st, NextOfPass(st.poll.pass.value, answer)))
    && (forall r :: r in st.poll.cancels ==> CanStepCancel(st, NextOfCancel(r, st.poll.cancels[r])))
    && (st.tick.Some? ==> CanStepTick(st, NextOfTick(st, st.tick.value)))
    && (forall q, overdue :: q in st.freeze.resumes ==> CanStepFreeze(st, NextOfResume(st, q, st.freeze.resumes[q], overdue)))
  }

  /** And what is not under way can begin: a tick while the queue runs, a pass, a cancel of a queued run, a pause, a resume. */
  ghost predicate CanBegin(st: Sys) {
    && (forall due :: st.tick.None? && !st.freeze.paused ==> CanStepTick(st, TickBegin(st.clock, due)))
    && (forall order :: st.poll.pass.None? ==> CanStepPass(st, PassBegin(st.clock, order)))
    && (forall r :: r in st.poll.queue ==> CanStepCancel(st, CancelBegin(r)))
    && (!st.freeze.paused ==> CanStepFreeze(st, Pause))
    && (forall q :: st.freeze.paused && q !in st.freeze.resumes ==> CanStepFreeze(st, ResumeBegin(q, st.clock)))
    && CanStepStore(st, ReapPass(st.clock))
  }

  /** A resume covers rows of the table only. */
  ghost predicate ScansRows(freeze: Freeze, ids: set<Id>) {
    forall q :: q in freeze.resumes ==> freeze.resumes[q].scanned <= ids
  }

  lemma ScansRowsStep(p: Params, st: Sys, step: Step)
    requires Can(st, step) && ScansRows(st.freeze, st.db.rows.Keys)
    ensures ScansRows(Do(p, st, step).freeze, Do(p, st, step).db.rows.Keys)
  {
    RowsStay(p, st, step);
  }

  lemma {:induction false} ScansRowsAlong(p: Params, h: History, n: nat)
    requires IsRun(p, h) && n < |h.states|
    ensures ScansRows(h.states[n].freeze, h.states[n].db.rows.Keys)
  {
    if n > 0 {
      ScansRowsAlong(p, h, n - 1);
      StepOf(p, h, n - 1);
      ScansRowsStep(p, h.states[n - 1], h.steps[n - 1]);
    }
  }

  lemma PassGoesOn(st: Sys, answer: Answer)
    requires WellFormed(st) && st.up && st.poll.pass.Some? && (answer.InProgress? ==> !answer.status.Ended?)
    ensures CanStepPass(st, NextOfPass(st.poll.pass.value, answer))
  {
  }

  /**
   * In every reachable state of a process that is up, everything under way has a next step and everything else can
   * begin; in a process that is down the recovery can. A page with all rows that are left completes the scan of a resume.
   */
  lemma NothingIsStuck(p: Params, h: History, n: nat)
    requires IsRun(p, h) && n < |h.states|
    ensures h.states[n].up ==> GoesOn(h.states[n]) && CanBegin(h.states[n])
    ensures ScansRows(h.states[n].freeze, h.states[n].db.rows.Keys)
    ensures !h.states[n].up ==>
              && CanStepCrash(h.states[n], RecoverLocks)
              && forall r :: r in h.states[n].db.runs && !h.states[n].db.runs[r].status.Ended? ==> CanStepCrash(h.states[n], RecoverRun(r))
  {
    var st := h.states[n];
    WellFormedAlong(p, h, n);
    ScansRowsAlong(p, h, n);
    if st.up {
      forall answer: Answer | st.poll.pass.Some? && (answer.InProgress? ==> !answer.status.Ended?)
        ensures CanStepPass(st, NextOfPass(st.poll.pass.value, answer))
      {
        PassGoesOn(st, answer);
      }
    }
  }
}
