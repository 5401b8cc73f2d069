/**
 * The scheduling engine as a state machine. The engine is single threaded and gives up control only at
 * its `await`s, so one step below is one store statement together with the code up to the next await.
 * Several activities are in flight at once: dispatched runs (`jobs`), the tick, the poll pass, user
 * cancels and the resume passes. The fields after "history" are never read by a step; they record what
 * happened, for the properties.
 */
module Protocol {
  import opened Records
  import opened Policy
  import opened Store

  datatype Params = Params(cal: Calendar, pollTimeoutMs: int, ttl: int)

  /** Where a `runSchedule` activation stands. */
  datatype Phase =
    | Claimed                                            // lock taken, run row not written
    | Started                                            // run row written, runner invoked
    | Accepted(pollMs: nat, channel: bool)               // runner answered `accepted`
    | Settled(outcome: Outcome, at: int, retry: bool)    // verdict known, not written
    | Written(outcome: Outcome, at: int, retry: bool)    // run row final, schedule row not completed

  /** A `runSchedule` activation: the snapshots it closes over and its last heartbeat. */
  datatype Job = Job(id: Id, row: Row, task: Task, phase: Phase, beat: int)

  /** An accepted run. The object outlives its place in the poll queue while someone still refers to it. */
  datatype AsyncRun = AsyncRun(
    id: Id, row: Row, task: Task, channel: bool,
    cancelSignaled: bool, finishing: bool,
    pollMs: nat, nextPollAt: int, acceptedAt: int,
    // history
    asked: Option<int>,     // time of the pass that polled the worker last
    seen: int,              // time of the pass that looked at the run last
    since: Option<int>,     // clock when its end was decided: a timeout, a verdict or a cancel
    signals: nat, claims: nat, writes: nat, completions: nat, raced: bool)

  /** Where the poll pass stands on its current run. */
  datatype Visit =
    | Idle
    | Signalling(r: RunId)
    | Asking(r: RunId)
    | Finishing(r: RunId, outcome: Outcome, at: int)
    | Finished(r: RunId, outcome: Outcome, at: int)

  datatype Pass = Pass(at: int, todo: seq<RunId>, cur: Visit)

  /** What a worker can answer to a poll. */
  datatype Answer = InProgress(status: Status) | Verdict(ok: bool) | Threw

  datatype Cancel = CancelSignalling(at: int) | CancelWritten(at: int)

  /** A due row that passed the generation check, with the task read for it. */
  datatype Ready = Ready(id: Id, row: Row, task: Task)

  datatype Tick = Tick(now: int, generation: nat, todo: seq<Entry>, ready: seq<Ready>)

  /** A resume pass: the rows its pages have covered so far, and the overdue ones it has still to visit. */
  datatype Resume = Resume(now: int, scanned: set<Id>, todo: seq<Entry>)

  datatype Db = Db(tasks: map<string, Task>, rows: Rows, runs: map<RunId, Run>)

  datatype Work = Work(nextRun: RunId, jobs: map<RunId, Job>)

  /** The poll queue (`queue` holds the keys of the queue's map), the pass in flight and the cancels in flight. */
  datatype Polling = Polling(asyncRuns: map<RunId, AsyncRun>, queue: set<RunId>, pass: Option<Pass>, cancels: map<RunId, Cancel>)

  /** `resumes` holds the resume passes under way: `resume` does not look whether another one is. */
  datatype Freeze = Freeze(paused: bool, generation: nat, resumes: map<nat, Resume>)

  /** History: `owners` holds for each schedule the run of its latest claim. */
  datatype Past = Past(owners: map<Id, RunId>)

  /** The store, then the memory of the process. */
  datatype Sys = Sys(clock: int, db: Db, up: bool, work: Work, poll: Polling, tick: Option<Tick>, freeze: Freeze, past: Past)

  datatype TickStep =
    | TickBegin(now: int, due: seq<Entry>) | TickCheck(k: nat) | Dispatch(k: nat) | TickDrop(k: nat) | TickEnd
  datatype RunStep =
    | CreateRun(r: RunId) | Settle(r: RunId, reply: Reply) | Enqueue(r: RunId)
    | JobWrite(r: RunId) | JobComplete(r: RunId) | Heartbeat(r: RunId)
  datatype PassStep =
    | PassBegin(at: int, order: seq<RunId>) | PassVisit | PassSignalled | PassAnswer(answer: Answer)
    | PassWrite | PassComplete | PassEnd
  datatype CancelStep =
    | CancelBegin(r: RunId) | CancelWrite(r: RunId) | CancelComplete(r: RunId)
  datatype FreezeStep =
    | Pause | ResumeBegin(q: nat, at: int) | ResumePage(q: nat, ids: set<Id>, overdue: seq<Entry>) | ResumeSkip(q: nat) | ResumeEnd(q: nat)
  datatype StoreStep =
    | ReapPass(at: int) | Toggle(id: Id, pausedFlag: bool, disabledFlag: bool) | EditTask(name: string, task: Task)
  datatype CrashStep =
    | Crash | RecoverRun(r: RunId) | RecoverLocks

  datatype Step =
    | Advance(dt: nat)
    | OfTick(t: TickStep) | OfRun(j: RunStep) | OfPass(s: PassStep) | OfCancel(c: CancelStep)
    | OfFreeze(f: FreezeStep) | OfStore(o: StoreStep) | OfCrash(x: CrashStep)

  function RemoveAt<T>(s: seq<T>, k: nat): seq<T>
    requires k < |s|
  {
    s[..k] + s[k + 1..]
  }

  function SetStatus(runs: map<RunId, Run>, r: RunId, status: Status): map<RunId, Run> {
    if r in runs then runs[r := runs[r].(status := status)] else runs
  }

  function FinishRun(runs: map<RunId, Run>, r: RunId, outcome: Outcome): map<RunId, Run> {
    if r in runs then runs[r := runs[r].(status := Ended(outcome), failed := runs[r].failed || outcome == Failed)] else runs
  }

  // ---- tick ----

  predicate CanTickBegin(st: Sys, now: int) {
    st.up && !st.freeze.paused && st.tick.None? && now <= st.clock
  }

  function DoTickBegin(st: Sys, now: int, due: seq<Entry>): Sys {
    st.(tick := Some(Tick(now, st.freeze.generation, due, [])))
  }

  predicate CanTickCheck(st: Sys, k: nat) {
    st.up && st.tick.Some? && k < |st.tick.value.todo|
  }

  /** The generation check and the read of the task; a stale snapshot or a missing task is dropped. */
  function DoTickCheck(st: Sys, k: nat): Sys
    requires CanTickCheck(st, k)
  {
    var t := st.tick.value;
    var e := t.todo[k];
    var rest := t.(todo := RemoveAt(t.todo, k));
    if st.freeze.generation == t.generation && e.row.taskName in st.db.tasks then
      st.(tick := Some(rest.(ready := t.ready + [Ready(e.id, e.row, st.db.tasks[e.row.taskName])])))
    else
      st.(tick := Some(rest))
  }

  /** The entry gets past the pause flags and its claim statement changes a row. */
  predicate Dispatchable(st: Sys, e: Ready) {
    !st.freeze.paused && !e.task.paused && !e.row.paused && Claimable(st.db.rows, e.id)
  }

  predicate CanDispatch(st: Sys, k: nat) {
    st.up && st.tick.Some? && k < |st.tick.value.ready| && Dispatchable(st, st.tick.value.ready[k])
  }

  /** The claim stamps the lock with the tick's time, and arms the heartbeat at the clock. */
  function DoDispatch(st: Sys, k: nat): Sys
    requires CanDispatch(st, k)
  {
    var t := st.tick.value;
    var e := t.ready[k];
    st.(tick := Some(t.(ready := RemoveAt(t.ready, k))),
        db := st.db.(rows := Claim(st.db.rows, e.id, t.now)),
        work := st.work.(nextRun := st.work.nextRun + 1, jobs := st.work.jobs[st.work.nextRun := Job(e.id, e.row, e.task, Claimed, st.clock)]),
        past := Past(st.past.owners[e.id := st.work.nextRun]))
  }

  predicate CanTickDrop(st: Sys, k: nat) {
    st.up && st.tick.Some? && k < |st.tick.value.ready| && !Dispatchable(st, st.tick.value.ready[k])
  }

  function DoTickDrop(st: Sys, k: nat): Sys
    requires CanTickDrop(st, k)
  {
    st.(tick := Some(st.tick.value.(ready := RemoveAt(st.tick.value.ready, k))))
  }

  predicate CanTickEnd(st: Sys) {
    st.up && st.tick.Some? && st.tick.value.todo == [] && st.tick.value.ready == []
  }

  // ---- a dispatched run ----

  predicate CanCreateRun(st: Sys, r: RunId) {
    st.up && r in st.work.jobs && st.work.jobs[r].phase.Claimed?
  }

  function DoCreateRun(st: Sys, r: RunId): Sys
    requires CanCreateRun(st, r)
  {
    var j := st.work.jobs[r];
    var run := Run(j.id, j.row.retryCount + 1, if j.row.retryCount > 0 then j.row.lastRunId else None, Running, false);
    st.(db := st.db.(runs := st.db.runs[r := run]),
        work := st.work.(jobs := st.work.jobs[r := j.(phase := Started)]))
  }

  predicate CanSettle(st: Sys, r: RunId) {
    st.up && r in st.work.jobs && st.work.jobs[r].phase.Started?
  }

  function DoSettle(st: Sys, r: RunId, reply: Reply): Sys
    requires CanSettle(st, r)
  {
    var phase :=
      match reply
      case Done(outcome) => Settled(outcome, st.clock, true)
      case Accept(pollMs, channel) => Accepted(pollMs, channel)
      case AcceptWithoutPoll => Settled(Failed, st.clock, false);
    st.(work := st.work.(jobs := st.work.jobs[r := st.work.jobs[r].(phase := phase)]))
  }

  predicate CanEnqueue(st: Sys, r: RunId) {
    st.up && r in st.work.jobs && st.work.jobs[r].phase.Accepted?
  }

  function DoEnqueue(st: Sys, r: RunId): Sys
    requires CanEnqueue(st, r)
  {
    var j := st.work.jobs[r];
    var ar := AsyncRun(j.id, j.row, j.task, j.phase.channel, false, false,
                       j.phase.pollMs, st.clock + j.phase.pollMs, st.clock,
                       None, st.clock, None, 0, 0, 0, 0, false);
    st.(db := st.db.(runs := SetStatus(st.db.runs, r, Queued)),
        work := st.work.(jobs := st.work.jobs - {r}),
        poll := st.poll.(asyncRuns := st.poll.asyncRuns[r := ar], queue := st.poll.queue + {r}))
  }

  predicate CanJobWrite(st: Sys, r: RunId) {
    st.up && r in st.work.jobs && st.work.jobs[r].phase.Settled?
  }

  function DoJobWrite(st: Sys, r: RunId): Sys
    requires CanJobWrite(st, r)
  {
    var ph := st.work.jobs[r].phase;
    st.(db := st.db.(runs := FinishRun(st.db.runs, r, ph.outcome)),
        work := st.work.(jobs := st.work.jobs[r := st.work.jobs[r].(phase := Written(ph.outcome, ph.at, ph.retry))]))
  }

  predicate CanJobComplete(st: Sys, r: RunId) {
    st.up && r in st.work.jobs && st.work.jobs[r].phase.Written?
  }

  function JobCompletion(p: Params, st: Sys, r: RunId): Completion
    requires CanJobComplete(st, r)
  {
    var j := st.work.jobs[r];
    PlanCompletion(p.cal, j.row, j.task, r, j.phase.outcome, j.phase.at, j.phase.retry)
  }

  function DoJobComplete(p: Params, st: Sys, r: RunId): Sys
    requires CanJobComplete(st, r)
  {
    st.(db := st.db.(rows := Complete(st.db.rows, st.work.jobs[r].id, JobCompletion(p, st, r))),
        work := st.work.(jobs := st.work.jobs - {r}))
  }

  predicate CanHeartbeat(st: Sys, r: RunId) {
    st.up && r in st.work.jobs
  }

  function DoHeartbeat(st: Sys, r: RunId): Sys
    requires CanHeartbeat(st, r)
  {
    st.(db := st.db.(rows := Refresh(st.db.rows, st.work.jobs[r].id, st.clock)),
        work := st.work.(jobs := st.work.jobs[r := st.work.jobs[r].(beat := st.clock)]))
  }

  // ---- poll pass ----

  predicate CanPassBegin(st: Sys, at: int) {
    st.up && st.poll.pass.None? && at <= st.clock
  }

  /** The snapshot of the poll queue: every queued run once. */
  ghost predicate IsSnapshot(queue: set<RunId>, order: seq<RunId>) {
    && (forall k :: 0 <= k < |order| ==> order[k] in queue)
    && (forall k, l :: 0 <= k < l < |order| ==> order[k] != order[l])
    && (forall r :: r in queue ==> r in order)
  }

  /**
   * The ceiling of an accepted run by its task's setting: the setting, `-1` for none, or the engine's when there is
   * no setting.
   */
  function CeilingFor(p: Params, timeoutMs: Option<int>): Option<int> {
    match timeoutMs
    case Some(t) => if t == -1 then None else Some(t)
    case None => if p.pollTimeoutMs > 0 then Some(p.pollTimeoutMs) else None
  }

  function Ceiling(p: Params, task: Task): Option<int> {
    CeilingFor(p, task.timeoutMs)
  }

  predicate TimedOut(p: Params, ar: AsyncRun, at: int) {
    Ceiling(p, ar.task).Some? && at - ar.acceptedAt >= Ceiling(p, ar.task).value
  }

  /** `signalCancel`: marks the run, and posts to the worker when it advertised a channel. */
  function Signal(ar: AsyncRun): AsyncRun {
    if ar.cancelSignaled then ar
    else ar.(cancelSignaled := true, signals := ar.signals + (if ar.channel then 1 else 0))
  }

  function Decide(ar: AsyncRun, clock: int): AsyncRun {
    if ar.since.Some? then ar else ar.(since := Some(clock))
  }

  /** The pass stands at a run that is known. */
  predicate AtRun(st: Sys) {
    st.up && st.poll.pass.Some? && |st.poll.pass.value.todo| > 0 && st.poll.pass.value.todo[0] in st.poll.asyncRuns
  }

  /** The pass is done with its current run. */
  function Move(ps: Pass): Pass
    requires |ps.todo| > 0
  {
    ps.(todo := ps.todo[1..], cur := Idle)
  }

  function WithPass(poll: Polling, ps: Pass, r: RunId, ar: AsyncRun): Polling {
    poll.(pass := Some(ps), asyncRuns := poll.asyncRuns[r := ar])
  }

  predicate CanPassVisit(st: Sys) {
    AtRun(st) && st.poll.pass.value.cur.Idle?
  }

  function DoPassVisit(p: Params, st: Sys): Sys
    requires CanPassVisit(st)
  {
    var ps := st.poll.pass.value;
    var r := ps.todo[0];
    var ar := st.poll.asyncRuns[r].(seen := ps.at);
    st.(poll :=
      if ar.nextPollAt > ps.at then WithPass(st.poll, Move(ps), r, ar)
      else if TimedOut(p, ar, ps.at) then WithPass(st.poll, ps.(cur := Signalling(r)), r, Decide(Signal(ar), st.clock))
      else WithPass(st.poll, ps.(cur := Asking(r)), r, ar.(asked := Some(ps.at))))
  }

  /** The guard at the head of `finishAsyncRun`: the first finisher wins. */
  function StartFinish(poll: Polling, clock: int, r: RunId, outcome: Outcome): Polling
    requires poll.pass.Some? && |poll.pass.value.todo| > 0 && r in poll.asyncRuns
  {
    var ps := poll.pass.value;
    var ar := poll.asyncRuns[r];
    if ar.finishing then WithPass(poll, Move(ps), r, ar)
    else WithPass(poll, ps.(cur := Finishing(r, outcome, clock)), r,
                  Decide(ar, clock).(finishing := true, claims := ar.claims + 1))
  }

  predicate CanPassSignalled(st: Sys) {
    AtRun(st) && st.poll.pass.value.cur == Signalling(st.poll.pass.value.todo[0])
  }

  function DoPassSignalled(st: Sys): Sys
    requires CanPassSignalled(st)
  {
    st.(poll := StartFinish(st.poll, st.clock, st.poll.pass.value.cur.r, Failed))
  }

  predicate CanPassAnswer(st: Sys, answer: Answer) {
    && AtRun(st) && st.poll.pass.value.cur == Asking(st.poll.pass.value.todo[0])
    && (answer.InProgress? ==> !answer.status.Ended?)
  }

  /** A progress report is stored without looking at `finishing`. */
  function DoPassAnswer(st: Sys, answer: Answer): Sys
    requires CanPassAnswer(st, answer)
  {
    var ps := st.poll.pass.value;
    var r := ps.cur.r;
    match answer
    case InProgress(status) =>
      var ar := st.poll.asyncRuns[r];
      st.(db := st.db.(runs := SetStatus(st.db.runs, r, status)),
          poll := WithPass(st.poll, Move(ps), r, ar.(nextPollAt := ps.at + ar.pollMs)))
    case Verdict(ok) => st.(poll := StartFinish(st.poll, st.clock, r, if ok then Succeeded else Failed))
    case Threw => st.(poll := StartFinish(st.poll, st.clock, r, Failed))
  }

  predicate CanPassWrite(st: Sys) {
    AtRun(st) && st.poll.pass.value.cur.Finishing? && st.poll.pass.value.cur.r == st.poll.pass.value.todo[0]
  }

  function DoPassWrite(st: Sys): Sys
    requires CanPassWrite(st)
  {
    var ps := st.poll.pass.value;
    var c := ps.cur;
    var ar := st.poll.asyncRuns[c.r];
    st.(db := st.db.(runs := FinishRun(st.db.runs, c.r, c.outcome)),
        poll := WithPass(st.poll, ps.(cur := Finished(c.r, c.outcome, c.at)), c.r, ar.(writes := ar.writes + 1)))
  }

  predicate CanPassComplete(st: Sys) {
    AtRun(st) && st.poll.pass.value.cur.Finished? && st.poll.pass.value.cur.r == st.poll.pass.value.todo[0]
  }

  function AsyncCompletion(p: Params, ar: AsyncRun, r: RunId, outcome: Outcome, at: int): Completion {
    PlanCompletion(p.cal, ar.row, ar.task, r, outcome, at)
  }

  function DoPassComplete(p: Params, st: Sys): Sys
    requires CanPassComplete(st)
  {
    var c := st.poll.pass.value.cur;
    var ar := st.poll.asyncRuns[c.r];
    st.(db := st.db.(rows := Complete(st.db.rows, ar.id, AsyncCompletion(p, ar, c.r, c.outcome, c.at))),
        poll := WithPass(st.poll.(queue := st.poll.queue - {c.r}), Move(st.poll.pass.value), c.r,
                         ar.(completions := ar.completions + 1)))
  }

  predicate CanPassEnd(st: Sys) {
    st.up && st.poll.pass.Some? && st.poll.pass.value.cur.Idle? && st.poll.pass.value.todo == []
  }

  // ---- user cancel of an accepted run ----

  predicate CanCancelBegin(st: Sys, r: RunId) {
    st.up && r in st.poll.queue && r in st.poll.asyncRuns
  }

  function WithCancel(poll: Polling, r: RunId, c: Cancel, ar: AsyncRun): Polling {
    poll.(cancels := poll.cancels[r := c], asyncRuns := poll.asyncRuns[r := ar])
  }

  /** `cancelRun` takes the entry out of the queue whether or not it is already being finished. */
  function DoCancelBegin(st: Sys, r: RunId): Sys
    requires CanCancelBegin(st, r)
  {
    var ar := st.poll.asyncRuns[r];
    var taken := Decide(Signal(ar), st.clock).(finishing := true, claims := ar.claims + 1, raced := ar.finishing);
    st.(poll := WithCancel(st.poll.(queue := st.poll.queue - {r}), r, CancelSignalling(st.clock), taken))
  }

  predicate CanCancelWrite(st: Sys, r: RunId) {
    st.up && r in st.poll.cancels && st.poll.cancels[r].CancelSignalling? && r in st.poll.asyncRuns
  }

  function DoCancelWrite(st: Sys, r: RunId): Sys
    requires CanCancelWrite(st, r)
  {
    var ar := st.poll.asyncRuns[r];
    st.(db := st.db.(runs := FinishRun(st.db.runs, r, Cancelled)),
        poll := WithCancel(st.poll, r, CancelWritten(st.poll.cancels[r].at), ar.(writes := ar.writes + 1)))
  }

  predicate CanCancelComplete(st: Sys, r: RunId) {
    st.up && r in st.poll.cancels && st.poll.cancels[r].CancelWritten? && r in st.poll.asyncRuns
  }

  function DoCancelComplete(p: Params, st: Sys, r: RunId): Sys
    requires CanCancelComplete(st, r)
  {
    var ar := st.poll.asyncRuns[r];
    st.(db := st.db.(rows := Complete(st.db.rows, ar.id, AsyncCompletion(p, ar, r, Cancelled, st.poll.cancels[r].at))),
        poll := st.poll.(cancels := st.poll.cancels - {r},
                         asyncRuns := st.poll.asyncRuns[r := ar.(completions := ar.completions + 1)]))
  }

  // ---- watchdog, pause and resume, operator edits ----

  predicate CanReap(st: Sys, at: int) {
    st.up && at <= st.clock
  }

  function DoReap(p: Params, st: Sys, at: int): Sys {
    st.(db := st.db.(rows := Reap(st.db.rows, at - p.ttl)))
  }

  function DoPause(st: Sys): Sys {
    st.(freeze := st.freeze.(paused := true, generation := st.freeze.generation + 1))
  }

  /** `resume` on a paused queue starts a pass; `q` is any name no other pass under way has. */
  predicate CanResumeBegin(st: Sys, q: nat, at: int) {
    st.up && st.freeze.paused && q !in st.freeze.resumes && at <= st.clock
  }

  function DoResumeBegin(st: Sys, q: nat, at: int): Sys {
    st.(freeze := st.freeze.(resumes := st.freeze.resumes[q := Resume(at, {}, [])]))
  }

  /** One page of the scan: rows no earlier page has covered. */
  predicate CanResumePage(st: Sys, q: nat, ids: set<Id>) {
    && st.up && q in st.freeze.resumes && st.freeze.resumes[q].scanned != st.db.rows.Keys
    && ids <= st.db.rows.Keys - st.freeze.resumes[q].scanned
  }

  function DoResumePage(st: Sys, q: nat, ids: set<Id>, overdue: seq<Entry>): Sys
    requires CanResumePage(st, q, ids)
  {
    var rs := st.freeze.resumes[q];
    st.(freeze := st.freeze.(resumes := st.freeze.resumes[q := rs.(scanned := rs.scanned + ids, todo := rs.todo + overdue)]))
  }

  /** The writes come after the last page. */
  predicate CanResumeSkip(st: Sys, q: nat) {
    st.up && q in st.freeze.resumes && st.freeze.resumes[q].scanned == st.db.rows.Keys && |st.freeze.resumes[q].todo| > 0
  }

  /** The slot a pass gives to a recurring schedule. */
  function SkippedTo(p: Params, st: Sys, q: nat): Option<int>
    requires CanResumeSkip(st, q)
  {
    var row := st.freeze.resumes[q].todo[0].row;
    ComputeNext(p.cal, row.rule, row.tz, st.freeze.resumes[q].now)
  }

  function DoResumeSkip(p: Params, st: Sys, q: nat): Sys
    requires CanResumeSkip(st, q)
  {
    var rs := st.freeze.resumes[q];
    var e := rs.todo[0];
    var rest := st.(freeze := st.freeze.(resumes := st.freeze.resumes[q := rs.(todo := rs.todo[1..])]));
    if Deferred(e.row) then rest
    else rest.(db := st.db.(rows := SetNext(st.db.rows, e.id, SkippedTo(p, st, q))))
  }

  predicate CanResumeEnd(st: Sys, q: nat) {
    st.up && q in st.freeze.resumes && st.freeze.resumes[q].scanned == st.db.rows.Keys && st.freeze.resumes[q].todo == []
  }

  /** The pass that ends releases the queue, whoever paused it. */
  function DoResumeEnd(st: Sys, q: nat): Sys {
    st.(freeze := Freeze(false, st.freeze.generation + 1, st.freeze.resumes - {q}))
  }

  function DoToggle(st: Sys, id: Id, pausedFlag: bool, disabledFlag: bool): Sys {
    if id !in st.db.rows then st
    else st.(db := st.db.(rows := st.db.rows[id := st.db.rows[id].(paused := pausedFlag, disabled := disabledFlag)]))
  }

  // ---- crash and recovery ----

  /** Everything in memory is lost; the store stays. */
  function DoCrash(st: Sys): Sys {
    Sys(st.clock, st.db, false, Work(st.work.nextRun, map[]), Polling(map[], {}, None, map[]), None,
        Freeze(false, 0, map[]), st.past)
  }

  predicate CanRecoverRun(st: Sys, r: RunId) {
    !st.up && r in st.db.runs && !st.db.runs[r].status.Ended?
  }

  function DoRecoverRun(st: Sys, r: RunId): Sys {
    st.(db := st.db.(runs := FinishRun(st.db.runs, r, Cancelled)))
  }

  function DoRecoverLocks(st: Sys): Sys {
    st.(db := st.db.(rows := ClearLocks(st.db.rows)), up := true)
  }

  // ---- the whole machine ----

  ghost predicate CanStepTick(st: Sys, t: TickStep) {
    match t
    case TickBegin(now, _) => CanTickBegin(st, now)
    case TickCheck(k) => CanTickCheck(st, k)
    case Dispatch(k) => CanDispatch(st, k)
    case TickDrop(k) => CanTickDrop(st, k)
    case TickEnd => CanTickEnd(st)
  }

  ghost function DoStepTick(st: Sys, t: TickStep): Sys
    requires CanStepTick(st, t)
  {
    match t
    case TickBegin(now, due) => DoTickBegin(st, now, due)
    case TickCheck(k) => DoTickCheck(st, k)
    case Dispatch(k) => DoDispatch(st, k)
    case TickDrop(k) => DoTickDrop(st, k)
    case TickEnd => st.(tick := None)
  }

  ghost predicate CanStepRun(st: Sys, j: RunStep) {
    match j
    case CreateRun(r) => CanCreateRun(st, r)
    case Settle(r, _) => CanSettle(st, r)
    case Enqueue(r) => CanEnqueue(st, r)
    case JobWrite(r) => CanJobWrite(st, r)
    case JobComplete(r) => CanJobComplete(st, r)
    case Heartbeat(r) => CanHeartbeat(st, r)
  }

  ghost function DoStepRun(p: Params, st: Sys, j: RunStep): Sys
    requires CanStepRun(st, j)
  {
    match j
    case CreateRun(r) => DoCreateRun(st, r)
    case Settle(r, reply) => DoSettle(st, r, reply)
    case Enqueue(r) => DoEnqueue(st, r)
    case JobWrite(r) => DoJobWrite(st, r)
    case JobComplete(r) => DoJobComplete(p, st, r)
    case Heartbeat(r) => DoHeartbeat(st, r)
  }

  ghost predicate CanStepPass(st: Sys, s: PassStep) {
    match s
    case PassBegin(at, _) => CanPassBegin(st, at)
    case PassVisit => CanPassVisit(st)
    case PassSignalled => CanPassSignalled(st)
    case PassAnswer(answer) => CanPassAnswer(st, answer)
    case PassWrite => CanPassWrite(st)
    case PassComplete => CanPassComplete(st)
    case PassEnd => CanPassEnd(st)
  }

  ghost function DoStepPass(p: Params, st: Sys, s: PassStep): Sys
    requires CanStepPass(st, s)
  {
    match s
    case PassBegin(at, order) => st.(poll := st.poll.(pass := Some(Pass(at, order, Idle))))
    case PassVisit => DoPassVisit(p, st)
    case PassSignalled => DoPassSignalled(st)
    case PassAnswer(answer) => DoPassAnswer(st, answer)
    case PassWrite => DoPassWrite(st)
    case PassComplete => DoPassComplete(p, st)
    case PassEnd => st.(poll := st.poll.(pass := None))
  }

  ghost predicate CanStepCancel(st: Sys, c: CancelStep) {
    match c
    case CancelBegin(r) => CanCancelBegin(st, r)
    case CancelWrite(r) => CanCancelWrite(st, r)
    case CancelComplete(r) => CanCancelComplete(st, r)
  }

  ghost function DoStepCancel(p: Params, st: Sys, c: CancelStep): Sys
    requires CanStepCancel(st, c)
  {
    match c
    case CancelBegin(r) => DoCancelBegin(st, r)
    case CancelWrite(r) => DoCancelWrite(st, r)
    case CancelComplete(r) => DoCancelComplete(p, st, r)
  }

  ghost predicate CanStepFreeze(st: Sys, f: FreezeStep) {
    match f
    case Pause => st.up && !st.freeze.paused
    case ResumeBegin(q, at) => CanResumeBegin(st, q, at)
    case ResumePage(q, ids, _) => CanResumePage(st, q, ids)
    case ResumeSkip(q) => CanResumeSkip(st, q)
    case ResumeEnd(q) => CanResumeEnd(st, q)
  }

  ghost function DoStepFreeze(p: Params, st: Sys, f: FreezeStep): Sys
    requires CanStepFreeze(st, f)
  {
    match f
    case Pause => DoPause(st)
    case ResumeBegin(q, at) => DoResumeBegin(st, q, at)
    case ResumePage(q, ids, overdue) => DoResumePage(st, q, ids, overdue)
    case ResumeSkip(q) => DoResumeSkip(p, st, q)
    case ResumeEnd(q) => DoResumeEnd(st, q)
  }

  ghost predicate CanStepStore(st: Sys, o: StoreStep) {
    match o
    case ReapPass(at) => CanReap(st, at)
    case Toggle(_, _, _) => true
    case EditTask(_, _) => true
  }

  ghost function DoStepStore(p: Params, st: Sys, o: StoreStep): Sys
    requires CanStepStore(st, o)
  {
    match o
    case ReapPass(at) => DoReap(p, st, at)
    case Toggle(id, pausedFlag, disabledFlag) => DoToggle(st, id, pausedFlag, disabledFlag)
    case EditTask(name, task) => st.(db := st.db.(tasks := st.db.tasks[name := task]))
  }

  ghost predicate CanStepCrash(st: Sys, x: CrashStep) {
    match x
    case Crash => true
    case RecoverRun(r) => CanRecoverRun(st, r)
    case RecoverLocks => !st.up
  }

  ghost function DoStepCrash(st: Sys, x: CrashStep): Sys
    requires CanStepCrash(st, x)
  {
    match x
    case Crash => DoCrash(st)
    case RecoverRun(r) => DoRecoverRun(st, r)
    case RecoverLocks => DoRecoverLocks(st)
  }

  ghost predicate Can(st: Sys, step: Step) {
    match step
    case Advance(_) => true
    case OfTick(t) => CanStepTick(st, t)
    case OfRun(j) => CanStepRun(st, j)
    case OfPass(s) => CanStepPass(st, s)
    case OfCancel(c) => CanStepCancel(st, c)
    case OfFreeze(f) => CanStepFreeze(st, f)
    case OfStore(o) => CanStepStore(st, o)
    case OfCrash(x) => CanStepCrash(st, x)
  }

  ghost function Do(p: Params, st: Sys, step: Step): Sys
    requires Can(st, step)
  {
    match step
    case Advance(dt) => st.(clock := st.clock + dt)
    case OfTick(t) => DoStepTick(st, t)
    case OfRun(j) => DoStepRun(p, st, j)
    case OfPass(s) => DoStepPass(p, st, s)
    case OfCancel(c) => DoStepCancel(p, st, c)
    case OfFreeze(f) => DoStepFreeze(p, st, f)
    case OfStore(o) => DoStepStore(p, st, o)
    case OfCrash(x) => DoStepCrash(st, x)
  }

  /** What a step reads is what is there: due rows, overdue rows, queued runs. */
  ghost predicate Reads(st: Sys, step: Step) {
    && (step.OfTick? && step.t.TickBegin? ==> IsDueList(st.db.rows, step.t.now, step.t.due))
    && (step.OfFreeze? && step.f.ResumePage? && step.f.q in st.freeze.resumes ==>
          IsOverduePage(st.db.rows, st.freeze.resumes[step.f.q].now, step.f.ids, step.f.overdue))
    && (step.OfPass? && step.s.PassBegin? ==> IsSnapshot(st.poll.queue, step.s.order))
  }

  /** A fresh database and a process that has just started. */
  ghost predicate Init(st: Sys) {
    && st.up && st.db.runs == map[] && st.work.nextRun == 0
    && st.work.jobs == map[] && st.poll.asyncRuns == map[] && st.poll.queue == {} && st.poll.pass == None && st.poll.cancels == map[]
    && st.tick == None && !st.freeze.paused && st.freeze.generation == 0 && st.freeze.resumes == map[]
    && st.past.owners == map[]
    && forall id :: id in st.db.rows ==> !st.db.rows[id].Locked() && st.db.rows[id].retryCount == 0
  }

  ghost predicate Next(p: Params, st: Sys, step: Step, st': Sys) {
    Can(st, step) && Reads(st, step) && st' == Do(p, st, step)
  }

  /** A finite run of the machine: the states it goes through and the steps between them. */
  datatype History = History(states: seq<Sys>, steps: seq<Step>)

  ghost predicate StepAt(p: Params, h: History, k: nat)
    requires k < |h.steps| && |h.states| == |h.steps| + 1
  {
    Next(p, h.states[k], h.steps[k], h.states[k + 1])
  }

  ghost predicate IsRun(p: Params, h: History) {
    && |h.states| == |h.steps| + 1
    && Init(h.states[0])
    && forall k :: 0 <= k < |h.steps| ==> StepAt(p, h, k)
  }

  lemma StepOf(p: Params, h: History, k: nat)
    requires IsRun(p, h) && k < |h.steps|
    ensures Next(p, h.states[k], h.steps[k], h.states[k + 1])
  {
    assert StepAt(p, h, k);
  }
}
