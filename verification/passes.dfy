/**
 * Nothing is passed over. A tick serves every row it found due, a poll pass looks at every run of its snapshot, and a
 * resume visits every row it found overdue: each of them once, whatever else goes on meanwhile.
 */
module Passes {
  import opened Records
  import opened Store
  import opened Protocol
  import opened Verdicts
  import opened Locks
  import opened Scans
  import opened Pausing

  // ---- what an activity still has to do, and what it has done ----

  /** A row as a tick read it, a run of the snapshot of a pass, a row as a page of resume `q` read it. */
  datatype Duty = DueRow(e: Entry) | QueuedRun(r: RunId) | OverdueRow(q: nat, x: Entry)

  predicate IsReady(e: Ready, x: Entry) {
    e.id == x.id && e.row == x.row
  }

  function InReady(s: seq<Ready>, x: Entry): nat {
    if s == [] then 0 else InReady(s[..|s| - 1], x) + (if IsReady(s[|s| - 1], x) then 1 else 0)
  }

  function Unvisited(ps: Pass): seq<RunId> {
    if ps.cur.Idle? || ps.todo == [] then ps.todo else ps.todo[1..]
  }

  function InTodo(tick: Option<Tick>, e: Entry): nat {
    if tick.None? then 0 else multiset(tick.value.todo)[e] + InReady(tick.value.ready, e)
  }

  function InPass(pass: Option<Pass>, r: RunId): nat {
    if pass.None? then 0 else multiset(Unvisited(pass.value))[r]
  }

  function InResume(resumes: map<nat, Resume>, q: nat, x: Entry): nat {
    if q in resumes then multiset(resumes[q].todo)[x] else 0
  }

  /** How often it is still to be done. */
  function Open(st: Sys, t: Duty): nat {
    match t
    case DueRow(e) => InTodo(st.tick, e)
    case QueuedRun(r) => InPass(st.poll.pass, r)
    case OverdueRow(q, x) => InResume(st.freeze.resumes, q, x)
  }

  /** How often the step reads it. */
  function Brings(step: Step, t: Duty): nat {
    match t
    case DueRow(e) => if step.OfTick? && step.t.TickBegin? then multiset(step.t.due)[e] else 0
    case QueuedRun(r) => if step.OfPass? && step.s.PassBegin? then multiset(step.s.order)[r] else 0
    case OverdueRow(q, x) => if step.OfFreeze? && step.f.ResumePage? && step.f.q == q then multiset(step.f.overdue)[x] else 0
  }

  /** The check lets the row go: the queue was paused or released since the tick began, or the task is gone. */
  predicate Skips(st: Sys, step: Step, e: Entry) {
    && step.OfTick? && step.t.TickCheck? && st.tick.Some? && step.t.k < |st.tick.value.todo| && st.tick.value.todo[step.t.k] == e
    && (st.freeze.generation != st.tick.value.generation || e.row.taskName !in st.db.tasks)
  }

  predicate Fires(st: Sys, step: Step, e: Entry) {
    step.OfTick? && step.t.Dispatch? && st.tick.Some? && step.t.k < |st.tick.value.ready| && IsReady(st.tick.value.ready[step.t.k], e)
  }

  predicate Drops(st: Sys, step: Step, e: Entry) {
    step.OfTick? && step.t.TickDrop? && st.tick.Some? && step.t.k < |st.tick.value.ready| && IsReady(st.tick.value.ready[step.t.k], e)
  }

  /** The pass comes to the run. */
  predicate Looks(st: Sys, s: PassStep, r: RunId) {
    s.PassVisit? && st.poll.pass.Some? && st.poll.pass.value.todo != [] && st.poll.pass.value.todo[0] == r
  }

  predicate Does(st: Sys, step: Step, t: Duty) {
    match t
    case DueRow(e) => Skips(st, step, e) || Fires(st, step, e) || Drops(st, step, e)
    case QueuedRun(r) => step.OfPass? && Looks(st, step.s, r)
    case OverdueRow(q, x) =>
      && step == OfFreeze(ResumeSkip(q)) && q in st.freeze.resumes && st.freeze.resumes[q].todo != []
      && st.freeze.resumes[q].todo[0] == x
  }

  // ---- one step ----

  lemma OneLess<T>(s: seq<T>, k: nat)
    requires k < |s|
    ensures forall x :: multiset(s)[x] == multiset(RemoveAt(s, k))[x] + (if s[k] == x then 1 else 0)
  {
    assert s == s[..k] + ([s[k]] + s[k + 1..]);
  }

  lemma ShorterRemoved<T>(s: seq<T>, k: nat)
    requires k < |s| - 1
    ensures var t := RemoveAt(s, k); t != [] && t[..|t| - 1] == RemoveAt(s[..|s| - 1], k) && t[|t| - 1] == s[|s| - 1]
  {
  }

  lemma {:induction false} OneReadyLess(s: seq<Ready>, k: nat, x: Entry)
    requires k < |s|
    ensures InReady(s, x) == InReady(RemoveAt(s, k), x) + (if IsReady(s[k], x) then 1 else 0)
  {
    var t, n := RemoveAt(s, k), |s| - 1;
    if k == n {
      assert t == s[..n];
    } else {
      var u := s[..n];
      OneReadyLess(u, k, x);
      ShorterRemoved(s, k);
    }
  }

  lemma ReadyMore(s: seq<Ready>, e: Ready, x: Entry)
    ensures InReady(s + [e], x) == InReady(s, x) + (if IsReady(e, x) then 1 else 0)
  {
    assert (s + [e])[..|s|] == s;
  }

  lemma CheckBalance(st: Sys, k: nat, e: Entry)
    requires CanTickCheck(st, k)
    ensures InTodo(DoTickCheck(st, k).tick, e) + (if Skips(st, OfTick(TickCheck(k)), e) then 1 else 0) == InTodo(st.tick, e)
  {
    var tick := st.tick.value;
    var x := tick.todo[k];
    OneLess(tick.todo, k);
    if x.row.taskName in st.db.tasks { ReadyMore(tick.ready, Ready(x.id, x.row, st.db.tasks[x.row.taskName]), e); }
  }

  lemma DispatchBalance(st: Sys, k: nat, e: Entry)
    requires CanDispatch(st, k)
    ensures InTodo(DoDispatch(st, k).tick, e) + (if Fires(st, OfTick(Dispatch(k)), e) then 1 else 0) == InTodo(st.tick, e)
  {
    OneReadyLess(st.tick.value.ready, k, e);
  }

  lemma DropBalance(st: Sys, k: nat, e: Entry)
    requires CanTickDrop(st, k)
    ensures InTodo(DoTickDrop(st, k).tick, e) + (if Drops(st, OfTick(TickDrop(k)), e) then 1 else 0) == InTodo(st.tick, e)
  {
    OneReadyLess(st.tick.value.ready, k, e);
  }

  lemma TickBalance(p: Params, st: Sys, t: TickStep, e: Entry)
    requires CanStepTick(st, t)
    ensures InTodo(DoStepTick(st, t).tick, e) + (if Does(st, OfTick(t), DueRow(e)) then 1 else 0)
         == InTodo(st.tick, e) + Brings(OfTick(t), DueRow(e))
  {
    match t
    case TickBegin(_, _) =>
    case TickCheck(k) => CheckBalance(st, k, e);
    case Dispatch(k) => DispatchBalance(st, k, e);
    case TickDrop(k) => DropBalance(st, k, e);
    case TickEnd =>
  }

  lemma FirstGone<T>(s: seq<T>)
    requires s != []
    ensures forall x :: multiset(s)[x] == multiset(s[1..])[x] + (if s[0] == x then 1 else 0)
  {
    assert s == [s[0]] + s[1..];
  }

  lemma VisitBalance(p: Params, st: Sys, r: RunId)
    requires CanPassVisit(st)
    ensures InPass(DoPassVisit(p, st).poll.pass, r) + (if Looks(st, PassVisit, r) then 1 else 0) == InPass(st.poll.pass, r)
  {
    FirstGone(st.poll.pass.value.todo);
  }

  lemma MoveKeeps(ps: Pass)
    requires !ps.cur.Idle? && |ps.todo| > 0
    ensures Unvisited(Move(ps)) == Unvisited(ps)
  {
  }

  lemma FinishKeeps(poll: Polling, clock: int, r: RunId, outcome: Outcome)
    requires poll.pass.Some? && |poll.pass.value.todo| > 0 && r in poll.asyncRuns && !poll.pass.value.cur.Idle?
    ensures StartFinish(poll, clock, r, outcome).pass.Some?
    ensures Unvisited(StartFinish(poll, clock, r, outcome).pass.value) == Unvisited(poll.pass.value)
  {
    MoveKeeps(poll.pass.value);
  }

  lemma GoOnKeeps(p: Params, st: Sys, s: PassStep)
    requires CanStepPass(st, s) && !s.PassVisit? && !s.PassBegin? && !s.PassEnd?
    ensures st.poll.pass.Some? && DoStepPass(p, st, s).poll.pass.Some?
    ensures Unvisited(DoStepPass(p, st, s).poll.pass.value) == Unvisited(st.poll.pass.value)
  {
    match s
    case PassSignalled => FinishKeeps(st.poll, st.clock, st.poll.pass.value.cur.r, Failed);
    case PassAnswer(answer) =>
      MoveKeeps(st.poll.pass.value);
      FinishKeeps(st.poll, st.clock, st.poll.pass.value.cur.r, Failed);
      FinishKeeps(st.poll, st.clock, st.poll.pass.value.cur.r, Succeeded);
    case PassWrite =>
    case PassComplete => MoveKeeps(st.poll.pass.value);
  }

  lemma PassBalance(p: Params, st: Sys, s: PassStep, r: RunId)
    requires CanStepPass(st, s)
    ensures InPass(DoStepPass(p, st, s).poll.pass, r) + (if Looks(st, s, r) then 1 else 0)
         == InPass(st.poll.pass, r) + Brings(OfPass(s), QueuedRun(r))
  {
    if s.PassVisit? { VisitBalance(p, st, r); } else if !s.PassBegin? && !s.PassEnd? { GoOnKeeps(p, st, s); }
  }

  lemma SkipBalance(p: Params, st: Sys, q: nat, x: Entry)
    requires CanResumeSkip(st, q)
    ensures DoResumeSkip(p, st, q).freeze.resumes == st.freeze.resumes[q := DoResumeSkip(p, st, q).freeze.resumes[q]]
    ensures multiset(DoResumeSkip(p, st, q).freeze.resumes[q].todo)[x] + (if st.freeze.resumes[q].todo[0] == x then 1 else 0)
         == multiset(st.freeze.resumes[q].todo)[x]
  {
    FirstGone(st.freeze.resumes[q].todo);
  }

  lemma FreezeBalance(p: Params, st: Sys, f: FreezeStep, q: nat, x: Entry)
    requires CanStepFreeze(st, f)
    ensures InResume(DoStepFreeze(p, st, f).freeze.resumes, q, x) + (if Does(st, OfFreeze(f), OverdueRow(q, x)) then 1 else 0)
         == InResume(st.freeze.resumes, q, x) + Brings(OfFreeze(f), OverdueRow(q, x))
  {
    if f.ResumeSkip? { SkipBalance(p, st, f.q, x); }
  }

  lemma OthersKeep(p: Params, st: Sys, step: Step)
    requires Can(st, step) && step != OfCrash(Crash)
    ensures !step.OfTick? ==> Do(p, st, step).tick == st.tick
    ensures !step.OfPass? ==> Do(p, st, step).poll.pass == st.poll.pass
    ensures !step.OfFreeze? ==> Do(p, st, step).freeze.resumes == st.freeze.resumes
  {
  }

  /** A step of the engine other than a crash takes away what it does, and adds what it reads. */
  lemma Balance(p: Params, st: Sys, step: Step, t: Duty)
    requires Can(st, step) && step != OfCrash(Crash)
    ensures Open(Do(p, st, step), t) + (if Does(st, step, t) then 1 else 0) == Open(st, t) + Brings(step, t)
  {
    OthersKeep(p, st, step);
    match t
    case DueRow(e) => if step.OfTick? { TickBalance(p, st, step.t, e); }
    case QueuedRun(r) => if step.OfPass? { PassBalance(p, st, step.s, r); }
    case OverdueRow(q, x) => if step.OfFreeze? { FreezeBalance(p, st, step.f, q, x); }
  }

  // ---- over whole histories ----

  ghost function Done(h: History, m: nat, n: nat, t: Duty): nat
    requires m <= n <= |h.steps| && n <= |h.states|
  {
    if m == n then 0 else Done(h, m, n - 1, t) + (if Does(h.states[n - 1], h.steps[n - 1], t) then 1 else 0)
  }

  ghost function Brought(h: History, m: nat, n: nat, t: Duty): nat
    requires m <= n <= |h.steps|
  {
    if m == n then 0 else Brought(h, m, n - 1, t) + Brings(h.steps[n - 1], t)
  }

  ghost predicate Survives(h: History, m: nat, n: nat)
    requires n <= |h.steps|
  {
    forall i :: m <= i < n ==> h.steps[i] != OfCrash(Crash)
  }

  /** Over every stretch of a history without a crash, what is done and what is left is what was there and what was read. */
  lemma {:induction false} NothingIsPassedOver(p: Params, h: History, m: nat, n: nat, t: Duty)
    requires IsRun(p, h) && m <= n <= |h.steps| && Survives(h, m, n)
    ensures Open(h.states[n], t) + Done(h, m, n, t) == Open(h.states[m], t) + Brought(h, m, n, t)
    decreases n
  {
    if m < n {
      NothingIsPassedOver(p, h, m, n - 1, t);
      StepOf(p, h, n - 1);
      Balance(p, h.states[n - 1], h.steps[n - 1], t);
    }
  }

  /** Exactly one of these steps does it. */
  ghost predicate DoneOnceAt(h: History, m: nat, n: nat, t: Duty, i: nat)
    requires n <= |h.steps| && n <= |h.states|
  {
    && m <= i < n && Does(h.states[i], h.steps[i], t)
    && forall j :: m <= j < n && Does(h.states[j], h.steps[j], t) ==> j == i
  }

  lemma {:induction false} NotDone(h: History, m: nat, n: nat, t: Duty)
    requires m <= n <= |h.steps| && n <= |h.states|
    ensures Done(h, m, n, t) == 0 <==> forall i :: m <= i < n ==> !Does(h.states[i], h.steps[i], t)
  {
    if m < n { NotDone(h, m, n - 1, t); }
  }

  lemma {:induction false} TheOneStep(h: History, m: nat, n: nat, t: Duty) returns (i: nat)
    requires m <= n <= |h.steps| && n <= |h.states| && Done(h, m, n, t) == 1
    ensures DoneOnceAt(h, m, n, t, i)
    decreases n
  {
    if Does(h.states[n - 1], h.steps[n - 1], t) {
      i := n - 1;
      NotDone(h, m, n - 1, t);
    } else {
      i := TheOneStep(h, m, n - 1, t);
    }
  }

  lemma {:induction false} NothingBrought(h: History, m: nat, n: nat, t: Duty)
    requires m <= n <= |h.steps| && forall i :: m <= i < n ==> Brings(h.steps[i], t) == 0
    ensures Brought(h, m, n, t) == 0
  {
    if m < n { NothingBrought(h, m, n - 1, t); }
  }

  // ---- ticks ----

  /** A tick begins at `b` and ends at `e`, without a crash in between. */
  ghost predicate IsTick(h: History, b: nat, e: nat) {
    && b < e < |h.steps| && |h.states| == |h.steps| + 1
    && h.steps[b].OfTick? && h.steps[b].t.TickBegin? && h.steps[e] == OfTick(TickEnd)
    && forall i :: b < i < e ==> h.steps[i] != OfTick(TickEnd) && h.steps[i] != OfCrash(Crash)
  }

  lemma {:induction false} TickGoesOn(p: Params, h: History, b: nat, n: nat)
    requires IsRun(p, h) && b < n < |h.states| && h.steps[b].OfTick? && h.steps[b].t.TickBegin?
    requires forall i :: b < i < n ==> h.steps[i] != OfTick(TickEnd) && h.steps[i] != OfCrash(Crash)
    ensures Ticks(h, b, n)
    ensures h.states[n].tick.value.now == h.steps[b].t.now && h.states[n].tick.value.generation == h.states[b].freeze.generation
    ensures forall i :: b < i < n ==> !(h.steps[i].OfTick? && h.steps[i].t.TickBegin?)
    decreases n
  {
    StepOf(p, h, n - 1);
    if b < n - 1 {
      TickGoesOn(p, h, b, n - 1);
      OthersKeep(p, h.states[n - 1], h.steps[n - 1]);
    }
  }

  lemma {:induction false} OnceEach<T>(s: seq<T>, x: T)
    requires forall i, j :: 0 <= i < j < |s| ==> s[i] != s[j]
    ensures multiset(s)[x] == if x in s then 1 else 0
  {
    if s != [] {
      OnceEach(s[1..], x);
      assert s == [s[0]] + s[1..];
    }
  }

  lemma DueOnce(rows: Rows, now: int, due: seq<Entry>, x: Entry)
    requires IsDueList(rows, now, due)
    ensures multiset(due)[x] == if Due(rows, x.id, now) && rows[x.id] == x.row then 1 else 0
  {
    forall i, j | 0 <= i < j < |due| ensures due[i] != due[j] {
      assert due[i].id != due[j].id;
    }
    OnceEach(due, x);
    if Due(rows, x.id, now) {
      var k :| 0 <= k < |due| && due[k].id == x.id;
      assert due[k].row == rows[x.id];
    }
  }

  /** Why a due row is not dispatched: what has happened since the tick read it at `b`. */
  ghost predicate HasReason(h: History, b: nat, i: nat, x: Entry)
    requires b < i < |h.steps| && |h.states| == |h.steps| + 1 && h.states[i].tick.Some?
  {
    var st := h.states[i];
    if Skips(st, h.steps[i], x) then Bumped(h, b, i) || x.row.taskName !in st.db.tasks
    else if Drops(st, h.steps[i], x) then
      || st.freeze.paused || TaskWasPaused(h, b, i, x.row.taskName)
      || x.id !in st.db.rows || st.db.rows[x.id].lockedAt.Some? || st.db.rows[x.id].paused || st.db.rows[x.id].disabled
      || exists other :: other in st.db.rows && st.db.rows[other].taskName == st.db.rows[x.id].taskName && st.db.rows[other].lockedAt.Some?
    else Fires(st, h.steps[i], x)
  }

  /** The tick has read the task as paused. */
  ghost predicate TaskWasPaused(h: History, b: nat, i: nat, name: string)
    requires i < |h.steps| && |h.states| == |h.steps| + 1
  {
    exists c :: b < c < i && h.steps[c].OfTick? && h.steps[c].t.TickCheck? && name in h.states[c].db.tasks && h.states[c].db.tasks[name].paused
  }

  lemma HadTick(h: History, j: nat, n: nat, t: Tick, id: Id, b: nat)
    requires n < |h.states| && SameTick(h, j, n, t, id) && j < b <= n
    ensures h.states[b].tick.Some?
  {
    assert InTick(h.states[b], t.now, t.generation, id);
  }

  lemma DropReason(p: Params, h: History, b: nat, i: nat, x: Entry)
    requires IsRun(p, h) && b < i < |h.steps| && Ticks(h, b, i) && Drops(h.states[i], h.steps[i], x)
    requires forall c :: b < c < i ==> !(h.steps[c].OfTick? && h.steps[c].t.TickBegin?)
    requires h.steps[b].OfTick? && h.steps[b].t.TickBegin? && !x.row.paused
    ensures HasReason(h, b, i, x)
  {
    StepOf(p, h, i);
    var c, j := ReadyWasRead(p, h, i, h.steps[i].t.k);
    StepOf(p, h, j);
    StepOf(p, h, b);
    if j < b { HadTick(h, j, i, h.states[i].tick.value, x.id, b); }
  }

  /**
   * A tick serves every row that was due when it began at `b`, at exactly one step, and no other row: it is dispatched
   * unless there is a reason.
   */
  lemma TickServesAll(p: Params, h: History, b: nat, e: nat, x: Entry) returns (i: nat)
    requires IsRun(p, h) && IsTick(h, b, e)
    ensures Due(h.states[b].db.rows, x.id, h.steps[b].t.now) && h.states[b].db.rows[x.id] == x.row ==>
              DoneOnceAt(h, b + 1, e, DueRow(x), i) && h.states[i].tick.Some? && HasReason(h, b, i, x)
    ensures !(Due(h.states[b].db.rows, x.id, h.steps[b].t.now) && h.states[b].db.rows[x.id] == x.row) ==>
              forall j :: b < j < e ==> !Does(h.states[j], h.steps[j], DueRow(x))
  {
    i := b;
    var due := h.steps[b].t.due;
    StepOf(p, h, b);
    StepOf(p, h, e);
    DueOnce(h.states[b].db.rows, h.steps[b].t.now, due, x);
    TickGoesOn(p, h, b, e);
    NothingIsPassedOver(p, h, b + 1, e, DueRow(x));
    NothingBrought(h, b + 1, e, DueRow(x));
    NotDone(h, b + 1, e, DueRow(x));
    if Due(h.states[b].db.rows, x.id, h.steps[b].t.now) && h.states[b].db.rows[x.id] == x.row {
      i := TheOneStep(h, b + 1, e, DueRow(x));
      TickGoesOn(p, h, b, i);
      GenerationBetween(p, h, b, i);
      if Drops(h.states[i], h.steps[i], x) { DropReason(p, h, b, i, x); }
    }
  }

  // ---- poll passes ----

  ghost predicate IsPass(h: History, b: nat, e: nat) {
    && b < e < |h.steps| && |h.states| == |h.steps| + 1
    && h.steps[b].OfPass? && h.steps[b].s.PassBegin? && h.steps[e] == OfPass(PassEnd)
    && forall i :: b < i < e ==> h.steps[i] != OfPass(PassEnd) && h.steps[i] != OfCrash(Crash)
  }

  lemma PassKept(p: Params, st: Sys, step: Step)
    requires Can(st, step) && st.poll.pass.Some? && step != OfPass(PassEnd) && step != OfCrash(Crash)
    ensures Do(p, st, step).poll.pass.Some? && Do(p, st, step).poll.pass.value.at == st.poll.pass.value.at
    ensures !(step.OfPass? && step.s.PassBegin?)
  {
  }

  lemma {:induction false} PassGoesOn(p: Params, h: History, b: nat, n: nat)
    requires IsRun(p, h) && b < n < |h.states| && h.steps[b].OfPass? && h.steps[b].s.PassBegin?
    requires forall i :: b < i < n ==> h.steps[i] != OfPass(PassEnd) && h.steps[i] != OfCrash(Crash)
    ensures h.states[n].poll.pass.Some? && h.states[n].poll.pass.value.at == h.steps[b].s.at
    ensures forall i :: b < i < n ==> !(h.steps[i].OfPass? && h.steps[i].s.PassBegin?)
    decreases n
  {
    StepOf(p, h, n - 1);
    if b < n - 1 {
      PassGoesOn(p, h, b, n - 1);
      PassKept(p, h.states[n - 1], h.steps[n - 1]);
    }
  }

  /** What a look at a run does, by its record and the time of the pass. */
  predicate LookIs(p: Params, at: int, before: AsyncRun, after: AsyncRun, cur: Visit, r: RunId) {
    var limit := if before.task.timeoutMs.Some? then before.task.timeoutMs.value else if p.pollTimeoutMs > 0 then p.pollTimeoutMs else -1;
    if before.nextPollAt > at then
      cur == Idle && after == before.(seen := at)
    else if limit != -1 && before.acceptedAt + limit <= at then
      cur == Signalling(r) && after.cancelSignaled && after.finishing == before.finishing
    else
      cur == Asking(r) && after.cancelSignaled == before.cancelSignaled && after.finishing == before.finishing && after.asked == Some(at)
  }

  lemma LookOf(p: Params, st: Sys, r: RunId)
    requires CanPassVisit(st) && r == st.poll.pass.value.todo[0]
    ensures var after := DoPassVisit(p, st).poll;
            && after.pass.Some? && r in after.asyncRuns && after.queue == st.poll.queue
            && LookIs(p, st.poll.pass.value.at, st.poll.asyncRuns[r], after.asyncRuns[r], after.pass.value.cur, r)
  {
  }

  /**
   * A poll pass looks at every run that was queued when it began at `b`, at exactly one step, and at no other: it lets the
   * run be until its next poll is due, ends it when its ceiling is reached, and else polls it.
   */
  lemma PassVisitsAll(p: Params, h: History, b: nat, e: nat, r: RunId) returns (i: nat)
    requires IsRun(p, h) && IsPass(h, b, e)
    ensures r in h.states[b].poll.queue ==>
              && DoneOnceAt(h, b + 1, e, QueuedRun(r), i) && r in h.states[i].poll.asyncRuns && r in h.states[i + 1].poll.asyncRuns
              && h.states[i + 1].poll.pass.Some?
              && LookIs(p, h.steps[b].s.at, h.states[i].poll.asyncRuns[r], h.states[i + 1].poll.asyncRuns[r],
                        h.states[i + 1].poll.pass.value.cur, r)
    ensures r !in h.states[b].poll.queue ==> forall j :: b < j < e ==> !Does(h.states[j], h.steps[j], QueuedRun(r))
  {
    i := b;
    StepOf(p, h, b);
    StepOf(p, h, e);
    OnceEach(h.steps[b].s.order, r);
    PassGoesOn(p, h, b, e);
    NothingIsPassedOver(p, h, b + 1, e, QueuedRun(r));
    NothingBrought(h, b + 1, e, QueuedRun(r));
    NotDone(h, b + 1, e, QueuedRun(r));
    if r in h.states[b].poll.queue {
      i := TheOneStep(h, b + 1, e, QueuedRun(r));
      StepOf(p, h, i);
      PassGoesOn(p, h, b, i);
      LookOf(p, h.states[i], r);
    }
  }

  // ---- resumes ----

  ghost predicate IsResume(h: History, b: nat, e: nat, q: nat) {
    && b < e < |h.steps| && |h.states| == |h.steps| + 1
    && Begins(h.steps[b], q) && h.steps[e] == OfFreeze(ResumeEnd(q))
    && forall i :: b < i < e ==> h.steps[i] != OfFreeze(ResumeEnd(q)) && h.steps[i] != OfCrash(Crash)
  }

  lemma ResumeKept(p: Params, st: Sys, step: Step, q: nat)
    requires Can(st, step) && q in st.freeze.resumes && step != OfFreeze(ResumeEnd(q)) && step != OfCrash(Crash)
    ensures q in Do(p, st, step).freeze.resumes && Do(p, st, step).freeze.resumes[q].now == st.freeze.resumes[q].now
  {
  }

  lemma {:induction false} ResumeGoesOn(p: Params, h: History, b: nat, n: nat, q: nat)
    requires IsRun(p, h) && b < n < |h.states| && Begins(h.steps[b], q)
    requires forall i :: b < i < n ==> h.steps[i] != OfFreeze(ResumeEnd(q)) && h.steps[i] != OfCrash(Crash)
    ensures UnderWay(h, q, b + 1, n) && h.states[n].freeze.resumes[q].now == h.steps[b].f.at
    decreases n
  {
    StepOf(p, h, n - 1);
    if b < n - 1 {
      ResumeGoesOn(p, h, b, n - 1, q);
      ResumeKept(p, h.states[n - 1], h.steps[n - 1], q);
    }
  }

  lemma PageOnce(rows: Rows, now: int, ids: set<Id>, s: seq<Entry>, x: Entry)
    requires IsOverduePage(rows, now, ids, s)
    ensures multiset(s)[x] == if x.id in ids && x.id in rows && rows[x.id] == x.row && Overdue(x.row, now) then 1 else 0
  {
    forall i, j | 0 <= i < j < |s| ensures s[i] != s[j] {
      assert s[i].id != s[j].id;
    }
    OnceEach(s, x);
    if x.id in ids && x.id in rows { PageEntries(rows, now, ids, s, x.id); }
  }

  /** Exactly one of these steps does it, and it comes after `k`. */
  ghost predicate OnceAfter(h: History, m: nat, n: nat, k: nat, t: Duty)
    requires n <= |h.steps| && n <= |h.states|
  {
    exists i: nat :: k < i && DoneOnceAt(h, m, n, t, i)
  }

  /** Of these steps only the page at `k` can bring the row. */
  lemma {:induction false} BroughtByPage(h: History, m: nat, n: nat, k: nat, t: Duty)
    requires m <= n <= |h.steps| && forall i :: m <= i < n && i != k ==> Brings(h.steps[i], t) == 0
    ensures Brought(h, m, n, t) == if m <= k < n then Brings(h.steps[k], t) else 0
    decreases n
  {
    if m < n { BroughtByPage(h, m, n - 1, k, t); }
  }

  lemma OtherPages(p: Params, h: History, b: nat, e: nat, q: nat, k: nat, i: nat, x: Entry)
    requires IsRun(p, h) && IsResume(h, b, e, q) && UnderWay(h, q, b + 1, e) && h.states[b + 1].freeze.resumes[q].scanned == {}
    requires b < i < e && i != k && forall l: nat :: Covers(h, l, e, q, x.id) ==> l == k
    ensures Brings(h.steps[i], OverdueRow(q, x)) == 0
  {
    if h.steps[i].OfFreeze? && h.steps[i].f.ResumePage? && h.steps[i].f.q == q {
      StepOf(p, h, i);
      PageOnce(h.states[i].db.rows, h.states[i].freeze.resumes[q].now, h.steps[i].f.ids, h.steps[i].f.overdue, x);
      if x.id in h.steps[i].f.ids { assert Covers(h, i, e, q, x.id); }
    }
  }

  /**
   * Of a resume that began at `b` exactly one page, at `k`, shows a given row, and the resume visits the row at exactly
   * one step if it was overdue there, as it was there; else it never does, nor with any other state of the row.
   */
  lemma ResumeVisitsAll(p: Params, h: History, b: nat, e: nat, q: nat, id: Id) returns (k: nat)
    requires IsRun(p, h) && IsResume(h, b, e, q) && id in h.states[e].db.rows
    ensures b < k < e && ReadsPage(h.steps[k], q, id) && forall l :: b < l < e && ReadsPage(h.steps[l], q, id) ==> l == k
    ensures id in h.states[k].db.rows
    ensures forall row :: row == h.states[k].db.rows[id] && Overdue(row, h.steps[b].f.at) ==>
                            OnceAfter(h, b + 1, e, k, OverdueRow(q, Entry(id, row)))
    ensures forall row, i :: b < i < e && !(row == h.states[k].db.rows[id] && Overdue(row, h.steps[b].f.at)) ==>
                               !Does(h.states[i], h.steps[i], OverdueRow(q, Entry(id, row)))
  {
    StepOf(p, h, e);
    StepOf(p, h, b);
    ResumeGoesOn(p, h, b, e, q);
    ScannedOnce(p, h, e, q, id);
    k :| Covers(h, k, e, q, id);
    StartsInside(p, h, b, e, q, id, k);
    forall row
      ensures row == h.states[k].db.rows[id] && Overdue(row, h.steps[b].f.at) ==>
                OnceAfter(h, b + 1, e, k, OverdueRow(q, Entry(id, row)))
      ensures !(row == h.states[k].db.rows[id] && Overdue(row, h.steps[b].f.at)) ==>
                forall i :: b < i < e ==> !Does(h.states[i], h.steps[i], OverdueRow(q, Entry(id, row)))
    {
      VisitsOf(p, h, b, e, q, k, Entry(id, row));
    }
  }

  lemma StartsInside(p: Params, h: History, b: nat, e: nat, q: nat, id: Id, k: nat)
    requires IsRun(p, h) && IsResume(h, b, e, q) && Covers(h, k, e, q, id)
    ensures b < k && id in h.states[k].db.rows
    ensures forall l :: b < l < e && ReadsPage(h.steps[l], q, id) ==> l == k
  {
    StepOf(p, h, b);
    StepOf(p, h, k);
    ResumeGoesOn(p, h, b, e, q);
    ScannedOnce(p, h, e, q, id);
    forall l | b < l < e && ReadsPage(h.steps[l], q, id) ensures l == k {
      assert Covers(h, l, e, q, id);
    }
  }

  predicate WasOverdue(h: History, b: nat, k: nat, x: Entry)
    requires b < |h.steps| && h.steps[b].OfFreeze? && h.steps[b].f.ResumeBegin? && k < |h.states|
  {
    x.id in h.states[k].db.rows && x.row == h.states[k].db.rows[x.id] && Overdue(x.row, h.steps[b].f.at)
  }

  /** How often the row is brought up to some later step, and with it how often it is visited by then. */
  lemma TimesBrought(p: Params, h: History, b: nat, e: nat, n: nat, q: nat, k: nat, x: Entry)
    requires IsRun(p, h) && IsResume(h, b, e, q) && Covers(h, k, e, q, x.id) && b < k < e && k <= n <= e
    ensures Brought(h, b + 1, n, OverdueRow(q, x)) == if k < n && WasOverdue(h, b, k, x) then 1 else 0
  {
    var t := OverdueRow(q, x);
    StepOf(p, h, b);
    StepOf(p, h, k);
    ResumeGoesOn(p, h, b, k, q);
    ResumeGoesOn(p, h, b, e, q);
    ScannedOnce(p, h, e, q, x.id);
    forall i | b < i < e && i != k ensures Brings(h.steps[i], t) == 0 {
      OtherPages(p, h, b, e, q, k, i, x);
    }
    PageOnce(h.states[k].db.rows, h.states[k].freeze.resumes[q].now, h.steps[k].f.ids, h.steps[k].f.overdue, x);
    BroughtByPage(h, b + 1, n, k, t);
  }

  lemma VisitsOf(p: Params, h: History, b: nat, e: nat, q: nat, k: nat, x: Entry)
    requires IsRun(p, h) && IsResume(h, b, e, q) && Covers(h, k, e, q, x.id) && b < k < e
    ensures WasOverdue(h, b, k, x) ==> OnceAfter(h, b + 1, e, k, OverdueRow(q, x))
    ensures !WasOverdue(h, b, k, x) ==> forall i :: b < i < e ==> !Does(h.states[i], h.steps[i], OverdueRow(q, x))
  {
    var t := OverdueRow(q, x);
    StepOf(p, h, b);
    StepOf(p, h, e);
    TimesBrought(p, h, b, e, e, q, k, x);
    NothingIsPassedOver(p, h, b + 1, e, t);
    NotDone(h, b + 1, e, t);
    if WasOverdue(h, b, k, x) {
      var i := TheOneStep(h, b + 1, e, t);
      TimesBrought(p, h, b, e, k, q, k, x);
      NothingIsPassedOver(p, h, b + 1, k, t);
      NotDone(h, b + 1, k, t);
      assert h.steps[k] != OfFreeze(ResumeSkip(q));
      assert k < i && DoneOnceAt(h, b + 1, e, t, i);
    }
  }
}
