/**
 * Runs in which a promise fails, one for each condition the theorems ask for. All of them start with one
 * schedule of one task, due at time 0.
 */
module Witness {
  import opened Records
  import opened Store
  import opened Protocol
  import opened Finish
  import opened Polls
  import opened Ownership
  import opened Lease

  const ROW := Row("t", Interval(1), "UTC", Some(0), None, None, 0, 0, None, 0, None, false, false)
  const LOCKED := ROW.(lockedAt := Some(0))
  const OPEN := Freeze(false, 0, map[])

  function Start(task: Task): Sys {
    Sys(0, Db(map["t" := task], map["a" := ROW], map[]), true, Work(0, map[]),
        Polling(map[], {}, None, map[]), None, OPEN, Past(map[]))
  }

  function Last(h: History): Sys
    requires |h.states| > 0
  {
    h.states[|h.states| - 1]
  }

  // ---- building histories ----

  /** What an accepted run can be like: its task's `timeoutMs` and its poll interval. */
  type Settings = iset<(Option<int>, nat)>

  ghost predicate Accepts(ok: Settings, ars: Asyncs) {
    forall r :: r in ars ==> (ars[r].task.timeoutMs, ars[r].pollMs) in ok
  }

  /** A timely history without late cancels in which all accepted runs have the settings allowed. */
  ghost predicate IsAllowedRun(p: Params, tm: Timing, ok: Settings, h: History) {
    && IsTimelyRun(p, tm, h) && NoLate(h, |h.steps|)
    && forall k :: 0 <= k < |h.states| ==> Accepts(ok, h.states[k].poll.asyncRuns)
  }

  /** The step leads from `st` to `st'` and the environment keeps its promises there. */
  ghost predicate Leads(p: Params, tm: Timing, st: Sys, step: Step, st': Sys) {
    Next(p, st, step, st') && Timely(tm, st')
  }

  lemma ExtendedIsRun(p: Params, h: History, step: Step, st': Sys)
    requires IsRun(p, h) && Next(p, Last(h), step, st')
    ensures IsRun(p, History(h.states + [st'], h.steps + [step]))
  {
    var h' := History(h.states + [st'], h.steps + [step]);
    forall k | 0 <= k < |h'.steps| ensures Next(p, h'.states[k], h'.steps[k], h'.states[k + 1]) {
      if k < |h.steps| {
        StepOf(p, h, k);
      }
    }
  }

  lemma Onward(p: Params, tm: Timing, h: History, step: Step, st': Sys) returns (h': History)
    requires IsTimelyRun(p, tm, h) && Leads(p, tm, Last(h), step, st')
    ensures IsTimelyRun(p, tm, h') && Last(h') == st' && h' == History(h.states + [st'], h.steps + [step])
  {
    h' := History(h.states + [st'], h.steps + [step]);
    ExtendedIsRun(p, h, step, st');
    forall k | 0 <= k < |h'.states| ensures Timely(tm, h'.states[k]) {
      if k < |h.states| {
        assert h'.states[k] == h.states[k];
      }
    }
  }

  lemma Extended(p: Params, tm: Timing, ok: Settings, h: History, step: Step, st': Sys) returns (h': History)
    requires IsAllowedRun(p, tm, ok, h) && Leads(p, tm, Last(h), step, st')
    requires Accepts(ok, st'.poll.asyncRuns) && !IsLate(Last(h), step)
    ensures IsAllowedRun(p, tm, ok, h') && Last(h') == st'
  {
    h' := Onward(p, tm, h, step, st');
    forall k | 0 <= k < |h'.states| ensures Accepts(ok, h'.states[k].poll.asyncRuns) {
      if k < |h.states| {
        assert h'.states[k] == h.states[k];
      }
    }
    forall k | 0 <= k < |h'.steps| ensures !IsLate(h'.states[k], h'.steps[k]) {
      if k < |h.steps| {
        assert h'.states[k] == h.states[k] && h'.steps[k] == h.steps[k];
      }
    }
  }

  lemma OneEntry(rows: Rows, row: Row, now: int)
    requires rows == map["a" := row]
    ensures Due(rows, "a", now) ==> IsDueList(rows, now, [Entry("a", row)])
    ensures Overdue(row, now) ==> IsOverdueList(rows, now, [Entry("a", row)])
  {
    var s := [Entry("a", row)];
    forall id | id in rows ensures exists k :: 0 <= k < |s| && s[k].id == id {
      assert s[0].id == id;
    }
  }

  lemma FreeTask(rows: Rows, row: Row)
    requires rows == map["a" := row] && !row.Locked()
    ensures !TaskBusy(rows, "t")
  {
  }

  // ---- one claim ----

  /** The tick has read the schedule. */
  function Ticking(task: Task): Sys {
    Start(task).(tick := Some(Tick(0, 0, [Entry("a", ROW)], [])))
  }

  /** The schedule has passed the generation check. */
  function Checked(task: Task, clock: int): Sys {
    Start(task).(clock := clock, tick := Some(Tick(0, 0, [], [Ready("a", ROW, task)])))
  }

  /** The run of the schedule is in this phase, and has been claimed at clock `age`. */
  function Busy(task: Task, age: int, clock: int, phase: Phase): Sys {
    Sys(clock, Db(map["t" := task], map["a" := LOCKED], if phase.Claimed? then map[] else RunAs(Running)), true,
        Work(1, map[0 := Job("a", ROW, task, phase, age)]), Polling(map[], {}, None, map[]),
        None, OPEN, Past(map["a" := 0]))
  }

  function RunAs(status: Status): map<RunId, Run> {
    map[0 := Run("a", 1, None, status, false)]
  }

  lemma TickMoves(p: Params, tm: Timing, task: Task)
    ensures Leads(p, tm, Start(task), OfTick(TickBegin(0, [Entry("a", ROW)])), Ticking(task))
    ensures Leads(p, tm, Ticking(task), OfTick(TickCheck(0)), Checked(task, 0))
  {
    FreeTask(map["a" := ROW], ROW);
    OneEntry(map["a" := ROW], ROW, 0);
    assert RemoveAt([Entry("a", ROW)], 0) == [];
    assert [] + [Ready("a", ROW, task)] == [Ready("a", ROW, task)];
  }

  lemma ClaimMoves(p: Params, tm: Timing, task: Task, age: nat)
    requires age <= tm.s && !task.paused
    ensures Leads(p, tm, Checked(task, 0), Advance(age), Checked(task, age))
    ensures Leads(p, tm, Checked(task, age),
                  OfTick(Dispatch(0)), Busy(task, age, age, Claimed).(tick := Some(Tick(0, 0, [], []))))
    ensures Leads(p, tm, Busy(task, age, age, Claimed).(tick := Some(Tick(0, 0, [], []))),
                  OfTick(TickEnd), Busy(task, age, age, Claimed))
  {
    FreeTask(map["a" := ROW], ROW);
    assert RemoveAt([Ready("a", ROW, task)], 0) == [];
    assert Claim(map["a" := ROW], "a", 0) == map["a" := LOCKED];
    assert map[][0 := Job("a", ROW, task, Claimed, age)] == map[0 := Job("a", ROW, task, Claimed, age)];
    assert map[]["a" := 0] == map["a" := 0];
  }

  lemma StartsAllowed(p: Params, tm: Timing, ok: Settings, task: Task)
    ensures IsAllowedRun(p, tm, ok, History([Start(task)], []))
  {
  }

  /** The schedule has passed the generation check, and the tick is `age` old. */
  lemma CheckedRun(p: Params, tm: Timing, ok: Settings, task: Task, age: nat) returns (h: History)
    requires age <= tm.s && !task.paused
    ensures IsAllowedRun(p, tm, ok, h) && Last(h) == Checked(task, age)
  {
    h := History([Start(task)], []);
    StartsAllowed(p, tm, ok, task);
    TickMoves(p, tm, task);
    ClaimMoves(p, tm, task, age);
    h := Extended(p, tm, ok, h, OfTick(TickBegin(0, [Entry("a", ROW)])), Ticking(task));
    h := Extended(p, tm, ok, h, OfTick(TickCheck(0)), Checked(task, 0));
    h := Extended(p, tm, ok, h, Advance(age), Checked(task, age));
  }

  /**
   * A run that claims the schedule at clock `age` with the tick's time 0, and stays at it as long as the heartbeat
   * lets it.
   */
  lemma ClaimedRun(p: Params, tm: Timing, ok: Settings, task: Task, age: nat, wait: nat) returns (h: History)
    requires age <= tm.s && wait <= tm.h && !task.paused
    ensures IsAllowedRun(p, tm, ok, h) && Last(h) == Busy(task, age, age + wait, Claimed)
  {
    h := CheckedRun(p, tm, ok, task, age);
    ClaimMoves(p, tm, task, age);
    h := Extended(p, tm, ok, h, OfTick(Dispatch(0)), Busy(task, age, age, Claimed).(tick := Some(Tick(0, 0, [], []))));
    h := Extended(p, tm, ok, h, OfTick(TickEnd), Busy(task, age, age, Claimed));
    h := Extended(p, tm, ok, h, Advance(wait), Busy(task, age, age + wait, Claimed));
  }

  /** The watchdog, run now, would release the lock of a run in flight. */
  predicate ReapsLive(p: Params, st: Sys, r: RunId) {
    && st.up && InFlight(st.work.jobs, st.poll.asyncRuns, r)
    && var id := IdOf(st.work.jobs, st.poll.asyncRuns, r);
       id in st.db.rows && st.db.rows[id].Locked() && !DoReap(p, st, st.clock).db.rows[id].Locked()
  }

  /** The lock is stamped with the tick's time, so a late claim ages before its first heartbeat. */
  lemma LateClaimIsReaped(p: Params, tm: Timing) returns (h: History)
    requires tm.s + tm.h > p.ttl
    ensures IsAllowedRun(p, tm, iset{}, h) && ReapsLive(p, Last(h), 0)
  {
    h := ClaimedRun(p, tm, iset{}, Task(None, None, false), tm.s, tm.h);
  }

  // ---- one accepted run ----

  function Plain(timeoutMs: Option<int>): Task {
    Task(timeoutMs, None, false)
  }

  /** An accepted run is all there is; its schedule was claimed with the tick's time 0. */
  function Out(task: Task, clock: int, status: Status, row: Row, poll: Polling): Sys {
    Sys(clock, Db(map["t" := task], map["a" := row], RunAs(status)), true, Work(1, map[]), poll, None, OPEN, Past(map["a" := 0]))
  }

  /** A run accepted at `from`, polled last at `last` and looked at last at `seen`. */
  function Waiting(task: Task, w: nat, from: int, last: int, seen: int): AsyncRun {
    AsyncRun("a", ROW, task, false, false, false, w, last + w, from, if last == from then None else Some(last), seen, None, 0, 0, 0, 0, false)
  }

  function Queue(ar: AsyncRun): Polling {
    Polling(map[0 := ar], {0}, None, map[])
  }

  function Passing(ar: AsyncRun, at: int, todo: seq<RunId>, cur: Visit): Polling {
    Polling(map[0 := ar], {0}, Some(Pass(at, todo, cur)), map[])
  }

  lemma AcceptMoves(p: Params, tm: Timing, task: Task, age: nat, clock: nat, w: nat)
    requires clock <= age + tm.h
    ensures Leads(p, tm, Busy(task, age, clock, Claimed), OfRun(CreateRun(0)), Busy(task, age, clock, Started))
    ensures Leads(p, tm, Busy(task, age, clock, Started),
                  OfRun(Settle(0, Accept(w, false))), Busy(task, age, clock, Accepted(w, false)))
  {
    assert map[][0 := Run("a", 1, None, Running, false)] == RunAs(Running);
    assert map[0 := Job("a", ROW, task, Claimed, age)][0 := Job("a", ROW, task, Started, age)] == map[0 := Job("a", ROW, task, Started, age)];
    assert map[0 := Job("a", ROW, task, Started, age)][0 := Job("a", ROW, task, Accepted(w, false), age)]
        == map[0 := Job("a", ROW, task, Accepted(w, false), age)];
  }

  lemma EnqueueMove(p: Params, tm: Timing, task: Task, age: nat, clock: nat, w: nat)
    ensures Leads(p, tm, Busy(task, age, clock, Accepted(w, false)), OfRun(Enqueue(0)),
                 Out(task, clock, Queued, LOCKED, Queue(Waiting(task, w, clock, clock, clock))))
  {
    assert RunAs(Running)[0 := Run("a", 1, None, Queued, false)] == RunAs(Queued);
    assert map[0 := Job("a", ROW, task, Accepted(w, false), age)] - {0} == map[];
    assert map[][0 := Waiting(task, w, clock, clock, clock)] == map[0 := Waiting(task, w, clock, clock, clock)];
    assert {} + {0} == {0};
  }

  lemma AcceptedRun(p: Params, tm: Timing, ok: Settings, task: Task, w: nat, age: nat, wait: nat) returns (h: History)
    requires age <= tm.s && wait <= tm.h && !task.paused && (task.timeoutMs, w) in ok
    ensures IsAllowedRun(p, tm, ok, h)
    ensures Last(h) == Out(task, age + wait, Queued, LOCKED, Queue(Waiting(task, w, age + wait, age + wait, age + wait)))
  {
    var clock := age + wait;
    h := ClaimedRun(p, tm, ok, task, age, wait);
    AcceptMoves(p, tm, task, age, clock, w);
    EnqueueMove(p, tm, task, age, clock, w);
    h := Extended(p, tm, ok, h, OfRun(CreateRun(0)), Busy(task, age, clock, Started));
    h := Extended(p, tm, ok, h, OfRun(Settle(0, Accept(w, false))), Busy(task, age, clock, Accepted(w, false)));
    h := Extended(p, tm, ok, h, OfRun(Enqueue(0)),
             Out(task, clock, Queued, LOCKED, Queue(Waiting(task, w, clock, clock, clock))));
  }

  lemma PassBeginMove(p: Params, tm: Timing, task: Task, clock: int, status: Status, ar: AsyncRun)
    requires ar.since.None? ==> clock <= ar.seen + tm.l
    requires ar.since.Some? ==> clock <= ar.since.value + tm.d
    ensures Leads(p, tm, Out(task, clock, status, LOCKED, Queue(ar)),
                  OfPass(PassBegin(clock, [0])), Out(task, clock, status, LOCKED, Passing(ar, clock, [0], Idle)))
  {
  }

  lemma GlanceMoves(p: Params, tm: Timing, task: Task, clock: int, status: Status, w: nat, from: int, last: int, seen: int)
    requires clock < last + w
    ensures var ar, ar' := Waiting(task, w, from, last, seen), Waiting(task, w, from, last, clock);
            && Leads(p, tm, Out(task, clock, status, LOCKED, Passing(ar, clock, [0], Idle)), OfPass(PassVisit),
                    Out(task, clock, status, LOCKED, Passing(ar', clock, [], Idle)))
            && Leads(p, tm, Out(task, clock, status, LOCKED, Passing(ar', clock, [], Idle)), OfPass(PassEnd),
                    Out(task, clock, status, LOCKED, Queue(ar')))
  {
    var ar := Waiting(task, w, from, last, seen);
    assert map[0 := ar][0 := ar.(seen := clock)] == map[0 := Waiting(task, w, from, last, clock)];
    assert [0][1..] == [];
  }

  lemma Glance(p: Params, tm: Timing, ok: Settings, h: History, task: Task, status: Status, w: nat, from: int, last: int, clock: int)
    returns (h': History)
    requires IsAllowedRun(p, tm, ok, h) && Last(h) == Out(task, clock, status, LOCKED, Queue(Waiting(task, w, from, last, clock)))
    requires (task.timeoutMs, w) in ok && tm.l >= 1 && clock + 1 < last + w
    ensures IsAllowedRun(p, tm, ok, h')
    ensures Last(h') == Out(task, clock + 1, status, LOCKED, Queue(Waiting(task, w, from, last, clock + 1)))
  {
    var ar, ar' := Waiting(task, w, from, last, clock), Waiting(task, w, from, last, clock + 1);
    h' := Looking(p, tm, ok, h, task, status, clock, clock + 1, ar);
    GlanceMoves(p, tm, task, clock + 1, status, w, from, last, clock);
    h' := Extended(p, tm, ok, h', OfPass(PassVisit), Out(task, clock + 1, status, LOCKED, Passing(ar', clock + 1, [], Idle)));
    h' := Extended(p, tm, ok, h', OfPass(PassEnd), Out(task, clock + 1, status, LOCKED, Queue(ar')));
  }

  /** The clock goes on and a pass begins. */
  lemma Looking(p: Params, tm: Timing, ok: Settings, h: History, task: Task, status: Status, clock: int, clock': int, ar: AsyncRun)
    returns (h': History)
    requires IsAllowedRun(p, tm, ok, h) && Last(h) == Out(task, clock, status, LOCKED, Queue(ar))
    requires (ar.task.timeoutMs, ar.pollMs) in ok && clock <= clock' <= ar.seen + tm.l && ar.since.None?
    ensures IsAllowedRun(p, tm, ok, h') && Last(h') == Out(task, clock', status, LOCKED, Passing(ar, clock', [0], Idle))
  {
    PassBeginMove(p, tm, task, clock', status, ar);
    h' := Extended(p, tm, ok, h, Advance(clock' - clock), Out(task, clock', status, LOCKED, Queue(ar)));
    h' := Extended(p, tm, ok, h', OfPass(PassBegin(clock', [0])),
             Out(task, clock', status, LOCKED, Passing(ar, clock', [0], Idle)));
  }

  /** The pass looks at the run once a moment, `n` times, before it is due. */
  lemma {:induction false} Glances(p: Params, tm: Timing, ok: Settings, h: History, task: Task, status: Status,
                                   w: nat, from: int, last: int, clock: int, n: nat)
    returns (h': History)
    requires IsAllowedRun(p, tm, ok, h) && Last(h) == Out(task, clock, status, LOCKED, Queue(Waiting(task, w, from, last, clock)))
    requires (task.timeoutMs, w) in ok && tm.l >= 1 && (n > 0 ==> clock + n < last + w)
    ensures IsAllowedRun(p, tm, ok, h')
    ensures Last(h') == Out(task, clock + n, status, LOCKED, Queue(Waiting(task, w, from, last, clock + n)))
    decreases n
  {
    h' := h;
    if n > 0 {
      h' := Glance(p, tm, ok, h, task, status, w, from, last, clock);
      h' := Glances(p, tm, ok, h', task, status, w, from, last, clock + 1, n - 1);
    }
  }

  lemma AskMove(p: Params, tm: Timing, task: Task, clock: int, status: Status, ar: AsyncRun)
    requires ar.nextPollAt <= clock && !TimedOut(p, ar, clock) && ar.since.None?
    ensures Leads(p, tm, Out(task, clock, status, LOCKED, Passing(ar, clock, [0], Idle)), OfPass(PassVisit),
                 Out(task, clock, status, LOCKED, Passing(ar.(seen := clock, asked := Some(clock)), clock, [0], Asking(0))))
  {
    assert map[0 := ar][0 := ar.(seen := clock, asked := Some(clock))] == map[0 := ar.(seen := clock, asked := Some(clock))];
  }

  lemma AnswerMoves(p: Params, tm: Timing, task: Task, clock: int, status: Status, ar: AsyncRun)
    requires ar.seen == clock && ar.since.None?
    ensures var ar' := ar.(nextPollAt := clock + ar.pollMs);
            && Leads(p, tm, Out(task, clock, status, LOCKED, Passing(ar, clock, [0], Asking(0))), OfPass(PassAnswer(InProgress(Running))),
                    Out(task, clock, Running, LOCKED, Passing(ar', clock, [], Idle)))
            && Leads(p, tm, Out(task, clock, Running, LOCKED, Passing(ar', clock, [], Idle)), OfPass(PassEnd),
                    Out(task, clock, Running, LOCKED, Queue(ar')))
  {
    var ar' := ar.(nextPollAt := clock + ar.pollMs);
    assert map[0 := ar][0 := ar'] == map[0 := ar'];
    assert RunAs(status)[0 := Run("a", 1, None, Running, false)] == RunAs(Running);
    assert [0][1..] == [];
  }

  /** The worker is polled `g` after the last poll and is still at it. */
  lemma Polled(p: Params, tm: Timing, ok: Settings, h: History, task: Task, status: Status, w: nat, from: int, last: int, g: nat)
    returns (h': History)
    requires IsAllowedRun(p, tm, ok, h) && Last(h) == Out(task, last, status, LOCKED, Queue(Waiting(task, w, from, last, last)))
    requires (task.timeoutMs, w) in ok && tm.l >= 1 && from <= last && Rest(w) + 1 <= g <= Rest(w) + tm.l
    requires Ceiling(p, task).Some? ==> last + g - from < Ceiling(p, task).value
    ensures IsAllowedRun(p, tm, ok, h')
    ensures Last(h') == Out(task, last + g, Running, LOCKED, Queue(Waiting(task, w, from, last + g, last + g)))
  {
    h' := Glances(p, tm, ok, h, task, status, w, from, last, last, Rest(w));
    h' := Asked(p, tm, ok, h', task, status, w, from, last, last + Rest(w), last + g);
  }

  lemma Asked(p: Params, tm: Timing, ok: Settings, h: History, task: Task, status: Status, w: nat, from: int, last: int, seen: int, clock: int)
    returns (h': History)
    requires IsAllowedRun(p, tm, ok, h) && Last(h) == Out(task, seen, status, LOCKED, Queue(Waiting(task, w, from, last, seen)))
    requires (task.timeoutMs, w) in ok && from <= last <= seen && last + w <= clock && seen < clock <= seen + tm.l
    requires Ceiling(p, task).Some? ==> clock - from < Ceiling(p, task).value
    ensures IsAllowedRun(p, tm, ok, h')
    ensures Last(h') == Out(task, clock, Running, LOCKED, Queue(Waiting(task, w, from, clock, clock)))
  {
    var ar := Waiting(task, w, from, last, seen);
    var asked := ar.(seen := clock, asked := Some(clock));
    h' := Looking(p, tm, ok, h, task, status, seen, clock, ar);
    AskMove(p, tm, task, clock, status, ar);
    h' := Extended(p, tm, ok, h', OfPass(PassVisit), Out(task, clock, status, LOCKED, Passing(asked, clock, [0], Asking(0))));
    h' := Answered(p, tm, ok, h', task, status, clock, asked);
  }

  lemma Answered(p: Params, tm: Timing, ok: Settings, h: History, task: Task, status: Status, clock: int, asked: AsyncRun)
    returns (h': History)
    requires IsAllowedRun(p, tm, ok, h) && Last(h) == Out(task, clock, status, LOCKED, Passing(asked, clock, [0], Asking(0)))
    requires (asked.task.timeoutMs, asked.pollMs) in ok && asked.seen == clock && asked.since.None?
    ensures IsAllowedRun(p, tm, ok, h')
    ensures Last(h') == Out(task, clock, Running, LOCKED, Queue(asked.(nextPollAt := clock + asked.pollMs)))
  {
    var w := asked.pollMs;
    AnswerMoves(p, tm, task, clock, status, asked);
    h' := Extended(p, tm, ok, h, OfPass(PassAnswer(InProgress(Running))),
                   Out(task, clock, Running, LOCKED, Passing(asked.(nextPollAt := clock + w), clock, [], Idle)));
    h' := Extended(p, tm, ok, h', OfPass(PassEnd), Out(task, clock, Running, LOCKED, Queue(asked.(nextPollAt := clock + w))));
  }

  lemma TimesOneMore(m: nat, u: nat)
    requires m > 0
    ensures m * u == (m - 1) * u + u
  {
  }

  /** The first of `m` beats that add up to `off`. */
  lemma FirstBeat(m: nat, w: nat, l: nat, off: nat) returns (g: nat)
    requires m > 0 && l >= 1 && Beats(m, w, l, off)
    ensures Rest(w) + 1 <= g <= Rest(w) + l && g <= off && Beats(m - 1, w, l, off - g)
  {
    var u, v := Rest(w) + 1, Rest(w) + l;
    TimesOneMore(m, u);
    TimesOneMore(m, v);
    TimesLeq(u, v, m - 1);
    g := FirstOf((m - 1) * u, (m - 1) * v, u, v, off);
  }

  lemma FirstOf(a: nat, b: nat, u: nat, v: nat, off: nat) returns (g: nat)
    requires a <= b && u <= v && a + u <= off <= b + v
    ensures u <= g <= v && g <= off && a <= off - g <= b
  {
    g := if off - a <= v then off - a else v;
  }

  /** The first of `m` polls. */
  lemma FirstPolled(p: Params, tm: Timing, ok: Settings, h: History, task: Task, status: Status, w: nat, from: int, last: int, m: nat, off: nat)
    returns (h': History, g: nat)
    requires IsAllowedRun(p, tm, ok, h) && Last(h) == Out(task, last, status, LOCKED, Queue(Waiting(task, w, from, last, last)))
    requires (task.timeoutMs, w) in ok && tm.l >= 1 && from <= last && m > 0 && Beats(m, w, tm.l, off)
    requires Ceiling(p, task).Some? ==> last + off - from < Ceiling(p, task).value
    ensures IsAllowedRun(p, tm, ok, h') && g <= off && Beats(m - 1, w, tm.l, off - g)
    ensures Last(h') == Out(task, last + g, Running, LOCKED, Queue(Waiting(task, w, from, last + g, last + g)))
  {
    g := FirstBeat(m, w, tm.l, off);
    h' := Polled(p, tm, ok, h, task, status, w, from, last, g);
  }

  lemma SomeBeats(m: nat, w: nat, l: nat, off: nat)
    requires Beats(m, w, l, off)
    ensures m > 0 <==> off > 0
  {
    if m > 0 { TimesLeq(1, m, Rest(w) + 1); }
  }

  /** Any number of polls can be spread so that the last one comes `off` after the one before the first. */
  lemma {:induction false} PolledFor(p: Params, tm: Timing, ok: Settings, h: History, task: Task, status: Status,
                                     w: nat, from: int, last: int, m: nat, off: nat)
    returns (h': History, status': Status)
    requires IsAllowedRun(p, tm, ok, h) && Last(h) == Out(task, last, status, LOCKED, Queue(Waiting(task, w, from, last, last)))
    requires (task.timeoutMs, w) in ok && tm.l >= 1 && from <= last && Beats(m, w, tm.l, off)
    requires Ceiling(p, task).Some? && off > 0 ==> last + off - from < Ceiling(p, task).value
    ensures IsAllowedRun(p, tm, ok, h')
    ensures Last(h') == Out(task, last + off, status', LOCKED, Queue(Waiting(task, w, from, last + off, last + off)))
    decreases m
  {
    h', status' := h, status;
    SomeBeats(m, w, tm.l, off);
    if m > 0 {
      var g: nat;
      h', g := FirstPolled(p, tm, ok, h', task, status, w, from, last, m, off);
      h', status' := PolledFor(p, tm, ok, h', task, Running, w, from, last + g, m - 1, off - g);
    }
  }

  // ---- the longest life of an accepted run ----

  /** The polls that bring the last one as late as it can be. */
  lemma LastPollIsReached(t: int, w: nat, l: nat) returns (m: nat)
    requires l >= 1
    ensures Beats(m, w, l, LastPoll(t, w, l)) && (LastPoll(t, w, l) > 0 ==> LastPoll(t, w, l) < t)
  {
    if t <= 1 {
      m := 0;
    } else {
      m := (t - 1) / (Rest(w) + 1);
      TimesLeq(Rest(w) + 1, Rest(w) + l, m);
    }
  }

  function CancelledAt(ar: AsyncRun, clock: int): AsyncRun {
    ar.(cancelSignaled := true, finishing := true, since := Some(clock), claims := 1)
  }

  /** A user cancels the run, and its completion takes its time. */
  function Closing(task: Task, clock: int, status: Status, ar: AsyncRun, at: int): Sys {
    Out(task, clock, status, LOCKED, Polling(map[0 := ar], {}, None, map[0 := CancelSignalling(at)]))
  }

  lemma CancelMove(p: Params, tm: Timing, task: Task, clock: int, status: Status, w: nat, from: int, last: int, seen: int)
    ensures var ar := Waiting(task, w, from, last, seen);
            Leads(p, tm, Out(task, clock, status, LOCKED, Queue(ar)), OfCancel(CancelBegin(0)),
                  Closing(task, clock, status, CancelledAt(ar, clock), clock))
  {
    var ar := Waiting(task, w, from, last, seen);
    assert map[0 := ar][0 := CancelledAt(ar, clock)] == map[0 := CancelledAt(ar, clock)];
    assert {0} - {0} == {};
    assert map[][0 := CancelSignalling(clock)] == map[0 := CancelSignalling(clock)];
  }

  lemma Closed(p: Params, tm: Timing, ok: Settings, h: History, task: Task, status: Status, w: nat, from: int, last: int, seen: int, clock: int)
    returns (h': History)
    requires IsAllowedRun(p, tm, ok, h) && Last(h) == Out(task, seen, status, LOCKED, Queue(Waiting(task, w, from, last, seen)))
    requires (task.timeoutMs, w) in ok && seen <= clock <= seen + tm.l
    ensures IsAllowedRun(p, tm, ok, h')
    ensures Last(h') == Closing(task, clock + tm.d, status, CancelledAt(Waiting(task, w, from, last, seen), clock), clock)
  {
    var ar := Waiting(task, w, from, last, seen);
    CancelMove(p, tm, task, clock, status, w, from, last, seen);
    h' := Extended(p, tm, ok, h, Advance(clock - seen), Out(task, clock, status, LOCKED, Queue(ar)));
    h' := Extended(p, tm, ok, h', OfCancel(CancelBegin(0)), Closing(task, clock, status, CancelledAt(ar, clock), clock));
    h' := Extended(p, tm, ok, h', Advance(tm.d), Closing(task, clock + tm.d, status, CancelledAt(ar, clock), clock));
  }

  /**
   * The bound of `Polls.AcceptedRunsEnd` is reached, for every setting and interval: a run claimed as late and
   * accepted as late as can be, polled as late as can be, and decided and completed as late as can be.
   */
  lemma LongestRun(p: Params, tm: Timing, timeoutMs: Option<int>, w: nat) returns (h: History)
    requires Life(CeilingFor(p, timeoutMs), w, tm.l).Some?
    ensures IsAllowedRun(p, tm, iset{(timeoutMs, w)}, h)
    ensures var st := Last(h);
            && 0 in st.poll.asyncRuns && Open(st.poll.asyncRuns[0]) && st.poll.asyncRuns[0].acceptedAt == tm.s + tm.h
            && st.clock == tm.s + tm.h + Life(CeilingFor(p, timeoutMs), w, tm.l).value + tm.d
            && st.up && st.poll.asyncRuns[0].id == "a" && 0 !in st.work.jobs && st.db.rows == map["a" := LOCKED]
  {
    var task, from, ok := Plain(timeoutMs), tm.s + tm.h, iset{(timeoutMs, w)};
    h := AcceptedRun(p, tm, ok, task, w, tm.s, tm.h);
    if tm.l == 0 {
      h := Closed(p, tm, ok, h, task, Queued, w, from, from, from, from);
    } else {
      var status: Status;
      h, status := LateDecision(p, tm, ok, h, task, w, from);
    }
  }

  lemma LateDecision(p: Params, tm: Timing, ok: Settings, h: History, task: Task, w: nat, from: int)
    returns (h': History, status: Status)
    requires IsAllowedRun(p, tm, ok, h) && Last(h) == Out(task, from, Queued, LOCKED, Queue(Waiting(task, w, from, from, from)))
    requires (task.timeoutMs, w) in ok && tm.l >= 1 && Ceiling(p, task).Some?
    ensures IsAllowedRun(p, tm, ok, h')
    ensures var last := from + LastPoll(Ceiling(p, task).value, w, tm.l);
            var clock := last + Rest(w) + tm.l;
            Last(h') == Closing(task, clock + tm.d, status, CancelledAt(Waiting(task, w, from, last, last + Rest(w)), clock), clock)
  {
    h', status := LatestPoll(p, tm, ok, h, task, w, from);
    h' := LateClose(p, tm, ok, h', task, status, w, from, from + LastPoll(Ceiling(p, task).value, w, tm.l));
  }

  lemma LatestPoll(p: Params, tm: Timing, ok: Settings, h: History, task: Task, w: nat, from: int) returns (h': History, status: Status)
    requires IsAllowedRun(p, tm, ok, h) && Last(h) == Out(task, from, Queued, LOCKED, Queue(Waiting(task, w, from, from, from)))
    requires (task.timeoutMs, w) in ok && tm.l >= 1 && Ceiling(p, task).Some?
    ensures IsAllowedRun(p, tm, ok, h')
    ensures var last := from + LastPoll(Ceiling(p, task).value, w, tm.l);
            Last(h') == Out(task, last, status, LOCKED, Queue(Waiting(task, w, from, last, last)))
  {
    var t := Ceiling(p, task).value;
    var m := LastPollIsReached(t, w, tm.l);
    h', status := PolledFor(p, tm, ok, h, task, Queued, w, from, from, m, LastPoll(t, w, tm.l));
  }

  lemma LateClose(p: Params, tm: Timing, ok: Settings, h: History, task: Task, status: Status, w: nat, from: int, last: int)
    returns (h': History)
    requires IsAllowedRun(p, tm, ok, h) && Last(h) == Out(task, last, status, LOCKED, Queue(Waiting(task, w, from, last, last)))
    requires (task.timeoutMs, w) in ok && tm.l >= 1
    ensures IsAllowedRun(p, tm, ok, h')
    ensures var clock := last + Rest(w) + tm.l;
            Last(h') == Closing(task, clock + tm.d, status, CancelledAt(Waiting(task, w, from, last, last + Rest(w)), clock), clock)
  {
    h' := Glances(p, tm, ok, h, task, status, w, from, last, last, Rest(w));
    h' := Closed(p, tm, ok, h', task, status, w, from, last, last + Rest(w), last + Rest(w) + tm.l);
  }

  /** A run without a ceiling, polled `n` times and still going. */
  lemma UnlimitedRun(p: Params, tm: Timing, timeoutMs: Option<int>, w: nat, n: nat) returns (h: History, status: Status)
    requires CeilingFor(p, timeoutMs).None? && tm.l >= 1
    ensures IsAllowedRun(p, tm, iset{(timeoutMs, w)}, h)
    ensures var from := tm.s + tm.h;
            var clock := from + n * (Rest(w) + 1);
            Last(h) == Out(Plain(timeoutMs), clock, status, LOCKED, Queue(Waiting(Plain(timeoutMs), w, from, clock, clock)))
  {
    var task, from, ok := Plain(timeoutMs), tm.s + tm.h, iset{(timeoutMs, w)};
    h := AcceptedRun(p, tm, ok, task, w, tm.s, tm.h);
    TimesLeq(Rest(w) + 1, Rest(w) + tm.l, n);
    assert Beats(n, w, tm.l, n * (Rest(w) + 1));
    h, status := PolledFor(p, tm, ok, h, task, Queued, w, from, from, n, n * (Rest(w) + 1));
  }

  /**
   * For every setting and interval that do not fit there is a run of exactly that kind that loses its lock to the
   * watchdog while it is in flight.
   */
  lemma UnfitRunIsReaped(p: Params, tm: Timing, timeoutMs: Option<int>, w: nat) returns (h: History)
    requires !FitsAccepted(p, tm, timeoutMs, w)
    ensures IsAllowedRun(p, tm, iset{(timeoutMs, w)}, h) && ReapsLive(p, Last(h), 0)
  {
    if Life(CeilingFor(p, timeoutMs), w, tm.l).Some? {
      h := LongestRun(p, tm, timeoutMs, w);
    } else {
      var n := if p.ttl < 0 then 0 else p.ttl + 1;
      var status: Status;
      h, status := UnlimitedRun(p, tm, timeoutMs, w, n);
      TimesLeq(1, Rest(w) + 1, n);
    }
  }

  lemma AllowedMore(p: Params, tm: Timing, ok: Settings, ok': Settings, h: History)
    requires IsAllowedRun(p, tm, ok, h) && ok <= ok'
    ensures IsAllowedRun(p, tm, ok', h)
  {
    forall k | 0 <= k < |h.states| ensures Accepts(ok', h.states[k].poll.asyncRuns) {
      assert Accepts(ok, h.states[k].poll.asyncRuns);
    }
  }

  lemma AllowedIsOrderly(p: Params, tm: Timing, ok: Settings, h: History)
    requires IsAllowedRun(p, tm, ok, h) && (forall t, w :: (t, w) in ok ==> FitsAccepted(p, tm, t, w))
    ensures IsOrderlyRun(p, tm, h)
  {
    forall k | 0 <= k < |h.states| ensures Capped(p, tm, h.states[k].poll.asyncRuns) {
      assert Accepts(ok, h.states[k].poll.asyncRuns);
    }
  }

  /**
   * Exactly when live locks are safe. For all bounds on the environment, every time to live and every set of settings
   * that accepted runs may have: no timely history without late cancels, with accepted runs of these kinds, gets
   * to a state in which the watchdog would release a live lock, if and only if the age of the tick at a claim and the
   * heartbeat fit together into the time to live, and so do they with the life of every kind and a completion.
   * The engine itself only checks the heartbeat.
   */
  lemma SafeLeaseBound(p: Params, tm: Timing, ok: Settings)
    ensures (forall h, n, r :: IsAllowedRun(p, tm, ok, h) && 0 <= n < |h.states| ==> !ReapsLive(p, h.states[n], r))
            <==> Fits(p, tm) && forall t, w :: (t, w) in ok ==> FitsAccepted(p, tm, t, w)
  {
    if !Fits(p, tm) {
      var h := LateClaimIsReaped(p, tm);
      AllowedMore(p, tm, iset{}, ok, h);
      assert ReapsLive(p, h.states[|h.states| - 1], 0);
    } else if t, w :| (t, w) in ok && !FitsAccepted(p, tm, t, w) {
      var h := UnfitRunIsReaped(p, tm, t, w);
      AllowedMore(p, tm, iset{(t, w)}, ok, h);
      assert ReapsLive(p, h.states[|h.states| - 1], 0);
    } else {
      forall h, n, r | IsAllowedRun(p, tm, ok, h) && 0 <= n < |h.states| ensures !ReapsLive(p, h.states[n], r) {
        if h.states[n].up {
          AllowedIsOrderly(p, tm, ok, h);
          NoLiveLockIsReaped(p, tm, h, n, h.states[n].clock);
        }
      }
    }
  }

  // ---- an accepted run without a ceiling ----

  const UNLIMITED := Plain(Some(-1))
  const REAPED := ROW.(failCount := 1)

  /** The watchdog has released the lock, and a tick has read the schedule again. */
  function Reaped(clock: int, status: Status, tick: Option<Tick>, ar: AsyncRun): Sys {
    Out(UNLIMITED, clock, status, REAPED, Queue(ar)).(tick := tick)
  }

  function Overlapping(clock: int, status: Status, ar: AsyncRun): Sys {
    var st := Out(UNLIMITED, clock, status, REAPED.(lockedAt := Some(clock)), Queue(ar));
    st.(work := Work(2, map[1 := Job("a", REAPED, UNLIMITED, Claimed, clock)]),
        tick := Some(Tick(clock, 0, [], [])), past := Past(map["a" := 1]))
  }

  lemma ReapMove(p: Params, tm: Timing, clock: int, status: Status, ar: AsyncRun)
    requires clock > p.ttl && Timely(tm, Out(UNLIMITED, clock, status, LOCKED, Queue(ar)))
    ensures Leads(p, tm, Out(UNLIMITED, clock, status, LOCKED, Queue(ar)),
                  OfStore(ReapPass(clock)), Reaped(clock, status, None, ar))
  {
    assert Reap(map["a" := LOCKED], clock - p.ttl) == map["a" := REAPED];
  }

  lemma ReadMoves(p: Params, tm: Timing, clock: int, status: Status, ar: AsyncRun)
    requires clock >= 0 && TimelyPolls(tm, clock, map[0 := ar])
    ensures Leads(p, tm, Reaped(clock, status, None, ar), OfTick(TickBegin(clock, [Entry("a", REAPED)])),
                 Reaped(clock, status, Some(Tick(clock, 0, [Entry("a", REAPED)], [])), ar))
    ensures Leads(p, tm, Reaped(clock, status, Some(Tick(clock, 0, [Entry("a", REAPED)], [])), ar), OfTick(TickCheck(0)),
                 Reaped(clock, status, Some(Tick(clock, 0, [], [Ready("a", REAPED, UNLIMITED)])), ar))
  {
    FreeTask(map["a" := REAPED], REAPED);
    OneEntry(map["a" := REAPED], REAPED, clock);
    assert RemoveAt([Entry("a", REAPED)], 0) == [];
    assert [] + [Ready("a", REAPED, UNLIMITED)] == [Ready("a", REAPED, UNLIMITED)];
  }

  lemma SecondClaimMove(p: Params, tm: Timing, clock: int, status: Status, ar: AsyncRun)
    requires TimelyPolls(tm, clock, map[0 := ar])
    ensures Leads(p, tm, Reaped(clock, status, Some(Tick(clock, 0, [], [Ready("a", REAPED, UNLIMITED)])), ar),
                  OfTick(Dispatch(0)), Overlapping(clock, status, ar))
  {
    FreeTask(map["a" := REAPED], REAPED);
    assert RemoveAt([Ready("a", REAPED, UNLIMITED)], 0) == [];
    assert Claim(map["a" := REAPED], "a", clock) == map["a" := REAPED.(lockedAt := Some(clock))];
    assert map[][1 := Job("a", REAPED, UNLIMITED, Claimed, clock)] == map[1 := Job("a", REAPED, UNLIMITED, Claimed, clock)];
    assert map["a" := 0]["a" := 1] == map["a" := 1];
  }

  lemma SecondRun(p: Params, tm: Timing, h: History, clock: int, status: Status, ar: AsyncRun) returns (h': History)
    requires IsTimelyRun(p, tm, h) && Last(h) == Out(UNLIMITED, clock, status, LOCKED, Queue(ar)) && clock > p.ttl && clock >= 0
    ensures IsTimelyRun(p, tm, h') && Last(h') == Overlapping(clock, status, ar)
  {
    assert Timely(tm, Last(h));
    ReapMove(p, tm, clock, status, ar);
    ReadMoves(p, tm, clock, status, ar);
    SecondClaimMove(p, tm, clock, status, ar);
    h' := Onward(p, tm, h, OfStore(ReapPass(clock)), Reaped(clock, status, None, ar));
    h' := Onward(p, tm, h', OfTick(TickBegin(clock, [Entry("a", REAPED)])),
             Reaped(clock, status, Some(Tick(clock, 0, [Entry("a", REAPED)], [])), ar));
    h' := Onward(p, tm, h', OfTick(TickCheck(0)),
             Reaped(clock, status, Some(Tick(clock, 0, [], [Ready("a", REAPED, UNLIMITED)])), ar));
    h' := Onward(p, tm, h', OfTick(Dispatch(0)), Overlapping(clock, status, ar));
  }

  /**
   * A task with `timeoutMs` -1, the default of the task file, has no ceiling: while its worker keeps reporting
   * progress and every pass is on time, its lock is reaped, and the task is dispatched a second time while its
   * first run is still being polled.
   */
  lemma UnlimitedRunOverlaps(p: Params, tm: Timing) returns (h: History)
    requires tm.l >= 1 && p.ttl >= 0
    ensures IsTimelyRun(p, tm, h)
    ensures var st := Last(h);
            && InFlight(st.work.jobs, st.poll.asyncRuns, 0) && InFlight(st.work.jobs, st.poll.asyncRuns, 1)
            && TaskOf(st, 0) == TaskOf(st, 1) == "t"
  {
    var status: Status;
    h, status := UnlimitedRun(p, tm, Some(-1), 1, p.ttl + 1);
    var from := tm.s + tm.h;
    var clock := from + p.ttl + 1;
    h := SecondRun(p, tm, h, clock, status, Waiting(UNLIMITED, 1, from, clock, clock));
  }

  // ---- a late cancel ----

  const WAITING := Waiting(UNLIMITED, 1, 0, 0, 0)
  const ASKED := WAITING.(seen := 1, asked := Some(1))
  const TAKEN := ASKED.(finishing := true, since := Some(1), claims := 1)
  const TWICE := TAKEN.(cancelSignaled := true, claims := 2, raced := true)
  const DONE := LOCKED.(nextRunAt := Some(2), lastRunAt := Some(1), lockedAt := None, lastRunId := Some(0))

  /** The states of the race at clock 1: the run's object, its place in the queue, its two finishers, its status and its row. */
  function Racing(ar: AsyncRun, queue: set<RunId>, pass: Pass, cancels: map<RunId, Cancel>, status: Status, row: Row): Sys {
    Out(UNLIMITED, 1, status, row, Polling(map[0 := ar], queue, Some(pass), cancels))
  }

  function VerdictOf(ok: bool): Outcome { if ok then Succeeded else Failed }

  lemma VerdictMove(p: Params, tm: Timing, ok: bool)
    ensures Leads(p, tm, Out(UNLIMITED, 1, Queued, LOCKED, Passing(ASKED, 1, [0], Asking(0))), OfPass(PassAnswer(Verdict(ok))),
                  Racing(TAKEN, {0}, Pass(1, [0], Finishing(0, VerdictOf(ok), 1)), map[], Queued, LOCKED))
  {
    assert map[0 := ASKED][0 := TAKEN] == map[0 := TAKEN];
  }

  lemma LateCancelMove(p: Params, tm: Timing, ok: bool)
    ensures Leads(p, tm, Racing(TAKEN, {0}, Pass(1, [0], Finishing(0, VerdictOf(ok), 1)), map[], Queued, LOCKED), OfCancel(CancelBegin(0)),
                  Racing(TWICE, {}, Pass(1, [0], Finishing(0, VerdictOf(ok), 1)), map[0 := CancelSignalling(1)], Queued, LOCKED))
  {
    assert map[0 := TAKEN][0 := TWICE] == map[0 := TWICE];
    assert {0} - {0} == {};
    assert map[][0 := CancelSignalling(1)] == map[0 := CancelSignalling(1)];
  }

  /** The pass knows a verdict of the run and a late cancel has taken it too; neither has written. */
  lemma RacedRun(p: Params, tm: Timing, ok: bool) returns (h: History)
    requires tm.l >= 1
    ensures IsTimelyRun(p, tm, h) && LateBefore(h, |h.states| - 1, 0)
    ensures Last(h) == Racing(TWICE, {}, Pass(1, [0], Finishing(0, VerdictOf(ok), 1)), map[0 := CancelSignalling(1)], Queued, LOCKED)
  {
    h := AskedRun(p, tm);
    VerdictMove(p, tm, ok);
    LateCancelMove(p, tm, ok);
    h := Onward(p, tm, h, OfPass(PassAnswer(Verdict(ok))), Racing(TAKEN, {0}, Pass(1, [0], Finishing(0, VerdictOf(ok), 1)), map[], Queued, LOCKED));
    h := Onward(p, tm, h, OfCancel(CancelBegin(0)),
                Racing(TWICE, {}, Pass(1, [0], Finishing(0, VerdictOf(ok), 1)), map[0 := CancelSignalling(1)], Queued, LOCKED));
    assert Late(h.states[|h.steps| - 1], h.steps[|h.steps| - 1], 0);
  }

  lemma RacedOnward(p: Params, tm: Timing, h: History, step: Step, st': Sys) returns (h': History)
    requires IsTimelyRun(p, tm, h) && LateBefore(h, |h.states| - 1, 0) && Leads(p, tm, Last(h), step, st')
    ensures IsTimelyRun(p, tm, h') && LateBefore(h', |h'.states| - 1, 0) && Last(h') == st'
  {
    h' := Onward(p, tm, h, step, st');
    var k :| 0 <= k < |h.steps| && Late(h.states[k], h.steps[k], 0);
    assert Late(h'.states[k], h'.steps[k], 0);
  }

  lemma AskedRun(p: Params, tm: Timing) returns (h: History)
    requires tm.l >= 1
    ensures IsTimelyRun(p, tm, h) && Last(h) == Out(UNLIMITED, 1, Queued, LOCKED, Passing(ASKED, 1, [0], Asking(0)))
  {
    h := AcceptedRun(p, tm, iset{(Some(-1), 1)}, UNLIMITED, 1, 0, 0);
    PassBeginMove(p, tm, UNLIMITED, 1, Queued, WAITING);
    AskMove(p, tm, UNLIMITED, 1, Queued, WAITING);
    h := Onward(p, tm, h, Advance(1), Out(UNLIMITED, 1, Queued, LOCKED, Queue(WAITING)));
    h := Onward(p, tm, h, OfPass(PassBegin(1, [0])), Out(UNLIMITED, 1, Queued, LOCKED, Passing(WAITING, 1, [0], Idle)));
    h := Onward(p, tm, h, OfPass(PassVisit), Out(UNLIMITED, 1, Queued, LOCKED, Passing(ASKED, 1, [0], Asking(0))));
  }

  lemma FirstWriteMove(p: Params, tm: Timing)
    ensures Leads(p, tm, Racing(TWICE, {}, Pass(1, [0], Finishing(0, Succeeded, 1)), map[0 := CancelSignalling(1)], Queued, LOCKED),
                       OfPass(PassWrite),
                       Racing(TWICE.(writes := 1), {}, Pass(1, [0], Finished(0, Succeeded, 1)), map[0 := CancelSignalling(1)], Ended(Succeeded), LOCKED))
  {
    assert RunAs(Queued)[0 := Run("a", 1, None, Ended(Succeeded), false)] == RunAs(Ended(Succeeded));
    assert map[0 := TWICE][0 := TWICE.(writes := 1)] == map[0 := TWICE.(writes := 1)];
  }

  lemma FirstCompleteMove(p: Params, tm: Timing)
    ensures Leads(p, tm, Racing(TWICE.(writes := 1), {}, Pass(1, [0], Finished(0, Succeeded, 1)), map[0 := CancelSignalling(1)], Ended(Succeeded), LOCKED),
                       OfPass(PassComplete),
                       Racing(TWICE.(writes := 1, completions := 1), {}, Pass(1, [], Idle), map[0 := CancelSignalling(1)], Ended(Succeeded), DONE))
  {
    assert map[0 := TWICE.(writes := 1)][0 := TWICE.(writes := 1, completions := 1)] == map[0 := TWICE.(writes := 1, completions := 1)];
    assert map["a" := LOCKED]["a" := DONE] == map["a" := DONE];
    assert [0][1..] == [] && {} - {0} == {};
  }

  lemma SecondWriteMove(p: Params, tm: Timing)
    ensures Leads(p, tm, Racing(TWICE.(writes := 1, completions := 1), {}, Pass(1, [], Idle), map[0 := CancelSignalling(1)], Ended(Succeeded), DONE),
                       OfCancel(CancelWrite(0)),
                       Racing(TWICE.(writes := 2, completions := 1), {}, Pass(1, [], Idle), map[0 := CancelWritten(1)], Ended(Cancelled), DONE))
  {
    assert RunAs(Ended(Succeeded))[0 := Run("a", 1, None, Ended(Cancelled), false)] == RunAs(Ended(Cancelled));
    assert map[0 := TWICE.(writes := 1, completions := 1)][0 := TWICE.(writes := 2, completions := 1)] == map[0 := TWICE.(writes := 2, completions := 1)];
    assert map[0 := CancelSignalling(1)][0 := CancelWritten(1)] == map[0 := CancelWritten(1)];
  }

  lemma SecondCompleteMove(p: Params, tm: Timing)
    ensures Leads(p, tm, Racing(TWICE.(writes := 2, completions := 1), {}, Pass(1, [], Idle), map[0 := CancelWritten(1)], Ended(Cancelled), DONE),
                       OfCancel(CancelComplete(0)),
                       Racing(TWICE.(writes := 2, completions := 2), {}, Pass(1, [], Idle), map[], Ended(Cancelled), DONE))
  {
    assert map[0 := TWICE.(writes := 2, completions := 1)][0 := TWICE.(writes := 2, completions := 2)] == map[0 := TWICE.(writes := 2, completions := 2)];
    assert map[0 := CancelWritten(1)] - {0} == map[];
    assert map["a" := DONE]["a" := DONE] == map["a" := DONE];
  }

  lemma FinishedTwice(p: Params, tm: Timing, h: History) returns (h': History)
    requires IsTimelyRun(p, tm, h)
    requires Last(h) == Racing(TWICE, {}, Pass(1, [0], Finishing(0, Succeeded, 1)), map[0 := CancelSignalling(1)], Queued, LOCKED)
    ensures IsTimelyRun(p, tm, h') && h.states <= h'.states && h.steps <= h'.steps
    ensures Last(h') == Racing(TWICE.(writes := 2, completions := 2), {}, Pass(1, [], Idle), map[], Ended(Cancelled), DONE)
  {
    FirstWriteMove(p, tm);
    FirstCompleteMove(p, tm);
    SecondWriteMove(p, tm);
    SecondCompleteMove(p, tm);
    h' := Onward(p, tm, h, OfPass(PassWrite),
                 Racing(TWICE.(writes := 1), {}, Pass(1, [0], Finished(0, Succeeded, 1)), map[0 := CancelSignalling(1)], Ended(Succeeded), LOCKED));
    h' := Onward(p, tm, h', OfPass(PassComplete),
                 Racing(TWICE.(writes := 1, completions := 1), {}, Pass(1, [], Idle), map[0 := CancelSignalling(1)], Ended(Succeeded), DONE));
    h' := Onward(p, tm, h', OfCancel(CancelWrite(0)),
                 Racing(TWICE.(writes := 2, completions := 1), {}, Pass(1, [], Idle), map[0 := CancelWritten(1)], Ended(Cancelled), DONE));
    h' := Onward(p, tm, h', OfCancel(CancelComplete(0)),
                 Racing(TWICE.(writes := 2, completions := 2), {}, Pass(1, [], Idle), map[], Ended(Cancelled), DONE));
  }

  /**
   * A user cancel that comes while the poll pass is finishing the run: two verdicts and two completions, the second
   * verdict overwriting the first.
   */
  lemma LateCancelFinishesTwice(p: Params, tm: Timing) returns (h: History)
    requires tm.l >= 1
    ensures IsTimelyRun(p, tm, h)
    ensures LateBefore(h, |h.states| - 1, 0)
    ensures 0 in Last(h).poll.asyncRuns && Last(h).poll.asyncRuns[0].writes == 2 && Last(h).poll.asyncRuns[0].completions == 2
    ensures 0 in Last(h).db.runs && Last(h).db.runs[0].status == Ended(Cancelled)
  {
    h := RacedRun(p, tm, true);
    h := FinishedTwice(p, tm, h);
    ExactlyOneFinish(p, h, |h.states| - 1, 0);
  }

  /** The race with a failed verdict, after `writes` of the two terminal writes. */
  function Failing(writes: nat, cur: Visit, cancel: Cancel, run: Run): Sys {
    Sys(1, Db(map["t" := UNLIMITED], map["a" := LOCKED], map[0 := run]), true, Work(1, map[]),
        Polling(map[0 := TWICE.(writes := writes)], {}, Some(Pass(1, [0], cur)), map[0 := cancel]), None, OPEN, Past(map["a" := 0]))
  }

  const FAILING := Visit.Finishing(0, Failed, 1)
  const FAILED := Finished(0, Failed, 1)

  /** The run of the race, with and without a failed verdict written. */
  function RunWith(status: Status, failed: bool): Run {
    Run("a", 1, None, status, failed)
  }

  lemma CancelWritesMove(p: Params, tm: Timing, writes: nat, cur: Visit, status: Status, failed: bool)
    ensures Leads(p, tm, Failing(writes, cur, CancelSignalling(1), RunWith(status, failed)), OfCancel(CancelWrite(0)),
                  Failing(writes + 1, cur, CancelWritten(1), RunWith(Ended(Cancelled), failed)))
  {
    var ar, run := TWICE.(writes := writes), RunWith(status, failed);
    assert map[0 := ar][0 := ar.(writes := writes + 1)] == map[0 := ar.(writes := writes + 1)];
    assert map[0 := CancelSignalling(1)][0 := CancelWritten(1)] == map[0 := CancelWritten(1)];
    assert map[0 := run][0 := RunWith(Ended(Cancelled), failed)] == map[0 := RunWith(Ended(Cancelled), failed)];
  }

  lemma FailureWritesMove(p: Params, tm: Timing, writes: nat, cancel: Cancel, status: Status)
    ensures Leads(p, tm, Failing(writes, FAILING, cancel, RunWith(status, false)), OfPass(PassWrite),
                  Failing(writes + 1, FAILED, cancel, RunWith(Ended(Failed), true)))
  {
    var ar, run := TWICE.(writes := writes), RunWith(status, false);
    assert map[0 := ar][0 := ar.(writes := writes + 1)] == map[0 := ar.(writes := writes + 1)];
    assert map[0 := run][0 := RunWith(Ended(Failed), true)] == map[0 := RunWith(Ended(Failed), true)];
  }

  /** A late cancel written after the failed verdict hides it. */
  lemma LateCancelHidesFailure(p: Params, tm: Timing) returns (h: History)
    requires tm.l >= 1
    ensures IsTimelyRun(p, tm, h) && LateBefore(h, |h.states| - 1, 0)
    ensures Last(h).db.runs == map[0 := RunWith(Ended(Cancelled), true)]
  {
    h := RacedRun(p, tm, false);
    FailureWritesMove(p, tm, 0, CancelSignalling(1), Queued);
    CancelWritesMove(p, tm, 1, FAILED, Ended(Failed), true);
    h := RacedOnward(p, tm, h, OfPass(PassWrite), Failing(1, FAILED, CancelSignalling(1), RunWith(Ended(Failed), true)));
    h := RacedOnward(p, tm, h, OfCancel(CancelWrite(0)), Failing(2, FAILED, CancelWritten(1), RunWith(Ended(Cancelled), true)));
  }

  /** One written before it does not. */
  lemma LateCancelLeavesFailure(p: Params, tm: Timing) returns (h: History)
    requires tm.l >= 1
    ensures IsTimelyRun(p, tm, h) && LateBefore(h, |h.states| - 1, 0)
    ensures Last(h).db.runs == map[0 := RunWith(Ended(Failed), true)]
  {
    h := RacedRun(p, tm, false);
    CancelWritesMove(p, tm, 0, FAILING, Queued, false);
    FailureWritesMove(p, tm, 1, CancelWritten(1), Ended(Cancelled));
    h := RacedOnward(p, tm, h, OfCancel(CancelWrite(0)), Failing(1, FAILING, CancelWritten(1), RunWith(Ended(Cancelled), false)));
    h := RacedOnward(p, tm, h, OfPass(PassWrite), Failing(2, FAILED, CancelWritten(1), RunWith(Ended(Failed), true)));
  }
}
