/**
 * What one tick does with its list of due schedules. The list is served in batches; the claims of a batch
 * are made in order before any of its runners answers, so with batches of one the tick is sequential.
 */
module Serving {
  import opened Records
  import opened Policy
  import opened Store

  /** A runner's answer, and the clock when it came. */
  datatype Play = Play(reply: Reply, at: int)

  /** The answers of the runners. A tick dispatches a schedule at most once, so its id tells the run. */
  type Script = Id -> Play

  predicate Runnable(tasks: map<string, Task>, row: Row) {
    row.taskName in tasks && !tasks[row.taskName].paused
  }

  function Verdict(reply: Reply): Outcome {
    if reply.Done? then reply.outcome else Failed
  }

  function RunStarted(e: Entry): Run {
    Run(e.id, e.row.retryCount + 1, if e.row.retryCount > 0 then e.row.lastRunId else None, Running, false)
  }

  function RunLeft(e: Entry, reply: Reply): Run {
    if reply.Accept? then RunStarted(e).(status := Queued)
    else RunStarted(e).(status := Ended(Verdict(reply)), failed := Verdict(reply) == Failed)
  }

  /** The tables, the poll queue and the id of the next run. */
  datatype Tables = Tables(tasks: map<string, Task>, rows: Rows, runs: map<RunId, Run>, queue: set<RunId>, created: RunId)

  /** A tick: what it starts from, its due list, the answers to come and the size of a batch. */
  datatype Round = Round(cal: Calendar, start: Tables, due: seq<Entry>, now: int, script: Script, size: nat)
  {
    ghost predicate Valid() {
      0 < size && IsDueList(start.rows, now, due)
    }

    predicate Accepts(k: nat)
      requires k < |due|
    {
      script(due[k].id).reply.Accept?
    }

    /** The j-th due schedule, if dispatched, stands in the way of the k-th: it is of the same batch, or still accepted. */
    predicate Blocks(k: nat, j: nat)
      requires k < |due| && j < |due| && 0 < size
    {
      j < k && due[j].row.taskName == due[k].row.taskName && (j >= k - k % size || Accepts(j))
    }

    predicate Held(k: nat)
      requires k < |due| && 0 < size
      decreases k, 0
    {
      exists j :: 0 <= j < k && Goes(j) && Blocks(k, j)
    }

    /** Whether the k-th due schedule is dispatched: its task is live and no earlier dispatch stands in its way. */
    predicate Goes(k: nat)
      requires k < |due| && 0 < size
      decreases k, 1
    {
      Runnable(start.tasks, due[k].row) && !Held(k)
    }

    /** The dispatches among the first `k` due schedules. */
    function Count(k: nat): nat
      requires k <= |due| && 0 < size
    {
      if k == 0 then 0 else Count(k - 1) + (if Goes(k - 1) then 1 else 0)
    }

    function RunOf(k: nat): RunId
      requires k < |due| && 0 < size
    {
      start.created + Count(k)
    }

    function Ending(k: nat): Completion
      requires k < |due| && 0 < size && Runnable(start.tasks, due[k].row)
    {
      var play := script(due[k].id);
      PlanCompletion(cal, due[k].row, start.tasks[due[k].row.taskName], RunOf(k), Verdict(play.reply), play.at, play.reply.Done?)
    }

    /** The schedule row the k-th dispatch leaves. */
    function RowLeft(k: nat, answered: bool): Row
      requires k < |due| && 0 < size && Runnable(start.tasks, due[k].row)
    {
      if !answered || Accepts(k) then due[k].row.(lockedAt := Some(now)) else RowAfter(due[k].row, Ending(k))
    }

    /** The table when the first `k` due schedules have had their turn and the dispatches among the first `p` are answered. */
    function RowsAt(k: nat, p: nat): Rows
      requires k <= |due| && 0 < size
    {
      if k == 0 then start.rows
      else if Goes(k - 1) then RowsAt(k - 1, p)[due[k - 1].id := RowLeft(k - 1, k - 1 < p)]
      else RowsAt(k - 1, p)
    }

    function RunsAt(k: nat, p: nat): map<RunId, Run>
      requires k <= |due| && 0 < size
    {
      if k == 0 then start.runs
      else if Goes(k - 1) then
        RunsAt(k - 1, p)[RunOf(k - 1) := if k - 1 < p then RunLeft(due[k - 1], script(due[k - 1].id).reply) else RunStarted(due[k - 1])]
      else RunsAt(k - 1, p)
    }

    function QueueAt(p: nat): set<RunId>
      requires p <= |due| && 0 < size
    {
      if p == 0 then start.queue
      else if Goes(p - 1) && Accepts(p - 1) then QueueAt(p - 1) + {RunOf(p - 1)}
      else QueueAt(p - 1)
    }
  }

  /**
   * The promise of a sequential tick: a due schedule is dispatched unless its task is missing or paused, or
   * an earlier sibling of this tick was accepted and still holds the task.
   */
  lemma SequentialTick(t: Round, k: nat)
    requires t.size == 1 && k < |t.due|
    ensures t.Goes(k) <==>
            && t.due[k].row.taskName in t.start.tasks && !t.start.tasks[t.due[k].row.taskName].paused
            && !exists j :: 0 <= j < k && t.Goes(j) && t.due[j].row.taskName == t.due[k].row.taskName && t.Accepts(j)
  {
    if j :| 0 <= j < k && t.Goes(j) && t.due[j].row.taskName == t.due[k].row.taskName && t.Accepts(j) {
      assert t.Blocks(k, j);
    }
  }

  // ---- what the table holds ----

  lemma NobodyLocked(t: Round, k: nat)
    requires t.Valid() && k < |t.due|
    ensures t.due[k].id in t.start.rows && t.start.rows[t.due[k].id] == t.due[k].row && Claimable(t.start.rows, t.due[k].id)
    ensures forall id :: id in t.start.rows && t.start.rows[id].taskName == t.due[k].row.taskName ==> !t.start.rows[id].Locked()
  {
    assert Due(t.start.rows, t.due[k].id, t.now);
  }

  lemma {:induction false} SameKeys(t: Round, k: nat, p: nat)
    requires t.Valid() && k <= |t.due|
    ensures t.RowsAt(k, p).Keys == t.start.rows.Keys
  {
    if k > 0 {
      SameKeys(t, k - 1, p);
      NobodyLocked(t, k - 1);
    }
  }

  /** The id is that of a schedule dispatched among the first `k`. */
  predicate Fired(t: Round, k: nat, id: Id)
    requires k <= |t.due| && 0 < t.size
  {
    exists j :: 0 <= j < k && t.Goes(j) && t.due[j].id == id
  }

  /** A schedule that is not dispatched is left alone. */
  lemma {:induction false} RowUntouched(t: Round, k: nat, p: nat, id: Id)
    requires t.Valid() && k <= |t.due| && id in t.start.rows && !Fired(t, k, id)
    ensures id in t.RowsAt(k, p) && t.RowsAt(k, p)[id] == t.start.rows[id]
    decreases k
  {
    if k > 0 { RowUntouched(t, k - 1, p, id); }
  }

  /** A dispatched schedule's row is the one its own run left. */
  lemma {:induction false} RowWritten(t: Round, k: nat, p: nat, j: nat)
    requires t.Valid() && j < k <= |t.due| && t.Goes(j)
    ensures t.due[j].id in t.RowsAt(k, p) && t.RowsAt(k, p)[t.due[j].id] == t.RowLeft(j, j < p)
    decreases k
  {
    if j < k - 1 {
      RowWritten(t, k - 1, p, j);
      assert t.due[j].id != t.due[k - 1].id;
    }
  }

  lemma NotYet(t: Round, k: nat)
    requires t.Valid() && k < |t.due|
    ensures !Fired(t, k, t.due[k].id)
  {
  }

  lemma RowKeepsTask(t: Round, k: nat, answered: bool)
    requires t.Valid() && k < |t.due| && Runnable(t.start.tasks, t.due[k].row)
    ensures t.RowLeft(k, answered).taskName == t.due[k].row.taskName
    ensures t.RowLeft(k, answered).Locked() <==> (!answered || t.Accepts(k))
  {
  }

  /** After its turn a dispatched schedule is locked until it is answered, and for longer only if it was accepted. */
  lemma LockLeft(t: Round, k: nat, p: nat, j: nat)
    requires t.Valid() && j < k <= |t.due| && t.Goes(j)
    ensures var id, after := t.due[j].id, t.RowsAt(k, p);
            && id in after && after[id].taskName == t.due[j].row.taskName
            && (after[id].Locked() <==> (j >= p || t.Accepts(j)))
  {
    RowWritten(t, k, p, j);
    RowKeepsTask(t, j, j < p);
  }

  /** A locked schedule of a due schedule's task was locked by this tick. */
  lemma LockedByTick(t: Round, k: nat, p: nat, j: nat, other: Id)
    requires t.Valid() && k <= |t.due| && j < |t.due|
    requires var after := t.RowsAt(k, p); other in after && after[other].Locked() && after[other].taskName == t.due[j].row.taskName
    ensures Fired(t, k, other)
  {
    SameKeys(t, k, p);
    NobodyLocked(t, j);
    if !Fired(t, k, other) { RowUntouched(t, k, p, other); }
  }

  /** A due schedule can still be claimed exactly when no earlier dispatch stands in its way. */
  lemma StillClaimable(t: Round, k: nat, p: nat)
    requires t.Valid() && k < |t.due| && p == k - k % t.size
    ensures var after := t.RowsAt(k, p);
            && t.due[k].id in after && after[t.due[k].id] == t.due[k].row && !t.due[k].row.paused
            && (Claimable(after, t.due[k].id) <==> !t.Held(k))
  {
    NobodyLocked(t, k);
    NotYet(t, k);
    RowUntouched(t, k, p, t.due[k].id);
    var after := t.RowsAt(k, p);
    if j :| 0 <= j < k && t.Goes(j) && t.Blocks(k, j) {
      LockLeft(t, k, p, j);
      assert TaskBusy(after, t.due[k].row.taskName);
    }
    if other :| other in after && after[other].taskName == t.due[k].row.taskName && after[other].Locked() {
      LockedByTick(t, k, p, k, other);
      var j :| 0 <= j < k && t.Goes(j) && t.due[j].id == other;
      LockLeft(t, k, p, j);
      assert t.Blocks(k, j);
    }
  }

  /** However many are served at once, a tick never locks two schedules of one task. */
  lemma TickKeepsCeiling(t: Round, a: Id, b: Id)
    requires t.Valid() && forall x, y ::
               (x in t.start.rows && y in t.start.rows && t.start.rows[x].Locked() && t.start.rows[y].Locked()
                && t.start.rows[x].taskName == t.start.rows[y].taskName)
               ==> x == y
    requires var after := t.RowsAt(|t.due|, |t.due|);
             a in after && b in after && after[a].Locked() && after[b].Locked() && after[a].taskName == after[b].taskName
    ensures a == b
  {
    var n := |t.due|;
    SameKeys(t, n, n);
    if Fired(t, n, a) || Fired(t, n, b) {
      var c := if Fired(t, n, a) then a else b;
      var j :| 0 <= j < n && t.Goes(j) && t.due[j].id == c;
      LockLeft(t, n, n, j);
      LockedByTick(t, n, n, j, a);
      LockedByTick(t, n, n, j, b);
      SiblingsDiffer(t, a, b);
    } else {
      RowUntouched(t, n, n, a);
      RowUntouched(t, n, n, b);
    }
  }

  lemma SiblingsDiffer(t: Round, a: Id, b: Id)
    requires t.Valid() && Fired(t, |t.due|, a) && Fired(t, |t.due|, b)
    requires var after := t.RowsAt(|t.due|, |t.due|);
             a in after && b in after && after[a].Locked() && after[b].Locked() && after[a].taskName == after[b].taskName
    ensures a == b
  {
    var n := |t.due|;
    var i :| 0 <= i < n && t.Goes(i) && t.due[i].id == a;
    var j :| 0 <= j < n && t.Goes(j) && t.due[j].id == b;
    LockLeft(t, n, n, i);
    LockLeft(t, n, n, j);
    NotBlocked(t, i, j);
    NotBlocked(t, j, i);
  }

  lemma NotBlocked(t: Round, i: nat, j: nat)
    requires t.Valid() && i < |t.due| && j < |t.due| && t.Goes(i) && t.Goes(j)
    ensures i < j && t.Accepts(i) ==> t.due[i].row.taskName != t.due[j].row.taskName
  {
    assert !t.Held(j);
    assert !(i < j && t.Blocks(j, i));
  }

  // ---- one turn of each loop ----

  /** The k-th due schedule is dispatched exactly when its claim goes through. */
  lemma ClaimTurn(t: Round, k: nat, p: nat)
    requires t.Valid() && k < |t.due| && p == k - k % t.size
    ensures !t.due[k].row.paused
    ensures t.Goes(k) <==> (Runnable(t.start.tasks, t.due[k].row) && Claimable(t.RowsAt(k, p), t.due[k].id))
    ensures t.Goes(k) ==> Claimable(t.RowsAt(k, p), t.due[k].id) && t.RowsAt(k + 1, p) == Claim(t.RowsAt(k, p), t.due[k].id, t.now)
    ensures t.Goes(k) ==> t.RunsAt(k + 1, p) == t.RunsAt(k, p)[t.RunOf(k) := RunStarted(t.due[k])]
    ensures !t.Goes(k) ==> t.RowsAt(k + 1, p) == t.RowsAt(k, p) && t.RunsAt(k + 1, p) == t.RunsAt(k, p)
  {
    StillClaimable(t, k, p);
  }

  lemma CompletedRow(rows: Rows, id: Id, row: Row, at: int, c: Completion)
    requires id in rows && rows[id] == row.(lockedAt := Some(at))
    ensures Complete(rows, id, c) == rows[id := RowAfter(row, c)]
  {
  }

  /** The answer to a run changes the row of its schedule and no other. */
  lemma {:induction false} RowsAnswered(t: Round, k: nat, p: nat)
    requires t.Valid() && p < |t.due| && k <= |t.due|
    ensures t.RowsAt(k, p + 1) == if p < k && t.Goes(p) then t.RowsAt(k, p)[t.due[p].id := t.RowLeft(p, true)] else t.RowsAt(k, p)
    decreases k
  {
    if k > 0 {
      RowsAnswered(t, k - 1, p);
      if p < k - 1 { assert t.due[p].id != t.due[k - 1].id; }
    }
  }

  /** A verdict completes its schedule, an acceptance leaves it locked. */
  lemma AnswerTurn(t: Round, k: nat, p: nat)
    requires t.Valid() && p < k <= |t.due|
    ensures t.Goes(p) && !t.Accepts(p) ==> t.RowsAt(k, p + 1) == Complete(t.RowsAt(k, p), t.due[p].id, t.Ending(p))
    ensures !t.Goes(p) || t.Accepts(p) ==> t.RowsAt(k, p + 1) == t.RowsAt(k, p)
  {
    RowsAnswered(t, k, p);
    if t.Goes(p) {
      RowWritten(t, k, p, p);
      CompletedRow(t.RowsAt(k, p), t.due[p].id, t.due[p].row, t.now, t.Ending(p));
    }
  }

  lemma {:induction false} CountGrows(t: Round, i: nat, j: nat)
    requires i <= j <= |t.due| && 0 < t.size
    ensures t.Count(i) <= t.Count(j)
    ensures i < j && t.Goes(i) ==> t.Count(i) < t.Count(j)
    decreases j
  {
    if i < j { CountGrows(t, i, j - 1); }
  }

  lemma {:induction false} RunsAnswered(t: Round, k: nat, p: nat)
    requires 0 < t.size && p < |t.due| && k <= |t.due|
    ensures t.RunsAt(k, p + 1)
         == if p < k && t.Goes(p) then t.RunsAt(k, p)[t.RunOf(p) := RunLeft(t.due[p], t.script(t.due[p].id).reply)] else t.RunsAt(k, p)
    decreases k
  {
    if k > 0 {
      RunsAnswered(t, k - 1, p);
      if p < k - 1 { CountGrows(t, p, k - 1); }
    }
  }

  /** A dispatched run that is not answered yet is as it was created. */
  lemma {:induction false} Unanswered(t: Round, k: nat, p: nat, j: nat)
    requires 0 < t.size && p <= j < k <= |t.due| && t.Goes(j)
    ensures t.RunOf(j) in t.RunsAt(k, p) && t.RunsAt(k, p)[t.RunOf(j)] == RunStarted(t.due[j])
    decreases k
  {
    if j < k - 1 {
      Unanswered(t, k - 1, p, j);
      CountGrows(t, j, k - 1);
    }
  }

  // ---- batches ----

  lemma BatchStart(lo: nat, size: nat, k: nat)
    requires 0 < size && lo % size == 0 && lo <= k < lo + size
    ensures k - k % size == lo
  {
    assert k % size == k - lo by {
      assert lo == size * (lo / size);
      assert k == size * (lo / size) + (k - lo);
      ModIs(lo / size, size, k - lo);
    }
  }

  lemma ModIs(q: nat, size: nat, rest: nat)
    requires rest < size
    ensures (size * q + rest) % size == rest
  {
    var n := size * q + rest;
    assert n == size * (n / size) + n % size;
    var d := n / size;
    assert d < q ==> size * (d + 1) <= size * q;
    assert d > q ==> size * (q + 1) <= size * d;
  }

  lemma NextBatch(lo: nat, size: nat)
    requires 0 < size && lo % size == 0
    ensures (lo + size) % size == 0
  {
    var q := lo / size;
    assert lo + size == size * (q + 1) + 0;
    ModIs(q + 1, size, 0);
  }
}
