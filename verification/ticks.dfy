/** What a tick leaves behind, dispatch by dispatch, column by column. */
module Ticks {
  import opened Records
  import opened Serving
  import Columns

  /** The outcome a runner's answer stands for, when it is no acceptance: one that cannot be polled is a failure. */
  function OutcomeOf(reply: Reply): Outcome
    requires !reply.Accept?
  {
    match reply
    case Done(outcome) => outcome
    case AcceptWithoutPoll => Failed
  }

  /** The end of the k-th dispatch: only a verdict of the runner itself can be retried. */
  function EndOf(t: Round, k: nat): Columns.Ending
    requires k < |t.due| && 0 < t.size && t.due[k].row.taskName in t.start.tasks && !t.Accepts(k)
  {
    var e, play := t.due[k], t.script(t.due[k].id);
    Columns.Ending(t.RunOf(k), e.id, e.row, t.start.tasks[e.row.taskName], OutcomeOf(play.reply), play.at, play.reply.Done?)
  }

  /** The row of a dispatched schedule: locked with the tick's time while its run is accepted, and else ended. */
  predicate RowIsLeft(t: Round, k: nat, row: Row)
    requires k < |t.due| && 0 < t.size && t.due[k].row.taskName in t.start.tasks
  {
    var before := t.due[k].row;
    if t.Accepts(k) then row.lockedAt == Some(t.now) && row.(lockedAt := before.lockedAt) == before
    else Columns.SameTerms(before, row) && row.paused == before.paused && row.disabled == before.disabled
         && Columns.IsEnded(t.cal, EndOf(t, k), before, row)
  }

  /** The row of its run: the next attempt of its schedule, queued if it was accepted, and else with its outcome. */
  predicate RunIsLeft(t: Round, k: nat, run: Run)
    requires k < |t.due| && 0 < t.size && t.due[k].row.taskName in t.start.tasks
  {
    var e := t.due[k];
    && run.scheduleId == e.id && run.attempt == e.row.retryCount + 1
    && run.retryOf == (if e.row.retryCount > 0 then e.row.lastRunId else None)
    && run.status == (if t.Accepts(k) then Queued else Ended(OutcomeOf(t.script(e.id).reply)))
    && (run.failed <==> !t.Accepts(k) && OutcomeOf(t.script(e.id).reply) == Failed)
  }

  lemma {:induction false} RunsKeep(t: Round, k: nat, p: nat, j: nat)
    requires t.Valid() && j < k <= |t.due| && t.Goes(j)
    ensures t.RunOf(j) in t.RunsAt(k, p)
    ensures t.RunsAt(k, p)[t.RunOf(j)] == if j < p then RunLeft(t.due[j], t.script(t.due[j].id).reply) else RunStarted(t.due[j])
    decreases k
  {
    if j < k - 1 {
      RunsKeep(t, k - 1, p, j);
      CountGrows(t, j, k - 1);
    }
  }

  lemma {:induction false} QueueKeeps(t: Round, p: nat, j: nat)
    requires t.Valid() && j < p <= |t.due| && t.Goes(j) && t.RunOf(j) !in t.start.queue
    ensures t.RunOf(j) in t.QueueAt(p) <==> t.Accepts(j)
    decreases p
  {
    if j < p - 1 {
      QueueKeeps(t, p - 1, j);
      CountGrows(t, j, p - 1);
    } else {
      NotQueuedYet(t, j, t.RunOf(j));
    }
  }

  lemma {:induction false} NotQueuedYet(t: Round, p: nat, r: RunId)
    requires t.Valid() && p <= |t.due| && r >= t.start.created + t.Count(p) && r !in t.start.queue
    ensures r !in t.QueueAt(p)
    decreases p
  {
    if p > 0 {
      CountGrows(t, p - 1, p);
      NotQueuedYet(t, p - 1, r);
    }
  }

  /**
   * After the tick each dispatched schedule and its run have these rows, and its run is polled if and only if it was
   * accepted; every other schedule has the row it had.
   */
  lemma TickLeaves(t: Round, k: nat)
    requires t.Valid() && k < |t.due| && forall r :: r in t.start.queue ==> r < t.start.created
    ensures var n := |t.due|;
            var rows, runs := t.RowsAt(n, n), t.RunsAt(n, n);
            && t.due[k].id in rows
            && (t.Goes(k) ==>
                  && t.due[k].row.taskName in t.start.tasks && !t.start.tasks[t.due[k].row.taskName].paused
                  && RowIsLeft(t, k, rows[t.due[k].id])
                  && t.RunOf(k) in runs && RunIsLeft(t, k, runs[t.RunOf(k)])
                  && (t.RunOf(k) in t.QueueAt(n) <==> t.Accepts(k)))
            && (!t.Goes(k) ==> rows[t.due[k].id] == t.due[k].row)
  {
    var n := |t.due|;
    NobodyLocked(t, k);
    if t.Goes(k) {
      RowWritten(t, n, n, k);
      RunsKeep(t, n, n, k);
      QueueKeeps(t, n, k);
      if !t.Accepts(k) { Columns.PlanEnds(t.cal, EndOf(t, k), t.due[k].row); }
    } else {
      assert !Fired(t, n, t.due[k].id);
      RowUntouched(t, n, n, t.due[k].id);
    }
  }
}
