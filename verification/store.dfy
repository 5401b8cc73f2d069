/**
 * The schedule statements of the SQLite store. One statement is one atomic step; each is given as a
 * function on the table, and the class below applies them in place.
 */
module Store {
  import opened Records
  import opened Policy

  type Rows = map<Id, Row>

  /** Some schedule of this task is locked. */
  predicate TaskBusy(rows: Rows, taskName: string) {
    exists i :: i in rows && rows[i].taskName == taskName && rows[i].Locked()
  }

  predicate Due(rows: Rows, id: Id, now: int) {
    && id in rows
    && rows[id].nextRunAt.Some? && rows[id].nextRunAt.value <= now
    && Claimable(rows, id)
  }

  predicate Claimable(rows: Rows, id: Id) {
    && id in rows
    && !rows[id].Locked() && !rows[id].paused && !rows[id].disabled
    && !TaskBusy(rows, rows[id].taskName)
  }

  /** A row read by a query, with its key. */
  datatype Entry = Entry(id: Id, row: Row)

  /** `priority DESC, next_run_at ASC`. */
  predicate Before(a: Row, b: Row) {
    a.priority > b.priority
    || (a.priority == b.priority && (a.nextRunAt.None? || (b.nextRunAt.Some? && a.nextRunAt.value <= b.nextRunAt.value)))
  }

  /** An answer of the due query: every due row once, in priority order. */
  ghost predicate IsDueList(rows: Rows, now: int, due: seq<Entry>) {
    && (forall k :: 0 <= k < |due| ==> Due(rows, due[k].id, now) && due[k].row == rows[due[k].id])
    && (forall k, l :: 0 <= k < l < |due| ==> due[k].id != due[l].id && Before(due[k].row, due[l].row))
    && (forall id :: Due(rows, id, now) ==> exists k :: 0 <= k < |due| && due[k].id == id)
  }

  function Claim(rows: Rows, id: Id, at: int): Rows
    requires Claimable(rows, id)
  {
    rows[id := rows[id].(lockedAt := Some(at))]
  }

  function RowAfter(row: Row, c: Completion): Row {
    row.(nextRunAt := c.nextRunAt, lastRunAt := Some(c.lastRunAt), lockedAt := None,
         failCount := row.failCount + (if c.failed then 1 else 0),
         retryCount := c.retryCount, lastRunId := Some(c.lastRunId))
  }

  function Complete(rows: Rows, id: Id, c: Completion): Rows {
    if id in rows then rows[id := RowAfter(rows[id], c)] else rows
  }

  predicate Stale(row: Row, cutoff: int) {
    row.Locked() && row.lockedAt.value < cutoff
  }

  function Reap(rows: Rows, cutoff: int): Rows {
    map i | i in rows ::
      if Stale(rows[i], cutoff) then rows[i].(lockedAt := None, failCount := rows[i].failCount + 1) else rows[i]
  }

  function Refresh(rows: Rows, id: Id, at: int): Rows {
    if id in rows && rows[id].Locked() then rows[id := rows[id].(lockedAt := Some(at))] else rows
  }

  function ClearLocks(rows: Rows): Rows {
    map i | i in rows :: rows[i].(lockedAt := None)
  }

  function SetNext(rows: Rows, id: Id, next: Option<int>): Rows {
    if id !in rows then rows else rows[id := rows[id].(nextRunAt := next)]
  }

  predicate Overdue(row: Row, now: int) {
    row.nextRunAt.Some? && row.nextRunAt.value <= now && !row.Locked() && !row.paused && !row.disabled
  }

  /** A complete scan of the table: every overdue row once. */
  ghost predicate IsOverdueList(rows: Rows, now: int, s: seq<Entry>) {
    && (forall k :: 0 <= k < |s| ==> s[k].id in rows && s[k].row == rows[s[k].id] && Overdue(s[k].row, now))
    && (forall k, l :: 0 <= k < l < |s| ==> s[k].id != s[l].id)
    && (forall id :: id in rows && Overdue(rows[id], now) ==> exists k :: 0 <= k < |s| && s[k].id == id)
  }

  /** A scan of these rows: every overdue one of them once. */
  ghost predicate IsOverduePage(rows: Rows, now: int, ids: set<Id>, s: seq<Entry>) {
    && (forall k :: 0 <= k < |s| ==> s[k].id in ids && s[k].id in rows && s[k].row == rows[s[k].id] && Overdue(s[k].row, now))
    && (forall k, l :: 0 <= k < l < |s| ==> s[k].id != s[l].id)
    && (forall id :: id in ids && id in rows && Overdue(rows[id], now) ==> exists k :: 0 <= k < |s| && s[k].id == id)
  }

  /** A one-shot or a pending retry keeps its slot; any other overdue slot is dropped. */
  predicate Deferred(row: Row) {
    row.rule.Once? || row.retryCount > 0
  }
}
