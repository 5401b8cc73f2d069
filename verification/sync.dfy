/** The desired-state reconciler: what a file of task definitions declares, and what syncing it does to the store. */
module Sync {
  import opened Records

  // ---- what a file declares ----

  /** One validated schedule of a definition. */
  datatype ScheduleDef = ScheduleDef(rule: Rule, tz: string, data: string, externalId: Option<string>, dedupKey: Option<string>,
                                     retry: Option<RetryPolicy>, priority: Option<int>)

  /** The declarative part of a task. */
  datatype TaskConfig = TaskConfig(runner: string, config: string, inputSchema: Option<string>, priority: int,
                                   retry: Option<RetryPolicy>, timeoutMs: Option<int>, title: Option<string>, description: Option<string>)

  datatype TaskDef = TaskDef(name: string, tz: string, config: TaskConfig, schedules: seq<ScheduleDef>)

  // ---- what the store holds ----

  /** The declarative part of a schedule row. */
  datatype Terms = Terms(rule: Rule, tz: string, data: string, externalId: Option<string>, dedupKey: Option<string>,
                         priority: int, retry: Option<RetryPolicy>)

  /** The run-time part of a row. */
  datatype Live = Live(lastRunAt: Option<int>, lockedAt: Option<int>, failCount: nat, retryCount: nat, lastRunId: Option<RunId>,
                       paused: bool, disabled: bool)

  const untouched := Live(None, None, 0, 0, None, false, false)

  datatype ScheduleRow = ScheduleRow(taskName: string, terms: Terms, nextRunAt: Option<int>, live: Live, fileManaged: bool)

  datatype TaskRow = TaskRow(config: TaskConfig, rule: Option<Rule>, tz: string, nextRunAt: Option<int>, live: Live, fileManaged: bool)

  type ScheduleRows = map<Id, ScheduleRow>

  type TaskRows = map<string, TaskRow>

  /** A row to apply, with its key. */
  datatype Keyed<T> = Keyed(id: Id, row: T)

  // ---- materialising the declarations ----

  function InitialNextRun(cal: Calendar, rule: Rule, tz: string, now: int): Option<int> {
    match rule
    case Cron(expr) => Some(cal(expr, tz, now))
    case Interval(ms) => Some(now + ms)
    case Once(at) => Some(at)
  }

  function Decimal(n: nat): string {
    (if n < 10 then "" else Decimal(n / 10)) + [("0123456789")[n % 10]]
  }

  function ScheduleId(name: string, count: nat, i: nat): Id {
    if count == 1 then name else name + "#" + Decimal(i)
  }

  function ScheduleOf(cal: Calendar, def: TaskDef, i: nat, now: int): Keyed<ScheduleRow>
    requires i < |def.schedules|
  {
    var e := def.schedules[i];
    Keyed(ScheduleId(def.name, |def.schedules|, i),
          ScheduleRow(def.name,
                      Terms(e.rule, e.tz, e.data, e.externalId, e.dedupKey,
                            if e.priority.Some? then e.priority.value else def.config.priority,
                            if e.retry.Some? then e.retry else def.config.retry),
                      InitialNextRun(cal, e.rule, e.tz, now), untouched, true))
  }

  /** The task row carries the first schedule of its definition. */
  function TaskOf(cal: Calendar, def: TaskDef, now: int): Keyed<TaskRow> {
    if def.schedules == [] then Keyed(def.name, TaskRow(def.config, None, def.tz, None, untouched, true))
    else
      var e := def.schedules[0];
      Keyed(def.name, TaskRow(def.config, Some(e.rule), e.tz, InitialNextRun(cal, e.rule, e.tz, now), untouched, true))
  }

  function SchedulesOf(cal: Calendar, def: TaskDef, n: nat, now: int): (r: seq<Keyed<ScheduleRow>>)
    requires n <= |def.schedules|
    ensures |r| == n && forall i :: 0 <= i < n ==> r[i] == ScheduleOf(cal, def, i, now)
  {
    if n == 0 then [] else SchedulesOf(cal, def, n - 1, now) + [ScheduleOf(cal, def, n - 1, now)]
  }

  function ToSchedules(cal: Calendar, defs: seq<TaskDef>, now: int): seq<Keyed<ScheduleRow>> {
    if defs == [] then []
    else
      var last := defs[|defs| - 1];
      ToSchedules(cal, defs[..|defs| - 1], now) + SchedulesOf(cal, last, |last.schedules|, now)
  }

  function ToTasks(cal: Calendar, defs: seq<TaskDef>, now: int): (r: seq<Keyed<TaskRow>>)
    ensures |r| == |defs| && forall k :: 0 <= k < |defs| ==> r[k] == TaskOf(cal, defs[k], now)
  {
    if defs == [] then [] else ToTasks(cal, defs[..|defs| - 1], now) + [TaskOf(cal, defs[|defs| - 1], now)]
  }

  // ---- applying them ----

  /** Declarative fields come from the file; the slot moves only when the rule or the zone did. */
  function MergeSchedule(existing: ScheduleRow, s: ScheduleRow): ScheduleRow {
    var changed := existing.terms.rule != s.terms.rule || existing.terms.tz != s.terms.tz;
    existing.(terms := s.terms, nextRunAt := if changed then s.nextRunAt else existing.nextRunAt)
  }

  function MergeTask(existing: TaskRow, t: TaskRow): TaskRow {
    var changed := existing.rule != t.rule || existing.tz != t.tz;
    existing.(config := t.config, rule := t.rule, tz := t.tz, nextRunAt := if changed then t.nextRunAt else existing.nextRunAt)
  }

  function Merged(rows: ScheduleRows, e: Keyed<ScheduleRow>): ScheduleRow {
    if e.id in rows then MergeSchedule(rows[e.id], e.row) else e.row
  }

  /** Another row holds this dedup key. */
  predicate Holds(rows: ScheduleRows, key: Option<string>, id: Id, other: Id) {
    key.Some? && other in rows && other != id && rows[other].terms.dedupKey == key
  }

  /** `dedup_key` is UNIQUE. */
  ghost predicate Unique(rows: ScheduleRows) {
    forall a, b :: a in rows && b in rows && a != b ==> (rows[a].terms.dedupKey.None? || rows[a].terms.dedupKey != rows[b].terms.dedupKey)
  }

  /** The key is not held by a row of another id. */
  predicate Free(rows: ScheduleRows, key: Option<string>, id: Id) {
    forall other :: other in rows ==> !Holds(rows, key, id, other)
  }

  /** The dedup upsert: a row that holds the key is overwritten in place of the row with the id. */
  ghost function CreateSchedule(rows: ScheduleRows, id: Id, row: ScheduleRow): ScheduleRows {
    if other :| other in rows && Holds(rows, row.terms.dedupKey, id, other) then rows[other := row] else rows[id := row]
  }

  ghost function ApplySchedule(rows: ScheduleRows, e: Keyed<ScheduleRow>): ScheduleRows {
    CreateSchedule(rows, e.id, Merged(rows, e))
  }

  ghost function ApplySchedules(rows: ScheduleRows, list: seq<Keyed<ScheduleRow>>, n: nat): ScheduleRows
    requires n <= |list|
  {
    if n == 0 then rows else ApplySchedule(ApplySchedules(rows, list, n - 1), list[n - 1])
  }

  function ApplyTask(tasks: TaskRows, t: Keyed<TaskRow>): TaskRows {
    tasks[t.id := if t.id in tasks then MergeTask(tasks[t.id], t.row) else t.row]
  }

  function ApplyTasks(tasks: TaskRows, list: seq<Keyed<TaskRow>>, n: nat): TaskRows
    requires n <= |list|
  {
    if n == 0 then tasks else ApplyTask(ApplyTasks(tasks, list, n - 1), list[n - 1])
  }

  function IdsOf<T>(list: seq<Keyed<T>>): set<Id> {
    set k | 0 <= k < |list| :: list[k].id
  }

  /** Which rows a list call shows; the default page shows the first hundred. */
  type Page = set<Id> -> set<Id>

  function DisableSchedules(rows: ScheduleRows, desired: set<Id>, listed: set<Id>): ScheduleRows {
    map id | id in rows ::
      if id in listed && id !in desired && rows[id].fileManaged then rows[id].(live := rows[id].live.(disabled := true)) else rows[id]
  }

  function DisableTasks(tasks: TaskRows, desired: set<Id>, listed: set<Id>): TaskRows {
    map name | name in tasks ::
      if name in listed && name !in desired && tasks[name].fileManaged then tasks[name].(live := tasks[name].live.(disabled := true))
      else tasks[name]
  }

  ghost function SyncSchedules(rows: ScheduleRows, list: seq<Keyed<ScheduleRow>>, page: Page): ScheduleRows {
    var applied := ApplySchedules(rows, list, |list|);
    DisableSchedules(applied, IdsOf(list), page(applied.Keys))
  }

  function SyncTaskRows(tasks: TaskRows, list: seq<Keyed<TaskRow>>, page: Page): TaskRows {
    var applied := ApplyTasks(tasks, list, |list|);
    DisableTasks(applied, IdsOf(list), page(applied.Keys))
  }

  // ---- conditions ----

  ghost predicate DistinctIds<T>(list: seq<Keyed<T>>) {
    forall i, j :: 0 <= i < j < |list| ==> list[i].id != list[j].id
  }

  /** No two schedules of the file declare the same key; a file that breaks this is rejected. */
  ghost predicate DistinctKeys(list: seq<Keyed<ScheduleRow>>) {
    forall i, j :: 0 <= i < j < |list| ==> (list[i].row.terms.dedupKey.None? || list[i].row.terms.dedupKey != list[j].row.terms.dedupKey)
  }

  /** When its turn comes, none of the first `n` declared schedules finds its key held by a row of another id. */
  ghost predicate CleanUpTo(rows: ScheduleRows, list: seq<Keyed<ScheduleRow>>, n: nat)
    requires n <= |list|
  {
    n == 0
    || (CleanUpTo(rows, list, n - 1) && Free(ApplySchedules(rows, list, n - 1), list[n - 1].row.terms.dedupKey, list[n - 1].id))
  }

  ghost predicate Clean(rows: ScheduleRows, list: seq<Keyed<ScheduleRow>>) {
    CleanUpTo(rows, list, |list|)
  }
}
