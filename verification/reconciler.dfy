/** The reconciler as it runs: the file is materialised, applied row by row, and what it no longer declares is disabled. */
module Reconciler {
  import opened Records
  import opened Keys
  import opened Sync
  import opened SyncProofs
  import opened FreshRows

  // ---- the ids of a file ----

  predicate Plain(name: string) {
    forall k :: 0 <= k < |name| ==> name[k] != '#'
  }

  lemma {:induction false} DecimalIsInjective(a: nat, b: nat)
    requires Decimal(a) == Decimal(b)
    ensures a == b
  {
    var s, t := Decimal(a), Decimal(b);
    assert s[|s| - 1] == ("0123456789")[a % 10] && t[|t| - 1] == ("0123456789")[b % 10];
    assert a % 10 == b % 10;
    assert s[..|s| - 1] == if a < 10 then "" else Decimal(a / 10);
    assert t[..|t| - 1] == if b < 10 then "" else Decimal(b / 10);
    if a >= 10 && b >= 10 { DecimalIsInjective(a / 10, b / 10); }
  }

  lemma {:induction false} DecimalIsPlain(n: nat)
    ensures Plain(Decimal(n))
  {
    if n >= 10 { DecimalIsPlain(n / 10); }
  }

  /** Without a `#` in the tails, the last `#` tells where the names end. */
  lemma IdsSplit(name: string, other: string, tail: string, otherTail: string)
    requires Plain(tail) && Plain(otherTail) && name + "#" + tail == other + "#" + otherTail
    ensures name == other && tail == otherTail
  {
    var s := name + "#" + tail;
    assert s[|name|] == '#' && s[|other|] == '#';
    if |name| < |other| {
      assert false;
    }
    if |other| < |name| {
      assert false;
    }
    assert s[..|name|] == name && s[..|other|] == other;
    assert s[|name| + 1..] == tail && s[|other| + 1..] == otherTail;
  }

  /**
   * What a schedule id tells: the task and the position, unless a task with one schedule is named like a schedule of
   * another one.
   */
  lemma IdTells(name: string, count: nat, i: nat, other: string, otherCount: nat, j: nat)
    requires i < count && j < otherCount && ScheduleId(name, count, i) == ScheduleId(other, otherCount, j)
    requires !(count == 1 && otherCount != 1 && name == other + "#" + Decimal(j))
    requires !(otherCount == 1 && count != 1 && other == name + "#" + Decimal(i))
    ensures name == other && i == j
  {
    if count != 1 && otherCount != 1 {
      DecimalIsPlain(i);
      DecimalIsPlain(j);
      IdsSplit(name, other, Decimal(i), Decimal(j));
      DecimalIsInjective(i, j);
    }
  }

  /** Every row of the list belongs to one schedule of one definition, and stands where the earlier definitions leave off. */
  lemma {:induction false} OwnerOf(cal: Calendar, defs: seq<TaskDef>, now: int, k: nat) returns (d: nat, i: nat)
    requires k < |ToSchedules(cal, defs, now)|
    ensures d < |defs| && i < |defs[d].schedules| && ToSchedules(cal, defs, now)[k] == ScheduleOf(cal, defs[d], i, now)
    ensures k == |ToSchedules(cal, defs[..d], now)| + i
    decreases |defs|
  {
    var n := |defs| - 1;
    var before := ToSchedules(cal, defs[..n], now);
    if k < |before| {
      d, i := OwnerOf(cal, defs[..n], now, k);
      assert defs[..n][..d] == defs[..d];
    } else {
      d, i := n, k - |before|;
    }
  }

  lemma {:induction false} PositionOf(cal: Calendar, defs: seq<TaskDef>, now: int, d: nat, i: nat) returns (k: nat)
    requires d < |defs| && i < |defs[d].schedules|
    ensures k < |ToSchedules(cal, defs, now)| && ToSchedules(cal, defs, now)[k] == ScheduleOf(cal, defs[d], i, now)
    decreases |defs|
  {
    var n := |defs| - 1;
    if d < n {
      k := PositionOf(cal, defs[..n], now, d, i);
    } else {
      k := |ToSchedules(cal, defs[..n], now)| + i;
    }
  }

  /** Task `c`, with one schedule, is named like the `i`-th schedule of task `d`, which has not exactly one. */
  predicate NamedLike(defs: seq<TaskDef>, c: nat, d: nat, i: nat) {
    && c < |defs| && d < |defs| && i < |defs[d].schedules|
    && |defs[c].schedules| == 1 && |defs[d].schedules| != 1 && defs[c].name == defs[d].name + "#" + Decimal(i)
  }

  ghost predicate Clash(defs: seq<TaskDef>) {
    exists c: nat, d: nat, i: nat :: NamedLike(defs, c, d, i)
  }

  ghost predicate DistinctNames(defs: seq<TaskDef>) {
    forall c, d :: 0 <= c < d < |defs| ==> defs[c].name != defs[d].name
  }

  /** Schedule ids differ if and only if no task with one schedule is named like a schedule of another task. */
  lemma IdsAreDistinct(cal: Calendar, defs: seq<TaskDef>, now: int)
    requires DistinctNames(defs)
    ensures DistinctIds(ToSchedules(cal, defs, now)) <==> !Clash(defs)
  {
    if Clash(defs) {
      ClashCollides(cal, defs, now);
    } else {
      var all := ToSchedules(cal, defs, now);
      forall k, l | 0 <= k < l < |all| ensures all[k].id != all[l].id {
        var c, i := OwnerOf(cal, defs, now, k);
        var d, j := OwnerOf(cal, defs, now, l);
        if all[k].id == all[l].id {
          assert !NamedLike(defs, c, d, j) && !NamedLike(defs, d, c, i);
          IdTells(defs[c].name, |defs[c].schedules|, i, defs[d].name, |defs[d].schedules|, j);
        }
      }
    }
  }

  lemma ClashCollides(cal: Calendar, defs: seq<TaskDef>, now: int)
    requires DistinctNames(defs) && Clash(defs)
    ensures !DistinctIds(ToSchedules(cal, defs, now))
  {
    var c: nat, d: nat, i: nat :| NamedLike(defs, c, d, i);
    var k := PositionOf(cal, defs, now, c, 0);
    var l := PositionOf(cal, defs, now, d, i);
    var all := ToSchedules(cal, defs, now);
    assert all[k].row.taskName == defs[c].name && all[l].row.taskName == defs[d].name;
    assert all[k].id == all[l].id;
  }

  /** A task named like a schedule of another task shares its id. */
  lemma IdsCanCollide(cal: Calendar, config: TaskConfig, e: ScheduleDef, now: int)
    ensures var defs := [TaskDef("a", "UTC", config, [e, e]), TaskDef("a#0", "UTC", config, [e])];
            var all := ToSchedules(cal, defs, now);
            |all| == 3 && all[0].id == all[2].id && all[0].row.taskName != all[2].row.taskName
  {
    var a, b := TaskDef("a", "UTC", config, [e, e]), TaskDef("a#0", "UTC", config, [e]);
    assert [a, b][..1] == [a] && [a][..0] == [];
    assert ToSchedules(cal, [a], now) == [] + SchedulesOf(cal, a, 2, now);
    assert Decimal(0) == "0" && ScheduleId("a", 2, 0) == "a" + "#" + "0";
  }

  /** Syncing a file twice: the conditions on the file and the store, and the whole result. */
  lemma FileSyncIsIdempotent(cal: Calendar, defs: seq<TaskDef>, now: int, tasks: TaskRows, rows: ScheduleRows, page: Page)
    requires DistinctNames(defs) && !Clash(defs)
    requires var list := ToSchedules(cal, defs, now);
             DistinctKeys(list) && forall k :: 0 <= k < |list| ==> Free(rows, list[k].row.terms.dedupKey, list[k].id)
    ensures var list, t := ToSchedules(cal, defs, now), ToTasks(cal, defs, now);
            && SyncSchedules(SyncSchedules(rows, list, page), list, page) == SyncSchedules(rows, list, page)
            && SyncTaskRows(SyncTaskRows(tasks, t, page), t, page) == SyncTaskRows(tasks, t, page)
  {
    var list := ToSchedules(cal, defs, now);
    IdsAreDistinct(cal, defs, now);
    CleanFromTheStart(rows, list, |list|);
    SyncIsIdempotent(rows, list, page);
    TaskSyncIsIdempotent(tasks, ToTasks(cal, defs, now), page);
  }

  // ---- the loops ----

  method MaterialiseSchedules(cal: Calendar, defs: seq<TaskDef>, now: int) returns (out: seq<Keyed<ScheduleRow>>)
    ensures out == ToSchedules(cal, defs, now)
    ensures AreFresh(cal, defs, now, out)
  {
    out := [];
    var d := 0;
    while d < |defs|
      invariant 0 <= d <= |defs| && out == ToSchedules(cal, defs[..d], now)
    {
      var i := 0;
      while i < |defs[d].schedules|
        invariant 0 <= i <= |defs[d].schedules| && out == ToSchedules(cal, defs[..d], now) + SchedulesOf(cal, defs[d], i, now)
      {
        out := out + [ScheduleOf(cal, defs[d], i, now)];
        i := i + 1;
      }
      assert defs[..d + 1][..d] == defs[..d];
      d := d + 1;
    }
    assert defs[..d] == defs;
    FileIsFresh(cal, defs, now);
  }

  method MaterialiseTasks(cal: Calendar, defs: seq<TaskDef>, now: int) returns (out: seq<Keyed<TaskRow>>)
    ensures out == ToTasks(cal, defs, now)
    ensures |out| == |defs| && forall d :: 0 <= d < |defs| ==> out[d].id == defs[d].name && IsFreshTask(cal, defs[d], now, out[d].row)
  {
    out := [];
    while |out| < |defs|
      invariant |out| <= |defs| && out == ToTasks(cal, defs[..|out|], now)
    {
      assert defs[..|out| + 1][..|out|] == defs[..|out|];
      out := out + [TaskOf(cal, defs[|out|], now)];
    }
    assert defs[..|out|] == defs;
    TasksAreFresh(cal, defs, now);
  }

  /** The file-wide check of the dedup keys, with the owners seen so far. */
  method KeysAreDistinct(list: seq<Keyed<ScheduleRow>>) returns (ok: bool)
    ensures ok <==> DistinctKeys(list)
  {
    var owners: set<string> := {};
    var n := 0;
    while n < |list|
      invariant 0 <= n <= |list|
      invariant forall k :: 0 <= k < n && list[k].row.terms.dedupKey.Some? ==> list[k].row.terms.dedupKey.value in owners
      invariant forall key :: key in owners ==> exists k :: 0 <= k < n && list[k].row.terms.dedupKey == Some(key)
      invariant forall i, j :: 0 <= i < j < n ==> (list[i].row.terms.dedupKey.None? || list[i].row.terms.dedupKey != list[j].row.terms.dedupKey)
    {
      var key := list[n].row.terms.dedupKey;
      if key.Some? {
        if key.value in owners {
          return false;
        }
        owners := owners + {key.value};
      }
      n := n + 1;
    }
    ok := true;
  }

  lemma TaskDisableNext(tasks: TaskRows, desired: set<Id>, done: set<Id>, name: string)
    ensures var r := DisableTasks(tasks, desired, done);
            && r.Keys == tasks.Keys
            && DisableTasks(tasks, desired, done + {name})
               == if name in r && name !in desired && r[name].fileManaged && !r[name].live.disabled
                  then r[name := r[name].(live := r[name].live.(disabled := true))] else r
  {
  }

  lemma ScheduleDisableNext(rows: ScheduleRows, desired: set<Id>, done: set<Id>, id: Id)
    ensures var r := DisableSchedules(rows, desired, done);
            && r.Keys == rows.Keys
            && DisableSchedules(rows, desired, done + {id})
               == if id in r && id !in desired && r[id].fileManaged && !r[id].live.disabled
                  then r[id := r[id].(live := r[id].live.(disabled := true))] else r
  {
  }

  class DesiredState {
    const cal: Calendar
    /** What a list call with the default limit shows. */
    const page: Page
    var tasks: TaskRows
    var schedules: ScheduleRows

    ghost predicate Valid()
      reads this
    {
      Unique(schedules)
    }

    constructor (cal: Calendar, page: Page)
      ensures Valid() && this.cal == cal && this.page == page && tasks == map[] && schedules == map[]
    {
      this.cal, this.page := cal, page;
      tasks, schedules := map[], map[];
    }

    method GetScheduleByDedup(key: string) returns (found: Option<Id>)
      ensures found.Some? ==> found.value in schedules && schedules[found.value].terms.dedupKey == Some(key)
      ensures found.None? ==> forall id :: id in schedules ==> schedules[id].terms.dedupKey != Some(key)
    {
      var order := KeysOf(schedules);
      var n := 0;
      while n < |order|
        invariant 0 <= n <= |order| && forall k :: 0 <= k < n ==> schedules[order[k]].terms.dedupKey != Some(key)
      {
        if schedules[order[n]].terms.dedupKey == Some(key) {
          return Some(order[n]);
        }
        n := n + 1;
      }
      found := None;
    }

    /** A create whose key exists already updates the row that has it. */
    method CreateRow(id: Id, row: ScheduleRow)
      requires Valid()
      modifies this`schedules
      ensures schedules == CreateSchedule(old(schedules), id, row)
    {
      if row.terms.dedupKey.Some? {
        var existing := GetScheduleByDedup(row.terms.dedupKey.value);
        if existing.Some? && existing.value != id {
          OnlyHolder(schedules, row.terms.dedupKey, id, existing.value);
          schedules := schedules[existing.value := row];
          return;
        }
        if existing.Some? {
          OwnKeyIsFree(schedules, row.terms.dedupKey, id);
        }
      }
      schedules := schedules[id := row];
    }

    method ApplyScheduleRow(e: Keyed<ScheduleRow>)
      requires Valid()
      modifies this`schedules
      ensures Valid() && schedules == ApplySchedule(old(schedules), e)
    {
      UniqueKept(schedules, e);
      if e.id !in schedules {
        CreateRow(e.id, e.row);
        return;
      }
      var existing := schedules[e.id];
      var changed := existing.terms.rule != e.row.terms.rule || existing.terms.tz != e.row.terms.tz;
      CreateRow(e.id, ScheduleRow(existing.taskName, e.row.terms, if changed then e.row.nextRunAt else existing.nextRunAt,
                                  existing.live, existing.fileManaged));
    }

    method ApplyTaskRow(t: Keyed<TaskRow>)
      modifies this`tasks
      ensures tasks == ApplyTask(old(tasks), t)
    {
      if t.id !in tasks {
        tasks := tasks[t.id := t.row];
        return;
      }
      var existing := tasks[t.id];
      var changed := existing.rule != t.row.rule || existing.tz != t.row.tz;
      tasks := tasks[t.id := TaskRow(t.row.config, t.row.rule, t.row.tz, if changed then t.row.nextRunAt else existing.nextRunAt,
                                     existing.live, existing.fileManaged)];
    }

    method DisableRemovedTasks(desired: set<Id>)
      modifies this`tasks
      ensures tasks == DisableTasks(old(tasks), desired, page(old(tasks).Keys))
    {
      ghost var before := tasks;
      var listed := page(tasks.Keys);
      var rest, done := listed, {};
      while rest != {}
        invariant rest == listed - done && done <= listed && tasks == DisableTasks(before, desired, done)
        decreases |rest|
      {
        var name :| name in rest;
        TaskDisableNext(before, desired, done, name);
        if name in tasks && name !in desired && tasks[name].fileManaged && !tasks[name].live.disabled {
          tasks := tasks[name := tasks[name].(live := tasks[name].live.(disabled := true))];
        }
        rest, done := rest - {name}, done + {name};
      }
      assert done == listed;
    }

    method DisableRemovedSchedules(desired: set<Id>)
      modifies this`schedules
      ensures schedules == DisableSchedules(old(schedules), desired, page(old(schedules).Keys))
    {
      ghost var before := schedules;
      var listed := page(schedules.Keys);
      var rest, done := listed, {};
      while rest != {}
        invariant rest == listed - done && done <= listed && schedules == DisableSchedules(before, desired, done)
        decreases |rest|
      {
        var id :| id in rest;
        ScheduleDisableNext(before, desired, done, id);
        if id in schedules && id !in desired && schedules[id].fileManaged && !schedules[id].live.disabled {
          schedules := schedules[id := schedules[id].(live := schedules[id].live.(disabled := true))];
        }
        rest, done := rest - {id}, done + {id};
      }
      assert done == listed;
    }

    method ApplyAllTasks(list: seq<Keyed<TaskRow>>)
      modifies this`tasks
      ensures tasks == ApplyTasks(old(tasks), list, |list|)
    {
      var n := 0;
      while n < |list|
        invariant 0 <= n <= |list| && tasks == ApplyTasks(old(tasks), list, n)
      {
        ApplyTaskRow(list[n]);
        n := n + 1;
      }
    }

    method ApplyAllSchedules(list: seq<Keyed<ScheduleRow>>)
      requires Valid()
      modifies this`schedules
      ensures Valid() && schedules == ApplySchedules(old(schedules), list, |list|)
    {
      var n := 0;
      while n < |list|
        invariant 0 <= n <= |list| && Valid() && schedules == ApplySchedules(old(schedules), list, n)
      {
        ApplyScheduleRow(list[n]);
        n := n + 1;
      }
    }

    /** A file that declares a key twice is refused as a whole. */
    method SyncTasks(defs: seq<TaskDef>, now: int) returns (ok: bool)
      requires Valid()
      modifies this
      ensures Valid() && (ok <==> DistinctKeys(ToSchedules(cal, defs, now)))
      ensures !ok ==> tasks == old(tasks) && schedules == old(schedules)
      ensures ok ==> tasks == SyncTaskRows(old(tasks), ToTasks(cal, defs, now), page)
      ensures ok ==> schedules == SyncSchedules(old(schedules), ToSchedules(cal, defs, now), page)
    {
      var list := MaterialiseSchedules(cal, defs, now);
      ok := KeysAreDistinct(list);
      if !ok {
        return;
      }
      var taskList := MaterialiseTasks(cal, defs, now);
      ApplyAllTasks(taskList);
      ApplyAllSchedules(list);
      DisableRemovedTasks(IdsOf(taskList));
      DisablingKeepsUnique(schedules, IdsOf(list), page(schedules.Keys));
      DisableRemovedSchedules(IdsOf(list));
    }
  }

  lemma OnlyHolder(rows: ScheduleRows, key: Option<string>, id: Id, other: Id)
    requires Unique(rows) && key.Some? && Holds(rows, key, id, other)
    ensures forall row: ScheduleRow :: row.terms.dedupKey == key ==> CreateSchedule(rows, id, row) == rows[other := row]
  {
  }

  lemma OwnKeyIsFree(rows: ScheduleRows, key: Option<string>, id: Id)
    requires Unique(rows) && key.Some? && id in rows && rows[id].terms.dedupKey == key
    ensures Free(rows, key, id)
  {
  }

  lemma DisablingKeepsUnique(rows: ScheduleRows, desired: set<Id>, listed: set<Id>)
    requires Unique(rows)
    ensures Unique(DisableSchedules(rows, desired, listed))
  {
  }
}
