/** The rows a task file brings into the store: what a fresh schedule or task row holds, and when it fires first. */
module FreshRows {
  import opened Records
  import opened Policy
  import opened Sync
  import opened SyncProofs

  // ---- what a declaration asks for ----

  predicate IsNumber(s: string) {
    s != "" && forall k :: 0 <= k < |s| ==> '0' <= s[k] <= '9'
  }

  /** The number a row of digits stands for. */
  function Reading(s: string): int {
    if s == "" then 0 else 10 * Reading(s[..|s| - 1]) + (s[|s| - 1] as int - '0' as int)
  }

  /** The numeral of `n`, without leading zeros. */
  predicate IsNumeral(s: string, n: nat) {
    IsNumber(s) && Reading(s) == n && (|s| > 1 ==> s[0] != '0')
  }

  /** A task with one schedule lends it its name; else the place in the list is added. */
  ghost predicate IsIdOf(def: TaskDef, i: nat, id: Id) {
    if |def.schedules| == 1 then id == def.name else exists tail :: IsNumeral(tail, i) && id == def.name + "#" + tail
  }

  /**
   * A first slot. That of a one-shot has come when its moment has; that of a recurring rule is the one the engine would
   * give it after a run that ended now.
   */
  ghost predicate IsFirstSlot(cal: Calendar, rule: Rule, tz: string, now: int, slot: Option<int>) {
    if rule.Once? then forall clock: int :: HasCome(slot, clock) <==> rule.at <= clock
    else slot == ComputeNext(cal, rule, tz, now)
  }

  predicate HasCome(slot: Option<int>, clock: int) {
    slot.Some? && slot.value <= clock
  }

  /** Nothing has happened to the row yet, and nobody has switched it off. */
  predicate IsUntouched(live: Live) {
    && live.lastRunAt == None && live.lockedAt == None && live.failCount == 0 && live.retryCount == 0 && live.lastRunId == None
    && !live.paused && !live.disabled
  }

  /** The terms of the i-th schedule of a definition: its own, with the task's priority and retry policy where it has none. */
  predicate AreTerms(def: TaskDef, i: nat, terms: Terms)
    requires i < |def.schedules|
  {
    var s := def.schedules[i];
    && terms.rule == s.rule && terms.tz == s.tz && terms.data == s.data
    && terms.externalId == s.externalId && terms.dedupKey == s.dedupKey
    && (s.priority.Some? ==> terms.priority == s.priority.value) && (s.priority.None? ==> terms.priority == def.config.priority)
    && (s.retry.Some? ==> terms.retry == s.retry) && (s.retry.None? ==> terms.retry == def.config.retry)
  }

  /** The row of the i-th schedule of a definition, when it is new. */
  ghost predicate IsFresh(cal: Calendar, def: TaskDef, i: nat, now: int, row: ScheduleRow)
    requires i < |def.schedules|
  {
    && row.taskName == def.name && AreTerms(def, i, row.terms) && IsUntouched(row.live) && row.fileManaged
    && IsFirstSlot(cal, def.schedules[i].rule, def.schedules[i].tz, now, row.nextRunAt)
  }

  /** The row of a definition's task, when it is new: it goes by the first schedule. */
  ghost predicate IsFreshTask(cal: Calendar, def: TaskDef, now: int, row: TaskRow) {
    && row.config == def.config && IsUntouched(row.live) && row.fileManaged
    && (def.schedules == [] ==> row.rule == None && row.tz == def.tz && row.nextRunAt == None)
    && (def.schedules != [] ==>
          && row.rule == Some(def.schedules[0].rule) && row.tz == def.schedules[0].tz
          && IsFirstSlot(cal, def.schedules[0].rule, def.schedules[0].tz, now, row.nextRunAt))
  }

  // ---- what is materialised ----

  lemma DigitIs(d: nat)
    requires d < 10
    ensures var c := ("0123456789")[d]; '0' <= c <= '9' && c as int - '0' as int == d
  {
  }

  lemma OneMoreDigit(s: string, n: nat, d: nat)
    requires d < 10 && (s == "" ==> n == 0) && (s != "" ==> IsNumeral(s, n) && s[0] != '0')
    ensures IsNumeral(s + [("0123456789")[d]], 10 * n + d)
  {
    DigitIs(d);
    var t := s + [("0123456789")[d]];
    assert t[..|t| - 1] == s;
  }

  lemma {:induction false} DecimalIsNumeral(n: nat)
    ensures IsNumeral(Decimal(n), n)
    ensures n > 0 ==> Decimal(n)[0] != '0'
  {
    if n >= 10 {
      DecimalIsNumeral(n / 10);
      OneMoreDigit(Decimal(n / 10), n / 10, n % 10);
    } else {
      OneMoreDigit("", 0, n);
      DigitIs(n);
    }
  }

  lemma FirstSlot(cal: Calendar, rule: Rule, tz: string, now: int)
    ensures IsFirstSlot(cal, rule, tz, now, InitialNextRun(cal, rule, tz, now))
  {
  }

  lemma ScheduleIsFresh(cal: Calendar, def: TaskDef, i: nat, now: int)
    requires i < |def.schedules|
    ensures var e := ScheduleOf(cal, def, i, now); IsIdOf(def, i, e.id) && IsFresh(cal, def, i, now, e.row)
  {
    DecimalIsNumeral(i);
    FirstSlot(cal, def.schedules[i].rule, def.schedules[i].tz, now);
  }

  /** How many schedules the first `d` definitions have. */
  function Before(defs: seq<TaskDef>, d: nat): nat
    requires d <= |defs|
  {
    if d == 0 then 0 else Before(defs, d - 1) + |defs[d - 1].schedules|
  }

  /** The list holds a fresh row for each schedule of each definition, in their order, and nothing else. */
  ghost predicate AreFresh(cal: Calendar, defs: seq<TaskDef>, now: int, list: seq<Keyed<ScheduleRow>>) {
    && |list| == Before(defs, |defs|)
    && forall d, i :: 0 <= d < |defs| && 0 <= i < |defs[d].schedules| ==> HoldsFresh(cal, defs, d, i, now, list)
  }

  ghost predicate HoldsFresh(cal: Calendar, defs: seq<TaskDef>, d: nat, i: nat, now: int, list: seq<Keyed<ScheduleRow>>)
    requires d < |defs| && i < |defs[d].schedules|
  {
    var k := Before(defs, d) + i;
    k < |list| && IsIdOf(defs[d], i, list[k].id) && IsFresh(cal, defs[d], i, now, list[k].row)
  }

  lemma {:induction false} BeforeIn(defs: seq<TaskDef>, more: seq<TaskDef>, d: nat)
    requires d <= |defs| <= |more| && more[..|defs|] == defs
    ensures Before(defs, d) == Before(more, d)
  {
    if d > 0 {
      BeforeIn(defs, more, d - 1);
      assert more[..|defs|][d - 1] == more[d - 1];
    }
  }

  lemma EarlierHold(cal: Calendar, defs: seq<TaskDef>, d: nat, i: nat, now: int, list: seq<Keyed<ScheduleRow>>, more: seq<Keyed<ScheduleRow>>)
    requires d < |defs| - 1 && i < |defs[d].schedules| && HoldsFresh(cal, defs[..|defs| - 1], d, i, now, list)
    ensures HoldsFresh(cal, defs, d, i, now, list + more)
  {
    BeforeIn(defs[..|defs| - 1], defs, d);
  }

  lemma LastHolds(cal: Calendar, defs: seq<TaskDef>, i: nat, now: int, list: seq<Keyed<ScheduleRow>>)
    requires defs != [] && |list| == Before(defs, |defs| - 1) && i < |defs[|defs| - 1].schedules|
    ensures var last := defs[|defs| - 1];
            HoldsFresh(cal, defs, |defs| - 1, i, now, list + SchedulesOf(cal, last, |last.schedules|, now))
  {
    ScheduleIsFresh(cal, defs[|defs| - 1], i, now);
  }

  lemma {:induction false} FileIsFresh(cal: Calendar, defs: seq<TaskDef>, now: int)
    ensures AreFresh(cal, defs, now, ToSchedules(cal, defs, now))
    decreases |defs|
  {
    if defs != [] {
      var n := |defs| - 1;
      var list, more := ToSchedules(cal, defs[..n], now), SchedulesOf(cal, defs[n], |defs[n].schedules|, now);
      FileIsFresh(cal, defs[..n], now);
      BeforeIn(defs[..n], defs, n);
      assert ToSchedules(cal, defs, now) == list + more;
      forall d: nat, i: nat | d < |defs| && i < |defs[d].schedules| ensures HoldsFresh(cal, defs, d, i, now, list + more) {
        if d < n { EarlierHold(cal, defs, d, i, now, list, more); } else { LastHolds(cal, defs, i, now, list); }
      }
    }
  }

  lemma TasksAreFresh(cal: Calendar, defs: seq<TaskDef>, now: int)
    ensures |ToTasks(cal, defs, now)| == |defs|
    ensures forall d :: 0 <= d < |defs| ==>
              var e := ToTasks(cal, defs, now)[d]; e.id == defs[d].name && IsFreshTask(cal, defs[d], now, e.row)
  {
    forall d | 0 <= d < |defs| && defs[d].schedules != [] {
      FirstSlot(cal, defs[d].schedules[0].rule, defs[d].schedules[0].tz, now);
    }
  }

  // ---- what a sync brings into the store ----

  /**
   * After a clean sync a declared schedule has the terms of its declaration. If its row is new, it is fresh; if the rule
   * or the zone has changed, its slot is a first slot.
   */
  lemma SyncedRows(cal: Calendar, defs: seq<TaskDef>, now: int, rows: ScheduleRows, page: Page, d: nat, i: nat) returns (id: Id)
    requires d < |defs| && i < |defs[d].schedules|
    requires DistinctIds(ToSchedules(cal, defs, now)) && Clean(rows, ToSchedules(cal, defs, now))
    ensures var r := SyncSchedules(rows, ToSchedules(cal, defs, now), page);
            && IsIdOf(defs[d], i, id) && id in r && AreTerms(defs[d], i, r[id].terms)
            && (id !in rows ==> IsFresh(cal, defs[d], i, now, r[id]))
            && (id in rows && (rows[id].terms.rule != defs[d].schedules[i].rule || rows[id].terms.tz != defs[d].schedules[i].tz) ==>
                  IsFirstSlot(cal, defs[d].schedules[i].rule, defs[d].schedules[i].tz, now, r[id].nextRunAt))
  {
    var list, k := ToSchedules(cal, defs, now), Before(defs, d) + i;
    FileIsFresh(cal, defs, now);
    assert HoldsFresh(cal, defs, d, i, now, list);
    id := list[k].id;
    DeclaredRowsKeepTheirState(rows, list, page, k);
  }

  /** The same for the row of a task. */
  lemma SyncedTasks(cal: Calendar, defs: seq<TaskDef>, now: int, tasks: TaskRows, page: Page, d: nat)
    requires d < |defs| && DistinctIds(ToTasks(cal, defs, now))
    ensures var r, name := SyncTaskRows(tasks, ToTasks(cal, defs, now), page), defs[d].name;
            name in r && r[name].config == defs[d].config && (name !in tasks ==> IsFreshTask(cal, defs[d], now, r[name]))
  {
    var list := ToTasks(cal, defs, now);
    TasksAreFresh(cal, defs, now);
    TasksAppliedIs(tasks, list, |list|, defs[d].name);
    assert list[d].id in IdsOf(list);
  }
}
