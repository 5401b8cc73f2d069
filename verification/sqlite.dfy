/** The schedule operations of the SQLite store, applied to the table in place. */
module Sqlite {
  import opened Records
  import opened Policy
  import opened Store

  /** `rest` comes after its head in the order of the due query. */
  ghost predicate Sorted(due: seq<Entry>) {
    forall k, l :: 0 <= k < l < |due| ==> due[k].id != due[l].id && Before(due[k].row, due[l].row)
  }

  /** Where the due query puts a row: behind everything that does not come strictly after it. */
  method Insert(due: seq<Entry>, e: Entry) returns (r: seq<Entry>)
    requires Sorted(due) && (forall k :: 0 <= k < |due| ==> due[k].id != e.id && due[k].row.nextRunAt.Some?)
    requires e.row.nextRunAt.Some?
    ensures Sorted(r)
    ensures exists k :: 0 <= k <= |due| && r == due[..k] + [e] + due[k..]
  {
    var k := 0;
    while k < |due| && Before(due[k].row, e.row)
      invariant 0 <= k <= |due|
      invariant forall j :: 0 <= j < k ==> Before(due[j].row, e.row)
    {
      k := k + 1;
    }
    r := due[..k] + [e] + due[k..];
    forall i, j | 0 <= i < j < |r| ensures r[i].id != r[j].id && Before(r[i].row, r[j].row) {
      assert r[i] == if i < k then due[i] else if i == k then e else due[i - 1];
      assert r[j] == if j < k then due[j] else if j == k then e else due[j - 1];
      if i == k {
        assert Before(due[k].row, due[j - 1].row) || k == j - 1;
      }
    }
  }

  /** A sequence with the elements of a set, each once. */
  lemma Lists<T>(s: seq<T>, elements: set<T>)
    requires multiset(s) == multiset(elements)
    ensures forall k :: 0 <= k < |s| ==> s[k] in elements
    ensures forall k, l :: 0 <= k < l < |s| ==> s[k] != s[l]
    ensures forall e :: e in elements ==> e in s
  {
    forall k | 0 <= k < |s| ensures s[k] in elements {
      assert s[k] in multiset(s);
    }
    forall k, l | 0 <= k < l < |s| ensures s[k] != s[l] {
      assert s == s[..l] + s[l..];
      assert s[l..][0] == s[l] && s[l] in multiset(s[l..]);
      assert s[..l][k] == s[k] && s[k] in multiset(s[..l]);
      assert multiset(s) == multiset(s[..l]) + multiset(s[l..]);
      assert multiset(elements)[s[k]] <= 1;
    }
    forall e | e in elements ensures e in s {
      assert e in multiset(s);
    }
  }

  /** The order of keys: by their first difference, a prefix first. */
  predicate Less(a: Id, b: Id) {
    b != [] && (a == [] || a[0] < b[0] || (a[0] == b[0] && Less(a[1..], b[1..])))
  }

  ghost predicate Ascending(keys: seq<Id>) {
    forall k, l {:trigger Less(keys[k], keys[l])} :: 0 <= k < l < |keys| ==> Less(keys[k], keys[l])
  }

  /** The rows of a page come in key order, and no row of the table belongs between two of them. */
  ghost predicate InKeyOrder(rows: Rows, page: seq<Entry>) {
    && (forall k, l {:trigger Less(page[k].id, page[l].id)} :: 0 <= k < l < |page| ==> Less(page[k].id, page[l].id))
    && (forall id :: id in rows && |page| > 0 ==>
          Less(id, page[0].id) || Less(page[|page| - 1].id, id) || exists k :: 0 <= k < |page| && page[k].id == id)
  }

  lemma OneStretch(rows: Rows, index: seq<Id>, offset: nat, page: seq<Entry>)
    requires multiset(index) == multiset(rows.Keys) && Ascending(index)
    requires |page| > 0 ==> offset + |page| <= |index|
    requires forall k :: 0 <= k < |page| ==> page[k].id == index[offset + k]
    ensures InKeyOrder(rows, page)
  {
    Lists(index, rows.Keys);
    forall k, l | 0 <= k < l < |page| ensures Less(page[k].id, page[l].id) {
      assert Less(index[offset + k], index[offset + l]);
    }
    forall id | id in rows && |page| > 0
      ensures Less(id, page[0].id) || Less(page[|page| - 1].id, id) || exists k :: 0 <= k < |page| && page[k].id == id
    {
      var m :| 0 <= m < |index| && index[m] == id;
      if m < offset { assert Less(index[m], index[offset]); }
      else if offset <= m < offset + |page| { assert page[m - offset].id == id; }
      else { assert Less(index[offset + |page| - 1], index[m]); }
    }
  }

  /** No row appears or goes, and none but this one changes. */
  ghost predicate OnlyRow(before: Rows, after: Rows, id: Id) {
    after.Keys == before.Keys && forall other :: other in after && other != id ==> after[other] == before[other]
  }

  class Storage {
    var tasks: map<string, Task>
    var rows: Rows
    /** The primary keys of the schedules, in key order. */
    var index: seq<Id>
    var runs: map<RunId, Run>
    /** Runs created so far. */
    var created: nat

    ghost predicate Valid()
      reads this
    {
      && multiset(index) == multiset(rows.Keys) && Ascending(index)
      && (forall r :: r in runs ==> Earlier(r, created))
    }

    /** `SELECT ... ORDER BY priority DESC, next_run_at ASC`. */
    method ListDueSchedules(now: int) returns (due: seq<Entry>)
      requires Valid()
      ensures IsDueList(rows, now, due)
      ensures forall k, l :: 0 <= k < l < |due| ==>
                due[k].row.priority > due[l].row.priority
                || (due[k].row.priority == due[l].row.priority && due[k].row.nextRunAt.value <= due[l].row.nextRunAt.value)
    {
      due := [];
      Lists(index, rows.Keys);
      var n := 0;
      while n < |index|
        invariant 0 <= n <= |index|
        invariant forall k :: 0 <= k < |due| ==> Due(rows, due[k].id, now) && due[k].row == rows[due[k].id] && due[k].id in index[..n]
        invariant Sorted(due)
        invariant forall m :: 0 <= m < n && Due(rows, index[m], now) ==> exists k :: 0 <= k < |due| && due[k].id == index[m]
      {
        if Due(rows, index[n], now) {
          ghost var before := due;
          due := Insert(due, Entry(index[n], rows[index[n]]));
          InsertKeeps(before, due, Entry(index[n], rows[index[n]]));
        }
        n := n + 1;
      }
    }

    /** One page of the table in key order; a page never has more than 1000 rows. */
    method ListSchedules(limit: nat, offset: nat) returns (page: seq<Entry>)
      requires Valid()
      ensures var size := if limit < 1000 then limit else 1000;
              && |page| == (if offset >= |index| then 0 else if |index| - offset < size then |index| - offset else size)
              && forall k :: 0 <= k < |page| ==> page[k].id == index[offset + k] && page[k].id in rows && page[k].row == rows[page[k].id]
      ensures InKeyOrder(rows, page)
    {
      page := [];
      Lists(index, rows.Keys);
      var size := if limit < 1000 then limit else 1000;
      while |page| < size && offset + |page| < |index|
        invariant |page| <= size && (|page| > 0 ==> offset + |page| <= |index|)
        invariant forall k :: 0 <= k < |page| ==> page[k].id == index[offset + k] && page[k].id in rows && page[k].row == rows[page[k].id]
      {
        page := page + [Entry(index[offset + |page|], rows[index[offset + |page|]])];
      }
      OneStretch(rows, index, offset, page);
    }

    method ClaimSchedule(id: Id, at: int) returns (claimed: bool)
      requires Valid()
      modifies this`rows
      ensures Valid()
      ensures claimed <==>
                && id in old(rows) && old(rows)[id].lockedAt == None && !old(rows)[id].paused && !old(rows)[id].disabled
                && forall other :: other in old(rows) && old(rows)[other].taskName == old(rows)[id].taskName ==> old(rows)[other].lockedAt == None
      ensures claimed == Claimable(old(rows), id)
      ensures rows == if claimed then Claim(old(rows), id, at) else old(rows)
      ensures OnlyRow(old(rows), rows, id)
      ensures claimed ==> rows[id].lockedAt == Some(at) && rows[id].(lockedAt := None) == old(rows)[id]
    {
      claimed := Claimable(rows, id);
      if claimed {
        rows := rows[id := rows[id].(lockedAt := Some(at))];
      }
    }

    method CompleteSchedule(id: Id, c: Completion)
      requires Valid()
      modifies this`rows
      ensures Valid() && rows == Complete(old(rows), id, c)
      ensures OnlyRow(old(rows), rows, id)
      ensures id in rows ==>
                var before, after := old(rows)[id], rows[id];
                && after.nextRunAt == c.nextRunAt && after.lastRunAt == Some(c.lastRunAt) && after.lockedAt == None
                && after.failCount == before.failCount + (if c.failed then 1 else 0)
                && after.retryCount == c.retryCount && after.lastRunId == Some(c.lastRunId)
                && after.(nextRunAt := before.nextRunAt, lastRunAt := before.lastRunAt, lockedAt := before.lockedAt,
                          failCount := before.failCount, retryCount := before.retryCount, lastRunId := before.lastRunId) == before
    {
      if id in rows {
        var row := rows[id];
        rows := rows[id := Row(row.taskName, row.rule, row.tz, c.nextRunAt, Some(c.lastRunAt), None,
                               if c.failed then row.failCount + 1 else row.failCount, row.priority, row.retry,
                               c.retryCount, Some(c.lastRunId), row.paused, row.disabled)];
      }
    }

    /** Releases every lock older than the cutoff, as a failure of its schedule, and says how many. */
    method ReapZombieScheduleLocks(cutoff: int) returns (count: nat)
      requires Valid()
      modifies this`rows
      ensures Valid() && rows == Reap(old(rows), cutoff) && rows.Keys == old(rows).Keys
      ensures forall id :: id in rows ==>
                var before, after := old(rows)[id], rows[id];
                if before.lockedAt.Some? && before.lockedAt.value < cutoff then
                  && after.lockedAt == None && after.failCount == before.failCount + 1
                  && after.(lockedAt := before.lockedAt, failCount := before.failCount) == before
                else after == before
      ensures count == |set id | id in old(rows) && Stale(old(rows)[id], cutoff)|
    {
      var stale := set id | id in rows && Stale(rows[id], cutoff);
      count := |stale|;
      rows := map id | id in rows ::
        if id in stale then rows[id].(lockedAt := None, failCount := rows[id].failCount + 1) else rows[id];
    }

    method RefreshScheduleLock(id: Id, at: int)
      requires Valid()
      modifies this`rows
      ensures Valid() && rows == Refresh(old(rows), id, at)
      ensures OnlyRow(old(rows), rows, id)
      ensures id in rows ==>
                && rows[id].lockedAt == (if old(rows)[id].lockedAt.Some? then Some(at) else None)
                && rows[id].(lockedAt := old(rows)[id].lockedAt) == old(rows)[id]
    {
      if id in rows && rows[id].lockedAt != None {
        rows := rows[id := rows[id].(lockedAt := Some(at))];
      }
    }

    method ClearScheduleLocks() returns (count: nat)
      requires Valid()
      modifies this`rows
      ensures Valid() && rows == ClearLocks(old(rows)) && rows.Keys == old(rows).Keys
      ensures forall id :: id in rows ==> rows[id].lockedAt == None && rows[id].(lockedAt := old(rows)[id].lockedAt) == old(rows)[id]
      ensures count == |set id | id in old(rows) && old(rows)[id].Locked()|
    {
      var locked := set id | id in rows && rows[id].Locked();
      count := |locked|;
      rows := map id | id in rows :: if id in locked then rows[id].(lockedAt := None) else rows[id];
    }

    method UpdateNextRunAt(id: Id, next: Option<int>)
      requires Valid()
      modifies this`rows
      ensures Valid() && rows == SetNext(old(rows), id, next)
      ensures OnlyRow(old(rows), rows, id)
      ensures id in rows ==> rows[id].nextRunAt == next && rows[id].(nextRunAt := old(rows)[id].nextRunAt) == old(rows)[id]
    {
      if id in rows {
        rows := rows[id := rows[id].(nextRunAt := next)];
      }
    }

    method CreateRun(run: Run) returns (r: RunId)
      requires Valid()
      modifies this`runs, this`created
      ensures Valid() && r == old(created) && r !in old(runs) && created == r + 1
      ensures runs == old(runs)[r := run]
    {
      assert !Earlier(created, created);
      r := created;
      runs := runs[r := run];
      created := created + 1;
    }

    /** A run that is not there is left alone. */
    method FinishRun(r: RunId, outcome: Outcome)
      requires Valid()
      modifies this`runs
      ensures Valid() && runs == Finished(old(runs), {r}, outcome)
      ensures runs.Keys == old(runs).Keys && forall q :: q in runs && q != r ==> runs[q] == old(runs)[q]
      ensures r in runs ==>
                && runs[r].status == Ended(outcome) && (runs[r].failed <==> old(runs)[r].failed || outcome == Failed)
                && runs[r].(status := old(runs)[r].status, failed := old(runs)[r].failed) == old(runs)[r]
    {
      if r in runs {
        runs := runs[r := runs[r].(status := Ended(outcome), failed := runs[r].failed || outcome == Failed)];
      }
    }

    method UpdateRun(r: RunId, status: Status)
      requires Valid()
      modifies this`runs
      ensures Valid() && runs == if r in old(runs) then old(runs)[r := old(runs)[r].(status := status)] else old(runs)
    {
      if r in runs {
        runs := runs[r := runs[r].(status := status)];
      }
    }

    /** The default page: the newest 100 runs in this status. */
    method ListRuns(status: Status) returns (page: seq<RunId>)
      requires Valid()
      ensures |page| <= 100
      ensures forall k :: 0 <= k < |page| ==> page[k] in runs && runs[page[k]].status == status
      ensures forall k, l :: 0 <= k < l < |page| ==> page[l] < page[k]
      ensures forall r :: r in runs && runs[r].status == status && (|page| < 100 || page[|page| - 1] <= r) ==> r in page
    {
      page := [];
      var r := created;
      while 0 < r && |page| < 100
        invariant r <= created && |page| <= 100
        invariant forall k :: 0 <= k < |page| ==> r <= page[k] && page[k] in runs && runs[page[k]].status == status
        invariant forall k, l :: 0 <= k < l < |page| ==> page[l] < page[k]
        invariant forall q :: q in runs && runs[q].status == status && r <= q ==> q in page
      {
        r := r - 1;
        if r in runs && runs[r].status == status {
          page := page + [r];
        }
      }
    }
  }

  /** The run table after these runs ended with this outcome. */
  function Finished(runs: map<RunId, Run>, which: set<RunId>, outcome: Outcome): map<RunId, Run> {
    map r | r in runs ::
      if r in which then runs[r].(status := Ended(outcome), failed := runs[r].failed || outcome == Failed) else runs[r]
  }

  lemma InsertKeeps(before: seq<Entry>, after: seq<Entry>, e: Entry)
    requires exists k :: 0 <= k <= |before| && after == before[..k] + [e] + before[k..]
    ensures forall k :: 0 <= k < |before| ==> before[k] in after
    ensures e in after
    ensures forall k :: 0 <= k < |after| ==> after[k] == e || after[k] in before
  {
    var k :| 0 <= k <= |before| && after == before[..k] + [e] + before[k..];
    assert after[k] == e;
    forall j | 0 <= j < |before| ensures before[j] in after {
      assert after[if j < k then j else j + 1] == before[j];
    }
  }
}
