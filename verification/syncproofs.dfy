/** Theorems about syncing: when declarations land, what is kept, and that a second sync changes nothing. */
module SyncProofs {
  import opened Records
  import opened Sync

  // ---- one declaration ----

  lemma UniqueKept(rows: ScheduleRows, e: Keyed<ScheduleRow>)
    requires Unique(rows)
    ensures Unique(ApplySchedule(rows, e))
  {
    var row := Merged(rows, e);
    if Free(rows, row.terms.dedupKey, e.id) {
      FreeLands(rows, e);
    } else {
      var other := TakenElsewhere(rows, e);
    }
  }

  lemma FreeLands(rows: ScheduleRows, e: Keyed<ScheduleRow>)
    requires Free(rows, e.row.terms.dedupKey, e.id)
    ensures ApplySchedule(rows, e) == rows[e.id := Merged(rows, e)]
  {
    assert Merged(rows, e).terms.dedupKey == e.row.terms.dedupKey;
  }

  /** A held key sends the whole row to its holder. */
  lemma TakenElsewhere(rows: ScheduleRows, e: Keyed<ScheduleRow>) returns (other: Id)
    requires Unique(rows) && !Free(rows, e.row.terms.dedupKey, e.id)
    ensures Holds(rows, e.row.terms.dedupKey, e.id, other)
    ensures ApplySchedule(rows, e) == rows[other := Merged(rows, e)]
  {
    assert Merged(rows, e).terms.dedupKey == e.row.terms.dedupKey;
    other :| other in rows && Holds(rows, e.row.terms.dedupKey, e.id, other);
  }

  /** A declared schedule has its own row, with the key it declares. */
  predicate Lands(rows: ScheduleRows, e: Keyed<ScheduleRow>) {
    e.id in rows && rows[e.id].terms.dedupKey == e.row.terms.dedupKey
  }

  /** One declaration lands exactly when its key is not held by a row of another id. */
  lemma LandsIffFree(rows: ScheduleRows, e: Keyed<ScheduleRow>)
    requires Unique(rows)
    ensures Lands(ApplySchedule(rows, e), e) <==> Free(rows, e.row.terms.dedupKey, e.id)
  {
    if Free(rows, e.row.terms.dedupKey, e.id) {
      FreeLands(rows, e);
    } else {
      var other := TakenElsewhere(rows, e);
      assert rows[other].terms.dedupKey == e.row.terms.dedupKey;
    }
  }

  /** Applying another declaration does not change whether a row with its key is in place. */
  lemma LandingStays(rows: ScheduleRows, e: Keyed<ScheduleRow>, f: Keyed<ScheduleRow>)
    requires Unique(rows) && e.id != f.id
    requires e.row.terms.dedupKey.None? || e.row.terms.dedupKey != f.row.terms.dedupKey
    ensures Lands(rows, e) ==> Lands(ApplySchedule(rows, f), e)
    ensures e.row.terms.dedupKey.Some? && Lands(ApplySchedule(rows, f), e) ==> Lands(rows, e)
  {
    if Free(rows, f.row.terms.dedupKey, f.id) {
      FreeLands(rows, f);
    } else {
      var other := TakenElsewhere(rows, f);
      assert Merged(rows, f).terms.dedupKey == f.row.terms.dedupKey;
    }
  }

  lemma {:induction false} UniqueAlong(rows: ScheduleRows, list: seq<Keyed<ScheduleRow>>, n: nat)
    requires Unique(rows) && n <= |list|
    ensures Unique(ApplySchedules(rows, list, n))
  {
    if n > 0 {
      UniqueAlong(rows, list, n - 1);
      UniqueKept(ApplySchedules(rows, list, n - 1), list[n - 1]);
    }
  }

  lemma {:induction false} LandedBy(rows: ScheduleRows, list: seq<Keyed<ScheduleRow>>, k: nat, n: nat)
    requires Unique(rows) && DistinctIds(list) && DistinctKeys(list) && k < n <= |list|
    ensures Lands(ApplySchedules(rows, list, n), list[k])
       <==> Free(ApplySchedules(rows, list, k), list[k].row.terms.dedupKey, list[k].id)
    decreases n
  {
    UniqueAlong(rows, list, n - 1);
    if k == n - 1 {
      LandsIffFree(ApplySchedules(rows, list, k), list[k]);
    } else {
      LandedBy(rows, list, k, n - 1);
      LandingStays(ApplySchedules(rows, list, n - 1), list[k], list[n - 1]);
    }
  }

  /**
   * A declared schedule ends in its own row, with its own key, if and only if no row of another id holds the
   * key when its turn comes.
   */
  lemma DeclarationLands(rows: ScheduleRows, list: seq<Keyed<ScheduleRow>>, page: Page, k: nat)
    requires Unique(rows) && DistinctIds(list) && DistinctKeys(list) && k < |list|
    ensures Lands(SyncSchedules(rows, list, page), list[k])
       <==> Free(ApplySchedules(rows, list, k), list[k].row.terms.dedupKey, list[k].id)
  {
    LandedBy(rows, list, k, |list|);
  }

  // ---- a clean sync ----

  lemma {:induction false} CleanAt(rows: ScheduleRows, list: seq<Keyed<ScheduleRow>>, n: nat, k: nat)
    requires n <= |list| && CleanUpTo(rows, list, n) && k < n
    ensures Free(ApplySchedules(rows, list, k), list[k].row.terms.dedupKey, list[k].id) && CleanUpTo(rows, list, k)
    decreases n
  {
    if k < n - 1 { CleanAt(rows, list, n - 1, k); }
  }

  /** The declarations put in their own rows, one after the other. */
  function Laid(rows: ScheduleRows, list: seq<Keyed<ScheduleRow>>, n: nat): ScheduleRows
    requires n <= |list|
  {
    if n == 0 then rows
    else
      var before := Laid(rows, list, n - 1);
      before[list[n - 1].id := Merged(before, list[n - 1])]
  }

  lemma {:induction false} CleanIsLaid(rows: ScheduleRows, list: seq<Keyed<ScheduleRow>>, n: nat)
    requires n <= |list| && CleanUpTo(rows, list, n)
    ensures ApplySchedules(rows, list, n) == Laid(rows, list, n)
  {
    if n > 0 {
      CleanIsLaid(rows, list, n - 1);
      FreeLands(Laid(rows, list, n - 1), list[n - 1]);
    }
  }

  lemma {:induction false} NotLaid(rows: ScheduleRows, list: seq<Keyed<ScheduleRow>>, n: nat, id: Id)
    requires n <= |list| && forall k :: 0 <= k < n ==> list[k].id != id
    ensures var r := Laid(rows, list, n); (id in r <==> id in rows) && (id in r ==> r[id] == rows[id])
  {
    if n > 0 { NotLaid(rows, list, n - 1, id); }
  }

  lemma {:induction false} LaidIs(rows: ScheduleRows, list: seq<Keyed<ScheduleRow>>, n: nat, k: nat)
    requires DistinctIds(list) && k < n <= |list|
    ensures var r := Laid(rows, list, n); list[k].id in r && r[list[k].id] == Merged(rows, list[k])
    decreases n
  {
    if k < n - 1 { LaidIs(rows, list, n - 1, k); } else { NotLaid(rows, list, k, list[k].id); }
  }

  lemma NotYetApplied(rows: ScheduleRows, list: seq<Keyed<ScheduleRow>>, n: nat, id: Id)
    requires n <= |list| && CleanUpTo(rows, list, n) && forall k :: 0 <= k < n ==> list[k].id != id
    ensures var r := ApplySchedules(rows, list, n); (id in r <==> id in rows) && (id in r ==> r[id] == rows[id])
  {
    CleanIsLaid(rows, list, n);
    NotLaid(rows, list, n, id);
  }

  lemma AppliedIs(rows: ScheduleRows, list: seq<Keyed<ScheduleRow>>, n: nat, k: nat)
    requires DistinctIds(list) && k < n <= |list| && CleanUpTo(rows, list, n)
    ensures var r := ApplySchedules(rows, list, n); list[k].id in r && r[list[k].id] == Merged(rows, list[k])
  {
    CleanIsLaid(rows, list, n);
    LaidIs(rows, list, n, k);
  }

  /** What a clean sync keeps of a declared row: everything but its terms, and its slot too when rule and zone are the same. */
  lemma DeclaredRowsKeepTheirState(rows: ScheduleRows, list: seq<Keyed<ScheduleRow>>, page: Page, k: nat)
    requires DistinctIds(list) && Clean(rows, list) && k < |list|
    ensures var id, r := list[k].id, SyncSchedules(rows, list, page);
            && id in r && r[id].terms == list[k].row.terms
            && (id in rows ==>
                  && r[id].live == rows[id].live && r[id].fileManaged == rows[id].fileManaged && r[id].taskName == rows[id].taskName
                  && r[id].nextRunAt == (if rows[id].terms.rule == list[k].row.terms.rule && rows[id].terms.tz == list[k].row.terms.tz
                                         then rows[id].nextRunAt else list[k].row.nextRunAt))
            && (id !in rows ==> r[id] == list[k].row)
  {
    AppliedIs(rows, list, |list|, k);
    assert list[k].id in IdsOf(list);
  }

  /** Rows the file does not declare are kept as they are; only file-managed ones that are listed are disabled. */
  lemma UndeclaredRowsAreKept(rows: ScheduleRows, list: seq<Keyed<ScheduleRow>>, page: Page, id: Id)
    requires DistinctIds(list) && Clean(rows, list) && id !in IdsOf(list)
    ensures var r := SyncSchedules(rows, list, page);
            && (id in r <==> id in rows)
            && (id in rows && !rows[id].fileManaged ==> r[id] == rows[id])
            && (id in rows && rows[id].fileManaged ==>
                  r[id] == if id in page(ApplySchedules(rows, list, |list|).Keys)
                           then rows[id].(live := rows[id].live.(disabled := true)) else rows[id])
  {
    forall k | 0 <= k < |list| ensures list[k].id != id {
      assert list[k].id in IdsOf(list);
    }
    NotYetApplied(rows, list, |list|, id);
  }

  /** A clean sync never turns `disabled` off. */
  lemma NeverEnables(rows: ScheduleRows, list: seq<Keyed<ScheduleRow>>, page: Page, id: Id)
    requires DistinctIds(list) && Clean(rows, list) && id in rows && rows[id].live.disabled
    ensures var r := SyncSchedules(rows, list, page); id in r && r[id].live.disabled
  {
    if id in IdsOf(list) {
      var k :| 0 <= k < |list| && list[k].id == id;
      DeclaredRowsKeepTheirState(rows, list, page, k);
    } else {
      UndeclaredRowsAreKept(rows, list, page, id);
    }
  }

  // ---- syncing again ----

  lemma {:induction false} SettledStays(rows: ScheduleRows, list: seq<Keyed<ScheduleRow>>, n: nat)
    requires n <= |list| && forall k :: 0 <= k < |list| ==>
               list[k].id in rows && MergeSchedule(rows[list[k].id], list[k].row) == rows[list[k].id]
               && Free(rows, list[k].row.terms.dedupKey, list[k].id)
    ensures ApplySchedules(rows, list, n) == rows
  {
    if n > 0 {
      SettledStays(rows, list, n - 1);
      FreeLands(rows, list[n - 1]);
    }
  }

  lemma {:induction false} SettledIsClean(rows: ScheduleRows, list: seq<Keyed<ScheduleRow>>, n: nat)
    requires n <= |list| && forall k :: 0 <= k < |list| ==>
               list[k].id in rows && MergeSchedule(rows[list[k].id], list[k].row) == rows[list[k].id]
               && Free(rows, list[k].row.terms.dedupKey, list[k].id)
    ensures CleanUpTo(rows, list, n) && ApplySchedules(rows, list, n) == rows
  {
    if n > 0 {
      SettledIsClean(rows, list, n - 1);
      SettledStays(rows, list, n - 1);
      SettledStays(rows, list, n);
    }
  }

  /** After a clean sync every declared key is held by its own row only. */
  lemma FreeAfterSync(rows: ScheduleRows, list: seq<Keyed<ScheduleRow>>, page: Page, k: nat)
    requires DistinctIds(list) && DistinctKeys(list) && Clean(rows, list) && k < |list|
    ensures Free(SyncSchedules(rows, list, page), list[k].row.terms.dedupKey, list[k].id)
  {
    var r, key := SyncSchedules(rows, list, page), list[k].row.terms.dedupKey;
    forall other | other in r ensures !Holds(r, key, list[k].id, other) {
      if other in IdsOf(list) {
        var j :| 0 <= j < |list| && list[j].id == other;
        DeclaredRowsKeepTheirState(rows, list, page, j);
        if j < k || k < j { assert key.None? || list[j].row.terms.dedupKey != key; }
      } else {
        UndeclaredRowsAreKept(rows, list, page, other);
        forall i | 0 <= i < k ensures list[i].id != other { assert list[i].id in IdsOf(list); }
        CleanAt(rows, list, |list|, k);
        NotYetApplied(rows, list, k, other);
        assert !Holds(ApplySchedules(rows, list, k), key, list[k].id, other);
      }
    }
  }

  /** A second sync of the same file at the same time changes nothing, whatever page the list calls show. */
  lemma SyncIsIdempotent(rows: ScheduleRows, list: seq<Keyed<ScheduleRow>>, page: Page)
    requires DistinctIds(list) && DistinctKeys(list) && Clean(rows, list)
    ensures var r := SyncSchedules(rows, list, page);
            Clean(r, list) && SyncSchedules(r, list, page) == r
  {
    var r := SyncSchedules(rows, list, page);
    forall k | 0 <= k < |list|
      ensures list[k].id in r && MergeSchedule(r[list[k].id], list[k].row) == r[list[k].id]
      ensures Free(r, list[k].row.terms.dedupKey, list[k].id)
    {
      DeclaredRowsKeepTheirState(rows, list, page, k);
      SlotSettles(rows, list, page, k);
      FreeAfterSync(rows, list, page, k);
    }
    SettledIsClean(r, list, |list|);
    assert r.Keys == ApplySchedules(rows, list, |list|).Keys;
  }

  lemma SlotSettles(rows: ScheduleRows, list: seq<Keyed<ScheduleRow>>, page: Page, k: nat)
    requires DistinctIds(list) && Clean(rows, list) && k < |list|
    ensures var r := SyncSchedules(rows, list, page);
            list[k].id in r && MergeSchedule(r[list[k].id], list[k].row) == r[list[k].id]
  {
    DeclaredRowsKeepTheirState(rows, list, page, k);
  }

  lemma FreeStays(rows: ScheduleRows, e: Keyed<ScheduleRow>, key: Option<string>, id: Id)
    requires Free(rows, e.row.terms.dedupKey, e.id) && Free(rows, key, id)
    requires key.None? || e.row.terms.dedupKey != key
    ensures Free(ApplySchedule(rows, e), key, id)
  {
    FreeLands(rows, e);
    assert Merged(rows, e).terms.dedupKey == e.row.terms.dedupKey;
    forall other | other in ApplySchedule(rows, e) ensures !Holds(ApplySchedule(rows, e), key, id, other) {
      assert other != e.id ==> !Holds(rows, key, id, other);
    }
  }

  lemma {:induction false} FreeUntil(rows: ScheduleRows, list: seq<Keyed<ScheduleRow>>, n: nat, k: nat)
    requires DistinctKeys(list) && n <= k < |list|
    requires forall j :: 0 <= j < |list| ==> Free(rows, list[j].row.terms.dedupKey, list[j].id)
    ensures Free(ApplySchedules(rows, list, n), list[k].row.terms.dedupKey, list[k].id)
    decreases n
  {
    if n > 0 {
      FreeUntil(rows, list, n - 1, n - 1);
      FreeUntil(rows, list, n - 1, k);
      FreeStays(ApplySchedules(rows, list, n - 1), list[n - 1], list[k].row.terms.dedupKey, list[k].id);
    }
  }

  /** A sufficient condition that looks at the store once: no declared key is held by a row of another id. */
  lemma {:induction false} CleanFromTheStart(rows: ScheduleRows, list: seq<Keyed<ScheduleRow>>, n: nat)
    requires DistinctKeys(list) && n <= |list|
    requires forall k :: 0 <= k < |list| ==> Free(rows, list[k].row.terms.dedupKey, list[k].id)
    ensures CleanUpTo(rows, list, n)
  {
    if n > 0 {
      CleanFromTheStart(rows, list, n - 1);
      FreeUntil(rows, list, n - 1, n - 1);
    }
  }

  /** A row of an undeclared schedule that has taken in declaration `k` is left alone by the later ones. */
  lemma {:induction false} TakenStays(rows: ScheduleRows, list: seq<Keyed<ScheduleRow>>, k: nat, n: nat, other: Id)
    requires Unique(rows) && DistinctIds(list) && DistinctKeys(list) && k < n <= |list| && other !in IdsOf(list)
    requires Holds(ApplySchedules(rows, list, k), list[k].row.terms.dedupKey, list[k].id, other)
    ensures var before, after := ApplySchedules(rows, list, k), ApplySchedules(rows, list, n);
            && other in after && after[other] == Merged(before, list[k])
            && (list[k].id in after <==> list[k].id in before)
    decreases n
  {
    var e, m := list[n - 1], Merged(ApplySchedules(rows, list, k), list[k]);
    var before := ApplySchedules(rows, list, n - 1);
    assert m.terms.dedupKey == list[k].row.terms.dedupKey;
    UniqueAlong(rows, list, n - 1);
    if k == n - 1 {
      var holder := TakenElsewhere(before, e);
    } else {
      TakenStays(rows, list, k, n - 1, other);
      assert e.id in IdsOf(list);
      if Free(before, e.row.terms.dedupKey, e.id) {
        FreeLands(before, e);
      } else {
        var holder := TakenElsewhere(before, e);
      }
    }
  }

  function Disabled(row: ScheduleRow): ScheduleRow {
    row.(live := row.live.(disabled := true))
  }

  /**
   * For every store, file and page: when the key of declaration `k` is held, at its turn, by a schedule the file
   * does not declare, the declaration does not get a row of its own. It overwrites the holder with what it would
   * have put into its own row, and the holder, which the file does not declare, is then disabled if it is listed.
   */
  lemma TakeoverDisables(rows: ScheduleRows, list: seq<Keyed<ScheduleRow>>, page: Page, k: nat, other: Id)
    requires Unique(rows) && DistinctIds(list) && DistinctKeys(list) && k < |list| && other !in IdsOf(list)
    requires Holds(ApplySchedules(rows, list, k), list[k].row.terms.dedupKey, list[k].id, other)
    ensures var before, r := ApplySchedules(rows, list, k), SyncSchedules(rows, list, page);
            var row, listed := Merged(before, list[k]), other in page(ApplySchedules(rows, list, |list|).Keys);
            && !Lands(r, list[k]) && (list[k].id in r <==> list[k].id in before)
            && other in r && r[other] == if listed && row.fileManaged then Disabled(row) else row
  {
    TakenStays(rows, list, k, |list|, other);
    DeclarationLands(rows, list, page, k);
  }

  // ---- a read, an await, a write ----

  /**
   * `applySchedule` reads the row, waits, and writes the whole row: what it read goes into the write, whatever the
   * store is by then.
   */
  ghost function ApplyLate(read: ScheduleRows, rows: ScheduleRows, e: Keyed<ScheduleRow>): ScheduleRows {
    CreateSchedule(rows, e.id, Merged(read, e))
  }

  /** The slot a declaration leaves a row with. */
  function SlotAfter(row: ScheduleRow, e: Keyed<ScheduleRow>): Option<int> {
    if row.terms.rule == e.row.terms.rule && row.terms.tz == e.row.terms.tz then row.nextRunAt else e.row.nextRunAt
  }

  /** Nothing that a declaration is to keep has changed from `a` to `b`. */
  predicate SameKept(a: ScheduleRow, b: ScheduleRow, e: Keyed<ScheduleRow>) {
    a.taskName == b.taskName && a.live == b.live && a.fileManaged == b.fileManaged && SlotAfter(a, e) == SlotAfter(b, e)
  }

  /**
   * Whatever happened to the row between the read and the write is undone: it ends with the run-time state it had at
   * the read. So the late write does what the declaration promises for the store it is made to if and only if
   * nothing that the declaration is to keep has changed in between.
   */
  lemma LateWriteUndoes(read: ScheduleRows, rows: ScheduleRows, e: Keyed<ScheduleRow>)
    requires e.id in read && e.id in rows && Free(rows, e.row.terms.dedupKey, e.id)
    ensures e.id in ApplyLate(read, rows, e) && ApplyLate(read, rows, e)[e.id].live == read[e.id].live
    ensures ApplyLate(read, rows, e) == ApplySchedule(rows, e) <==> SameKept(read[e.id], rows[e.id], e)
  {
    assert Merged(read, e).terms.dedupKey == e.row.terms.dedupKey == Merged(rows, e).terms.dedupKey;
    assert ApplyLate(read, rows, e) == rows[e.id := Merged(read, e)];
    FreeLands(rows, e);
    assert ApplyLate(read, rows, e)[e.id] == Merged(read, e) && ApplySchedule(rows, e)[e.id] == Merged(rows, e);
  }

  // ---- a whole sync beside a running engine ----

  /** What a file declares of a row: all but its run-time state and its slot. */
  datatype Declaration = Declaration(taskName: string, terms: Terms, fileManaged: bool)

  function Declared(rows: ScheduleRows): map<Id, Declaration> {
    map id | id in rows :: Declaration(rows[id].taskName, rows[id].terms, rows[id].fileManaged)
  }

  /** The table when a row is read for a declaration, and when the declaration is written. */
  datatype Window = Window(read: ScheduleRows, write: ScheduleRows)

  /**
   * The first `n` declarations are applied while the engine runs: between any two of the sync's statements it may do
   * to the run-time state and the slot of any row what it likes.
   */
  ghost predicate AppliedBeside(start: ScheduleRows, list: seq<Keyed<ScheduleRow>>, windows: seq<Window>, n: nat, end: ScheduleRows)
    requires n <= |list| && |windows| == |list|
  {
    if n == 0 then Declared(start) == Declared(end)
    else
      var w := windows[n - 1];
      && AppliedBeside(start, list, windows, n - 1, w.read)
      && Declared(w.read) == Declared(w.write) && Declared(ApplyLate(w.read, w.write, list[n - 1])) == Declared(end)
  }

  lemma SameTerms(a: ScheduleRows, b: ScheduleRows, id: Id)
    requires Declared(a) == Declared(b)
    ensures id in a <==> id in b
    ensures id in a ==> a[id].taskName == b[id].taskName && a[id].terms == b[id].terms && a[id].fileManaged == b[id].fileManaged
  {
    assert id in Declared(a) <==> id in Declared(b);
    if id in a { assert Declared(a)[id] == Declared(b)[id]; }
  }

  lemma SameUnique(a: ScheduleRows, b: ScheduleRows)
    requires Declared(a) == Declared(b) && Unique(a)
    ensures Unique(b)
  {
    forall i, j | i in b && j in b && i != j ensures b[i].terms.dedupKey.None? || b[i].terms.dedupKey != b[j].terms.dedupKey {
      SameTerms(a, b, i);
      SameTerms(a, b, j);
    }
  }

  /** Where a write goes, and what it declares, depends on what the rows declare only. */
  lemma SameWrite(a: ScheduleRows, b: ScheduleRows, id: Id, row: ScheduleRow, row': ScheduleRow)
    requires Declared(a) == Declared(b) && Unique(a)
    requires row.taskName == row'.taskName && row.terms == row'.terms && row.fileManaged == row'.fileManaged
    ensures Declared(CreateSchedule(a, id, row)) == Declared(CreateSchedule(b, id, row'))
  {
    SameUnique(a, b);
    forall i ensures SameHolder(a, b, row.terms.dedupKey, id, i) { SameTerms(a, b, i); }
    if other :| other in a && Holds(a, row.terms.dedupKey, id, other) {
      assert SameHolder(a, b, row.terms.dedupKey, id, other);
      assert CreateSchedule(a, id, row) == a[other := row] && CreateSchedule(b, id, row') == b[other := row'];
      Overwritten(a, b, other, row, row');
    } else {
      assert forall i :: i in b ==> SameHolder(a, b, row.terms.dedupKey, id, i);
      Overwritten(a, b, id, row, row');
    }
  }

  predicate SameHolder(a: ScheduleRows, b: ScheduleRows, key: Option<string>, id: Id, other: Id) {
    Holds(a, key, id, other) <==> Holds(b, key, id, other)
  }

  lemma Overwritten(a: ScheduleRows, b: ScheduleRows, at: Id, row: ScheduleRow, row': ScheduleRow)
    requires Declared(a) == Declared(b)
    requires row.taskName == row'.taskName && row.terms == row'.terms && row.fileManaged == row'.fileManaged
    ensures Declared(a[at := row]) == Declared(b[at := row'])
  {
    assert Declared(a[at := row]) == Declared(a)[at := Declaration(row.taskName, row.terms, row.fileManaged)];
    assert Declared(b[at := row']) == Declared(b)[at := Declaration(row.taskName, row.terms, row.fileManaged)];
  }

  /**
   * Whatever the engine does meanwhile, a sync brings about exactly the declarations it would bring about with the
   * engine at rest: the same rows, with the same terms, under the same ids. What it can spoil is run-time state only,
   * and that only by `LateWriteUndoes`.
   */
  lemma {:induction false} SyncBesideEngine(start: ScheduleRows, list: seq<Keyed<ScheduleRow>>, windows: seq<Window>, n: nat, end: ScheduleRows)
    requires Unique(start) && n <= |list| && |windows| == |list| && AppliedBeside(start, list, windows, n, end)
    ensures Declared(end) == Declared(ApplySchedules(start, list, n))
  {
    if n > 0 {
      var w, e := windows[n - 1], list[n - 1];
      SyncBesideEngine(start, list, windows, n - 1, w.read);
      var rows := ApplySchedules(start, list, n - 1);
      UniqueAlong(start, list, n - 1);
      SameTerms(rows, w.read, e.id);
      SameWrite(rows, w.write, e.id, Merged(rows, e), Merged(w.read, e));
    }
  }

  /** A claim between the read and the write of a declaration: the declarations are the same, and its lock is gone while its run goes on. */
  lemma ClaimIsUndone(rows: ScheduleRows, e: Keyed<ScheduleRow>, at: int)
    requires e.id in rows && rows[e.id].live.lockedAt == None && Free(rows, e.row.terms.dedupKey, e.id)
    ensures var claimed := rows[e.id := rows[e.id].(live := rows[e.id].live.(lockedAt := Some(at)))];
            && AppliedBeside(rows, [e], [Window(rows, claimed)], 1, ApplyLate(rows, claimed, e)) && e.id in ApplyLate(rows, claimed, e)
            && ApplyLate(rows, claimed, e)[e.id].live.lockedAt == None && ApplySchedule(claimed, e)[e.id].live.lockedAt == Some(at)
  {
    var claimed := rows[e.id := rows[e.id].(live := rows[e.id].live.(lockedAt := Some(at)))];
    forall other | other in claimed ensures !Holds(claimed, e.row.terms.dedupKey, e.id, other) {
      assert !Holds(rows, e.row.terms.dedupKey, e.id, other);
    }
    LateWriteUndoes(rows, claimed, e);
    LateWriteUndoes(claimed, claimed, e);
    assert Declared(rows) == Declared(claimed);
    assert AppliedBeside(rows, [e], [Window(rows, claimed)], 0, rows);
  }

  // ---- tasks ----

  lemma {:induction false} TasksAppliedIs(tasks: TaskRows, list: seq<Keyed<TaskRow>>, n: nat, name: string)
    requires DistinctIds(list) && n <= |list|
    ensures var r := ApplyTasks(tasks, list, n);
            && ((forall k :: 0 <= k < n ==> list[k].id != name) ==> (name in r <==> name in tasks) && (name in r ==> r[name] == tasks[name]))
            && (forall k :: 0 <= k < n && list[k].id == name ==>
                  name in r && r[name] == if name in tasks then MergeTask(tasks[name], list[k].row) else list[k].row)
  {
    if n > 0 {
      TasksAppliedIs(tasks, list, n - 1, name);
      TasksAppliedIs(tasks, list, n - 1, list[n - 1].id);
    }
  }

  lemma {:induction false} SettledTasksStay(tasks: TaskRows, list: seq<Keyed<TaskRow>>, n: nat)
    requires n <= |list| && forall k :: 0 <= k < |list| ==>
               list[k].id in tasks && MergeTask(tasks[list[k].id], list[k].row) == tasks[list[k].id]
    ensures ApplyTasks(tasks, list, n) == tasks
  {
    if n > 0 { SettledTasksStay(tasks, list, n - 1); }
  }

  lemma TaskSyncIsIdempotent(tasks: TaskRows, list: seq<Keyed<TaskRow>>, page: Page)
    requires DistinctIds(list)
    ensures var r := SyncTaskRows(tasks, list, page); SyncTaskRows(r, list, page) == r
  {
    var r := SyncTaskRows(tasks, list, page);
    forall k | 0 <= k < |list| ensures list[k].id in r && MergeTask(r[list[k].id], list[k].row) == r[list[k].id] {
      TasksAppliedIs(tasks, list, |list|, list[k].id);
      assert list[k].id in IdsOf(list);
    }
    SettledTasksStay(r, list, |list|);
    assert r.Keys == ApplyTasks(tasks, list, |list|).Keys;
  }

  /**
   * A task row keeps its run-time state, its flags, and its slot when rule and zone are the same; a removed file
   * task is disabled.
   */
  lemma TasksKeepTheirState(tasks: TaskRows, list: seq<Keyed<TaskRow>>, page: Page, name: string)
    requires DistinctIds(list) && name in tasks
    ensures var r := SyncTaskRows(tasks, list, page);
            && name in r && r[name].fileManaged == tasks[name].fileManaged
            && r[name].live.(disabled := tasks[name].live.disabled) == tasks[name].live
            && (tasks[name].live.disabled ==> r[name].live.disabled)
            && (r[name].rule == tasks[name].rule && r[name].tz == tasks[name].tz ==> r[name].nextRunAt == tasks[name].nextRunAt)
            && (forall k :: 0 <= k < |list| && list[k].id == name ==>
                  && r[name].config == list[k].row.config && r[name].rule == list[k].row.rule && r[name].tz == list[k].row.tz
                  && (r[name].rule != tasks[name].rule || r[name].tz != tasks[name].tz ==> r[name].nextRunAt == list[k].row.nextRunAt))
            && (name !in IdsOf(list) && !tasks[name].fileManaged ==> r[name] == tasks[name])
            && (name !in IdsOf(list) && tasks[name].fileManaged ==>
                  r[name] == if name in page(ApplyTasks(tasks, list, |list|).Keys)
                             then tasks[name].(live := tasks[name].live.(disabled := true)) else tasks[name])
            && (name in IdsOf(list) ==> r[name].live == tasks[name].live)
  {
    TasksAppliedIs(tasks, list, |list|, name);
    if name in IdsOf(list) {
      var k :| 0 <= k < |list| && list[k].id == name;
    } else {
      forall k | 0 <= k < |list| ensures list[k].id != name { assert list[k].id in IdsOf(list); }
    }
  }
}
