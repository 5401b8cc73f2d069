/**
 * The scan of a resume. It reads the table page by page and writes only after the last page, so the engine and other
 * requests get in between the pages.
 */
module Scans {
  import opened Records
  import opened Store
  import opened Protocol
  import opened Locks
  import opened Sqlite

  // ---- the engine between the pages ----

  /** The step reads a page of pass `q` with the row. */
  predicate ReadsPage(step: Step, q: nat, id: Id) {
    step.OfFreeze? && step.f.ResumePage? && step.f.q == q && id in step.f.ids
  }

  /** Step `k` reads the page of pass `q` that covers the row, and the pass has been under way ever since, up to state `n`. */
  ghost predicate Covers(h: History, k: nat, n: nat, q: nat, id: Id)
    requires n < |h.states| && n <= |h.steps|
  {
    k < n && ReadsPage(h.steps[k], q, id) && UnderWay(h, q, k, n)
  }

  /** Pass `q` has not visited any row yet. */
  ghost predicate StillReading(h: History, n: nat, q: nat)
    requires n < |h.states| && n <= |h.steps|
  {
    forall i :: 0 <= i < n && UnderWay(h, q, i, n) ==> h.steps[i] != OfFreeze(ResumeSkip(q))
  }

  ghost predicate CoversOrReads(h: History, k: nat, n: nat, q: nat, id: Id)
    requires n < |h.steps| && |h.states| == |h.steps| + 1
  {
    q in h.states[n].freeze.resumes && (Covers(h, k, n, q, id) || (k == n && ReadsPage(h.steps[n], q, id)))
  }

  lemma CoversLast(h: History, n: nat, q: nat, id: Id, k: nat)
    requires n < |h.steps| && |h.states| == |h.steps| + 1 && q in h.states[n + 1].freeze.resumes
    ensures Covers(h, k, n + 1, q, id) <==> CoversOrReads(h, k, n, q, id)
  {
    if k <= n {
      assert UnderWay(h, q, k, n + 1) <==> UnderWay(h, q, k, n);
    }
  }

  /** What one step does to the rows a pass has covered. */
  lemma ScannedStep(p: Params, st: Sys, step: Step, q: nat)
    requires Can(st, step) && q in Do(p, st, step).freeze.resumes
    ensures var after := Do(p, st, step).freeze.resumes[q];
            if q !in st.freeze.resumes then after.scanned == {} && after.todo == []
            else if step.OfFreeze? && step.f.ResumePage? && step.f.q == q
            then after.scanned == st.freeze.resumes[q].scanned + step.f.ids && after.todo == st.freeze.resumes[q].todo + step.f.overdue
            else after.scanned == st.freeze.resumes[q].scanned
                 && (step != OfFreeze(ResumeSkip(q)) ==> after.todo == st.freeze.resumes[q].todo)
  {
  }

  /** A pass has covered a row if and only if one of its pages did, and no two of them did. */
  lemma {:induction false} ScannedOnce(p: Params, h: History, n: nat, q: nat, id: Id)
    requires IsRun(p, h) && n < |h.states| && q in h.states[n].freeze.resumes
    ensures id in h.states[n].freeze.resumes[q].scanned <==> exists k: nat :: Covers(h, k, n, q, id)
    ensures forall k: nat, l: nat :: Covers(h, k, n, q, id) && Covers(h, l, n, q, id) ==> k == l
  {
    assert n > 0;
    StepOf(p, h, n - 1);
    ScannedStep(p, h.states[n - 1], h.steps[n - 1], q);
    forall k: nat ensures Covers(h, k, n, q, id) <==> CoversOrReads(h, k, n - 1, q, id) {
      CoversLast(h, n - 1, q, id, k);
    }
    if q in h.states[n - 1].freeze.resumes {
      ScannedOnce(p, h, n - 1, q, id);
      if id in h.states[n - 1].freeze.resumes[q].scanned {
        var k: nat :| Covers(h, k, n - 1, q, id);
        assert Covers(h, k, n, q, id);
      } else if ReadsPage(h.steps[n - 1], q, id) {
        assert Covers(h, n - 1, n, q, id);
      }
    }
  }

  /** What is to be visited: each row once, and each covered row if and only if it was overdue on its page. */
  ghost predicate TodoIs(h: History, n: nat, q: nat)
    requires n < |h.states| && n <= |h.steps| && q in h.states[n].freeze.resumes
  {
    var rs := h.states[n].freeze.resumes[q];
    && (forall i, j :: 0 <= i < j < |rs.todo| ==> rs.todo[i].id != rs.todo[j].id)
    && (forall i :: 0 <= i < |rs.todo| ==> rs.todo[i].id in rs.scanned)
    && (forall k: nat, id :: Covers(h, k, n, q, id) ==>
          id in h.states[k].db.rows && (Entry(id, h.states[k].db.rows[id]) in rs.todo <==> Overdue(h.states[k].db.rows[id], rs.now)))
  }

  lemma TodoNext(p: Params, h: History, n: nat, q: nat)
    requires IsRun(p, h) && n < |h.steps| && q in h.states[n].freeze.resumes && q in h.states[n + 1].freeze.resumes && TodoIs(h, n, q)
    requires h.steps[n] != OfFreeze(ResumeSkip(q))
    requires !(h.steps[n].OfFreeze? && h.steps[n].f.ResumePage? && h.steps[n].f.q == q)
    ensures TodoIs(h, n + 1, q)
  {
    StepOf(p, h, n);
    ScannedStep(p, h.states[n], h.steps[n], q);
    FreezePasses(p, h.states[n], h.steps[n], q);
    forall k: nat, id | Covers(h, k, n + 1, q, id) ensures Covers(h, k, n, q, id) {
      CoversLast(h, n, q, id, k);
    }
  }

  lemma PageEntries(rows: Rows, now: int, ids: set<Id>, s: seq<Entry>, id: Id)
    requires IsOverduePage(rows, now, ids, s) && id in ids && id in rows
    ensures Entry(id, rows[id]) in s <==> Overdue(rows[id], now)
  {
    if Overdue(rows[id], now) {
      var k :| 0 <= k < |s| && s[k].id == id;
      assert s[k] == Entry(id, rows[id]);
    }
  }

  lemma TodoPage(p: Params, h: History, n: nat, q: nat)
    requires IsRun(p, h) && n < |h.steps| && q in h.states[n].freeze.resumes && q in h.states[n + 1].freeze.resumes && TodoIs(h, n, q)
    requires h.steps[n].OfFreeze? && h.steps[n].f.ResumePage? && h.steps[n].f.q == q
    ensures TodoIs(h, n + 1, q)
  {
    StepOf(p, h, n);
    ScannedStep(p, h.states[n], h.steps[n], q);
    FreezePasses(p, h.states[n], h.steps[n], q);
    var f, rs, rows := h.steps[n].f, h.states[n].freeze.resumes[q], h.states[n].db.rows;
    forall k: nat, id | Covers(h, k, n + 1, q, id)
      ensures id in h.states[k].db.rows
           && (Entry(id, h.states[k].db.rows[id]) in rs.todo + f.overdue <==> Overdue(h.states[k].db.rows[id], rs.now))
    {
      CoversLast(h, n, q, id, k);
      ScannedOnce(p, h, n, q, id);
      if k == n { PageEntries(rows, rs.now, f.ids, f.overdue, id); }
    }
  }

  lemma {:induction false} TodoAlong(p: Params, h: History, n: nat, q: nat)
    requires IsRun(p, h) && n < |h.states| && q in h.states[n].freeze.resumes && StillReading(h, n, q)
    ensures TodoIs(h, n, q)
  {
    assert n > 0;
    StepOf(p, h, n - 1);
    ScannedStep(p, h.states[n - 1], h.steps[n - 1], q);
    if q in h.states[n - 1].freeze.resumes {
      forall i | 0 <= i < n - 1 && UnderWay(h, q, i, n - 1) ensures h.steps[i] != OfFreeze(ResumeSkip(q)) {
        assert UnderWay(h, q, i, n);
      }
      TodoAlong(p, h, n - 1, q);
      assert UnderWay(h, q, n - 1, n);
      var step := h.steps[n - 1];
      if step.OfFreeze? && step.f.ResumePage? && step.f.q == q { TodoPage(p, h, n - 1, q); } else { TodoNext(p, h, n - 1, q); }
    } else {
      forall k: nat, id ensures !Covers(h, k, n, q, id) {
        CoversLast(h, n - 1, q, id, k);
      }
    }
  }

  /**
   * When the pages of a resume are read, whatever the engine did in between: every row was covered by exactly one page,
   * at step `k`. The row is to be visited if and only if it was overdue there, once, and as it was there.
   */
  lemma ScanIsExact(p: Params, h: History, n: nat, q: nat, id: Id) returns (k: nat)
    requires IsRun(p, h) && n < |h.states| && q in h.states[n].freeze.resumes && StillReading(h, n, q)
    requires h.states[n].freeze.resumes[q].scanned == h.states[n].db.rows.Keys && id in h.states[n].db.rows
    ensures Covers(h, k, n, q, id) && (forall l: nat :: Covers(h, l, n, q, id) ==> l == k) && id in h.states[k].db.rows
    ensures var rs := h.states[n].freeze.resumes[q];
            && (Entry(id, h.states[k].db.rows[id]) in rs.todo <==> Overdue(h.states[k].db.rows[id], rs.now))
            && forall i, j :: 0 <= i < j < |rs.todo| ==> rs.todo[i].id != rs.todo[j].id
  {
    ScannedOnce(p, h, n, q, id);
    k :| Covers(h, k, n, q, id);
    TodoAlong(p, h, n, q);
  }

  // ---- rows that come and go between the pages ----

  /** Where page `k` starts. */
  function Offset(size: nat, k: nat): nat {
    if k == 0 then 0 else Offset(size, k - 1) + size
  }

  function Min(a: nat, b: nat): nat { if a < b then a else b }

  function Page(keys: seq<Id>, size: nat, k: nat): seq<Id> {
    keys[Min(Offset(size, k), |keys|)..Min(Offset(size, k) + size, |keys|)]
  }

  /** `lists[k]` are the keys of the table, in order, when page `k` is read; the scan ends with the first page that is not full. */
  ghost predicate IsScan(lists: seq<seq<Id>>, size: nat) {
    && |lists| > 0
    && (forall k :: 0 <= k < |lists| ==> Ascending(lists[k]))
    && forall k :: 0 <= k < |lists| ==> (|Page(lists[k], size, k)| < size <==> k == |lists| - 1)
  }

  /** A row that is there all the time. */
  ghost predicate Stays(lists: seq<seq<Id>>, id: Id) {
    forall k :: 0 <= k < |lists| ==> id in lists[k]
  }

  ghost function Position(keys: seq<Id>, id: Id): (i: nat)
    requires id in keys
    ensures i < |keys| && keys[i] == id
  {
    var i :| 0 <= i < |keys| && keys[i] == id;
    i
  }

  function Times(b: bool): nat { if b then 1 else 0 }

  /** How many of the first `n` pages show the row. */
  ghost function TimesSeen(lists: seq<seq<Id>>, size: nat, id: Id, n: nat): nat
    requires n <= |lists|
  {
    if n == 0 then 0 else TimesSeen(lists, size, id, n - 1) + Times(id in Page(lists[n - 1], size, n - 1))
  }

  /** The row stands before the boundary already when page `k` is read. */
  ghost predicate Passed(lists: seq<seq<Id>>, size: nat, id: Id, k: nat, boundary: nat)
    requires k < |lists| && Stays(lists, id)
  {
    Position(lists[k], id) < Offset(size, boundary)
  }

  /** Between pages `k` and `k + 1` the row moves up across the boundary of the two, out of what has been read. */
  ghost predicate Rises(lists: seq<seq<Id>>, size: nat, id: Id, k: nat)
    requires k + 1 < |lists| && Stays(lists, id)
  {
    Passed(lists, size, id, k, k + 1) && !Passed(lists, size, id, k + 1, k + 1)
  }

  /** It moves down across the boundary, out of what is still to be read. */
  ghost predicate Falls(lists: seq<seq<Id>>, size: nat, id: Id, k: nat)
    requires k + 1 < |lists| && Stays(lists, id)
  {
    !Passed(lists, size, id, k, k + 1) && Passed(lists, size, id, k + 1, k + 1)
  }

  /** How often it moved up across a boundary, less how often it moved down, up to page `n`. */
  ghost function Drift(lists: seq<seq<Id>>, size: nat, id: Id, n: nat): int
    requires n < |lists| && Stays(lists, id)
  {
    if n == 0 then 0 else Drift(lists, size, id, n - 1) + Times(Rises(lists, size, id, n - 1)) - Times(Falls(lists, size, id, n - 1))
  }

  lemma AtOnePlace(keys: seq<Id>, i: nat, j: nat)
    requires Ascending(keys) && i < |keys| && j < |keys| && keys[i] == keys[j]
    ensures i == j
  {
    if i < j { LessIsStrict(keys[i], keys[j]); }
    if j < i { LessIsStrict(keys[j], keys[i]); }
  }

  lemma {:induction false} LessIsStrict(a: Id, b: Id)
    requires Less(a, b)
    ensures a != b && !Less(b, a)
  {
    if a != [] && a[0] == b[0] { LessIsStrict(a[1..], b[1..]); }
  }

  lemma PageShows(keys: seq<Id>, size: nat, k: nat, id: Id)
    requires Ascending(keys) && id in keys
    ensures id in Page(keys, size, k) <==> Offset(size, k) <= Position(keys, id) < Offset(size, k + 1)
  {
    var from := Min(Offset(size, k), |keys|);
    var page := Page(keys, size, k);
    if id in page {
      var i :| 0 <= i < |page| && page[i] == id;
      AtOnePlace(keys, from + i, Position(keys, id));
    }
    if Offset(size, k) <= Position(keys, id) < Offset(size, k + 1) {
      assert page[Position(keys, id) - from] == id;
    }
  }

  lemma {:induction false} SeenSoFar(lists: seq<seq<Id>>, size: nat, id: Id, n: nat)
    requires IsScan(lists, size) && Stays(lists, id) && n < |lists|
    ensures TimesSeen(lists, size, id, n + 1) == Times(Passed(lists, size, id, n, n + 1)) + Drift(lists, size, id, n)
  {
    PageShows(lists[n], size, n, id);
    if n > 0 { SeenSoFar(lists, size, id, n - 1); }
  }

  /**
   * A row that is there all the time is seen once, and once more for each time it moves up across the boundary of the
   * page just read and the next, and once less for each time it moves down across it. So a scan misses a row only if it
   * moves down across a boundary, repeats one only if it moves up across one, and sees it exactly once if and only if
   * the two happen equally often.
   */
  lemma TimesSeenIs(lists: seq<seq<Id>>, size: nat, id: Id)
    requires IsScan(lists, size) && Stays(lists, id)
    ensures TimesSeen(lists, size, id, |lists|) == 1 + Drift(lists, size, id, |lists| - 1)
  {
    var n := |lists| - 1;
    SeenSoFar(lists, size, id, n);
    assert |Page(lists[n], size, n)| < size;
  }

  // ---- why a row moves ----

  ghost function Smaller(keys: seq<Id>, id: Id): set<Id> {
    set x | x in keys && Less(x, id)
  }

  lemma SmallerIs(keys: seq<Id>, id: Id)
    requires Ascending(keys) && id in keys
    ensures Smaller(keys, id) == set x | x in keys[..Position(keys, id)]
  {
    var at := Position(keys, id);
    forall x ensures x in Smaller(keys, id) <==> x in keys[..at] {
      if x in keys[..at] {
        var i :| 0 <= i < at && keys[i] == x;
        assert Less(keys[i], keys[at]);
      }
      if x in Smaller(keys, id) {
        var i :| 0 <= i < |keys| && keys[i] == x;
        if at == i { LessIsStrict(x, id); }
        if at < i { LessIsStrict(id, x); }
        assert keys[..at][i] == x;
      }
    }
  }

  lemma {:induction false} SetOf(s: seq<Id>)
    requires Ascending(s)
    ensures |set x | x in s| == |s|
  {
    if s != [] {
      var rest, last := s[..|s| - 1], s[|s| - 1];
      SetOf(rest);
      if last in rest {
        var i :| 0 <= i < |rest| && rest[i] == last;
        AtOnePlace(s, i, |s| - 1);
      }
      assert (set x | x in s) == (set x | x in rest) + {last};
    }
  }

  /** The position of a row is the number of the smaller keys. */
  lemma PositionCounts(keys: seq<Id>, id: Id)
    requires Ascending(keys) && id in keys
    ensures Position(keys, id) == |Smaller(keys, id)|
  {
    SmallerIs(keys, id);
    SetOf(keys[..Position(keys, id)]);
  }

  lemma SubsetCounts<T>(a: set<T>, b: set<T>)
    requires a <= b
    ensures |a| <= |b|
  {
    assert b == a + (b - a);
  }

  /** A row moves up across a boundary only if a row with a smaller key was added meanwhile, and down only if one was deleted. */
  lemma CrossingHasCause(lists: seq<seq<Id>>, size: nat, id: Id, k: nat)
    requires IsScan(lists, size) && Stays(lists, id) && k + 1 < |lists|
    ensures Rises(lists, size, id, k) ==> exists x :: x in lists[k + 1] && x !in lists[k] && Less(x, id)
    ensures Falls(lists, size, id, k) ==> exists x :: x in lists[k] && x !in lists[k + 1] && Less(x, id)
  {
    PositionCounts(lists[k], id);
    PositionCounts(lists[k + 1], id);
    var before, after := Smaller(lists[k], id), Smaller(lists[k + 1], id);
    if Rises(lists, size, id, k) && after <= before { SubsetCounts(after, before); }
    if Falls(lists, size, id, k) && before <= after { SubsetCounts(before, after); }
    if Rises(lists, size, id, k) { var x :| x in after && x !in before; }
    if Falls(lists, size, id, k) { var x :| x in before && x !in after; }
  }

  /** Deleting the first row after the first page hides the row that stood first on the second one. */
  lemma DeletionHides(keys: seq<Id>, size: nat)
    requires Ascending(keys) && 0 < size < |keys| <= 2 * size
    ensures IsScan([keys, keys[1..]], size) && Stays([keys, keys[1..]], keys[size])
    ensures TimesSeen([keys, keys[1..]], size, keys[size], 2) == 0
  {
    var lists, id := [keys, keys[1..]], keys[size];
    assert keys[1..][size - 1] == id;
    TwoPages(lists, size);
    AtOnePlace(keys, Position(keys, id), size);
    AtOnePlace(keys, Position(keys[1..], id) + 1, size);
    TimesSeenIs(lists, size, id);
    TwoDrift(lists, size, id);
  }

  /** Adding a smaller row after the first page repeats the row that stood last on it. */
  lemma InsertionRepeats(keys: seq<Id>, size: nat, x: Id)
    requires Ascending([x] + keys) && 0 < size <= |keys| < 2 * size - 1
    ensures IsScan([keys, [x] + keys], size) && Stays([keys, [x] + keys], keys[size - 1])
    ensures TimesSeen([keys, [x] + keys], size, keys[size - 1], 2) == 2
  {
    var lists, id := [keys, [x] + keys], keys[size - 1];
    assert ([x] + keys)[size] == id && ([x] + keys)[1..] == keys;
    forall k, l | 0 <= k < l < |keys| ensures Less(keys[k], keys[l]) { assert Less(([x] + keys)[k + 1], ([x] + keys)[l + 1]); }
    TwoPages(lists, size);
    AtOnePlace(keys, Position(keys, id), size - 1);
    AtOnePlace([x] + keys, Position([x] + keys, id), size);
    TimesSeenIs(lists, size, id);
    TwoDrift(lists, size, id);
  }

  lemma TwoDrift(lists: seq<seq<Id>>, size: nat, id: Id)
    requires |lists| == 2 && Stays(lists, id)
    ensures Drift(lists, size, id, 1) == Times(Rises(lists, size, id, 0)) - Times(Falls(lists, size, id, 0))
    ensures Offset(size, 1) == size
  {
    assert Drift(lists, size, id, 0) == 0 && Offset(size, 0) == 0;
  }

  lemma TwoPages(lists: seq<seq<Id>>, size: nat)
    requires |lists| == 2 && Ascending(lists[0]) && Ascending(lists[1]) && size <= |lists[0]| && |lists[1]| < 2 * size
    ensures IsScan(lists, size)
  {
    assert Offset(size, 0) == 0 && Offset(size, 1) == size;
  }
}
