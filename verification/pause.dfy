/** The queue freeze: nothing is claimed while it lasts, and what a tick may still dispatch after it. */
module Pausing {
  import opened Protocol
  import opened Locks
  import opened Ownership
  import opened Verdicts
  import opened Slots

  lemma PausedJobs(p: Params, st: Sys, step: Step)
    requires Can(st, step) && st.freeze.paused
    ensures Do(p, st, step).work.jobs.Keys <= st.work.jobs.Keys
  {
  }

  /** Over any stretch that stays paused, no schedule gets locked and no run gets dispatched. */
  lemma NothingClaimedWhilePaused(p: Params, h: History, m: nat, n: nat)
    requires IsRun(p, h) && m <= n < |h.states|
    requires forall k :: m <= k <= n ==> h.states[k].freeze.paused
    ensures LocksShrink(h.states[m].db.rows, h.states[n].db.rows)
    ensures h.states[n].work.jobs.Keys <= h.states[m].work.jobs.Keys
  {
    if m < n {
      NothingClaimedWhilePaused(p, h, m, n - 1);
      StepOf(p, h, n - 1);
      LocksOnlyShrink(p, h.states[n - 1], h.steps[n - 1]);
      PausedJobs(p, h.states[n - 1], h.steps[n - 1]);
    }
  }

  // ---- pauses and resumes in a stretch of a history ----

  predicate Ends(step: Step) {
    step.OfFreeze? && step.f.ResumeEnd?
  }

  /** The step changes the generation. */
  predicate Bumps(step: Step) {
    step == OfFreeze(Pause) || Ends(step)
  }

  /** A resume ends strictly between steps `m` and `n`. */
  ghost predicate Released(h: History, m: nat, n: nat)
    requires n <= |h.steps|
  {
    exists b :: m < b < n && Ends(h.steps[b])
  }

  /** A whole pause and resume, from the call of `pause` to the end of a `resume`, lands strictly between steps `m` and `n`. */
  ghost predicate PausedAndReleased(h: History, m: nat, n: nat)
    requires n <= |h.steps|
  {
    exists a, b :: m < a < b < n && h.steps[a] == OfFreeze(Pause) && Ends(h.steps[b])
  }

  /** The process does not crash: a tick is going on. */
  ghost predicate Ticks(h: History, m: nat, n: nat)
    requires n < |h.states|
  {
    forall i :: m < i <= n ==> h.states[i].tick.Some?
  }

  lemma FreezeStep(p: Params, st: Sys, step: Step)
    requires Can(st, step) && Do(p, st, step).tick.Some?
    ensures Do(p, st, step).freeze.generation == st.freeze.generation + (if Bumps(step) then 1 else 0)
    ensures Do(p, st, step).freeze.paused == (if Bumps(step) then step == OfFreeze(Pause) else st.freeze.paused)
  {
  }

  ghost predicate Bumped(h: History, m: nat, n: nat)
    requires n <= |h.steps|
  {
    exists b :: m <= b < n && Bumps(h.steps[b])
  }

  /** During a tick the generation and the pause flag stay as they are exactly as long as nobody pauses or ends a resume. */
  lemma {:induction false} GenerationBetween(p: Params, h: History, m: nat, n: nat)
    requires IsRun(p, h) && m <= n < |h.states| && Ticks(h, m, n)
    ensures h.states[m].freeze.generation <= h.states[n].freeze.generation
    ensures h.states[m].freeze.generation == h.states[n].freeze.generation <==> !Bumped(h, m, n)
    ensures !Bumped(h, m, n) ==> h.states[m].freeze.paused == h.states[n].freeze.paused
  {
    if m < n {
      GenerationBetween(p, h, m, n - 1);
      StepOf(p, h, n - 1);
      FreezeStep(p, h.states[n - 1], h.steps[n - 1]);
      assert Bumped(h, m, n) <==> Bumped(h, m, n - 1) || Bumps(h.steps[n - 1]);
    }
  }

  /** Between an open queue and a paused one somebody pauses. */
  lemma {:induction false} PauseBetween(p: Params, h: History, m: nat, n: nat) returns (a: nat)
    requires IsRun(p, h) && m <= n < |h.states| && Ticks(h, m, n) && !h.states[m].freeze.paused && h.states[n].freeze.paused
    ensures m <= a < n && h.steps[a] == OfFreeze(Pause)
  {
    StepOf(p, h, n - 1);
    FreezeStep(p, h.states[n - 1], h.steps[n - 1]);
    if h.states[n - 1].freeze.paused { a := PauseBetween(p, h, m, n - 1); } else { a := n - 1; }
  }

  lemma {:induction false} EndBetween(p: Params, h: History, m: nat, n: nat) returns (b: nat)
    requires IsRun(p, h) && m <= n < |h.states| && Ticks(h, m, n) && h.states[m].freeze.paused && !h.states[n].freeze.paused
    ensures m <= b < n && Ends(h.steps[b])
  {
    StepOf(p, h, n - 1);
    FreezeStep(p, h.states[n - 1], h.steps[n - 1]);
    if !h.states[n - 1].freeze.paused { b := EndBetween(p, h, m, n - 1); } else { b := n - 1; }
  }

  /**
   * The resume that ends after a pause was begun at `s`. If it was begun before that pause, another resume has ended
   * in between; so with one resume at a time, a pause lasts until a resume that was called after it.
   */
  lemma PauseLasts(p: Params, h: History, a: nat, b: nat) returns (s: nat)
    requires IsRun(p, h) && a < b < |h.steps| && h.steps[a] == OfFreeze(Pause) && Ends(h.steps[b])
    ensures s < b && Begins(h.steps[s], h.steps[b].f.q) && UnderWay(h, h.steps[b].f.q, s + 1, b)
    ensures s < a ==> exists j :: s < j < a && Ends(h.steps[j])
    ensures Alone(h) ==> a < s
  {
    StepOf(p, h, b);
    var q := h.steps[b].f.q;
    s := PassBegan(p, h, b, q);
    if s < a {
      StepOf(p, h, s);
      StepOf(p, h, a);
      assert UnderWay(h, q, s + 1, a);
      var j := ReleasedBetween(p, h, s, a, q);
      assert j != s;
      if Alone(h) {
        OnePassAlong(p, h, a);
        assert false;
      }
    }
  }

  // ---- stale dispatches ----

  /** Where the generation check stands between the read of the due row at `j` and the claim at `n`. */
  ghost predicate CheckedAt(h: History, j: nat, c: nat, n: nat, t: Tick, e: Ready)
    requires n < |h.states| && |h.states| == |h.steps| + 1
  {
    && j < c < n && ReadsDue(h.states[j], h.steps[j], t, e.id, e.row)
    && ReadsTask(h.states[c], h.steps[c], t, e.row.taskName, e.task) && SameTick(h, j, n, t, e.id)
  }

  lemma NothingBeforeCheck(p: Params, h: History, j: nat, c: nat, n: nat, t: Tick, e: Ready)
    requires IsRun(p, h) && n < |h.states| && CheckedAt(h, j, c, n, t, e)
    ensures Ticks(h, j, n) && !Bumped(h, j, c) && h.states[c].freeze.generation == t.generation && !h.states[c].freeze.paused
    ensures forall i :: j <= i <= c ==> !h.states[i].freeze.paused
  {
    assert Ticks(h, j, n);
    GenerationBetween(p, h, j, c);
    forall i | j <= i <= c ensures !h.states[i].freeze.paused {
      assert !Bumped(h, j, i);
      GenerationBetween(p, h, j, i);
    }
  }

  /**
   * A dispatch goes back to a read of its due row at `j` and a generation check at `c`. A whole pause and resume has
   * landed since the row was read if and only if one has landed since the check: that is what the check is for.
   * The generation has changed at the claim if and only if some resume has ended since the check; and if resumes do
   * not overlap, then if and only if a whole pause and resume has landed since the check.
   */
  lemma StaleDispatch(p: Params, h: History, n: nat, k: nat) returns (j: nat, c: nat)
    requires IsRun(p, h) && n < |h.steps| && CanDispatch(h.states[n], k)
    ensures CheckedAt(h, j, c, n, h.states[n].tick.value, h.states[n].tick.value.ready[k])
    ensures PausedAndReleased(h, j, n) <==> PausedAndReleased(h, c, n)
    ensures h.states[n].freeze.generation != h.states[n].tick.value.generation <==> Released(h, c, n)
    ensures Alone(h) ==> (Released(h, c, n) <==> PausedAndReleased(h, c, n))
  {
    c, j := ReadyWasRead(p, h, n, k);
    var t := h.states[n].tick.value;
    NothingBeforeCheck(p, h, j, c, n, t, t.ready[k]);
    WholeSinceCheck(h, j, c, n);
    BumpIsRelease(p, h, c, n);
    if Alone(h) {
      ReleaseIsWhole(p, h, c, n);
    }
  }

  lemma WholeSinceCheck(h: History, j: nat, c: nat, n: nat)
    requires j < c < n <= |h.steps| && !Bumped(h, j, c) && !Bumps(h.steps[c])
    ensures PausedAndReleased(h, j, n) <==> PausedAndReleased(h, c, n)
  {
    if PausedAndReleased(h, j, n) {
      var a, b :| j < a < b < n && h.steps[a] == OfFreeze(Pause) && Ends(h.steps[b]);
      assert Bumps(h.steps[a]);
    }
  }

  lemma BumpIsRelease(p: Params, h: History, c: nat, n: nat)
    requires IsRun(p, h) && c < n < |h.states| && Ticks(h, c, n) && !h.states[n].freeze.paused && !Bumps(h.steps[c])
    ensures h.states[n].freeze.generation != h.states[c].freeze.generation <==> Released(h, c, n)
  {
    GenerationBetween(p, h, c, n);
    if Bumped(h, c, n) {
      BumpReleases(p, h, c, n);
    }
    if Released(h, c, n) {
      var b :| c < b < n && Ends(h.steps[b]);
      assert Bumps(h.steps[b]);
    }
  }

  lemma BumpReleases(p: Params, h: History, c: nat, n: nat)
    requires IsRun(p, h) && c < n < |h.states| && Ticks(h, c, n) && Bumped(h, c, n) && !h.states[n].freeze.paused
    requires !Bumps(h.steps[c])
    ensures Released(h, c, n)
  {
    var a :| c <= a < n && Bumps(h.steps[a]);
    if h.steps[a] == OfFreeze(Pause) {
      StepOf(p, h, a);
      var b := EndBetween(p, h, a + 1, n);
    }
  }

  lemma ReleaseIsWhole(p: Params, h: History, c: nat, n: nat)
    requires IsRun(p, h) && Alone(h) && c < n <= |h.steps| && Ticks(h, c, n) && !h.states[c].freeze.paused && !Bumps(h.steps[c])
    ensures Released(h, c, n) <==> PausedAndReleased(h, c, n)
  {
    if Released(h, c, n) {
      var b :| c < b < n && Ends(h.steps[b]);
      StepOf(p, h, b);
      OnePassAlong(p, h, b);
      assert h.states[b].freeze.resumes != map[] by { assert h.steps[b].f.q in h.states[b].freeze.resumes; }
      assert Ticks(h, c, b);
      var a := PauseBetween(p, h, c, b);
    }
  }

  /**
   * A pass that writes between the check and the claim of a tick, when resumes do not overlap, does so inside a
   * whole pause and resume.
   */
  lemma DropIsWhole(p: Params, h: History, j: nat, c: nat, n: nat, t: Tick, e: Ready, d: nat)
    requires IsRun(p, h) && Alone(h) && n < |h.states| && CheckedAt(h, j, c, n, t, e) && !h.states[n].freeze.paused
    requires j <= d < n && Drops(p, h.states[d], h.steps[d], e.id)
    ensures PausedAndReleased(h, c, n)
  {
    NothingBeforeCheck(p, h, j, c, n, t, e);
    OnePassAlong(p, h, d);
    assert h.states[d].freeze.resumes != map[] by { assert h.steps[d].f.q in h.states[d].freeze.resumes; }
    assert d > c;
    assert Ticks(h, c, d) && Ticks(h, d, n);
    var a := PauseBetween(p, h, c, d);
    var b := EndBetween(p, h, d, n);
    assert a > c && b != d;
  }

  /**
   * In a calm history with one resume at a time, what is dispatched has the slot its row has, unless a whole pause
   * and resume has landed between check and claim.
   */
  lemma FreshUnlessPaused(p: Params, h: History, n: nat, k: nat) returns (j: nat, c: nat)
    requires IsRun(p, h) && Alone(h) && n < |h.steps| && Calm(p, h, n) && CanDispatch(h.states[n], k)
    ensures CheckedAt(h, j, c, n, h.states[n].tick.value, h.states[n].tick.value.ready[k])
    ensures var e := h.states[n].tick.value.ready[k];
            !PausedAndReleased(h, c, n) ==> !DroppedIn(p, h, j, n, e.id) && e.row.nextRunAt == h.states[n].db.rows[e.id].nextRunAt
  {
    c, j := SnapshotIsCurrent(p, h, n, k);
    var t := h.states[n].tick.value;
    var e := t.ready[k];
    if DroppedIn(p, h, j, n, e.id) {
      var d :| j <= d < n && Drops(p, h.states[d], h.steps[d], e.id);
      DropIsWhole(p, h, j, c, n, t, e, d);
    }
  }

  /** The claim at `n` follows the generation check of its own entry without a step in between. */
  predicate ChecksThenClaims(h: History, n: nat)
    requires n < |h.steps| && n < |h.states|
  {
    IsDispatch(h.steps[n]) ==>
      && n > 0 && h.steps[n - 1].OfTick? && h.steps[n - 1].t.TickCheck?
      && h.states[n - 1].tick.Some? && h.steps[n].t.k == |h.states[n - 1].tick.value.ready|
  }

  /**
   * With the generation check, the read of the task and the claim as one step, and one resume at a time, no dispatch
   * has another slot than its row.
   */
  lemma AtomicDispatchIsFresh(p: Params, h: History, n: nat)
    requires IsRun(p, h) && Alone(h) && n < |h.steps| && Calm(p, h, n)
    requires forall m :: 0 <= m < |h.steps| ==> ChecksThenClaims(h, m)
    requires IsDispatch(h.steps[n])
    ensures CanDispatch(h.states[n], h.steps[n].t.k)
    ensures var e := h.states[n].tick.value.ready[h.steps[n].t.k];
            e.row.nextRunAt == h.states[n].db.rows[e.id].nextRunAt
  {
    StepOf(p, h, n);
    assert ChecksThenClaims(h, n);
    var k := h.steps[n].t.k;
    var t := h.states[n].tick.value;
    var c, j := ReadyWasRead(p, h, n, k);
    SlotSinceRead(p, h, j, n, t, t.ready[k].id);
    if DroppedIn(p, h, j, n, t.ready[k].id) {
      var d :| j <= d < n && Drops(p, h.states[d], h.steps[d], t.ready[k].id);
      DropIsWhole(p, h, j, c, n, t, t.ready[k], d);
    }
  }
}
