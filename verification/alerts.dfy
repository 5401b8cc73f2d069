/** Failure streaks and the webhook alerts they open and close. */
module Alerts {
  import opened Records

  // ---- routing ----

  datatype Routing = Routing(on: Option<seq<Outcome>>, onStreak: Option<int>, webhook: Option<string>)

  datatype AlertsConfig = AlertsConfig(root: Routing, tasks: map<string, Routing>)

  datatype Resolved = Resolved(on: seq<Outcome>, onStreak: int, webhook: Option<string>)

  function OrElse<T>(first: Option<T>, second: Option<T>): Option<T> {
    if first.Some? then first else second
  }

  function GetOr<T>(option: Option<T>, default: T): T {
    if option.Some? then option.value else default
  }

  /** Field by field: the task's setting, else the root's, else the default. */
  function ResolveFor(config: AlertsConfig, task: string): Resolved {
    var t := if task in config.tasks then config.tasks[task] else Routing(None, None, None);
    Resolved(GetOr(OrElse(t.on, config.root.on), [Failed]),
             GetOr(OrElse(t.onStreak, config.root.onStreak), 1),
             OrElse(t.webhook, config.root.webhook))
  }

  /** An alert: where it goes, and its streak fields. */
  datatype Alert = Alert(hook: string, status: Outcome, consecutiveFailures: Option<nat>, previousFailures: Option<nat>)

  /** The alert for a final run that found this many failures before it, if any. */
  function HandleFinal(r: Resolved, outcome: Outcome, previousFailures: nat): Option<Alert> {
    if r.webhook.None? || outcome !in r.on then None
    else if outcome == Failed then
      if r.onStreak > 1 && previousFailures + 1 != r.onStreak then None
      else Some(Alert(r.webhook.value, Failed, Some(previousFailures + 1), None))
    else if outcome == Succeeded && previousFailures >= r.onStreak then
      Some(Alert(r.webhook.value, Succeeded, None, Some(previousFailures)))
    else Some(Alert(r.webhook.value, outcome, None, None))
  }

  // ---- the history a streak is a property of ----

  /** A terminal write. `notify` is false for a failure with a retry pending. */
  datatype Finish = Finish(task: string, outcome: Outcome, notify: bool)

  predicate Counts(f: Finish, task: string) {
    f.notify && f.task == task && f.outcome == Failed
  }

  predicate Breaks(f: Finish, task: string) {
    f.notify && f.task == task && f.outcome == Succeeded
  }

  function FailuresIn(h: seq<Finish>, task: string, from: nat, end: nat): nat
    requires from <= end <= |h|
  {
    if from == end then 0 else FailuresIn(h, task, from, end - 1) + (if Counts(h[end - 1], task) then 1 else 0)
  }

  /** Nothing in this stretch of the history ended a streak of the task, and it starts after a success or at the beginning. */
  ghost predicate Stretch(h: seq<Finish>, task: string, from: nat, end: nat) {
    && from <= end <= |h|
    && (from == 0 || Breaks(h[from - 1], task))
    && forall k :: from <= k < end ==> !Breaks(h[k], task)
  }

  /** The failures since the last success. */
  function Streak(h: seq<Finish>, task: string): nat {
    if h == [] then 0
    else
      var last := h[|h| - 1];
      if Breaks(last, task) then 0 else Streak(h[..|h| - 1], task) + (if Counts(last, task) then 1 else 0)
  }

  lemma {:induction false} StreakIs(h: seq<Finish>, task: string, from: nat, end: nat)
    requires Stretch(h, task, from, end)
    ensures Streak(h[..end], task) == FailuresIn(h, task, from, end)
    decreases end
  {
    if from < end {
      StreakIs(h, task, from, end - 1);
      assert h[..end][..end - 1] == h[..end - 1];
    } else if from > 0 {
      assert h[..end][end - 1] == h[from - 1];
    }
  }

  /** Only the task's own finishes matter to its streak. */
  function Own(h: seq<Finish>, task: string): seq<Finish> {
    if h == [] then []
    else
      var last := h[|h| - 1];
      Own(h[..|h| - 1], task) + (if last.task == task then [last] else [])
  }

  lemma {:induction false} TasksAreIndependent(h: seq<Finish>, task: string)
    ensures Streak(Own(h, task), task) == Streak(h, task)
    decreases |h|
  {
    if h != [] {
      var before := h[..|h| - 1];
      TasksAreIndependent(before, task);
      if h[|h| - 1].task == task {
        assert Own(h, task)[..|Own(h, task)| - 1] == Own(before, task);
      } else {
        assert Own(h, task) == Own(before, task);
      }
    }
  }

  /** Retry-pending failures and cancels leave every streak alone. */
  lemma Invisible(h: seq<Finish>, f: Finish, task: string)
    requires !f.notify || f.outcome == Cancelled
    ensures Streak(h + [f], task) == Streak(h, task)
  {
    assert (h + [f])[..|h|] == h;
  }

  /** The alert the k-th finish of the history deserves. */
  function Deserved(config: AlertsConfig, h: seq<Finish>, k: nat): Option<Alert>
    requires k < |h|
  {
    if h[k].notify then HandleFinal(ResolveFor(config, h[k].task), h[k].outcome, Streak(h[..k], h[k].task)) else None
  }

  function FailureAlertsIn(config: AlertsConfig, h: seq<Finish>, task: string, from: nat, end: nat): nat
    requires from <= end <= |h|
  {
    if from == end then 0
    else
      var last := if Counts(h[end - 1], task) && Deserved(config, h, end - 1).Some? then 1 else 0;
      FailureAlertsIn(config, h, task, from, end - 1) + last
  }

  /** One failure alert per streak that reaches the threshold and none for a shorter one; all of them without a threshold. */
  lemma {:induction false} OneAlertPerStreak(config: AlertsConfig, h: seq<Finish>, task: string, from: nat, end: nat)
    requires Stretch(h, task, from, end)
    requires ResolveFor(config, task).webhook.Some? && Failed in ResolveFor(config, task).on
    ensures var n, failures := ResolveFor(config, task).onStreak, FailuresIn(h, task, from, end);
            FailureAlertsIn(config, h, task, from, end) == if n > 1 then (if failures >= n then 1 else 0) else failures
    decreases end
  {
    if from < end {
      OneAlertPerStreak(config, h, task, from, end - 1);
      StreakIs(h, task, from, end - 1);
    }
  }

  /** The alert of a streak is sent by the failure that crosses the threshold, with the threshold as its count. */
  lemma CrossingRunAlerts(config: AlertsConfig, h: seq<Finish>, task: string, from: nat, k: nat)
    requires Stretch(h, task, from, k) && k < |h| && Counts(h[k], task)
    requires ResolveFor(config, task).webhook.Some? && Failed in ResolveFor(config, task).on && ResolveFor(config, task).onStreak > 1
    ensures Deserved(config, h, k).Some? <==> FailuresIn(h, task, from, k + 1) == ResolveFor(config, task).onStreak
    ensures Deserved(config, h, k).Some? ==>
              Deserved(config, h, k).value.consecutiveFailures == Some(ResolveFor(config, task).onStreak as nat)
  {
    StreakIs(h, task, from, k);
  }

  /** A success says how long the streak was that it ended, exactly when that streak reached the threshold. */
  lemma RecoveryTellsTheLength(config: AlertsConfig, h: seq<Finish>, task: string, from: nat, k: nat)
    requires Stretch(h, task, from, k) && k < |h| && Breaks(h[k], task)
    requires ResolveFor(config, task).webhook.Some? && Succeeded in ResolveFor(config, task).on
    ensures var n, failures := ResolveFor(config, task).onStreak, FailuresIn(h, task, from, k);
            && Deserved(config, h, k).Some? && Deserved(config, h, k).value.status == Succeeded
            && Deserved(config, h, k).value.previousFailures == (if failures >= n then Some(failures) else None)
            && Deserved(config, h, k).value.consecutiveFailures == None
  {
    StreakIs(h, task, from, k);
  }

  /** With nothing configured but a channel, every final failure alerts with its place in the streak, and nothing else does. */
  lemma DefaultsAlertEveryFailure(hook: string, h: seq<Finish>, k: nat, from: nat)
    requires k < |h| && h[k].notify && Stretch(h, h[k].task, from, k)
    ensures var config := AlertsConfig(Routing(None, None, Some(hook)), map[]);
            Deserved(config, h, k)
            == if h[k].outcome == Failed then Some(Alert(hook, Failed, Some(FailuresIn(h, h[k].task, from, k) + 1), None)) else None
  {
    StreakIs(h, h[k].task, from, k);
  }

  // ---- whose settings count ----

  /** The task's own settings. */
  function OwnOf(config: AlertsConfig, task: string): Routing {
    if task in config.tasks then config.tasks[task] else Routing(None, None, None)
  }

  /** For this field the two configs say the same about the task: the same of its own, or nothing of its own and the same at the root. */
  predicate SayTheSame<T(==)>(own: Option<T>, root: Option<T>, own': Option<T>, root': Option<T>) {
    if own.Some? then (if own'.Some? then own == own' else own == root')
    else (if own'.Some? then root == own' else root == root')
  }

  /**
   * The alerts of a task depend on one value for each field: its own where it has set the field, else the root's. So a
   * field set on the task makes the root's irrelevant, a field not set takes the root's, and no other task matters.
   */
  lemma TaskBeforeRoot(c: AlertsConfig, d: AlertsConfig, h: seq<Finish>, k: nat)
    requires k < |h|
    requires var a, b := OwnOf(c, h[k].task), OwnOf(d, h[k].task);
             && SayTheSame(a.on, c.root.on, b.on, d.root.on) && SayTheSame(a.onStreak, c.root.onStreak, b.onStreak, d.root.onStreak)
             && SayTheSame(a.webhook, c.root.webhook, b.webhook, d.root.webhook)
    ensures Deserved(c, h, k) == Deserved(d, h, k)
  {
  }

  /** A task that lists nothing never alerts, whatever the root lists. */
  lemma SilencedTask(config: AlertsConfig, h: seq<Finish>, k: nat)
    requires k < |h| && OwnOf(config, h[k].task).on == Some([])
    ensures Deserved(config, h, k) == None
  {
  }

  /** Whether the finish is listed for its task: by the task itself if it lists anything, else by the root, else if it failed. */
  predicate Listed(config: AlertsConfig, f: Finish) {
    var own := OwnOf(config, f.task).on;
    if own.Some? then f.outcome in own.value else if config.root.on.Some? then f.outcome in config.root.on.value else f.outcome == Failed
  }

  /** The threshold of a task's streaks. */
  function Threshold(config: AlertsConfig, task: string): int {
    var own := OwnOf(config, task).onStreak;
    if own.Some? then own.value else if config.root.onStreak.Some? then config.root.onStreak.value else 1
  }

  /** Where a task's alerts go, if anywhere. */
  predicate GoesTo(config: AlertsConfig, task: string, hook: string) {
    var own := OwnOf(config, task).webhook;
    own == Some(hook) || (own.None? && config.root.webhook == Some(hook))
  }

  /**
   * Exactly which finishes alert, where to, and with what: those that are listed and have somewhere to go; of the failures,
   * with a threshold above one, only the one that makes the streak that long. A failure tells its place in the streak, a
   * success the length of the streak it ends if it reached the threshold, and a cancel tells neither.
   */
  lemma AlertIs(config: AlertsConfig, h: seq<Finish>, k: nat, from: nat, hook: string)
    requires k < |h| && Stretch(h, h[k].task, from, k)
    ensures var f, n, failures := h[k], Threshold(config, h[k].task), FailuresIn(h, h[k].task, from, k);
            && (Deserved(config, h, k).Some? && Deserved(config, h, k).value.hook == hook <==>
                  f.notify && Listed(config, f) && GoesTo(config, f.task, hook) && (f.outcome == Failed && n > 1 ==> failures + 1 == n))
            && (Deserved(config, h, k).Some? ==>
                  var alert := Deserved(config, h, k).value;
                  && alert.status == f.outcome
                  && alert.consecutiveFailures == (if f.outcome == Failed then Some(failures + 1) else None)
                  && alert.previousFailures == (if f.outcome == Succeeded && failures >= n then Some(failures) else None))
  {
    StreakIs(h, h[k].task, from, k);
  }

  // ---- the counter of the engine ----

  function Landed(streaks: map<string, nat>, f: Finish, previousFailures: nat): map<string, nat> {
    if f.notify && f.outcome == Failed then streaks[f.task := previousFailures + 1]
    else if f.notify && f.outcome == Succeeded then streaks - {f.task}
    else streaks
  }

  function Counter(streaks: map<string, nat>, task: string): nat {
    if task in streaks then streaks[task] else 0
  }

  /** A finish whose terminal write is in flight: its task and its snapshot. */
  datatype Flight = Flight(task: string, previousFailures: nat)

  datatype Board = Board(streaks: map<string, nat>, flights: map<nat, Flight>, history: seq<Finish>)

  datatype Event = Begins(id: nat, task: string) | Lands(id: nat, outcome: Outcome, notify: bool)

  function After(b: Board, e: Event): Board {
    match e
    case Begins(id, task) => b.(flights := b.flights[id := Flight(task, Counter(b.streaks, task))])
    case Lands(id, outcome, notify) =>
      if id !in b.flights then b
      else
        var f := Finish(b.flights[id].task, outcome, notify);
        Board(Landed(b.streaks, f, b.flights[id].previousFailures), b.flights - {id}, b.history + [f])
  }

  function Replay(events: seq<Event>): Board {
    if events == [] then Board(map[], map[], [])
    else After(Replay(events[..|events| - 1]), events[|events| - 1])
  }

  /** No finish begins while another one of its task is in flight. */
  ghost predicate Apart(events: seq<Event>) {
    events == [] ||
    var n := |events| - 1;
    && Apart(events[..n])
    && (events[n].Begins? ==>
          forall id :: id in Replay(events[..n]).flights ==> Replay(events[..n]).flights[id].task != events[n].task)
  }

  /** The counters and the snapshots are what the history says. */
  ghost predicate Exact(b: Board) {
    && (forall task :: Counter(b.streaks, task) == Streak(b.history, task))
    && (forall id :: id in b.flights ==> b.flights[id].previousFailures == Streak(b.history, b.flights[id].task))
    && (forall i, j :: i in b.flights && j in b.flights && i != j ==> b.flights[i].task != b.flights[j].task)
  }

  lemma StreakNext(h: seq<Finish>, f: Finish, task: string)
    ensures Streak(h + [f], task)
         == if Breaks(f, task) then 0 else Streak(h, task) + (if Counts(f, task) then 1 else 0)
  {
    assert (h + [f])[..|h|] == h;
  }

  lemma {:induction false} CounterIsHistory(events: seq<Event>)
    requires Apart(events)
    ensures Exact(Replay(events))
    decreases |events|
  {
    if events != [] {
      var n := |events| - 1;
      CounterIsHistory(events[..n]);
      var b := Replay(events[..n]);
      if events[n].Lands? && events[n].id in b.flights {
        var f := Finish(b.flights[events[n].id].task, events[n].outcome, events[n].notify);
        forall task ensures Counter(Replay(events).streaks, task) == Streak(b.history + [f], task)
          && (task != f.task ==> Streak(b.history + [f], task) == Streak(b.history, task)) {
          StreakNext(b.history, f, task);
        }
      }
    }
  }

  /** When the finishes of a task do not overlap, every alert is the one the history deserves. */
  lemma AlertsFollowHistory(config: AlertsConfig, events: seq<Event>, k: nat)
    requires Apart(events) && k < |events| && events[k].Lands? && events[k].id in Replay(events[..k]).flights && events[k].notify
    ensures var b, e := Replay(events[..k]), events[k];
            var h := Replay(events[..k + 1]).history;
            && |h| == |b.history| + 1
            && Deserved(config, h, |b.history|) == HandleFinal(ResolveFor(config, b.flights[e.id].task), e.outcome, b.flights[e.id].previousFailures)
  {
    ApartBefore(events, k);
    CounterIsHistory(events[..k]);
    assert events[..k + 1][..k] == events[..k];
    var b, e := Replay(events[..k]), events[k];
    assert (b.history + [Finish(b.flights[e.id].task, e.outcome, e.notify)])[..|b.history|] == b.history;
  }

  /**
   * `recordFinish`, in its two halves around the terminal write. `board` follows the events; the counters are the only
   * thing the engine itself keeps.
   */
  class FailureStreaks {
    var streaks: map<string, nat>
    ghost var board: Board

    ghost predicate Valid()
      reads this
    {
      board.streaks == streaks
    }

    constructor ()
      ensures Valid() && board == Replay([])
    {
      streaks := map[];
      board := Replay([]);
    }

    /** The snapshot before the terminal write. While the counters are exact, it is the length of the task's streak. */
    method BeginFinish(ghost id: nat, task: string) returns (previousFailures: nat)
      requires Valid()
      modifies this`board
      ensures Valid() && board == After(old(board), Begins(id, task)) && board.flights[id] == Flight(task, previousFailures)
      ensures Exact(old(board)) ==> previousFailures == Streak(board.history, task)
    {
      previousFailures := if task in streaks then streaks[task] else 0;
      board := After(board, Begins(id, task));
    }

    /**
     * After the write landed: the counter moves on. While the counters are exact, the alert is the one the history
     * deserves.
     */
    method EndFinish(config: AlertsConfig, ghost id: nat, f: Finish, previousFailures: nat) returns (alert: Option<Alert>)
      requires Valid() && id in board.flights && board.flights[id] == Flight(f.task, previousFailures)
      modifies this
      ensures Valid() && board == After(old(board), Lands(id, f.outcome, f.notify))
      ensures board.history == old(board).history + [f]
      ensures Exact(old(board)) ==> alert == Deserved(config, board.history, |old(board).history|)
    {
      if f.notify {
        if f.outcome == Failed {
          streaks := streaks[f.task := previousFailures + 1];
        } else if f.outcome == Succeeded {
          streaks := streaks - {f.task};
        }
      }
      alert := if f.notify then HandleFinal(ResolveFor(config, f.task), f.outcome, previousFailures) else None;
      board := After(board, Lands(id, f.outcome, f.notify));
      assert board.history[..|old(board).history|] == old(board).history;
    }
  }

  lemma {:induction false} ApartBefore(events: seq<Event>, k: nat)
    requires Apart(events) && k <= |events|
    ensures Apart(events[..k])
    decreases |events|
  {
    if k < |events| {
      ApartBefore(events[..|events| - 1], k);
      assert events[..|events| - 1][..k] == events[..k];
    } else {
      assert events[..k] == events;
    }
  }

  /** The last success of the task from `since` on is at `b`. */
  ghost predicate LastSuccess(h: seq<Finish>, task: string, since: nat, b: nat) {
    since <= b < |h| && Breaks(h[b], task) && forall k :: b < k < |h| ==> !Breaks(h[k], task)
  }

  /**
   * Overlapping finishes lose counts. A counted failure moves the counter to one more than its snapshot. With no
   * success of the task since the snapshot, that is the length of the streak if and only if no other failure of the
   * task has landed since; with one, if and only if as many failures have landed after the last success as the
   * snapshot says.
   */
  lemma OverlapLosesCounts(h: seq<Finish>, since: nat, f: Finish, streaks: map<string, nat>)
    requires since <= |h| && Counts(f, f.task)
    ensures var snapshot := Streak(h[..since], f.task);
            var right := Counter(Landed(streaks, f, snapshot), f.task) == Streak(h + [f], f.task);
            && ((forall k :: since <= k < |h| ==> !Breaks(h[k], f.task)) ==>
                  (right <==> forall k :: since <= k < |h| ==> !Counts(h[k], f.task)))
            && (forall b: nat :: LastSuccess(h, f.task, since, b) ==> (right <==> FailuresIn(h, f.task, b + 1, |h|) == snapshot))
  {
    StreakNext(h, f, f.task);
    if forall k :: since <= k < |h| ==> !Breaks(h[k], f.task) {
      CountsSince(h, since, f.task);
    }
    forall b: nat | LastSuccess(h, f.task, since, b) ensures Streak(h, f.task) == FailuresIn(h, f.task, b + 1, |h|) {
      CountsAfter(h, f.task, b);
    }
  }

  lemma CountsSince(h: seq<Finish>, since: nat, task: string)
    requires since <= |h| && forall k :: since <= k < |h| ==> !Breaks(h[k], task)
    ensures Streak(h, task) == Streak(h[..since], task) <==> forall k :: since <= k < |h| ==> !Counts(h[k], task)
  {
    StreakSince(h, since, task);
    CountedSince(h, since, |h|, task);
  }

  lemma CountsAfter(h: seq<Finish>, task: string, b: nat)
    requires b < |h| && Breaks(h[b], task) && forall k :: b < k < |h| ==> !Breaks(h[k], task)
    ensures Streak(h, task) == FailuresIn(h, task, b + 1, |h|)
  {
    StreakIs(h, task, b + 1, |h|);
    assert h[..|h|] == h;
  }

  lemma {:induction false} StreakSince(h: seq<Finish>, since: nat, task: string)
    requires since <= |h| && forall k :: since <= k < |h| ==> !Breaks(h[k], task)
    ensures Streak(h, task) == Streak(h[..since], task) + FailuresIn(h, task, since, |h|)
    decreases |h|
  {
    if since == |h| {
      assert h[..since] == h;
    } else {
      var before := h[..|h| - 1];
      StreakSince(before, since, task);
      SameFailures(h, before, task, since, |h| - 1);
      assert before[..since] == h[..since];
    }
  }

  lemma {:induction false} SameFailures(h: seq<Finish>, g: seq<Finish>, task: string, from: nat, end: nat)
    requires from <= end <= |h| && end <= |g| && h[..end] == g[..end]
    ensures FailuresIn(h, task, from, end) == FailuresIn(g, task, from, end)
    decreases end
  {
    if from < end {
      assert h[..end][end - 1] == g[..end][end - 1];
      assert h[..end - 1] == h[..end][..end - 1] && g[..end - 1] == g[..end][..end - 1];
      SameFailures(h, g, task, from, end - 1);
    }
  }

  lemma {:induction false} CountedSince(h: seq<Finish>, from: nat, end: nat, task: string)
    requires from <= end <= |h|
    ensures FailuresIn(h, task, from, end) == 0 <==> forall k :: from <= k < end ==> !Counts(h[k], task)
    decreases end
  {
    if from < end { CountedSince(h, from, end - 1, task); }
  }

  lemma ReplayMore(events: seq<Event>, e: Event)
    ensures Replay(events + [e]) == After(Replay(events), e)
  {
    assert (events + [e])[..|events|] == events;
  }

  /** Two failures of one task that overlap, up to where the first one has landed. */
  function FirstLanded(task: string): seq<Event> {
    [Begins(0, task), Begins(1, task), Lands(0, Failed, true)]
  }

  /** The second has no snapshot of the first. */
  lemma TwoInFlight(task: string)
    ensures Replay(FirstLanded(task)) == Board(map[task := 1], map[1 := Flight(task, 0)], [Finish(task, Failed, true)])
  {
    var e0, e1, e2 := Begins(0, task), Begins(1, task), Lands(0, Failed, true);
    ReplayMore([], e0);
    ReplayMore([e0], e1);
    ReplayMore([e0, e1], e2);
    assert [] + [e0] == [e0] && [e0] + [e1] == [e0, e1] && [e0, e1] + [e2] == [e0, e1, e2];
    assert Replay([e0]) == Board(map[], map[0 := Flight(task, 0)], []);
    assert Replay([e0, e1]) == Board(map[], map[0 := Flight(task, 0), 1 := Flight(task, 0)], []);
  }

  /** Two failures of one task that overlap: the second deserves the alert of a streak of two, and none is sent. */
  lemma OverlapSilencesAlert(config: AlertsConfig, task: string)
    requires ResolveFor(config, task) == Resolved([Failed], 2, Some("hook"))
    ensures var b, after := Replay(FirstLanded(task)), Replay(FirstLanded(task) + [Lands(1, Failed, true)]);
            && 1 in b.flights && HandleFinal(ResolveFor(config, task), Failed, b.flights[1].previousFailures) == None
            && |after.history| == 2 && Deserved(config, after.history, 1) == Some(Alert("hook", Failed, Some(2), None))
            && Counter(after.streaks, task) == 1
  {
    var f := Finish(task, Failed, true);
    TwoInFlight(task);
    ReplayMore(FirstLanded(task), Lands(1, Failed, true));
    StreakNext([], f, task);
    assert [f, f][..1] == [f] && [] + [f] == [f] && [f] + [f] == [f, f];
  }

  // ---- delivery ----

  datatype Response = Http(status: int) | NoAnswer

  predicate Ok(r: Response) { r.Http? && 200 <= r.status < 300 }

  predicate Refused(r: Response) { r.Http? && 400 <= r.status < 500 }

  const retryDelays: seq<nat> := [5000, 30000]

  /** Attempts go on while nothing came back that settles the matter, three times at most. */
  method Post(answers: seq<Response>) returns (attempts: nat, sleeps: seq<nat>, delivered: bool)
    requires |answers| == 3
    ensures 1 <= attempts <= 3 && sleeps == [5000, 30000][..attempts - 1]
    ensures forall k :: 0 <= k < attempts - 1 ==>
              answers[k].NoAnswer? || !(200 <= answers[k].status < 300 || 400 <= answers[k].status < 500)
    ensures attempts < 3 ==>
              var last := answers[attempts - 1];
              last.Http? && (200 <= last.status < 300 || 400 <= last.status < 500)
    ensures delivered <==> answers[attempts - 1].Http? && 200 <= answers[attempts - 1].status < 300
  {
    attempts, sleeps := 0, [];
    while attempts < |retryDelays| + 1
      invariant 0 <= attempts <= 3 && sleeps == retryDelays[..if attempts < 2 then attempts else 2]
      invariant forall k :: 0 <= k < attempts ==> !Ok(answers[k]) && !Refused(answers[k])
    {
      var answer := answers[attempts];
      attempts := attempts + 1;
      if Ok(answer) || Refused(answer) {
        return attempts, sleeps, Ok(answer);
      }
      if attempts - 1 < |retryDelays| {
        sleeps := sleeps + [retryDelays[attempts - 1]];
      }
    }
    delivered := false;
  }
}
