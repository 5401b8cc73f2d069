# Verified model of the sched scheduler

This project models the parts of sched in which guarantees span several loops, and proves them over every run,
every input or every reachable state:

- the scheduling engine over its SQLite lock store: claims, heartbeats, the watchdog, accepted runs and their poll
  loop, cancels, the retry ladder, pause and resume, crash and recovery, and the failure streaks behind the alerts;
- the checker of run parameters (`inputSchema`) and its filling of defaults;
- the JSON printer and parser of the Java worker;
- the reconciler that brings the store in line with a task file.

`dafny verify dfyconfig.toml` checks everything.

## How the files fit together

| files | what they hold |
|---|---|
| `records.dfy`, `policy.dfy`, `store.dfy`, `keys.dfy` | rows, tasks, runs; firing times and the retry plan; each SQLite statement as a function on the table; iteration over a map |
| `sqlite.dfy` | class `Storage`: the statements, applied to the tables in place, against those functions |
| `protocol.dfy` | the engine as a state machine: 33 steps, histories |
| `finish.dfy`, `verdicts.dfy`, `retrychain.dfy`, `locks.dfy`, `ownership.dfy`, `slots.dfy`, `pause.dfy`, `recovery.dfy`, `polls.dfy`, `lease.dfy`, `bursts.dfy`, `scans.dfy`, `failures.dfy`, `streaks.dfy`, `columns.dfy`, `passes.dfy`, `lives.dfy`, `progress.dfy` | theorems over all histories |
| `witness.dfy`, `freezes.dfy` | histories in which a promise fails, for every setting of the environment |
| `serving.dfy`, `ticks.dfy`, `engine.dfy` | class `Engine`: the tick, pause, resume and restart loops, in place, and what a tick does with its due list and leaves behind |
| `ladder.dfy`, `alerts.dfy` | the retry ladder, failure streaks, alerts and their delivery |
| `schema.dfy`, `schemaproofs.dfy`, `issues.dfy`, `checker.dfy` | the schema checker as functions, its theorems, and the class that appends to one issue list |
| `json.dfy`, `jsonproofs.dfy`, `worker.dfy` | printed texts and parses, the round trip, and the classes `StringBuilder` and `Parser` |
| `spellings.dfy`, `tokens.dfy`, `parserproofs.dfy` | a grammar of texts and values, with that of RFC 8259 inside it, and the proof that the parser takes exactly the grammar |
| `sync.dfy`, `syncproofs.dfy`, `freshrows.dfy`, `reconciler.dfy` | what a file declares, what syncing does, and the class that does it |
| `rewrites.dfy`, `syncraces.dfy` | syncs as steps beside those of the engine: which steps they undo, when exclusion survives, and a trace in which it does not |

## The state machine

The engine runs on one thread and gives up control only at an `await`. A step of `Protocol` is one store statement
together with the code up to the next await; a step can interleave with any other activity that is under way. The
clock is an integer that any step `Advance` moves forward. Workers, runners and operators are arbitrary: a reply, a
poll answer, a cancel, an edit of a pause flag or of a task, a crash, may come at any time. The steps stand for this
code (`packages/core/src/engine.ts` unless said otherwise):

- `TickBegin`, `TickCheck`, `Dispatch`, `TickDrop`, `TickEnd`: the due query (1026-1027), the generation check and the
  read of the task (1040-1042), the claim with its pause checks (910-917), and entries that do not get that far. The
  claim stamps the lock with the time the tick was given, and the heartbeat starts at the clock.
- `CreateRun`, `Settle`, `Enqueue`, `JobWrite`, `JobComplete`, `Heartbeat`: 962-986, 991-1003, 824-836, 649-679,
  699-741, 640-647.
- `PassBegin`, `PassVisit`, `PassSignalled`, `PassAnswer`, `PassWrite`, `PassComplete`, `PassEnd`: one poll pass
  (861-905) with `signalCancel` (753-776) and `finishAsyncRun` (778-795).
- `CancelBegin`, `CancelWrite`, `CancelComplete`: `cancelRun` of an accepted run (1351-1379).
- `Pause`, `ResumeBegin`, `ResumePage`, `ResumeSkip`, `ResumeEnd`: 1150-1157 and 1113-1178, with one step for each page of
  the scan. Any number of resume passes can be under
  way at once: `resume` does not look whether another one is, and the admin API calls it per request
  (`packages/admin-api/src/admin-api.ts` 284).
- `ReapPass`: 1059-1063 and 1397-1400. `Toggle` and `EditTask` are operator edits.
- `Crash`, `RecoverRun`, `RecoverLocks`: everything in memory is lost; then `recoverOrphanRuns` (1409-1426).

Other activities get in at every await. With the SQLite adapter the statements themselves resolve at once, so that only the
awaits of runners, workers, signals and hooks let another request or timer in; an adapter with asynchronous statements
lets them in everywhere.

Some components are history only and are never read by a step: how often a run was claimed for finishing, written and
completed, when it was polled last, when its end was decided, and which run a schedule was claimed for last.

The theorems name what they need of a history:

- calm: no user cancel is late (comes while the run is already being finished), and no watchdog pass releases a lock.
- timely: the bounds `Timing(s, h, l, d)` hold. They bound the age of the tick's time at a claim, the heartbeat, the gap
  between two looks of the poll pass at one run, and the time from the decision that an accepted run ends to the
  completion of its schedule.
- orderly: timely, without late cancels, and every accepted run fits its lease. Orderly histories are calm
  (`Lease.OrderlyIsCalm`), so what holds in calm histories holds in them.
- one resume at a time (`Locks.Alone`): no resume begins while another one is under way.

## What the code does not keep

Each of these is a promise that fails in the code as it is, with the condition under which it holds; the condition is
exact where the text says "if and only if".

- **Live locks.** The engine checks at start that the heartbeat is shorter than the lock's time to live. That is not
  enough, because a claim stamps the lock with the tick's time, and because an accepted run holds its lock without a
  heartbeat. Write `r` for the poll interval w less one (0 for w = 0), and take a run whose ceiling is T. It can be polled
  last at P = min(T - 1, (T - 1) / (r + 1) * (r + l)) after its acceptance, division rounding down (0 for T up to 1), and
  its end is decided at the latest at its life, P + r + l (0 for l = 0). No timely history without late cancels gets to a
  state in which the watchdog would release a live lock if and only if s + h, and for every ceiling and interval that
  accepted runs may have also s + h + life + d, fit into the time to live (`Witness.SafeLeaseBound`). Having a ceiling is
  not enough: a `timeoutMs` above the time to live is as unsafe as none.
- **Accepted runs without a ceiling.** A task file that says nothing about `timeoutMs` gives -1, which skips the ceiling.
  With l > 0 such a run has no life to fit, for any time to live; its lock is released while its worker reports progress,
  and its task is dispatched a second time beside it (`Witness.UnfitRunIsReaped`, `Witness.UnlimitedRunOverlaps`). The
  runs beside it that do fit keep their locks for their own terms as long as nothing has been released yet
  (`Lease.LockAge`).
- **One finish per run.** `cancelRun` takes a run without looking at `finishing`. An accepted run is finished exactly once
  if and only if no cancel came while it was already being finished; else it is finished exactly twice
  (`Finish.ExactlyOneFinish`, `Witness.LateCancelFinishesTwice`). A failed verdict once written is the status of its run if
  and only if no cancel was written after it (`Failures.FailedVerdictStands`); a late cancel hides it or not, as the two
  writes happen to come (`Witness.LateCancelHidesFailure`, `Witness.LateCancelLeavesFailure`).
- **Overlapping resumes.** Two calls of `resume` on a paused queue start two passes. When one has ended, a tick can claim a
  schedule while the other is still to write. A locked schedule keeps the slot of its claim if and only if that claim does
  not fall between the end of one resume and the write of another one that is still under way (`Locks.LockedSinceClaim`);
  else a crash can lose the slot (`Freezes.OverrunLosesSlot`). After a ladder of an interval schedule has started, the slot
  of its resting row stays an interval away if and only if the start does not fall between the end of one resume and the
  write, to the resting row, of an older one (`Bursts.SlotsStayAway`); else a second ladder can start at the time of the
  first (`Freezes.OldPassStartsAgain`). Writes to a row that is locked or waits for a retry do no harm. The older pass can
  also open a queue that was paused again after it was called (`Freezes.OlderResumeUndoesPause`). None of this happens with
  one resume at a time (`Locks.AloneKeepsSlots`, `Bursts.AloneStartsApart`, `Pausing.PauseLasts`).
- **Slots skipped by a resume.** A due row read before a pause can be dispatched after the resume
  (`Freezes.SkippedSlotIsDispatched`). A whole pause and resume lands between the read of the row and the claim if and only
  if one lands between the tick's generation check and the claim (`Pausing.StaleDispatch`). This takes a store adapter whose
  reads are asynchronous: with SQLite the read of the task resolves at once, and no request gets in between. (So do
  overlapping resumes.) In a calm
  history the slot that is dispatched is the slot of the row if and only if no resume pass has moved it since the read
  (`Slots.SnapshotIsCurrent`). With the check, the read of the task and the claim as one step, and one resume at a time,
  it always is (`Pausing.AtomicDispatchIsFresh`).
- **Streak counts.** Two finishes of one task that overlap lose a count, and with `onStreak` 2 the alert is never sent
  (`Alerts.OverlapSilencesAlert`). With no success since its snapshot, the counter is right after a failure if and only if
  no other failure has landed since; with one, if and only if as many failures have landed after the last success as the
  snapshot says (`Alerts.OverlapLosesCounts`). Runs fired by schedules never overlap in a calm history without crashes, so
  there every alert is the deserved one (`Streaks.EveryAlertIsDeserved`); a reaped lock, a late cancel or a manual run
  beside a scheduled one makes them overlap.
- **Declared schedules.** A declared schedule ends in its own row if and only if no row of another id holds its `dedupKey`
  when its turn comes (`SyncProofs.DeclarationLands`). Otherwise it overwrites the holder, and a holder the file does not
  declare is then disabled (`SyncProofs.TakeoverDisables`). Given that task names differ, the ids of a file differ if and
  only if no task with one schedule is named like a schedule of a task that has not exactly one, such as `a#0` beside a
  task `a` with two (`Reconciler.IdsAreDistinct`, `Reconciler.IdsCanCollide`).
- **Run-time state under a sync.** `applySchedule` reads a row, waits, and writes the whole row. What the engine does
  meanwhile never changes what a sync declares (`SyncProofs.SyncBesideEngine`). But what happened to the row between its
  read and its write is undone (`Rewrites.WriteUndoes`): a claim, a completion, a heartbeat, a reaped lock, the clearing of
  the locks, an operator's edit, a resume write (`Rewrites.StepsThatTouch`), or another sync. Without late cancels and
  reaped locks, locks and runs in flight correspond in all states if and only if every write finds its row locked just when
  it was read locked (`Rewrites.OwnedIffWritesAgree`), and then no two runs of a task overlap
  (`Rewrites.ExclusionBesideSyncs`). A claim in between breaks it: the task is dispatched twice
  (`SyncRaces.SyncBreaksExclusion`). With SQLite the read resolves at once, and what can get in between is what waits for
  nothing but a turn of the microtask queue; an adapter with asynchronous reads lets everything in.
- **Rows that come and go during a resume.** The scan of a resume reads its pages by offset. A row that is there all the
  time is seen once, plus once for each time it moves up across the boundary between the page read and the next, minus once
  for each time it moves down across it (`Scans.TimesSeenIs`); it moves up only if a row with a smaller key was added
  meanwhile, and down only if one was deleted (`Scans.CrossingHasCause`). So a deletion can hide an overdue row from the
  resume, and an insertion make it visit one twice (`Scans.DeletionHides`, `Scans.InsertionRepeats`).
- **White space after a JSON text.** The worker's parser skips white space before values but refuses anything after the
  object, also the white space section 2 of RFC 8259 allows there (`JsonProofs.NothingMayFollow`).

## Model

| member | source | states |
|---|---|---|
| `Lease.NoLiveLockIsReaped` | packages/core/src/engine.ts:861-905 | In every state of an orderly history with s + h within the time to live, a watchdog pass changes nothing |
| `Lease.LockAge` | packages/core/src/engine.ts:640-647 | Run by run, in a timely history that has been calm so far: the lock of a run in flight is at most s + h old, plus its own life and d once it is accepted, whatever the other runs are |
| `Ownership.MutualExclusion` | packages/core/src/engine.ts:907-1017 | In every state of a calm history, whatever the timing and the ceilings, a schedule is locked iff a run in flight was fired by it, and two runs in flight never share a task |
| `Ownership.OwnedIffNothingReaped` | packages/core/src/engine.ts:1059-1063 | Without late cancels, locks and runs in flight correspond one to one in all states of a history iff no watchdog pass releases a lock |
| `Lease.OrderlyExclusion` | packages/core/src/engine.ts:907-1017 | In an orderly history with s + h within the time to live two runs in flight never share a task |
| `Ownership.OwnedAlong` | packages/core/src/engine.ts:907-1017 | The invariant behind both: over every calm history each run in flight holds the lock of its schedule by its own claim, and each lock belongs to a run in flight |
| `Lease.FreshAlong` | packages/core/src/engine.ts:640-647 | In timely calm histories every lock held is as fresh as the stage of its run promises |
| `Witness.SafeLeaseBound` | packages/core/src/engine.ts:450-456 | For all bounds on the environment, every time to live and every set of timeoutMs and poll intervals that accepted runs may have: no timely history without late cancels with such runs reaches a state in which the watchdog would release a live lock, iff s + h fits, and so does s + h + life + d for every member of the set |
| `Witness.LateClaimIsReaped` | packages/core/src/engine.ts:916-916 | Whenever s + h exceeds the time to live there is a timely history without accepted runs whose live lock the watchdog would release |
| `Witness.UnfitRunIsReaped` | packages/core/src/engine.ts:870-889 | For every timeoutMs and interval that do not fit, with or without a ceiling, a timely history without late cancels whose only accepted run is of that kind and would lose its lock in flight |
| `Witness.LongestRun` | packages/core/src/engine.ts:861-905 | The latest end is reached: for every setting with a life, a timely history whose accepted run is still open after its life and d |
| `Witness.UnlimitedRunOverlaps` | packages/core/src/engine.ts:870-873 | For every time to live, an accepted run with timeoutMs -1 loses its lock although every pass is on time, and its task is dispatched again beside it |
| `Finish.ExactlyOneFinish` | packages/core/src/engine.ts:778-795 | A run whose finishing has settled was written and completed exactly once iff no cancel came while it was already being finished, and exactly twice otherwise |
| `Finish.AtMostOneSignal` | packages/core/src/engine.ts:753-776 | In every reachable state the worker got at most one cancel signal, and completions, writes and claims of a run are ordered and at most two, at most one without a late cancel |
| `Finish.AccountedAlong` | packages/core/src/engine.ts:1351-1379 | The invariant behind both: every finisher that got started writes once and completes once, counted over all interleavings of pass and cancel |
| `Finish.RacedAlong` | packages/core/src/engine.ts:1358-1361 | A run is marked as raced exactly when some late cancel hit it |
| `Witness.LateCancelFinishesTwice` | packages/core/src/engine.ts:1358-1361 | A timely history with two verdicts and two completions of one run, the second verdict overwriting the first |
| `Verdicts.VerdictHasCause` | packages/core/src/engine.ts:861-905 | In every reachable state, the outcome of an ended run was given to that very run at an earlier step by its runner, a poll, a timeout, a user's cancel or a restart, and is the one that cause stands for |
| `Verdicts.OnlyAnswersAreRetried` | packages/core/src/engine.ts:805-823 | A completion of a dispatched run that plans a retry follows a failed answer of its runner, never an acceptance without a poll |
| `Verdicts.StoppedRunsAreSignalled` | packages/core/src/engine.ts:874-885 | In every state after a run timed out or was cancelled by a user, its worker has got exactly one signal if it has a channel, and none otherwise |
| `Verdicts.DispatchesAreDue` | packages/core/src/engine.ts:1026-1042 | Every dispatch goes back to two earlier reads of its own tick, of the due row and then of an unpaused task; at the claim the queue is not paused, the row is enabled, and no sibling is locked |
| `RetryChain.RetryChain` | packages/core/src/engine.ts:962-986 | In every reachable state a run with attempt k reaches a first attempt of the same schedule in exactly k - 1 steps along retryOf, over runs recorded failed with the attempts in between, through crashes and reaps; each of these runs has status failed, or cancelled iff a late cancel was written after the verdict |
| `RetryChain.PendingRetry` | packages/core/src/engine.ts:724-740 | In every reachable state a row with retryCount k > 0 points at its k-th attempt, which got a failed verdict; its status is failed iff no cancel was written after that, and cancelled otherwise |
| `Failures.FailedVerdictStands` | packages/core/src/engine.ts:649-679 | In every reachable state a run for which a failed verdict was written has status failed iff no user's cancel was written after it, and cancelled otherwise; such a cancel was late |
| `Witness.LateCancelHidesFailure` | packages/core/src/engine.ts:1358-1379 | A timely history whose late cancel is written after the failed verdict: the run ends cancelled |
| `Witness.LateCancelLeavesFailure` | packages/core/src/engine.ts:1358-1379 | One whose late cancel is written before it: the run ends failed |
| `Recovery.NoSlotLost` | packages/core/src/engine.ts:1409-1426 | After a crash in any reachable state and the recovery, no row is locked, and every row that was locked has the counters it had when it was claimed; it has had the slot of that claim all the time since iff the claim does not fall between the end of one resume and the write of another still under way |
| `Recovery.DueAgain` | packages/core/src/engine.ts:1409-1426 | In a calm history, and if no resume pass has moved the slot since the tick read the row, every row locked at a crash is due again after the recovery iff no operator has switched it off |
| `Recovery.DueAgainAlone` | packages/core/src/engine.ts:1409-1426 | With one resume at a time, the same unless a whole pause and resume landed between the check and the claim of that dispatch |
| `Slots.NextRunMoves` | packages/core/src/engine.ts:699-741 | Over every step, nextRunAt changes only by a completion of a run of that schedule or by a resume pass writing another slot, and such a write changes it |
| `Slots.SnapshotIsCurrent` | packages/core/src/engine.ts:1026-1042 | In a calm history, the slot a tick read for what it dispatches is the slot of the row in every state from the read to the claim iff no resume pass has moved it in between |
| `Slots.FailCountIsIncidents` | packages/core/src/sqlite.ts:477-487 | Over every history, failCount has grown by exactly the number of final failures and reaped locks of the schedule |
| `Columns.EveryColumn` | packages/core/src/sqlite.ts:470-495 | For every step of the engine and every row, what becomes of each column: task, rule, zone, priority and retry policy never change; paused and disabled change only by an edit of this row; the end of a run writes its own record, the retries consumed, the failure, the lock and the next slot, each with its value; else the lock, the slot, the counters and the record change only by a claim, a heartbeat, a watchdog pass, a restart or a resume write of this row, to the value stated |
| `Columns.TermsStay` | packages/core/src/sqlite.ts:477-482 | Over every history the task, rule, zone, priority and retry policy of a row stay what they were |
| `Columns.SwitchesAreEdits` | packages/core/src/sqlite.ts:477-482 | Over every history a row is paused and disabled as the last edit of it said, and as it was if there was none |
| `Columns.EveryRun` | packages/core/src/sqlite.ts:766-771 | For every step and every run: the row is created by its dispatch as the next attempt of its schedule, and then only its status changes, by a verdict or a progress report of that run |
| `Columns.TasksAndClock` | packages/core/src/engine.ts:1040-1042 | Over every step, a task changes only by an operator's edit of it, and the clock only by an advance |
| `Passes.TickServesAll` | packages/core/src/engine.ts:1019-1045 | Over every tick in every history: each row that was due when it began is served at exactly one step, as it was read, and no other row is; it is dispatched unless a pause or resume came since, its task is gone, the tick read it as paused, or at the claim the queue is paused or the row is locked, switched off or has a locked sibling |
| `Passes.PassVisitsAll` | packages/core/src/engine.ts:861-905 | Over every poll pass: each run that was queued when it began is looked at exactly once and no other is; the look leaves a run whose poll is not due, ends one whose setting (its task's, -1 for none, or the engine's) has run out, and polls any other |
| `Passes.ResumeVisitsAll` | packages/core/src/engine.ts:1113-1143 | Over every resume: each row is on exactly one of its pages and is visited exactly once, after that page and as the page showed it, if it was overdue there, and never else |
| `Passes.NothingIsPassedOver` | packages/core/src/engine.ts:1019-1045 | The conservation behind the three: over every stretch without a crash, what is done and what is left add up to what was there and what was read |
| `Lives.UnderWayIff` | packages/core/src/engine.ts:824-1045 | In every reachable state a run in flight, a place in the poll queue, a cancel, a tick, a pass, a resume, a pause or a stopped process is there iff a step began it and no step has ended it since; a crash ends all of them |
| `Lives.EndGoesBack` | packages/core/src/engine.ts:699-741 | Whatever completes a schedule does so for a run dispatched earlier, from the row and task of that dispatch, with the outcome an earlier step decided for that run and the clock of that step |
| `Lives.AcceptedGoesBack` | packages/core/src/engine.ts:824-836 | An accepted run has the interval and the channel its runner answered, the clock at which it entered the queue, and the row and task of its dispatch |
| `Progress.NothingIsStuck` | packages/core/src/engine.ts:861-1017 | In every reachable state whatever is under way (a run in any phase, a poll pass, a cancel, a tick, a resume) has a next step for every answer it may get, and what is not under way can begin; after a crash the recovery can |
| `Locks.PerTaskCeiling` | packages/core/src/sqlite.ts:470-476 | In every reachable state at most one schedule of each task is locked, whatever the timing |
| `Locks.OnlyDispatchLocks` | packages/core/src/sqlite.ts:470-495 | Every step but a claim leaves no new lock behind; a row that stays locked keeps its counters, and keeps its slot iff the step is not a resume pass writing another one |
| `Locks.LockedSinceClaim` | packages/core/src/engine.ts:1129-1142 | A locked row was claimed at some earlier step and has been locked with the same counters ever since; it has kept its slot all the time iff that claim does not fall between the end of one resume and the write of another still under way |
| `Locks.AloneKeepsSlots` | packages/core/src/engine.ts:1159-1178 | If no resume begins while another is under way, no claim falls so |
| `Freezes.OverrunLosesSlot` | packages/core/src/engine.ts:1159-1178 | A timely, calm history of two overlapping resumes: the slot of a locked row is moved, and after a crash and the recovery the schedule is not due |
| `Pausing.NothingClaimedWhilePaused` | packages/core/src/engine.ts:907-916 | Over any stretch of a history that stays paused, no schedule gets locked and no run dispatched |
| `Pausing.StaleDispatch` | packages/core/src/engine.ts:1019-1045 | For every dispatch, with the read of its row and its generation check: a whole pause and resume landed since the read iff one landed since the check; the generation differs at the claim iff a resume has ended since the check, and with one resume at a time iff a whole pause and resume landed since the check |
| `Pausing.FreshUnlessPaused` | packages/core/src/engine.ts:1033-1042 | In a calm history with one resume at a time, a dispatch has the slot of its row unless a whole pause and resume landed between its check and its claim |
| `Pausing.AtomicDispatchIsFresh` | packages/core/src/engine.ts:1040-1042 | Over every calm history with one resume at a time whose claims directly follow their generation check, every dispatch has the slot its row has |
| `Pausing.PauseLasts` | packages/core/src/engine.ts:1150-1178 | The resume that ends after a pause was called after it, or another resume ended between its call and that pause; with one resume at a time always the former |
| `Freezes.OlderResumeUndoesPause` | packages/core/src/engine.ts:1159-1178 | A timely history in which a resume called before a pause opens the queue again |
| `Freezes.SkippedSlotIsDispatched` | packages/core/src/engine.ts:1040-1042 | A timely history in which a slot the resume pass dropped is dispatched although its row is no longer due |
| `Polls.AcceptedRunsEnd` | packages/core/src/engine.ts:861-905 | In a timely history an accepted run with a life is completed within it and d, whatever the worker answers and however the passes are spread; the life of a positive ceiling and interval is below ceiling + interval + l |
| `Polls.PollsAreSpaced` | packages/core/src/engine.ts:864-864 | In every history, the worker of a run is never polled within its poll interval after acceptance or after the previous poll |
| `Bursts.SlotsStayAway` | packages/core/src/engine.ts:570-579 | In a calm history without crashes, after a ladder of an interval schedule has started at time t, the slot of its row is at t + interval or later in all states in which it is free and has no retry pending iff the start does not fall between the end of one resume and a write, to the row in such a state, of an older one still under way; whatever the timing, the downtimes and the pauses |
| `Bursts.LaddersStartApart` | packages/core/src/engine.ts:570-579 | In a calm history without crashes, two retry ladders of an interval schedule start at least its interval apart unless the first start falls between the end of one resume and such a write |
| `Bursts.AloneStartsApart` | packages/core/src/engine.ts:1129-1142 | With one resume at a time no start falls so |
| `Freezes.OldPassStartsAgain` | packages/core/src/engine.ts:1129-1142 | A timely, calm history of two overlapping resumes in which two ladders of a schedule start at the same time |
| `Bursts.NoBackfillBurst` | packages/core/src/engine.ts:734-740 | Without such writes between one start and the next, a window of any length holds at most length / interval + 1 ladder starts of an interval schedule |
| `Ladder.LadderExact` | packages/core/src/engine.ts:588-594 | Under a policy with m attempts, n failures in a row from no retry pending leave retryCount n % m and n / m more in failCount, and the next slot is one backoff later or back on the firing rule |
| `Ladder.OnlyTheLastNotifies` | packages/core/src/engine.ts:699-741 | Of every m failures in a row only the last one notifies |
| `Ladder.LadderIsOneIncident` | packages/core/src/engine.ts:674-677 | The streak of the task grows by exactly one for every m failures in a row |
| `Ladder.BackoffsGrow` | packages/core/src/engine.ts:588-594 | Backoffs never shrink |
| `Ladder.BackoffIsWait` | packages/core/src/engine.ts:591-593 | The first backoff is backoffMs, and each further one is the configured multiplier, or 1, times the one before |
| `Ladder.LadderWaits` | packages/core/src/engine.ts:588-594 | After any failures in a row that leave a retry pending, the next slot is the last failure plus the wait of that recurrence, rounded down, under the schedule's own policy or else the task's |
| `Ladder.WaitsAreMultiplied` | packages/core/src/engine.ts:588-594 | Inside one ladder each wait is the configured multiplier, or 1, times the wait before it |
| `Ladder.WaitsGrow` | packages/core/src/engine.ts:588-594 | Waits never shrink and are at least backoffMs |
| `Ladder.BackoffTotal` | packages/core/src/engine.ts:588-594 | The backoffs of n retries add up to the geometric sum whose ratio is the configured multiplier, or 1 |
| `Ladder.FixedBackoffTotal` | packages/core/src/engine.ts:591-592 | Without a multiplier they add up to n backoffs |
| `Serving.SequentialTick` | packages/core/src/engine.ts:1033-1045 | With batches of one, a due schedule is dispatched iff its task exists and is not paused and no earlier sibling of the tick was accepted |
| `Serving.StillClaimable` | packages/core/src/sqlite.ts:461-476 | Whatever has been dispatched and answered before, a due schedule's claim goes through iff no earlier dispatch of its batch or earlier accepted one shares its task |
| `Serving.TickKeepsCeiling` | packages/core/src/engine.ts:1030-1032 | A tick with batches of any size never leaves two locked schedules of one task |
| `Serving.RowWritten` | packages/core/src/engine.ts:907-1017 | The row of a dispatched schedule is the one its own run left: locked with the tick's time, or completed |
| `Serving.RowUntouched` | packages/core/src/engine.ts:1019-1045 | A schedule the tick does not dispatch keeps its row |
| `Ticks.TickLeaves` | packages/core/src/engine.ts:907-1045 | For batches of any size, what a tick leaves of every due schedule, by columns: locked with the tick's time if its run was accepted, ended by its runner's answer else, untouched if it was not dispatched; its run is the next attempt, queued or with that outcome, and is polled iff it was accepted |
| `EngineLoops.Engine.Tick` | packages/core/src/engine.ts:1019-1045 | The whole effect of a tick on tables and poll queue for every batch size: the due list in priority order, for each entry the run it was dispatched with or none, no effect while paused or already ticking |
| `EngineLoops.Engine.ServeAll` | packages/core/src/engine.ts:1033-1045 | The batches cover the due list exactly, each entry served once |
| `EngineLoops.Engine.BeginRun` | packages/core/src/engine.ts:907-986 | A run is created iff the queue, the task and the schedule are not paused and the claim changes a row |
| `EngineLoops.Engine.EndRun` | packages/core/src/engine.ts:988-1010 | An accepted run is queued and its schedule stays locked; any other verdict ends the run and completes its schedule |
| `EngineLoops.Engine.Heartbeat` | packages/core/src/engine.ts:640-647 | The lock of the run's own schedule is renewed if it is held, no other row changes, and no watchdog pass with a cutoff up to that time finds it stale |
| `EngineLoops.Engine.Pause` | packages/core/src/engine.ts:1150-1157 | A pause of a paused queue keeps its moment and its generation |
| `EngineLoops.Engine.Resume` | packages/core/src/engine.ts:1159-1178 | The table after a resume, its counts, the window it records, and no effect on a queue that is not paused |
| `EngineLoops.Engine.SkipPausedSlots` | packages/core/src/engine.ts:1113-1143 | Every overdue recurring slot is recomputed and every other row kept; skipped and deferred add up to the overdue rows |
| `EngineLoops.Engine.ScanOverdue` | packages/core/src/engine.ts:1114-1128 | The paged scan finds every overdue row exactly once, for every size of the table |
| `Scans.ScanIsExact` | packages/core/src/engine.ts:1114-1128 | When a resume has read its pages, whatever the engine did between them: each row was covered by exactly one page, and is to be visited, once and as it was there, iff it was overdue when that page was read |
| `Scans.ScannedOnce` | packages/core/src/engine.ts:1114-1128 | In every reachable state a resume has covered a row iff one of its pages did, and no two did |
| `Scans.TimesSeenIs` | packages/core/src/engine.ts:1114-1128 | For any page size and any changes of the table between the pages, the number of pages that show a row is one, plus the times it moves up across the boundary just read, minus the times it moves down across it |
| `Scans.CrossingHasCause` | packages/core/src/sqlite.ts:496-508 | It moves up only if a row with a smaller key was added meanwhile, and down only if one was deleted |
| `Scans.DeletionHides` | packages/core/src/engine.ts:1114-1128 | For every table of two pages: deleting its first row after the first page hides the first row of the second |
| `Scans.InsertionRepeats` | packages/core/src/engine.ts:1114-1128 | Adding a smaller row after the first page repeats its last row |
| `EngineLoops.ResumeLeavesNothingOverdue` | packages/core/src/engine.ts:1129-1142 | After the pass every free, enabled, recurring schedule without a pending retry that was overdue has the slot its rule and zone give after the resume, which is in the future; one-shots, pending retries, locked or switched-off rows and rows that were not overdue are as they were |
| `EngineLoops.SkipPassIs` | packages/core/src/engine.ts:1129-1142 | Going once through any complete list of the overdue rows gives that table and those counts |
| `EngineLoops.Engine.RecoverOrphanRuns` | packages/core/src/engine.ts:1409-1426 | The newest hundred running and the newest hundred queued runs end cancelled and are counted, so all runs of a status that has no more than a hundred; every lock is released |
| `Sqlite.Storage.ListDueSchedules` | packages/core/src/sqlite.ts:461-469 | Every due row once, by descending priority and then by slot |
| `Sqlite.Storage.ListSchedules` | packages/core/src/sqlite.ts:496-508 | One page, capped at 1000 rows: its ids ascend, and no other row of the table belongs between them |
| `Sqlite.Storage.ClaimSchedule` | packages/core/src/sqlite.ts:470-476 | A lock iff the row is free, enabled and no sibling is locked; no other column and no other row changes |
| `Sqlite.Storage.CompleteSchedule` | packages/core/src/sqlite.ts:477-482 | Each of the written columns has its stated value, with these put back the row is the old one, and no other row changes; an unknown id changes nothing |
| `Sqlite.Storage.ReapZombieScheduleLocks` | packages/core/src/sqlite.ts:483-487 | Exactly the locks older than the cutoff are released, each as a failure, and counted; no other column changes |
| `Sqlite.Storage.ClearScheduleLocks` | packages/core/src/sqlite.ts:492-495 | All locks released and counted, slots kept |
| `Sqlite.Storage.FinishRun` | packages/core/src/sqlite.ts:766-771 | One run row ends, an unknown run is ignored |
| `Sqlite.Storage.ListRuns` | packages/core/src/sqlite.ts:556-585 | The newest hundred runs in a status |
| `Alerts.OneAlertPerStreak` | packages/core/src/alerts.ts:230-240 | Over every stretch between successes, one failure alert if the streak reaches N and none if not, for N > 1; one per failure otherwise |
| `Alerts.CrossingRunAlerts` | packages/core/src/alerts.ts:235-240 | For N > 1 the alert is sent by exactly the failure that makes the streak N long, with N in it |
| `Alerts.RecoveryTellsTheLength` | packages/core/src/alerts.ts:243-251 | A success carries previousFailures iff the streak it ended reached N, and then its length |
| `Alerts.CounterIsHistory` | packages/core/src/engine.ts:649-679 | While finishes of one task do not overlap, every counter and every snapshot is the streak of the history |
| `Alerts.AlertsFollowHistory` | packages/core/src/engine.ts:649-679 | Under the same condition every alert is the one the history deserves |
| `Alerts.OverlapLosesCounts` | packages/core/src/engine.ts:657-677 | With no success since its snapshot, the counter is right after a failure iff no other failure of the task has landed since; with one, iff as many failures landed after the last success as the snapshot says |
| `Alerts.OverlapSilencesAlert` | packages/core/src/engine.ts:657-677 | Two overlapping failures at a threshold of two: the deserved alert is not sent |
| `Alerts.DefaultsAlertEveryFailure` | packages/core/src/alerts.ts:171-179 | With nothing configured but a channel, every final failure alerts with its place in the streak, and nothing else does |
| `Alerts.TaskBeforeRoot` | packages/core/src/alerts.ts:167-179 | For every two configs and every history: if for each of the three fields they set the same for the task, or neither sets it and their roots agree, they give the same alerts; so a field set on the task makes the root's irrelevant, and the settings of other tasks never matter |
| `Alerts.SilencedTask` | packages/core/src/alerts.ts:167-179 | A task with an empty `on` never alerts, whatever the root lists |
| `Alerts.AlertIs` | packages/core/src/alerts.ts:219-256 | For every config and history, without the resolution: a finish alerts to a hook iff it is final, listed for its task, the hook is its task's, and it is no failure off the threshold; a failure carries its place in the streak, a success the length of a streak that reached the threshold, a cancel nothing |
| `Alerts.TasksAreIndependent` | packages/core/src/engine.ts:657-677 | The streak of a task depends on its own finishes only |
| `Alerts.Invisible` | packages/core/src/engine.ts:651-656 | Retry-pending failures and cancels change no streak |
| `Alerts.FailureStreaks.BeginFinish` | packages/core/src/engine.ts:657-657 | The snapshot opens a flight in the history of finishes and, while the counters are exact, is the length of the task's streak |
| `Alerts.FailureStreaks.EndFinish` | packages/core/src/engine.ts:674-678 | The finish joins the history, and while the counters are exact the alert is the one the history deserves |
| `Streaks.FinishesAreApart` | packages/core/src/engine.ts:649-679 | In every calm history of the engine without crashes, no finish of a task begins while another one of it is in flight |
| `Streaks.EveryAlertIsDeserved` | packages/core/src/engine.ts:649-679 | So in such a history every final terminal write gives its hook the length of the streak that the finishes before it make, and the alert is the one the history deserves |
| `Streaks.VerdictsLand` | packages/core/src/engine.ts:649-679 | For every step of the engine: each verdict it writes for a run is a finish with that outcome, which tells its hook unless the run failed with an attempt of its ladder left; no other step is one |
| `Alerts.Post` | packages/core/src/alerts.ts:186-216 | At most three attempts, 5 s and 30 s apart, going on exactly while the answer is neither 2xx nor 4xx |
| `SchemaProofs.CheckerIsValidity` | packages/core/src/input-schema.ts:47-202 | For every schema and value, with or without filling, the checker finds nothing iff the value it returns is valid by the keywords |
| `SchemaProofs.FillIsIdempotent` | packages/core/src/input-schema.ts:155-189 | Filling a filled value changes nothing |
| `SchemaProofs.AcceptedAgain` | packages/core/src/input-schema.ts:308-313 | If a value is accepted with an effective value, that effective value is accepted with itself |
| `SchemaProofs.FillExtends` | packages/core/src/input-schema.ts:155-189 | The filled value changes nothing present, keeps lengths, and every added key holds the filled default its schema declares |
| `SchemaProofs.FillIs` | packages/core/src/input-schema.ts:155-189 | The filled value is characterised exactly: a value is it iff it has the present members and the declared defaults of absent ones, each filled in turn, and no others |
| `SchemaProofs.FillingWaives` | packages/core/src/input-schema.ts:227-287 | For a schema the load-time check accepts, an issue is found with filling iff it is found without and is not a missing property with a default |
| `SchemaProofs.FillingKeepsValidity` | packages/core/src/input-schema.ts:283-287 | For such a schema, filling a valid value gives a valid value |
| `SchemaProofs.IssuesUnder` | packages/core/src/input-schema.ts:204-206 | Every issue is reported below the path of its node |
| `IssueProofs.IssuesAreBreaks` | packages/core/src/input-schema.ts:47-202 | For every schema, value, path and kind: the checker reports that kind at that path iff the value found along the path breaks that keyword of the schema found along it, the lower limits apart from the upper ones |
| `IssueProofs.FillingIsChecking` | packages/core/src/input-schema.ts:155-189 | The issues reported with filling are those of the filled value |
| `IssueProofs.ReportedIssues` | packages/core/src/input-schema.ts:283-313 | So a path and a kind are reported for a run's input iff the filled input breaks that keyword there, and for a default or a value taken as it is iff the value itself does |
| `IssueProofs.AcceptedIffSound` | packages/core/src/input-schema.ts:227-287 | The load-time check accepts a schema iff at every node reached by properties and items all required names are declared and the default, filled, is valid |
| `Checker.IssueList.CheckNode` | packages/core/src/input-schema.ts:47-145 | The one issue list grows by exactly the issues of the node, nothing is taken off it, and the value returned is the filled one |
| `Checker.IssueList.CheckObject` | packages/core/src/input-schema.ts:155-202 | The same for an object, in whatever order its members are visited |
| `Checker.ApplyDefaults` | packages/core/src/input-schema.ts:164-172 | Absent members with a default are filled, present ones never overwritten |
| `Checker.ValidateInput` | packages/core/src/input-schema.ts:308-313 | Accepted iff the filled value is valid, and then with it; else with exactly the issues |
| `Checker.ApplyInputDefaults` | packages/core/src/input-schema.ts:293-297 | The filled value, whatever issues there are |
| `Checker.Walk` | packages/core/src/input-schema.ts:227-287 | Accepts iff required names are declared and defaults fit their own nodes, at every node |
| `JsonProofs.RoundTrip` | examples/workers/java/Worker.java:256-337 | For every map of nested maps, lists, strings of any code units, longs, booleans and nulls, in any iteration order, parsing the printed text gives the map back |
| `JsonProofs.ValueRound` | examples/workers/java/Worker.java:348-377 | Before any text that does not go on with a number character, the parser consumes exactly the printed value |
| `JsonProofs.StringRound` | examples/workers/java/Worker.java:298-327 | The same for strings: escapes, control units and the rest |
| `JsonProofs.NumberRound` | examples/workers/java/Worker.java:518-534 | The same for longs |
| `JsonProofs.MembersRound` | examples/workers/java/Worker.java:385-429 | The same for members, added to any map |
| `JsonProofs.ItemsRound` | examples/workers/java/Worker.java:431-460 | The same for items, added to any list |
| `JsonProofs.NothingMayFollow` | examples/workers/java/Worker.java:332-335 | A printed object followed by anything, white space included, is refused |
| `JsonProofs.WhitespaceBefore` | examples/workers/java/Worker.java:379-383 | White space before a value makes no difference |
| `JsonProofs.PrintIsInjective` | examples/workers/java/Worker.java:262-296 | Two values with the same text are equal |
| `ParserProofs.ParsesIffSpelled` | examples/workers/java/Worker.java:329-337 | For every text and map: the parser gives the map iff the text spells it in a grammar of its own, defined apart from the parser |
| `ParserProofs.EveryJsonIsParsed` | examples/workers/java/Worker.java:329-534 | Every RFC 8259 spelling of an object, with any of its white space before it and around its tokens, any of its eight short escapes and `\u` with hex digits of either case, is parsed to that object |
| `ParserProofs.ValueTaken` | examples/workers/java/Worker.java:348-377 | Every text of the grammar is taken whole, and gives its value, before anything that does not go on with a number character |
| `ParserProofs.ValueIsSpelled` | examples/workers/java/Worker.java:348-377 | Whatever the parser takes is white space and a text of the grammar with the value it gives |
| `ParserProofs.PrintIsJson` | examples/workers/java/Worker.java:262-327 | What the printer writes is a text of RFC 8259 without white space |
| `ParserProofs.EscapeIsJson` | examples/workers/java/Worker.java:298-327 | Each unit is printed by a spelling of the standard: itself, a short escape, or `\u` with small hex digits |
| `Tokens.StringThrowsIff` | examples/workers/java/Worker.java:462-516 | The parser throws in a string iff spelled units are followed by a `\u` whose four units are no hex number |
| `Tokens.NumberTaken` | examples/workers/java/Worker.java:518-534 | A number text is taken whole: a long if it is a whole number in range, else a double |
| `Worker.WriteJson` | examples/workers/java/Worker.java:262-296 | Appends the text of the value for some iteration order of its maps |
| `Worker.WriteJsonString` | examples/workers/java/Worker.java:298-327 | Appends the quoted text, unit by unit |
| `Worker.Parser.Value` | examples/workers/java/Worker.java:348-377 | The index stays in the text and never moves back, and index, flag and value are those of the parse of what was left |
| `Worker.Parser.Object` | examples/workers/java/Worker.java:385-429 | The same for the member loop; each turn consumes text or fails |
| `Worker.Parser.Array` | examples/workers/java/Worker.java:431-460 | The same for the item loop |
| `Worker.Parser.String` | examples/workers/java/Worker.java:462-516 | The index stays in the text, and index, flag and text are those of the parse, which is tied to the grammar by `Tokens`; it goes on after a bad escape, takes the digits of every script in a hex number as the platform does, and lets a malformed one throw |
| `Worker.Parser.Number` | examples/workers/java/Worker.java:518-534 | A long when it is one in range, else a double, else a failure |
| `Worker.ParseJson` | examples/workers/java/Worker.java:329-337 | For every text, the object it spells in the grammar if there is one, and no answer else |
| `Worker.SendAndReceive` | examples/workers/java/Worker.java:256-337 | Printing and parsing back gives the same map |
| `SyncProofs.DeclarationLands` | packages/core/src/sqlite.ts:635-652 | After a sync a declared schedule has its own row with its own key iff no row of another id held the key at its turn |
| `SyncProofs.SyncIsIdempotent` | packages/core/src/tasks-json.ts:731-761 | After a clean sync, a second one of the same file at the same time is clean and changes nothing, for any page of the list calls |
| `SyncProofs.CleanFromTheStart` | packages/core/src/tasks-json.ts:731-761 | A sync is clean if no declared key is held by a row of another id beforehand |
| `SyncProofs.DeclaredRowsKeepTheirState` | packages/core/src/tasks-json.ts:681-700 | A clean sync gives a declared row its terms and keeps its locks, counters, flags and owner, and its slot unless rule or zone changed |
| `SyncProofs.UndeclaredRowsAreKept` | packages/core/src/tasks-json.ts:753-760 | Undeclared runtime rows are unchanged; undeclared file rows that are listed are disabled and nothing else |
| `SyncProofs.NeverEnables` | packages/core/src/tasks-json.ts:726-729 | A clean sync never turns disabled off |
| `SyncProofs.TakeoverDisables` | packages/core/src/sqlite.ts:638-645 | For every store, file and page: a declaration whose key is held at its turn by a schedule the file does not declare gets no row of its own; the holder ends with what the declaration would have written, disabled if it is file-managed and listed |
| `SyncProofs.SyncBesideEngine` | packages/core/src/tasks-json.ts:731-761 | A sync between whose statements the engine does what it likes to slots and run-time state brings about exactly the declarations it would bring about with the engine at rest: the same rows, terms and owners under the same ids |
| `SyncProofs.LateWriteUndoes` | packages/core/src/tasks-json.ts:681-700 | A row written after its read ends with the run-time state of the read, and the write equals the declaration applied at once iff nothing it is to keep has changed in between |
| `SyncProofs.ClaimIsUndone` | packages/core/src/tasks-json.ts:681-700 | A claim between the read and the write is lost, where the declaration applied at once would keep its lock |
| `Rewrites.StepsThatTouch` | packages/core/src/tasks-json.ts:681-700 | For every step of the engine: it takes or releases the lock of a schedule iff it is a claim of it, a completion, a watchdog pass that finds the lock stale or the clearing of the locks, and changes its row iff it is one of these or a late completion, a heartbeat at another time, an edit of the flags or a resume write of another slot |
| `Rewrites.WriteUndoes` | packages/core/src/tasks-json.ts:681-700 | After a sync's write the row is the one it read, with the declared terms, and its slot unless rule or zone differ, whatever happened to it since; no other row and nothing else changes |
| `Rewrites.LostSinceRead` | packages/core/src/tasks-json.ts:681-700 | A write that changes the lock of its row, or with an unchanged declaration the row, undoes a step of that kind, or another sync's write, that lies between its read and itself |
| `Rewrites.OwnedIffWritesAgree` | packages/core/src/tasks-json.ts:681-700 | Over all interleavings of engine and any number of syncs without late cancels and reaped locks: locks and runs in flight correspond in all states iff every write while the engine is up finds its row locked just when it was read locked |
| `Rewrites.ExclusionBesideSyncs` | packages/core/src/tasks-json.ts:681-700 | And then a schedule is locked iff a run in flight was fired by it, and no two runs in flight share a task |
| `Rewrites.SyncsErased` | packages/core/src/tasks-json.ts:681-700 | Leaving out the syncs of a trace in which every write leaves its row as it is gives a history of the engine that gets to the same state |
| `Rewrites.UntouchedWritesNothing` | packages/core/src/tasks-json.ts:681-700 | If no declaration changes its row and nothing of the kinds above lies between a read and its write, every write leaves its row as it is |
| `SyncRaces.SyncBreaksExclusion` | packages/core/src/tasks-json.ts:681-700 | A timely trace without late cancels and reaped locks: a claim between a sync's read and write loses its lock, and the next tick dispatches the schedule again beside its first run |
| `SyncProofs.TaskSyncIsIdempotent` | packages/core/src/tasks-json.ts:649-673 | Syncing task rows twice is syncing them once |
| `SyncProofs.TasksKeepTheirState` | packages/core/src/tasks-json.ts:649-673 | The same framing for task rows: declared tasks get their terms and keep their state, undeclared file tasks are disabled iff they are listed, and nothing else changes |
| `FreshRows.SyncedRows` | packages/core/src/tasks-json.ts:449-483 | After a clean sync each declared schedule has its declared terms, with the task's priority and retry policy exactly where it has none of its own; a new row is untouched and has a first slot, which for a one-shot has come iff its moment has and for a recurring rule is the one the engine's own recomputation gives; a row whose rule or zone changed has such a slot too |
| `FreshRows.SyncedTasks` | packages/core/src/tasks-json.ts:411-436 | The same for task rows, which go by the first schedule of their task |
| `FreshRows.FileIsFresh` | packages/core/src/tasks-json.ts:449-483 | The list a file is turned into holds such a row for every schedule of every task, in order, and nothing else; a task with one schedule lends it its name, else the numeral of its place is added |
| `FreshRows.TasksAreFresh` | packages/core/src/tasks-json.ts:411-436 | The same for the list of tasks |
| `FreshRows.DecimalIsNumeral` | packages/core/src/tasks-json.ts:456-456 | The place is written in decimal digits without leading zeros |
| `Reconciler.IdsAreDistinct` | packages/core/src/tasks-json.ts:449-456 | For task names that differ, the schedule ids of a file differ iff no task with exactly one schedule is named like a schedule of a task that has another number of them |
| `Reconciler.IdsCanCollide` | packages/core/src/tasks-json.ts:455-456 | A task named like a schedule of another task shares its id |
| `Reconciler.FileSyncIsIdempotent` | packages/core/src/tasks-json.ts:731-761 | Idempotence of the whole sync for every file whose ids differ, from one look at the store |
| `Reconciler.DesiredState.CreateRow` | packages/core/src/sqlite.ts:635-652 | The dedup upsert |
| `Reconciler.DesiredState.ApplyScheduleRow` | packages/core/src/tasks-json.ts:681-700 | The merge of a declared schedule into the store, which keeps keys unique |
| `Reconciler.DesiredState.SyncTasks` | packages/core/src/tasks-json.ts:731-761 | A file is refused as a whole iff it declares a key twice, else tasks and schedules are those of the sync |
| `Reconciler.MaterialiseSchedules` | packages/core/src/tasks-json.ts:449-483 | The rows of a file are fresh: their ids, terms, policies and first slots, as the file declares them |
| `Reconciler.MaterialiseTasks` | packages/core/src/tasks-json.ts:411-436 | The task rows of a file are fresh: their settings, and rule, zone and first slot of their first schedule |
| `Reconciler.KeysAreDistinct` | packages/core/src/tasks-json.ts:398-411 | The file-wide check of dedup keys |

## Left out

- Manual runs (`triggerTask`, `retryRun`), the cancel of a synchronous run, and run deletion and retention: every modelled run is fired by a schedule. A synchronous deadline is one of the outcomes a runner may answer.
- Failures of the store itself, the events the engine emits, missed-slot reports, payload merging and progress texts.
- Cron expressions and time zones: the calendar is a parameter; where it matters, its result is strictly later than its argument.
- Rows created or deleted by the API while the machine runs: the state machine's operators edit pause and disable flags and tasks, and `Rewrites` adds the syncs that write rows back. What rows that come and go do to a resume scan is `Scans.TimesSeenIs`, apart from the engine.
- `Rewrites.OwnedIffWritesAgree`: a sync writes to the row it has read; a write that its key sends to another row is `SyncProofs.TakeoverDisables`.
- `Scans.ScanIsExact`: a page of `Protocol` is any set of rows that no earlier page has covered, and the pages cover the table, which has the same rows all the time.
- `EngineLoops.Engine.Tick`: serves one batch after the other and takes all claims of a batch before its answers; every other interleaving, with pauses and other loops in between, is the subject of `Protocol`, whose values the class does not share.
- `EngineLoops.Engine.RecoverOrphanRuns`: says nothing about runs beyond the two default pages of 100, which the code does not see either.
- `Sqlite.Storage.ListRuns`: orders by creation, for the start time.
- `Lease.NoLiveLockIsReaped`: asks for the time d from a decision to its completion besides the bounds of the poll loop, because a store write takes time.
- Streak counters live in memory: that a restart sets them to zero is not modelled, and `Streaks` speaks of histories without crashes.
- Floating point: backoffs are real numbers rounded down, schema numbers are reals, and the value of a double read by the worker is its text.
- The MySQL, Postgres and Mongo adapters; the Mongo claim takes two operations and has another atomicity.
- SQL text, JSON columns, schema migrations, the queries on task rows the engine no longer drives, webhook signatures, sync-failure and missed-slot alerts.
- Schema keywords of a wrong shape, cyclic schemas, `enum` members that are objects, property names found on JavaScript's prototypes, and message texts; an issue is its path and its kind.
- What the Java platform counts as white space, and which units of other scripts it counts as digits, are tables (`Json.IsWhitespace`, `Json.HexDigit`); of these only the white space and the hex digits of RFC 8259 are pinned by a theorem.
- `JsonProofs.RoundTrip`: leaves out doubles, whose printed form is Java's own.
- `Worker.WriteJson`: asks for values without doubles, for the same reason.
- The validation of task definitions before they are materialised, including the parsing of schedules; a definition is taken as validated.
- `SyncProofs.SyncIsIdempotent`: takes the page of the list calls as a function of the keys in the table.
- HTTP, process, docker and ssh runners, the admin API, the CLI, the UI, and the worker's request handling.
