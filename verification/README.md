# Verified model of GrubDrops

GrubDrops mines drops on Twitch and Kick, one runner per account. This project
models the parts of it whose correctness spans many calls, in Dafny 4.11, and
proves what they promise over every input and every run.

Verify it with `dafny verify dfyconfig.toml`.

## What is modelled

- **The planner** (`Plan.dfy`; lemmas in `PlanProofs.dfy` and `PlanDrain.dfy`):
  the loops of `Build` and `ApplyOrder` are methods proved equal to the
  functions `PlanOf` and `Reordered`. The lemmas say that a plan partitions the
  offered benefits, that the queue follows the comparator, and that collecting
  the head of plan after plan drains it.
- **The sleep window** (`Sleep.dfy`) in a zone with a fixed offset, over all
  integer days and any jitter in range.
- **The runner** (`Runner.dfy`; its state, history and invariants in
  `RunnerState.dfy`, functions in `RunnerSpec.dfy`): a class whose methods are the
  steps of `Run`. Every answer from outside is an arbitrary
  value. At every point where the source holds no lock, `Interfere` may run any
  number of whole PubSub hooks, user requests, sweep results and setting
  changes. The source's fields are grouped into records by who writes them, and
  ghost history (the log of started and stopped watches, counters, and a ledger
  with each benefit's claims) is what the invariants relate them to.
- **The pool and the PubSub trampolines** (`Pool.dfy`): a step relation over
  lock and atomic operations of restarts, reloads and stops.
- **The roster's protocols** (`Handshake.dfy`, `SettingsCache.dfy`): the
  mark-then-check handshake between games reloads and points-mode saves, with
  the version counter of the stored flags; and the generation-stamped cache of
  runner settings.
- **The collector** (`Collector.dfy`): cache and table of drop states.
- **Points refresher, reward notices, campaign waker, link retries**
  (`Points.dfy`, `Rewards.dfy`, `Wake.dfy`, `Links.dfy`).
- `Platform.dfy` has the shared values, `Sorting.dfy` the stable sort.

Times are whole nanoseconds in `int`; Go's zero time is `None`. Minutes, counts
and durations are unbounded: none of the modelled code relies on wrap-around.
A `set` stands for the keys that a Go map holds true.

## Invariants of a run

`Runner.Valid` holds whenever the source's lock is free: the watch log
alternates, so at most one watch is open; handle and stream are both set or
both unset and match it; side tasks exist only on the live watch; the program's
count of failed claims is the ledger's count since the last third one in a row,
more than three in a row failed only of a benefit let go of or taken again,
benefits given up stay skipped and
are let go of only by a sweep, the user or a read that heals them; ready drops
are claimed with restraint; the queue walk's marks
are campaigns found streamless; and as long as points-only held throughout,
nothing was scanned, started or planned. `Settled` holds between steps besides:
only watching, force watching and claiming have a watch; watching, starting and
claiming have a target, one given up only if it was taken again; force watching and
the sleep window have none. `Tracked`
ties the counters of a drop watch to its inventory polls, so that the bound on a
watch (`RunnerSpec.WatchEnds`) speaks of runs: `RunnerState.TrackedIsShort`.
`Onward` is what history keeps between any two moments of a run; `OverRuns`,
`UnclaimedUntilTaken` and `ThreeOverRuns` say what that means for one benefit.

## Where the code differs from its description

- The comment of `SleepUntil` says that the returned wake is never itself inside
  a window. A window close to 24 hours long can run into the next one day after
  day, and the merge loop looks three windows ahead: `WakeInsideIff` gives the
  exact condition, `WakeCanFallInside` a window and an instant, `SpacedWake` the
  usual case in which the promise holds.
- "Watching implies a live watch" has one exception: a stream-down push that
  lands after `start` or `beginForce` stored the handle and before it stored the
  state ends the watch, and the state is then overwritten. `Settled` says that
  watching without a watch is exactly the case `swallowed`, and `TakeUpDrop`,
  `TakeUpForce`, `BeginForce`, `Start` and `Pick` that this is exactly when such a
  push landed; `SwallowedStart` is a run of it. The next tick reports an
  incomplete state and the runner picks again, or a force recheck starts anew.
- Inside the sleep window a turn can start, scan or beacon all the same. `Turn`
  says exactly when the step reads a state that may: when a stream-down push ended
  the watch of a pending claim between the gate and the step, and no claim push
  set the state since. `StartsAsleep` is a run that starts a drop watch there.
- `Pool.Stop` releases no runner, so a trampoline can keep forwarding to a
  stopped one even after its account was removed: `StopLeavesWired`.
  `RemovalEmpties` gives the exact condition where the removal begins: the
  trampoline stays wired if and only if it forwards to a runner that `Stop` left,
  whatever else happens until the removal ends. Without a stop in the history it
  is emptied (`NothingStranded`).
- The comment of `retryLinkRefused` says that each benefit is retried at most
  once per recheck interval. `TwoScans` says exactly when the next scan tries one
  again: when the answer was no refusal until linked, or the interval has passed.
  `TriedAtEveryScan` is a run that fails the comment's pace: a benefit of a
  campaign flagged as needing a link whose claim meets any other error is tried by
  every scan.
- Three failed claims in a row skip a benefit, but a fourth in a row is possible.
  It takes one of two things. Either the benefit was let go of in between (a sweep
  claimed it, a read healed it; the user's taking back ends the row). Or, still
  given up, it was *taken again*, which happens in three ways: a pick takes it
  pinned, the queue walk meets it (only if it was given up since the last plan:
  `Start`), or a claim push arrives while it is still the current target. While
  none of these happens it is not claimed (`UnclaimedUntilTaken`), and no more than
  three of its claims fail in a row (`ThreeOverRuns`). Without a let go, and if the
  row did not begin while it was given up, a failed claim makes it more than three
  exactly when the benefit is given up as it is claimed, which it is exactly when
  it was taken again (`MoreThanThree`); each further failure needs another taking
  (`AtMostThree`). `StaleWalk` is a run in which the scan fails and the pick goes on
  with a pin and force channels, `FourthFailure` goes on to the fourth failed claim;
  `PushedClaim` gets there by a push in the wait after the third failure.

The runs named here start from a new runner, or from an empty pool.

## Model

| member | source | states |
|---|---|---|
| `Plan.Match` | internal/plan/plan.go:75-85 | The first game of the list whose name, slug or Twitch name matches, whatever the case; none exactly when no game matches |
| `Plan.ReadProgress` | internal/plan/plan.go:121-132 | The tables hold, per benefit, the most minutes of any row, whether there is a row, and whether one is claimed |
| `Plan.ReadRequired` | internal/plan/plan.go:133-141 | Per benefit the most minutes any campaign requires |
| `Plan.ReadClaimed` | internal/plan/plan.go:142-159 | What counts as claimed: inventory or manual mark always, the log unless an inventory row shows the drop below its required minutes |
| `Plan.Unmet` | internal/plan/plan.go:254-261 | True exactly when some precondition does not count as claimed |
| `Plan.Judge` | internal/plan/plan.go:179-197 | Where a benefit goes, in the order claimed, not linked, skipped, precondition, mined |
| `Plan.BuildLists` | internal/plan/plan.go:168-198 | One campaign: benefits by required minutes, each ID of the whole plan taken once, into the list its verdict names, in order |
| `Plan.LeastLeft` | internal/plan/plan.go:199-204 | Remaining is the least minutes left over queued targets alone, 0 without any |
| `Plan.BuildEntry` | internal/plan/plan.go:163-206 | The entry carries the rank, restriction, remaining minutes, end and lists the comparator and the result use |
| `Plan.Flatten` | internal/plan/plan.go:231-239 | The entries' lists concatenated in sorted order, and the targets of unlinked campaigns once more |
| `Plan.ApplyOrder` | internal/plan/plan.go:87-107 | The loops compute Reordered: each named target in turn moved to the front, the rest in order |
| `Plan.Build` | internal/plan/plan.go:120-242 | The loops compute PlanOf, the plan that the lemmas below are about |
| `PlanProofs.OrderKeepsTargets` | internal/plan/plan.go:89-107 | ApplyOrder is a permutation: no target is lost, added or doubled |
| `PlanProofs.OrderIdempotent` | internal/plan/plan.go:89-107 | Applying the same order twice is applying it once |
| `PlanProofs.OrderKeepsUnnamed` | internal/plan/plan.go:87-88 | Targets no ID of the order names keep their places relative to each other |
| `PlanProofs.OrderRanks` | internal/plan/plan.go:87-88 | On unique IDs the result follows the order: an earlier place never has a later rank |
| `PlanProofs.OrderCommutesWithRemoval` | internal/runner/runner.go:488-503 | Taking the current target out before or after ordering gives the same Up next, as Snapshot relies on |
| `PlanProofs.LessIsStrictWeak` | internal/plan/plan.go:208-229 | Both comparators are strict weak orders, so the sort is well defined |
| `PlanProofs.ByRequiredIsStrictWeak` | internal/plan/plan.go:170-171 | So is the order of benefits within a campaign |
| `PlanProofs.Partition` | internal/plan/plan.go:161-240 | Queue, Blocked and Claimed together hold each benefit with positive minutes of a matched, active, non-reward campaign exactly once, and nothing else |
| `PlanProofs.PlacedRight` | internal/plan/plan.go:174-197 | Every target of each list belongs there: genuine data, and the verdict (for blocked ones the reason) of that list |
| `PlanProofs.QueueSorted` | internal/plan/plan.go:208-229 | With no user order no queued target stands before one whose campaign the comparator puts first, keys recomputed from the queue itself |
| `PlanProofs.CampaignsTogether` | internal/plan/plan.go:170-171 | With no user order a campaign's targets stand together and by rising required minutes |
| `PlanDrain.CollectStep` | internal/plan/plan.go:160-240 | With no skips and ranked preconditions, while anything is open the queue has a head, all its preconditions claimed, and collecting it closes exactly it |
| `PlanDrain.DrainStep` | internal/plan/plan.go:120-242 | While anything is open the next plan takes one open benefit no earlier plan took, its preconditions claimed at first or taken before |
| `PlanDrain.Drains` | internal/plan/plan.go:120-242 | Collecting heads empties an n-benefit plan in exactly n plans, none taken twice, none before its preconditions |
| `PlanDrain.CycleNeverQueued` | internal/plan/plan.go:193-194 | Conversely benefits that wait for each other, or for one nobody offers, are never queued however many plans run |
| `PlanDrain.ClaimedAfter` | internal/plan/plan.go:142-159 | After k plans exactly the drops claimed at first and those taken count as claimed; what is offered never changes |
| `Sorting.SortKeepsElements` | internal/plan/plan.go:171 | The stable sort is a permutation |
| `Sorting.SortSorts` | internal/plan/plan.go:208 | The stable sort sorts by any strict weak order |
| `Sorting.SortIsStable` | internal/plan/plan.go:208 | Elements the order does not tell apart keep their incoming order |
| `Sleep.JitterReachesAll` | internal/timeutil/sleep.go:108-115 | Over all 32-bit hashes the shift takes every whole minute from -20 to 20 (the result type keeps it within) |
| `Sleep.SleepBounds` | internal/timeutil/sleep.go:82-106 | One day's window: set times, shifted by the day's jitter, at least the shorter of 30 minutes and its span |
| `Sleep.WindowsOrderly` | internal/timeutil/sleep.go:85-106 | No window is empty, and a later day's opens later and closes later, whatever the jitter |
| `Sleep.SearchIsWideEnough` | internal/timeutil/sleep.go:60-66 | A window that holds now starts between two days back and one day ahead, so the offsets -2 to 1 miss none |
| `Sleep.SleepUntil` | internal/timeutil/sleep.go:52-80 | The loops compute WakeOf, which the lemmas below are about |
| `Sleep.MergeNext` | internal/timeutil/sleep.go:68-76 | The inner loop moves the end over the next windows while each opens by then |
| `Sleep.AsleepIff` | internal/timeutil/sleep.go:44-46 | Sleep is reported exactly when some day's window, of all integer days, holds now |
| `Sleep.AsleepUntilWake` | internal/timeutil/sleep.go:48-51 | Every instant from now up to the wake time lies in a window |
| `Sleep.WakeInsideIff` | internal/timeutil/sleep.go:50-51 | The wake is after now, and lies inside a window if and only if four windows in a row run into the next |
| `Sleep.SpacedWake` | internal/timeutil/sleep.go:48-51 | When 24 hours minus the span exceed 40 minutes, or without jitter, the wake is the end of the window that holds now, the same for all its instants, and outside every window |
| `Sleep.WakeCanFallInside` | internal/timeutil/sleep.go:50-51 | The comment's promise fails without that condition: a concrete window and instant whose wake is inside a window |
| `Sleep.ParseFormat` | internal/timeutil/sleep.go:17-42 | Every minute count formats to a clock time that parses back to its minute of the day, negative ones too |
| `Sleep.FormatParse` | internal/timeutil/sleep.go:17-42 | Whatever parses is a minute of the day and is exactly what that minute formats to |
| `RunnerSpec.AtMostOneOpen` | internal/runner/watch.go:501-527 | After every prefix of an alternating log one watch is open, or none: never two |
| `RunnerSpec.ClosedLogStopsAll` | internal/runner/watch.go:501-527 | In a closed log of alternating starts and stops each watch is started once and stopped once |
| `RunnerSpec.PollTakesPatience` | internal/runner/watch.go:284-355 | Every inventory poll that keeps a watch strictly lowers its measure of minutes, flat polls and missing polls |
| `RunnerSpec.WatchEnds` | internal/runner/watch.go:190-362 | With nondecreasing minutes and one row a benefit, a drop of n minutes ends its watch by poll 15n+15, never more than 30n |
| `RunnerSpec.WatchCanLast` | internal/runner/watch.go:16-25 | That bound is exact: some inventory keeps the watch for 15n+14 polls |
| `RunnerSpec.SortedUsable` | internal/runner/watch.go:118-122 | A stream picked from the sorted list was listed, and its channel is not cooling down |
| `Runners.Runner.StopWatch` | internal/runner/watch.go:495-527 | Ends the watch, its side tasks and the view; the backend sees one stop, of the watch that was open, and none without one |
| `Runners.Runner.StartPoints` | internal/runner/points.go:61-83 | A claim task runs only on a live watch, replacing any other, so at most one runs |
| `Runners.Runner.StartRaids` | internal/runner/raid.go:72-93 | A raid task runs only for the live watch's own channel ID, replacing any other |
| `Runners.Runner.SyncPoints` | internal/runner/points.go:85-107 | After it bonus claims run exactly when mode, backend and a live watch call for them |
| `Runners.Runner.SyncRaids` | internal/runner/raid.go:104-121 | After it a raid task runs exactly when setting, backend and a live watch call for it |
| `Runners.Runner.OnDropProgress` | internal/runner/pubsub.go:116-133 | A push for the current drop moves the shown minutes and resets the missing polls, never the minutes of the last inventory poll; another drop's changes nothing |
| `Runners.Runner.OnDropClaim` | internal/runner/pubsub.go:135-147 | A push for the current drop goes to claiming, any other changes nothing; by it a benefit given up is taken again, else nothing of the claims' history moves |
| `Runners.Runner.OnStreamDown` | internal/runner/pubsub.go:149-164 | Only the watched channel's push ends the watch, and is counted; a drop starts again, a force watch re-picks |
| `Runners.Runner.MineNow` | internal/runner/runner.go:348-375 | Accepted exactly when awake, running and the benefit is queued; then it is pinned and a switch is asked for, else nothing changes |
| `Runners.Runner.Collected` | internal/runner/runner.go:307-327 | The current drop is switched away from, another one is rescanned; its pin is gone either way |
| `Runners.Runner.Uncollected` | internal/runner/runner.go:329-346 | Skip, failure counts and ready-claim memory of the benefit, and of no other, are forgotten |
| `Runners.Runner.SweepClaimed` | internal/runner/inventory_sweep.go:166-173 | A claim by the inventory sweep lifts the skip |
| `Runners.Runner.SweepRefused` | internal/runner/inventory_sweep.go:213-231 | A refusal by the inventory sweep skips the drop as a failed claim, and is taken down |
| `Runners.Runner.ForceListChanged` | internal/runner/force.go:191-207 | A force watch rechecks at its next beacon, an idle runner is asked to pick again, a runner at work on a drop is left alone |
| `Runners.Runner.Interfere` | internal/runner/pubsub.go:116-164 | Whatever whole hooks, requests, sweep results and setting changes run, in any number and order, every invariant holds; a watch can only end, by a counted push |
| `Runners.Runner.SelfHeal` | internal/runner/runner.go:855-890 | Exactly the skips shown unclaimed are cleared, but for failed claims still at their required minutes; what was given up is let go of exactly when the read heals it |
| `Runners.Runner.MakePlan` | internal/runner/runner.go:798-818 | A plan never queues a benefit skipped when it was made |
| `Runners.Runner.Scan` | internal/runner/runner.go:737-835 | One campaign list read; only success replaces queue and blocked list, which then hold no benefit given up; target, watch and state stay |
| `Runners.Runner.Pinned` | internal/runner/runner.go:699-728 | A queued pin comes back with the plan's data, one settled or ended is dropped, one merely omitted stays |
| `Runners.Runner.LiveForce` | internal/runner/force.go:34-60 | The channel found answered live, is in the list and did not fail to start within the recheck interval; every channel ranked above, or all when none is found, has no name, just failed to start or was not heard to be live |
| `Runners.Runner.Open` | internal/runner/watch.go:159-187 | The watch opened is still open exactly when no stream-down push came while its side tasks started |
| `Runners.Runner.TakeUpForce` | internal/runner/force.go:123-142 | The runner is force watching; without a watch exactly when a stream-down push landed before the state was stored |
| `Runners.Runner.BeginForce` | internal/runner/force.go:111-143 | On success the runner force watches that stream with no target, or a stream-down push ended the watch meanwhile and `swallowed` says so, exactly then; on refusal no watch is open |
| `Runners.Runner.NextForce` | internal/runner/force.go:91-107 | The failed channel is set aside for the recheck interval, and the next one tried is ranked below it |
| `Runners.Runner.ForceFrom` | internal/runner/force.go:76-109 | The fail-over ends: a watch on one channel at most, or none and an error |
| `Runners.Runner.ForceOrSleep` | internal/runner/runner.go:677-696 | A force channel is watched, or the runner idles in the state given, never with a watch open |
| `Runners.Runner.Unstalled` | internal/runner/watch.go:449-468 | Exactly the streams whose channels are not cooling down, in order; only expired marks go |
| `Runners.Runner.Choose` | internal/runner/watch.go:122-148 | The first of at most five looked-up streams known to carry the drop, or whose drops are unknown; when there is none the one with most viewers |
| `Runners.Runner.MarkStreamless` | internal/runner/watch.go:66-104 | The campaign is marked; the next target is of an unmarked campaign, and taken again if it was given up, or every queued campaign was found streamless; its pin and preempt end |
| `Runners.Runner.UsableStreams` | internal/runner/watch.go:58-66 | Streams offered for a watch are not cooling down at the time of the answer |
| `Runners.Runner.TakeUpDrop` | internal/runner/watch.go:159-187 | The runner is watching the drop with fresh counters; without a watch exactly when a stream-down push landed before the state was stored |
| `Runners.Runner.Start` | internal/runner/watch.go:37-187 | The walk ends; it asks for each campaign at most once; a drop is never started on a channel cooling down; it sleeps or force watches only when every queued campaign was found streamless since the last pick; a target other than the one it began with was not given up before the last plan |
| `Runners.Runner.NextCampaign` | internal/runner/watch.go:66-114 | The same for the walk from the next campaign on |
| `Runners.Runner.PickPoints` | internal/runner/force.go:145-175 | Points-only: no scan, no plan left, straight to the force list |
| `Runners.Runner.NextTarget` | internal/runner/runner.go:644-651 | The pin when it resolves, else the head of the queue |
| `Runners.Runner.PlanForPick` | internal/runner/runner.go:612-637 | No games and no force list stops as no_games; a refused login stops as needs_login; a failed scan is an error only without force channels |
| `Runners.Runner.Pick` | internal/runner/runner.go:608-697 | A benefit given up is never picked unless Mine now pinned it; awaiting_connect only with a blocked benefit that waits for a link |
| `Runners.Runner.TakeTarget` | internal/runner/runner.go:639-696 | The target given is the one started; the walk's marks are cleared |
| `Runners.Runner.CountFailure` | internal/runner/claim.go:51-66 | Every third failed claim in a row skips the benefit as a failed claim and gives it up; at the others only the count moves; only a benefit not given up, or taken again, is claimed |
| `Runners.Runner.SettleClaim` | internal/runner/claim.go:41-85 | A link refusal or a grant ends the run of failures and gives nothing up; any other error adds one failure, and the third gives the benefit up |
| `Runners.Runner.Claim` | internal/runner/claim.go:26-103 | One claim of the current benefit and of no other, which is not given up or was taken again; a cancelled one changes nothing; a failure adds one to the failures in a row that the benefit had when the answer came, and every third gives it up; every other answer ends them |
| `Runners.Runner.FinishClaim` | internal/runner/claim.go:105-124 | The watch ends, the target is cleared and the runner picks again |
| `Runners.Runner.BlockNotLinked` | internal/runner/link.go:13-32 | The drop is left and its run of failures ended; the refusal skips nothing and gives nothing up |
| `Runners.Runner.ReadyClaimFailed` | internal/runner/claim.go:388-419 | Retry in five minutes, one more failure, given up at once for a link refusal |
| `Runners.Runner.ReadyClaimed` | internal/runner/claim.go:365-373 | A ready drop claimed is remembered, and its retries forgotten |
| `Runners.Runner.ClaimOne` | internal/runner/claim.go:335-373 | Each ready drop gets at most three attempts, five minutes apart, none after a success, until the user takes it back; earlier attempts stay on record until then |
| `Runners.Runner.ClaimReady` | internal/runner/claim.go:304-386 | Every listed ready drop that needs no link and is not logged has been tried, within that restraint, unless the user took it back meanwhile |
| `Runners.Runner.WatchableQueued` | internal/runner/force.go:313-337 | The target found is queued and its campaign the last asked for; each campaign is asked for once, and all are before giving up |
| `Runners.Runner.ForceRecheck` | internal/runner/force.go:253-311 | A watchable drop ends the force watch; the best live channel keeps or takes the watch; with none the runner sleeps or re-picks |
| `Runners.Runner.ForceTick` | internal/runner/force.go:209-251 | A rescan or an early wake sends no beacon; at most one scan and one beacon a tick |
| `Runners.Runner.SkipCurrent` | internal/runner/watch.go:470-486 | The benefit is skipped, the watch ends, the runner picks again |
| `Runners.Runner.Rotate` | internal/runner/watch.go:312-323 | The frozen channel cools down for 30 minutes and the drop starts again |
| `Runners.Runner.ReadRow` | internal/runner/watch.go:261-324 | One row: claimed settles, enough minutes claim, the fifth flat poll rotates, else the counters advance as OneRow says |
| `Runners.Runner.MissRow` | internal/runner/watch.go:326-355 | A missing row: the third after progress, or the sixth without, skips the benefit |
| `Runners.Runner.PollRows` | internal/runner/watch.go:260-361 | With no push meanwhile the rows decide the watch as OnePoll says, which WatchEnds is about |
| `Runners.Runner.MaybePreempt` | internal/runner/watch.go:397-447 | With preempting on, a switch is asked for exactly to the top campaign, with the current one queued below it, no pin, no cooldown and a usable stream |
| `Runners.Runner.Tick` | internal/runner/watch.go:189-362 | One beacon, then liveness and poll; with no push meanwhile the tick ends as OnePoll of its counters and inventory says; the watch still stands where its polls brought it |
| `Runners.Runner.ApplyLive` | internal/runner/runner.go:250-305 | Points-only ends a drop watch or start; an open sleep window ends every wait and changes nothing else; otherwise a wait ends exactly when a force watch lost its list or left points-only, or an idle runner's points-only flipped or its points came on with force channels; a watch that stays stands as it did |
| `Runners.Runner.KeepForce` | internal/runner/runner.go:279-297 | A force watch ends with its list, rescans on leaving points-only, drops the plan on entering it |
| `Runners.Runner.SleepGate` | internal/runner/runner.go:392-435 | In the window any watch is stopped and SleepWindow held, exactly unless a claim is pending, which is let through untouched; out of it SleepWindow becomes picking |
| `Runners.Runner.TakeSwitch` | internal/runner/runner.go:437-450 | A Mine now is taken exactly when no claim is in flight and drops are on; points-only discards it |
| `Runners.Runner.Begin` | internal/runner/runner.go:942-947 | A pending Mine now is taken exactly when the gate does not hold, with drops on and no claim in flight when it is judged; inside the window only after a stream-down push since the gate; then no watch is left for the step |
| `Runners.Runner.Step` | internal/runner/runner.go:536-554 | Each state's step keeps every invariant; a claiming step makes just the claim of its target, any other answers no claim, a sleeping one does nothing |
| `Runners.Runner.Turn` | internal/runner/runner.go:938-1006 | In the sleep window one turn scans, starts and beacons nothing: at most a pending claim runs, else SleepWindow holds. That fails only if the step reads another state, which is exactly when a stream-down push landed between gate and step and no claim push set the state since. A claim is made of the target alone, which is not given up or was taken again |
| `Runners.Runner.Run` | internal/runner/runner.go:900-1008 | However long the run, every watch started was stopped exactly once, no side task is left, and in points-only throughout nothing was scanned, started or planned |
| `Runners.Runner.SwallowedStart` | internal/runner/watch.go:159-187 | A run from a new runner that watches without a watch: the handle is stored, the push ends the watch, the state is stored |
| `Runners.Runner.StartsAsleep` | internal/runner/runner.go:396-435 | A run from a new runner that starts a drop watch inside the sleep window: the gate lets a pending claim through, the push ends its watch, the step starts the drop |
| `Runners.Runner.StaleWalk` | internal/runner/watch.go:66-98 | A run from a new runner whose queue walk takes a benefit given up: its third claim fails, the scan fails, the pinned target has no stream |
| `Runners.Runner.FourthFailure` | internal/runner/claim.go:41-66 | A run from a new runner in which a benefit meets four failed claims in a row, the fourth after the queue walk took it again |
| `Runners.Runner.PushedClaim` | internal/runner/pubsub.go:135-147 | The same by a claim push in the wait after the third failure: no pick, no queue walk and no scan in between |
| `Runners.Runner.constructor` | internal/runner/runner.go:170-219 | A new runner is idle, without watch, and every invariant holds |
| `RunnerState.OneTry` | internal/runner/claim.go:350-386 | One more attempt at a ready drop, when it may be tried, keeps the attempts restrained and the retry maps right |
| `RunnerState.OnwardTwice` | internal/runner/runner.go:113-122 | What a step keeps of every benefit's history adds up over any number of steps |
| `RunnerState.OverRuns` | internal/runner/claim.go:14-66 | Between any two moments of a run: a benefit given up stays so and skipped unless a sweep, the user or a read that heals it let it go; failures in a row, and the program's count of them, stay unless it is claimed or taken back; whoever met three was given up; the attempts at a ready drop stay until it is taken back |
| `RunnerState.UnclaimedUntilTaken` | internal/runner/claim.go:14-66 | Over any part of a run a benefit given up is not claimed and stays given up until it is taken again (a pinned pick, the queue walk or a claim push) or let go of |
| `RunnerState.ThreeOverRuns` | internal/runner/claim.go:14-66 | Over any part of a run in which a benefit is neither taken again nor let go of, at most three of its claims fail in a row |
| `RunnerState.AtMostThree` | internal/runner/claim.go:14-66 | The failures in a row exceed three by at most the times the benefit was taken again, and by three for each time it was let go of; without a let go they exceed three exactly when one failed while it was given up; a target is given up exactly when it was taken again |
| `RunnerState.MoreThanThree` | internal/runner/claim.go:41-66 | The exact condition at the claim: in a row without a let go that did not begin while the benefit was given up, a failed claim is more than the third if and only if the benefit is given up as it is claimed, that is, was taken again |
| `RunnerState.FailedBooked` | internal/runner/claim.go:51-66 | The program's count, which it drops at the third failure, stays the number of failures since the last third one in a row, and every third gives the benefit up |
| `RunnerState.HealedBooked` | internal/runner/runner.go:855-890 | A read lets go of a benefit given up exactly when it heals it, and keeps the books in agreement |
| `RunnerState.HookedTwice` | internal/runner/pubsub.go:116-164 | What interference may do adds up: twice is no more than once |
| `RunnerState.ReadInWindow` | internal/runner/runner.go:938-948 | What a step reads inside the window is what the gate let through, unless a stream-down push came in between and no claim push set the state since |
| `RunnerState.RowTaken` | internal/runner/watch.go:261-324 | Reading one more row carries the counters on as the poll so far says, or ends the watch as the whole poll does |
| `RunnerState.PollTracks` | internal/runner/watch.go:190-362 | A poll that keeps the watch leads the runner's counters on as its sequence of polls does |
| `RunnerState.TrackedIsShort` | internal/runner/watch.go:190-362 | In a run: a drop watch with no push since it began, over listings with nondecreasing minutes, has had fewer than 15n+15 polls |
| `Pool.NotReplaced` | internal/runner/pool.go:140-148 | A unit that passed its check, or builds, has no replacement under way |
| `Pool.EveryStep` | internal/runner/pool.go:99-164 | Every step of restart, Reload, ReloadAccount and Stop keeps the invariant, in any interleaving |
| `Pool.OneUnitEach` | internal/runner/pool.go:191-212 | In every reachable state at most one unit an account runs, waits to restart or restarts |
| `Pool.LostRaceNeverBuilds` | internal/runner/pool.go:140-148 | In every reachable state a restart that builds has not been replaced |
| `Pool.TrampolineOwner` | internal/runner/pubsub.go:64-114 | Once a replacement runner is built it owns the trampoline; else the running runner does; nobody else, but for runners Stop left |
| `Pool.RetiredStep` | internal/runner/pool.go:303-322 | Every step keeps it so that a runner Stop left belongs to a unit that is done and no longer listed |
| `Pool.RemovalEmpties` | internal/runner/pool.go:264-291 | Removing an account leaves its trampoline wired if and only if, where the removal begins, it forwards to a runner that Stop left; else empty, whatever goes on meanwhile; no unit of the account is left |
| `Pool.RemovalStep` | internal/runner/pubsub.go:64-114 | While an account is removed no other event makes its trampoline forward to a runner that Stop left, or stop doing so |
| `Pool.NothingStranded` | internal/runner/pool.go:264-301 | Without a Stop in the history no runner is left over, so a removal leaves the trampoline empty |
| `Pool.StopLeavesWired` | internal/runner/pool.go:303-322 | The exception is real: a run of events after which a removed account's trampoline still forwards to the stopped runner |
| `Handshake.EveryStep` | cmd/miner/roster.go:591-625 | Every step of saves, builds and games reloads keeps the invariant |
| `Handshake.QuietIsCurrent` | cmd/miner/roster.go:702-732 | With no save, reload or build under way the stored flags are the row's, and out of points-only there is no mark and the runner's games are as new as finished reloads promised |
| `Handshake.StoreStep` | cmd/miner/roster.go:257-268 | A row read before a later save never overwrites its flags for good: the store keeps the invariant |
| `SettingsCache.EveryStep` | cmd/miner/roster.go:753-809 | Every step of readers and savers keeps the invariant |
| `SettingsCache.NeverStale` | cmd/miner/roster.go:757-809 | A call that begins after settingsChanged returned answers with values at least as new as that save, however late an older read stores its own |
| `Collector.Derive` | internal/collect/derive.go:34-61 | One row per queued, blocked and claimed target, in that order, with the state and minutes each list calls for |
| `Collector.DerivedSound` | internal/collect/derive.go:22-61 | Every derived row is blocked, claimed at its requirement, or in the state its minutes call for |
| `Collector.OneRowEach` | internal/collect/derive.go:34-61 | A plan gives each offered benefit exactly one row, so the cache keeps all of them |
| `Collector.ProgressFinal` | internal/collect/collector.go:241-245 | Progress never touches a blocked or claimed row |
| `Collector.Collector.OnScan` | internal/collect/collector.go:84-131 | The cache is replaced exactly when the scan is trusted and the store took all rows, and still agrees with it |
| `Collector.Collector.OnProgress` | internal/collect/collector.go:235-262 | Each moved row changes in store and cache together, or in neither |
| `Collector.Collector.RecordClaim` | internal/collect/collector.go:278-304 | A logged claim sets the row claimed at its requirement when the store takes it; an unlogged one changes nothing |
| `Collector.Collector.ForgetClaim` | internal/collect/collector.go:319-339 | A forgotten claim turns a claimed row claimable and touches no other |
| `Collector.Collector.Replace` | internal/store/drop_states.go:36-54 | All rows of the account swapped, a later row of a benefit winning, or none |
| `Collector.Collector.Forget` | internal/collect/collector.go:349-356 | Only that account's cache goes |
| `Collector.Collector.DeleteAccount` | internal/collect/collector.go:349-350 | Stored rows go with the account; the cache of every other account still agrees |
| `Points.Backoff` | internal/points/refresher.go:109-117 | The wait is min(retry times 2^(n-1), max), and no value on the way exceeds twice the cap (or the first retry) |
| `Points.Refresher.RefreshNow` | internal/points/refresher.go:135-158 | Accepted exactly when the cooldown has passed; then every pair checked in an earlier second is due; else the time left is told |
| `Points.Refresher.StoreRead` | internal/points/refresher.go:233-264 | A good read clears the trouble, an unavailable channel keeps the amount, a failure counts one more than the last in a row |
| `Points.Refresher.Visit` | internal/points/refresher.go:201-219 | A pair is passed over only when it is not due; a pair is never read for a refresh that an earlier read answered |
| `Points.Refresher.Pass` | internal/points/refresher.go:170-222 | Each target is read at most once, every due one is, and after a pass not cut short every target was checked no earlier than the refresh asked for before it |
| `Points.Logged` | internal/points/refresher.go:207 | A forced read of a pair last read in an earlier second keeps the log free of repeated forced reads |
| `Rewards.Needs` | internal/rewards/poller.go:273-292 | A notice only when not notified and not expired; a reminder only after the notice, once, within the window and strictly before expiry; nothing once skipped |
| `Rewards.SendOne` | internal/rewards/poller.go:315-349 | Sending what an unsent mark calls for keeps at most one notice and one reminder a code, in that order |
| `Rewards.Poller.Send` | internal/rewards/poller.go:329-348 | A delivered notification's mark is stored at its time unless the store refuses it, which is taken down; a failed one delays the next try and marks nothing |
| `Rewards.Poller.Skip` | internal/rewards/poller.go:352-359 | The skip is stored, with every other mark of the code and every other code as they were, unless the store refuses; only a code never notified is skipped |
| `Rewards.Poller.Sweep` | internal/rewards/poller.go:293-350 | A sweep sends nothing while it waits, stops at a failed send, and otherwise gives every listed code what it needs; a code skipped before stays skipped and is sent nothing |
| `Rewards.NoticesOnce` | internal/rewards/poller.go:293-297 | Over any history a code none of whose marks was refused gets at most a notice and then a reminder, the reminder in the window before expiry |
| `Rewards.SkippedStaysQuiet` | internal/rewards/poller.go:270-276 | Over any history a skipped code is sent nothing after its skip, and nothing at all unless the store refused a mark of it; a stored one shows its skip for good |
| `Wake.CampaignWaker.OnScan` | internal/runner/wake.go:45-77 | A failed scan changes nothing, an account's first scan opens no window, and each campaign new to the platform is taken down once, for that account, in the open window |
| `Wake.CampaignWaker.Fire` | internal/runner/wake.go:79-92 | The window closes; an account is left out only when it was the sole finder |
| `Wake.FindsSound` | internal/runner/wake.go:57-76 | Taking down new campaigns keeps the invariant: each opens at most one window |
| `Wake.FireSound` | internal/runner/wake.go:80-92 | Firing covers every find of the window |
| `Wake.RescansBounded` | internal/runner/wake.go:10-17 | A platform's rescans never exceed the campaigns it has seen, and no campaign opened two windows |
| `Wake.FindsCovered` | internal/runner/wake.go:28-31 | With no window open, every find was covered by a fire that left out at most its sole finder |
| `Links.Candidates` | internal/runner/link.go:84-106 | Exactly once each, the listed, unclaimed benefits that were refused or that a flagged campaign shows complete |
| `Links.LinkBook.Retry` | internal/runner/link.go:69-154 | Each candidate's claim is tried if and only if by the log no refusal until linked stands or the recheck interval has passed since; nothing else is tried; blocked are exactly those left alone or refused again, which covers all refusals; claims won are candidates; whatever is forgotten meanwhile |
| `Links.LinkBook.TryOne` | internal/runner/link.go:116-152 | The claim is tried exactly when no refusal was listed or it is old enough; the attempt and whether it was refused until linked go into the log; blocked exactly when left alone or refused again |
| `Links.LogOne` | internal/runner/link.go:118 | A retry at least an interval after the standing refusal keeps all retries spaced |
| `Links.LinkBook.TwoScans` | internal/runner/link.go:69-154 | Over two scans: a benefit tried by the first, a candidate of both and untouched in between is tried again by the second if and only if the answer was no refusal until linked or the interval has passed; completed benefits of a flagged campaign are candidates of every scan |
| `Links.LinkBook.TriedAtEveryScan` | internal/runner/link.go:69-154 | The stated pace of once an interval fails: with any time between them, two scans both try a completed benefit of a flagged campaign whose first claim met an error that is no refusal |

## Left out

- Platform clients, HTTP, PubSub transport, stores and encryption: their answers are arbitrary values, writes are atomic and may fail.
- Interleavings inside one hook, between its check and its state change; panic clean-up; builders that panic during a reload.
- Daylight saving jumps and the hash of the date: the zone has a fixed offset and the jitter of each day is any shift in range.
- Runners.Runner.SelfHeal: clears the skips it found in one step, because the source's re-locking per benefit changes only what a sweep refusal landing in between would set again.
- Runners.Runner.Scan: which benefits count as claimed and which are blocked as not linked is arbitrary there, because link retries are modelled on their own in `Links.dfy`; one-click rewards, upcoming starts and OnScan are left out.
- Runners.Runner.BlockNotLinked: that the refusal is kept for later retries is modelled by `Links.LinkBook.Refuse`; the runner has no such field, because link retries are modelled on their own.
- The runs that show exceptions take the answers of the backend that they need as given: they call the parts that the steps are made of, in the order of the steps.
- Runners.Runner.Wait: timers, backoff between errors and idle waits have no length in the model; a wait may end at any time, so nothing is said of scan pace.
- Notifications, log lines, progress milestones, instance IDs, viewer counts and the snapshot's scheduling fields.
- onRewardCode and the raid join itself: raid tasks are modelled as running or not, the dedupe of raid IDs is not.
- Kick's multi-reward sweep and the resolution of swept titles; the inventory sweep appears only through its effect on skips.
- The pool's session order and its rollback by Mine now, snapshots and fan-out of rescans: branching without invariants of their own. The order of units in the roster is not kept.
- Handshake.QuietIsCurrent: assumes builds that read the row, since a build whose row read fails falls back to a captured, possibly older row at the current version.
- Pool.OneUnitEach: assumes that a reload names each account once, as rows of the account table do.
- Account rows that are removed, accounts on their own game list, sessions and the force-watch list cache.
- Points.Refresher.Pass: reads targets in the order given; the grouping by account and the Run loop's ticks are left out.
- Reads of reward codes and their schedule; a read appears as an arbitrary save of a reward.
- Found claims of the inventory, board, minutes counter, scan rows and Twitch game IDs of the collector.
- Case folding is modelled for the ASCII letters.
