# HUD observer: verified model

A Dafny model of the stateful core of the HUD backend and of two pieces of its web client, with proofs about
every run, every input or every reachable state. One module per source component; the proofs about a component
sit in a module beside it.

| files | what they model |
|---|---|
| `HltvSync.dfy`, `HltvDelayBuffer.dfy`, `HltvPipeline.dfy` | the sampled, coasting broadcast clock of one HLTV proxy per game server, the delay buffer in front of the sockets, and the two wired together |
| `HltvHistory.dfy`, `HltvRouting.dfy` | what the service remembers of a server told from the run alone, and where the buffer puts each event and when it lets it go, with every window, threshold and instant written out |
| `HltvLaws.dfy`, `HltvBoundary.dfy`, `HltvAccuracy.dfy` | conservation, order, the two boundary detectors; release instants at a level change; clock accuracy and never early within a level |
| `HltvLateness.dfy` | bounded lateness and tick order within a level |
| `HltvEpochs.dfy`, `HltvOrderly.dfy` | across any number of changes of level: exactly when an event is released early, and posts and replies under which none is |
| `HltvOverdue.dfy`, `HltvTimely.dfy` | across any number of changes of level: exactly when an event is held for a later level's clock, and posts and replies under which every event fires by an instant of its own |
| `HltvSequence.dfy` | the order of levels in the fired log, and exactly when a late post breaks it |
| `HltvFailures.dfy` | runs from the start in which the code releases an event early, holds the new level for most of an hour, or fires two levels out of order |
| `HltvOrdinary.dfy` | a run through three levels that meets every condition of the theorems across changes of level |
| `StatsGuard.dfy`, `StatsGuardLaws.dfy` | circuit breaker, concurrency cap and rate limiter of the public stats routes |
| `ScoreFrames.dfy`, `ScoreTick.dfy`, `ScoreTickLaws.dfy`, `ScoreTickResets.dfy`, `ScoreTickSteady.dfy` | the scoring-tick estimator: stream to timeline, phase lock, award model, resets and the verdict on every score, and completeness on a steady half after any timeline |
| `MatchRecorder.dfy`, `RecorderLaws.dfy`, `RecorderMetadata.dfy` | the match recorder: log and metadata files, restarts, crashes, late settlement, and a match's metadata and end told from what was posted |
| `KillFeed.dfy` | the kill reducer of the web store: streaks, bursts, shutdowns, bounded feeds |
| `ReplayClock.dfy` | the replay page's clock |
| `Pseudonym.dfy` | player tokens: key encoding, minting, the payload walk and back |
| `Wrappers.dfy` | `Option`, and `Map.get` |

An object whose methods update its fields is a `class`. Each method is proved equal to a pure step function of
the abstract state (`View`), per server where the source keeps one map entry per server, with every other
server's state unchanged; the run theorems are about those step functions. A run is a sequence of states and a
sequence of actions, each state being the step function of the one before, so interleavings, driver ticks,
replies that arrive late, restarts and crashes between two file writes are all actions the theorems quantify over.

Conventions. Instants in the HLTV and replay modules are real milliseconds and game ticks real seconds; the guard
and the recorder use whole milliseconds; the estimator uses real seconds. `Date.now()` is a parameter. A string
field holds `""` where the source has `null`, `undefined` or an empty string that it tests for truth. A guarded call
and a clock sample are split at their `await` into two atomic actions. `Math.round(x)` is the floor of x + 1/2.

## Where the code departs from its comments

The model follows the code; these are the places where that matters.

- A same-map reset takes the clock offline, a map change does not: the old map's clock stays online until the
  forced sample answers, so the event that reveals a map change is measured against the map that has ended
  (`OnlyTickResetHoldsNewLevel`), and it fires early (`MapChangeFiresEarly`).
- That the path to the drain does not matter holds once the clock has been snapshotted during the old level.
  Without a snapshot a sample landing after the boundary changes the instants (`PathMattersWithoutSnapshot`).
- Nor does the snapshot always predate the boundary: a post of the old level that stalls past a heartbeat of the new
  one is paired with the new level's clock. The old tail is then stamped with the instant the new level will reach its
  tick, and the whole new level waits behind it (`StalledPostHoldsNewLevel`; exactly when, `DeliveryStampsLateExactlyWhen`
  and `EmissionStampsLateExactlyWhen`).
- A rescue or an eviction at a later boundary can use the basis promoted at an earlier one, which nothing clears; the
  events of the level just ended are then stamped as if they were of the one before it, and fire early. Two runs show it
  with every post on time and every reply of the level it was read from, and `RescueReleasesEarly` says when a reply does
  it:
  - a reply of the third level comes before that level's first post and strands the second level's tail
    (`NextReplyFiresEarly`);
  - the clock was offline for the whole of the second level, so no post of it was paired with a clock
    (`UnpairedLevelFiresEarly`).
- Five more things can release an event of a later level early although every post comes after it happened and every
  reply describes the level it was read from; each is shown by a run from the start, and `EarlyExactlyWhen` says at every
  step of every run, across any number of levels, exactly when an event is stamped or due early:
  - a post of the new level, on time, that jumps to within two minutes of the old level's final tick while the clock is
    offline is taken for the old level's (`MistakenPostFiresEarly`);
  - a post without a tick counts as tick 0 in the buffer and sends the new level's queue to the drain on the old level's
    clock (`TicklessPostFiresEarly`);
  - setting the calibration offset, even to what it is, emits the clock, so the rescue runs against an `activeTime` that
    is not fresh (`RecalibrationFiresEarly`);
  - a failure whose message is empty counts as no error and does the same (`SilentFailureFiresEarly`);
  - a boundary's forced sample joins one already in flight; if that one read the old level, its reply puts the old
    level's clock back online and new events fall due on it (`OldReadingFiresEarly`).
- Levels do not fire in order if the new level's post comes late: an event of the ended level that the new level's own
  time has passed stays queued, and a new event of a lower tick goes ahead of it (`LatePostReordersLevels`; exactly when,
  `ReordersExactlyWhen`).
- The estimator's reset at a new half keeps the time of the last capout, while game time starts over. After a capout late
  in one half the gains of the next are all turned away until its own time is 3 s past that capout's
  (`CapoutMutesNextHalf`; exactly when, `SteadyHalfFollowedExactlyWhen`). The plugin it mirrors clears that time with the
  half (KTPHudObserver.sma:1537).
- In the estimator `slots` counts from the anchor after silent slots have been rolled through, so it is 1 for a tick that
  follows its predecessor by several periods, and the period is then re-measured from the rolled anchor. The
  periodicity theorem therefore counts whole periods between the ticks themselves, at the tolerance of the test.
- An open breaker does not always stay open for its open time: a call admitted before it opened closes it by succeeding
  (`OpenEnds`).
- The breaker's half-open path does not test the concurrency cap. The cap holds nevertheless (`CapHolds`).

## Model

| member | source | states |
|---|---|---|
| HltvSync.HltvSyncService.BroadcastAt | backend/src/handler/hltvSync.ts:340-343 | the live broadcast position exists exactly while the server has an online clock |
| HltvSync.HltvSyncService.TailBasisOf | backend/src/handler/hltvSync.ts:362-364 | the basis of the old tail is the promoted one if any, else the last event's |
| HltvSync.HltvSyncService.IsOldEpoch | backend/src/handler/hltvSync.ts:398-414 | the early-exit straggler test is the conjunction of its four conditions (in figures: `HltvHistory.PostsAreRemembered`) |
| HltvSync.HltvSyncService.Promote | backend/src/handler/hltvSync.ts:370-373 | promotion copies the snapshot when there is one and touches no other server |
| HltvSync.HltvSyncService.Sample | backend/src/handler/hltvSync.ts:505-514 | samples of one server coalesce; an unconfigured server is left alone |
| HltvSync.HltvSyncService.BeginMapChange | backend/src/handler/hltvSync.ts:453-460 | a map change notes the boundary, forgets the high-water mark, promotes and resamples, leaving the clock online (the sample it leaves in flight: `HltvHistory.BoundariesAreSampled`) |
| HltvSync.HltvSyncService.BeginTickReset | backend/src/handler/hltvSync.ts:466-482 | a tick reset notes the boundary, promotes, takes the clock offline, lowers the high-water mark and resamples |
| HltvSync.HltvSyncService.Ingest | backend/src/handler/hltvSync.ts:440-502 | boundary detection does what the step function says for its server and nothing for the others |
| HltvSync.HltvSyncService.Succeed | backend/src/handler/hltvSync.ts:514-550 | a reply is adopted with the instant its sample began and the operator's calibration kept (what that comes to: `HltvHistory.CalibrationIsTheOperators`) |
| HltvSync.HltvSyncService.Fail | backend/src/handler/hltvSync.ts:551-593 | a failure coasts the last good clock within the grace period, else takes it offline, or leaves a placeholder |
| HltvSync.HltvSyncService.Calibrate | backend/src/handler/hltvSync.ts:431-437 | the offset changes on an existing clock only |
| HltvHistory.PostsAreRemembered | backend/src/handler/hltvSync.ts:440-502 | over every run, restated on posts alone: the last boundary is the last post that named another map or fell more than 30 s below the high-water mark while there was one, at its instant and with that mark; the promoted basis is what was paired at the last boundary that had something paired; the last pairing is the clock online at the last ticked post of its level, or naming another map. A post is of the ended level within 120 s of the boundary, more than 30 s past the mark and past an online clock's game time, and within 120 s of the final tick |
| HltvHistory.HighWaterIsTheHighest | backend/src/handler/hltvSync.ts:444-487 | over every run the high-water mark is the highest tick posted since the last boundary, absent exactly when there is none; posts of the ended level do not count |
| HltvHistory.FlightIsTheLatestAsked | backend/src/handler/hltvSync.ts:505-598 | over every run a sample is in flight exactly when one was asked for with none in flight, by the first post, a map change, a tick reset or a heartbeat, and neither reply nor failure has come since; it carries that instant and reason |
| HltvHistory.BoundariesAreSampled | backend/src/handler/hltvSync.ts:442-482 | a server's first post, one that names another map and one that falls back leave a sample in flight, begun at that instant as lazy_init, map_change or tick_reset if none was |
| HltvHistory.CalibrationIsTheOperators | backend/src/handler/hltvSync.ts:431-437 | over every run a clock's calibration is the offset last set while there was a clock, 0 if none was, through replies, failures and boundaries |
| HltvHistory.ClockReadsTheLatestReply | backend/src/handler/hltvSync.ts:514-593 | over every run a clock reads what the latest reply said as of the instant its sample began, or the fixed delay when a first sample failed; its error is that of the latest completion; there is a clock once a sample has completed |
| HltvHistory.ClockIsOnlineExactlyWhen | backend/src/handler/hltvSync.ts:551-570 | over every run a clock is online exactly when a reply has come and neither a tick reset nor a failure for good has followed it: of a map change's own sample, or with the good sample older than the grace period |
| HltvDelayBuffer.InsertAt | backend/src/handler/hltvDelayBuffer.ts:97-99 | the position the backward scan stops at is the one that keeps ticks ascending and equal ticks in arrival order |
| HltvDelayBuffer.InsertInOrder | backend/src/handler/hltvDelayBuffer.ts:97-99 | the scan and splice insert by tick |
| HltvDelayBuffer.SortIsSorted | backend/src/handler/hltvDelayBuffer.ts:119-121 | the drain is sorted by release instant |
| HltvDelayBuffer.SortIsStable | backend/src/handler/hltvDelayBuffer.ts:119-121 | equal release instants keep their order |
| HltvDelayBuffer.StampAll | backend/src/handler/hltvDelayBuffer.ts:113-118 | each drained event is stamped with its own projection off the one basis read (what instant that is: `HltvRouting.PostGoesWhere`) |
| HltvDelayBuffer.SplitStranded | backend/src/handler/hltvDelayBuffer.ts:180-189 | removing in place while scanning partitions the queue, both parts in order |
| HltvDelayBuffer.PopDue | backend/src/handler/hltvDelayBuffer.ts:199-202 | the drain loop fires the longest due prefix, in order |
| HltvDelayBuffer.PopReady | backend/src/handler/hltvDelayBuffer.ts:210-226 | the main loop fires the longest prefix that is due by the clock, or by the fixed delay without one |
| HltvDelayBuffer.HltvDelayBuffer.Drain | backend/src/handler/hltvDelayBuffer.ts:110-122 | events join the server's drain, which stays sorted and has a key exactly while it is not empty |
| HltvDelayBuffer.HltvDelayBuffer.EvictTail | backend/src/handler/hltvDelayBuffer.ts:86-92 | a reset seen at enqueue moves the whole queue to the drain |
| HltvDelayBuffer.HltvDelayBuffer.Append | backend/src/handler/hltvDelayBuffer.ts:94-99 | the event takes its place by tick in its own server's queue |
| HltvDelayBuffer.HltvDelayBuffer.Queue | backend/src/handler/hltvDelayBuffer.ts:71-99 | an event that is no straggler evicts the whole queue first if its last tick is more than a threshold above, and takes its place by tick |
| HltvDelayBuffer.HltvDelayBuffer.Accept | backend/src/handler/hltvDelayBuffer.ts:59-100 | an enqueue drains a straggler, or evicts an old tail and queues, or queues |
| HltvDelayBuffer.HltvDelayBuffer.Rescue | backend/src/handler/hltvDelayBuffer.ts:177-191 | exactly the events more than a threshold above the sampled time move to the drain |
| HltvDelayBuffer.HltvDelayBuffer.FireDueDrain | backend/src/handler/hltvDelayBuffer.ts:199-202 | a server's due drain items fire, and an emptied drain loses its key |
| HltvDelayBuffer.HltvDelayBuffer.FireReadyQueue | backend/src/handler/hltvDelayBuffer.ts:210-226 | a server's ready events fire from the main queue |
| HltvDelayBuffer.HltvDelayBuffer.TickDrains | backend/src/handler/hltvDelayBuffer.ts:196-202 | the first loop of a driver tick serves every server's drain, whatever the order of the servers |
| HltvDelayBuffer.HltvDelayBuffer.TickQueues | backend/src/handler/hltvDelayBuffer.ts:204-227 | the second loop serves every server whose drain is empty, whatever the order |
| HltvDelayBuffer.HltvDelayBuffer.Tick | backend/src/handler/hltvDelayBuffer.ts:193-228 | a driver tick is both phases for every server at one instant |
| HltvRouting.PostGoesWhere | backend/src/handler/hltvDelayBuffer.ts:59-142 | a post of the ended level (120 s after the boundary, 120 s around the final tick, 30 s above the mark and the clock) goes to the drain and the queue stays; one more than 30 s below the last queued tick sends the whole queue to the drain and is queued alone; any other joins the queue. What is drained gets the first instant the boundary's basis, or else the last event's, shows its tick, or its arrival plus the fixed delay without one, and for player_stats_summary, half_end and match_phase, and no other event, the board lag on top |
| HltvRouting.EmissionStrandsExactly | backend/src/handler/hltvDelayBuffer.ts:177-256 | a reply, a failure or a calibration that leaves an online clock without error drains, in order and with those instants, exactly the queued events more than 30 s above its game time; any other such step moves nothing |
| HltvRouting.TickFiresExactly | backend/src/handler/hltvDelayBuffer.ts:193-228 | a driver tick fires the drain up to the first event whose instant has not come and, if that empties it, the queue up to the first that an online clock does not show yet, or without one that has waited less than the fixed delay; each once, in order, and nothing else changes |
| HltvPipeline.Trio.Observe | backend/src/handler/ingest.ts:761-765 | the first half of a POST changes the server's sync state only |
| HltvPipeline.Trio.Buffer | backend/src/handler/ingest.ts:772-773 | the second half numbers the event and puts it in the buffer under the sync state the first half left |
| HltvPipeline.Trio.Post | backend/src/handler/ingest.ts:761-774 | a POST runs detection and then the enqueue as one step for its server |
| HltvPipeline.Trio.BeginSample | backend/src/handler/hltvSync.ts:505-514 | a sample that begins is one step of its server's system |
| HltvPipeline.Trio.OnClock | backend/src/handler/hltvDelayBuffer.ts:249-256 | an emission rescues only when the clock is online and error-free |
| HltvPipeline.Trio.SampleSucceeds | backend/src/handler/hltvSync.ts:514-550 | a reply is adopted and then its rescue runs, as one step |
| HltvPipeline.Trio.SampleFails | backend/src/handler/hltvSync.ts:551-593 | a failure and its emission are one step |
| HltvPipeline.Trio.SetOffset | backend/src/handler/hltvSync.ts:431-437 | a recalibration and its emission are one step |
| HltvPipeline.Trio.Drive | backend/src/handler/hltvDelayBuffer.ts:193-228 | one driver tick is one step of every server's system |
| HltvLaws.RunConserves | backend/src/handler/hltvDelayBuffer.ts:59-228 | over every run, the accepted events are, as a multiset, the main queue, the drain and the fired log together; and what was drained is what the drain holds or has fired |
| HltvLaws.RunKeepsQueue | backend/src/handler/hltvDelayBuffer.ts:76-122 | over every run the queue ascends by tick with arrival order on ties, an earlier arrival is at most 30 s above a later one, every queued tick is at most 30 s above the high-water mark when there is one, the drain is sorted, and no drained event has fired before its instant |
| HltvLaws.RunFiresOldTailFirst | backend/src/handler/hltvDelayBuffer.ts:193-228 | over every run, when the main queue fires an event the drain is empty and everything ever drained has fired before it |
| HltvLaws.DetectorsAgreeOnStragglers | backend/src/handler/hltvSync.ts:398-414 | outside a map change, detection and the enqueue after it give a ticked event the same straggler verdict |
| HltvLaws.StragglerOnlyDrains | backend/src/handler/hltvSync.ts:461-464 | a straggler adds one item to the drain and changes neither the service's state nor the main queue |
| HltvLaws.DetectionSettles | backend/src/handler/hltvSync.ts:461-487 | after detection the high-water mark is at or above any ticked event that is not a straggler, and unmoved by the others |
| HltvLaws.EnqueueBoundsQueue | backend/src/handler/hltvDelayBuffer.ts:71-99 | after an enqueue nothing queued is more than one threshold above the event just queued; a straggler leaves the queue alone |
| HltvLaws.EnqueueKeepsOrder | backend/src/handler/hltvDelayBuffer.ts:86-99 | an enqueue keeps tick order and nearness to arrival order |
| HltvLaws.DeliverKeepsHighWater | backend/src/handler/hltvSync.ts:466-486 | detection and enqueue together keep every queued tick within a threshold of the high-water mark |
| HltvBoundary.DrainInstantIsPathIndependent | backend/src/handler/hltvDelayBuffer.ts:110-142 | at a first same-map boundary every drained event, by reset, rescue or as a straggler, gets the instant projected off the pre-boundary snapshot whatever samples intervene; off a board it is the first instant that clock shows its tick |
| HltvBoundary.PathMattersWithoutSnapshot | backend/src/handler/hltvSync.ts:352-373 | without a snapshot some reply and some next event change the instant an old event would get |
| HltvBoundary.ProjectionIsFirstInstant | backend/src/handler/hltvDelayBuffer.ts:132-142 | the projection is the least instant at which the broadcast formula reaches the tick |
| HltvBoundary.DueFromThenOn | backend/src/handler/hltvDelayBuffer.ts:212-226 | under a fixed clock, or none, a queued event is due from one instant on |
| HltvBoundary.DriverTickReleases | backend/src/handler/hltvDelayBuffer.ts:193-228 | a driver tick leaves nothing due in the drain, and leaves nothing at all once everything held is due |
| HltvBoundary.RescueBoundsQueue | backend/src/handler/hltvDelayBuffer.ts:177-191 | a fresh sample leaves an online clock with its parameters and nothing queued above its time by more than a threshold |
| HltvBoundary.FiredOnceDue | backend/src/handler/hltvDelayBuffer.ts:193-228 | over every run, an accepted event has fired by any driver tick that leaves the drain empty with an online clock at or past its tick |
| HltvBoundary.NothingIsStuck | backend/src/handler/hltvDelayBuffer.ts:177-256 | whatever a fresh sample leaves queued has fired by a driver tick that leaves the drain empty at or after sampledAt + (delay + 30 s + slack) less calibration, through any samples, failures and posts between, if the clock then online is at most the slack behind the one sampled |
| HltvAccuracy.OnlineClockIsAccurate | backend/src/handler/hltvSync.ts:77-80 | through any run of samples, failures and coasts in a level, every online clock is less than a second behind the true broadcast and at most the read lag ahead |
| HltvAccuracy.OnlineClockIsLatestSample | backend/src/handler/hltvSync.ts:514-590 | an online clock always carries the parameters of the latest reply adopted, and the instant that sample began |
| HltvAccuracy.PastGraceIsOffline | backend/src/handler/hltvSync.ts:560-590 | after a failure past the grace period the clock is offline until a sample succeeds |
| HltvAccuracy.NeverEarlyWithinALevel | backend/src/__tests__/helpers/hltvHarness.ts:223-226 | while a level lasts nothing fires before viewers reach its tick, less the read lag, on any path |
| HltvAccuracy.DueWithinASecond | backend/src/handler/hltvDelayBuffer.ts:210-226 | in any state whose online clock is accurate, a queued event falls due no sooner than the read lag before viewers reach it and within a second after |
| HltvAccuracy.OnlyTickResetHoldsNewLevel | backend/src/handler/hltvSync.ts:453-483 | the event revealing a tick reset is held for the full fallback delay; the one revealing a map change is measured on the ended map's clock |
| HltvLateness.FiredOnceShown | backend/src/__tests__/helpers/hltvHarness.ts:226-228 | over every run of a level, through any number of samples and failures, an accepted event has fired by any driver tick at least a second after viewers reach it that leaves the drain empty under an online clock |
| HltvLateness.HeldOnlyBehindNewer | backend/src/__tests__/helpers/hltvHarness.ts:226-228 | over every run of a level, posts late, tickless or misjudged included, an event one hold past its post (the longer of delay + 1 s and the fallback, plus the board lag) has fired by a driver tick or waits behind an event that is not a hold past its own |
| HltvLateness.AllFireOnceQuiet | backend/src/__tests__/helpers/hltvHarness.ts:223 | so one driver tick a hold after the last post leaves no accepted event unfired |
| HltvLateness.RunIsPunctual | backend/src/handler/hltvSync.ts:461-487 | while the posts of a level carry ticks and come in order at most 30 s late, and replies come within 29 s and other emissions strand nothing, no boundary is ever seen and the drain stays empty |
| HltvLateness.FiresInTime | backend/src/__tests__/helpers/hltvHarness.ts:226-228 | on such runs every accepted event has fired by any driver tick at or past its bound: a second after viewers reach it under an online clock, else the fallback delay after the latest its post could come |
| HltvLateness.FiresInTickOrder | backend/src/__tests__/helpers/hltvHarness.ts:232-234 | on such runs, if the proxy delay covers the lateness and the read lag, the fired log ascends by tick, arrival order on ties, over the whole run |
| HltvEpochs.StampedEarlyExactlyWhen | backend/src/handler/hltvDelayBuffer.ts:132-142 | a stamp off a clock of any level is early for an event if and only if there is a basis and it describes no level from the event's own on |
| HltvEpochs.DueEarlyExactlyWhen | backend/src/handler/hltvDelayBuffer.ts:210-226 | a queued event falls due early if and only if the clock is online and describes no level from the event's own on |
| HltvEpochs.DeliveryStampsEarlyExactlyWhen | backend/src/handler/hltvDelayBuffer.ts:59-100 | a delivery stamps an event early if and only if the tail basis is behind the level of the post and the post is judged a straggler, or it is behind the level of some event in a queue that the post evicts |
| HltvEpochs.EmissionStampsEarlyExactlyWhen | backend/src/handler/hltvDelayBuffer.ts:249-256 | an emission stamps an event early if and only if the clock is online without error and the rescue strands an event whose level the tail basis is behind |
| HltvEpochs.EarlyExactlyWhen | backend/src/__tests__/helpers/hltvHarness.ts:224-225 | at every step of every run, whatever the levels of its posts, an event is stamped early if and only if the step has such a cause, and a queued one is due early if and only if the online clock is behind its level |
| HltvEpochs.NeverEarlyWithoutACause | backend/src/__tests__/helpers/hltvHarness.ts:224-225 | over every run in which no step has a cause, nothing of any level has fired, or waits in the drain to fire, before viewers reach it less the read lag |
| HltvEpochs.TicklessPostReleasesEarly | backend/src/handler/hltvDelayBuffer.ts:86-92 | a tickless post that evicts the queue gives each queued event whose level the tail basis is behind a stamp in the drain that is early for it |
| HltvEpochs.RescueReleasesEarly | backend/src/handler/hltvSync.ts:362-364 | a reply that strands a queued event while the promoted basis is behind its level gives it a stamp in the drain that is early for it |
| HltvEpochs.OldReadingReleasesEarly | backend/src/handler/hltvSync.ts:508-514 | a reply that read an earlier level makes each queued event of a later one due early |
| HltvOrderly.MistakenExactlyWhen | backend/src/handler/hltvSync.ts:398-414 | after a boundary, under a clock offline or of the current level, a post of that level is judged a straggler if and only if, within two minutes of it and with the clock offline, it jumps more than 30 s past every tick so far to within 120 s of the ended level's final tick; under a later level's clock, only if it makes that jump |
| HltvOrderly.LongLevelIsSafe | backend/src/handler/hltvSync.ts:398-414 | no post of the current level is so mistaken if the ended level's final tick is more than 240 s above the current level's time when the boundary is seen |
| HltvOrderly.LaterVerdicts | backend/src/handler/hltvSync.ts:461-482 | orderly posts after a boundary are judged stragglers if and only if they are of an earlier level, and those of the current one neither reset nor evict |
| HltvOrderly.NeverEarlyAcrossBoundaries | backend/src/__tests__/helpers/hltvHarness.ts:224-225 | across any number of changes of level on one map nothing of any level fires, or waits in the drain to fire, before viewers reach it less the read lag, and nothing of a level after the first is drained while it is current, under the conditions on posts and replies listed below |
| HltvOverdue.StampedLateExactlyWhen | backend/src/handler/hltvDelayBuffer.ts:132-142 | a stamp off a clock of any level is within a hold of the post, or of the turn from the event's level, unless every level the basis describes is later than the event's and was more than 30 s below its tick at that turn; and then it is late (for events clear of that threshold by a clock's error) |
| HltvOverdue.DeliveryStampsLateExactlyWhen | backend/src/handler/hltvDelayBuffer.ts:59-100 | a delivery stamps an event late if and only if the tail basis is that far ahead of the straggler, or of an event in the queue evicted |
| HltvOverdue.EmissionStampsLateExactlyWhen | backend/src/handler/hltvDelayBuffer.ts:249-256 | an emission stamps an event late if and only if the clock is online without error and the rescue strands an event the tail basis is that far ahead of |
| HltvOverdue.OverdueOnlyBehindNewer | backend/src/handler/hltvDelayBuffer.ts:193-228 | over every run, posts late or misjudged included, in which no step makes an event wait for a later level's clock: what a driver tick leaves held past its time stands behind an event that is not past its own (no bound on that wait; the bound on each event is the row of `FiresInTimeAcrossBoundaries`) |
| HltvOverdue.AllFireAfterTheChanges | backend/src/__tests__/helpers/hltvHarness.ts:223 | so once every post is past its time one driver tick leaves nothing of any level unfired |
| HltvTimely.FiresInTimeAcrossBoundaries | backend/src/__tests__/helpers/hltvHarness.ts:226-228 | across any number of changes of level on one map every accepted event has fired by any driver tick at or past an instant of its own: a hold past the later of the time 30 s after its level reached its tick, while that level lasts, and, once levels have changed, two minutes past the turn to the current one; while the clock is already of a later level, or the first level's tail drains, also 30 s past the turn from the current level; under the conditions listed below |
| HltvSequence.LevelsFireInOrder | backend/src/__tests__/helpers/hltvHarness.ts:229-231 | across any number of changes of level on one map no event fires after one of a later level, unless its own post stalled past that level's first or, where a tail was left queued at a change, the other's post was late enough that its level had passed the earlier event's higher tick; under the conditions listed below |
| HltvSequence.LastingLevelsFireInOrder | backend/src/__tests__/helpers/hltvHarness.ts:229-231 | the same with nothing asked of what a turn finds left of ended levels, when each level but the first lasts until a driver tick past the instants of everything accepted of the levels before it |
| HltvSequence.LastingLevelsFireInTime | backend/src/__tests__/helpers/hltvHarness.ts:226-228 | and on such runs every accepted event has fired by any driver tick at or past its instant |
| HltvSequence.ReordersExactlyWhen | backend/src/handler/hltvDelayBuffer.ts:94-99 | of two queued events, the later-posted one goes ahead of the other if and only if its tick is lower |
| HltvOrdinary.OrdinaryRun | backend/src/__tests__/helpers/hltvHarness.ts:218-234 | a run from the start through two changes of level meets every condition of the theorems above at every step, and all its events have fired |
| HltvFailures.MistakenPostFiresEarly | backend/src/handler/hltvSync.ts:398-414 | a run from the start: the forced sample lost, a new post on time 55 s after the boundary fires a minute early |
| HltvFailures.TicklessPostFiresEarly | backend/src/handler/hltvDelayBuffer.ts:86-92 | a run from the start: a post without a tick makes a queued new event fire early |
| HltvFailures.RecalibrationFiresEarly | backend/src/handler/hltvSync.ts:431-437 | a run from the start: setting the calibration to what it is makes a queued new event fire early |
| HltvFailures.SilentFailureFiresEarly | backend/src/handler/hltvSync.ts:567-590 | a run from the start: a failed sample with an empty message makes a queued new event fire early |
| HltvFailures.OldReadingFiresEarly | backend/src/handler/hltvSync.ts:508-514 | a run from the start: the forced sample joins one that read the old level, and the first new event fires early |
| HltvFailures.MapChangeFiresEarly | backend/src/handler/hltvSync.ts:453-460 | a run from the start: the event that reveals a map change fires early on the ended map's clock |
| HltvFailures.NextReplyFiresEarly | backend/src/handler/hltvSync.ts:362-364 | a run from the start with every post on time: at the second change of level a reply of the third comes before its first post, and an event of the second fires a minute early |
| HltvFailures.UnpairedLevelFiresEarly | backend/src/handler/hltvSync.ts:370-373 | a run from the start: the clock is offline for the whole second level, and at the next change an event of it fires a minute early |
| HltvFailures.StalledPostHoldsNewLevel | backend/src/handler/hltvSync.ts:488-500 | a run from the start with every sample answered: an old post 25 s late, after a heartbeat of the new level, holds the first new event 49 minutes past the instant viewers reach it |
| HltvFailures.LatePostReordersLevels | backend/src/handler/hltvDelayBuffer.ts:94-99 | a run from the start: a new level's post 11 s late fires ahead of an event of the ended level posted before it |
| StatsGuard.StatsGuard.ReadState | backend/src/statsdb/guard.ts:72-80 | reading the state turns an expired open breaker half-open with no probe out |
| StatsGuard.StatsGuard.Begin | backend/src/statsdb/guard.ts:129-146 | the half of a call before its await: admitted or shed, and the breaker's whole new state |
| StatsGuard.StatsGuard.Settle | backend/src/statsdb/guard.ts:147-179 | the half after: success, slow success or failure, and the breaker's whole new state (what counts as which: `StatsGuardLaws.CompletionDecides`) |
| StatsGuard.StatsGuard.Prune | backend/src/statsdb/guard.ts:103-105 | exactly the expired windows go |
| StatsGuard.StatsGuard.Allow | backend/src/statsdb/guard.ts:87-101 | the verdict and the whole table after one request |
| StatsGuardLaws.CapHolds | backend/src/statsdb/guard.ts:129-179 | in every interleaving the calls in flight are counted exactly and never exceed the cap; an open or probe-less half-open breaker leaves room; failures stay below the threshold |
| StatsGuardLaws.OpeningIsACompletion | backend/src/statsdb/guard.ts:169-179 | the breaker opens only as an unsuccessful call completes, and each opening is counted once |
| StatsGuardLaws.TripsAreOpenings | backend/src/statsdb/guard.ts:57-70 | over every run the trips are the openings, and a guard starts closed with nothing counted |
| StatsGuardLaws.HalfOpenEndsWithACompletion | backend/src/statsdb/guard.ts:164-179 | half-open ends exactly when some call completes |
| StatsGuardLaws.OneProbePerEpisode | backend/src/statsdb/guard.ts:134-143 | between two admitted probes some call completes |
| StatsGuardLaws.OpenEnds | backend/src/statsdb/guard.ts:72-80 | an open breaker ends exactly when it is read after the open time, or when a call admitted earlier succeeds |
| StatsGuardLaws.OpenSheds | backend/src/statsdb/guard.ts:129-132 | over any run, until a completion or the open time's end an open breaker stays as it is and sheds every call |
| StatsGuardLaws.FailuresAreConsecutive | backend/src/statsdb/guard.ts:164-179 | over every run the failure count is backed by that many unsuccessful completions with no success among them |
| StatsGuardLaws.TripsAtTheThreshold | backend/src/statsdb/guard.ts:169-179 | a closed breaker trips only on as many unsuccessful completions in a row as the threshold |
| StatsGuardLaws.RowOfFailuresTrips | backend/src/statsdb/guard.ts:147-179 | from a closed breaker, over any run of steps in which every call that completes threw or took at least the slow limit: while they are fewer than are missing to the threshold it stays closed and counts them; the one that makes it up opens it at that instant, with one trip more |
| StatsGuardLaws.CompletionDecides | backend/src/statsdb/guard.ts:147-179 | a completion that did not throw and took less than the slow limit closes the breaker and clears the count; one that threw or took as long opens a half-open breaker, and restarts an open one's time when it makes up the threshold; the call leaves, and a probe's place with it |
| StatsGuardLaws.AdmittedExactlyWhen | backend/src/statsdb/guard.ts:129-146 | a call is let in by a closed breaker below the cap, or as the probe by a half-open or expired one with none out, and is remembered with its instant; whatever is shed changes nothing |
| StatsGuardLaws.PruningIsInvisible | backend/src/statsdb/guard.ts:87-105 | for every request sequence pruning changes no verdict |
| StatsGuardLaws.TableStaysSmall | backend/src/statsdb/guard.ts:92-105 | over every request sequence the table holds at most 5000 keys, or only windows still running when the latest one opened |
| StatsGuardLaws.OnlyPrunesAbove | backend/src/statsdb/guard.ts:92-105 | nothing is forgotten before the table would hold more than 5000 |
| StatsGuardLaws.AdmissionsAreSpaced | backend/src/statsdb/guard.ts:87-101 | for every key and request sequence, admissions twice the limit apart are more than a window apart |
| StatsGuardLaws.TwiceTheLimit | backend/src/statsdb/guard.ts:82-101 | any closed interval of a window's length admits at most twice the limit per key |
| StatsGuardLaws.RefusedOnlyWhenFull | backend/src/statsdb/guard.ts:87-101 | a request is refused only when the limit has been admitted for its key less than a window before |
| ScoreFrames.FrameBuilder.CountHeld | backend/src/invariants/scoreTick.ts:222-229 | the loop counts the flags a side holds away from their default owner |
| ScoreFrames.FrameBuilder.ClosePending | backend/src/invariants/scoreTick.ts:231-244 | the open frame joins the timeline once |
| ScoreFrames.FrameBuilder.EnterHalf | backend/src/invariants/scoreTick.ts:250-255 | a new half closes the frame and forgets ownership and captures |
| ScoreFrames.FrameBuilder.InitFlags | backend/src/invariants/scoreTick.ts:257-264 | initial owners are recorded, the last report of a flag winning |
| ScoreFrames.FrameBuilder.NoteCapture | backend/src/invariants/scoreTick.ts:266-283 | a capture enters the timeline with the ownership in force before it |
| ScoreFrames.FrameBuilder.NoteScore | backend/src/invariants/scoreTick.ts:285-312 | a score message joins the open frame or opens one |
| ScoreFrames.FrameBuilder.Feed | backend/src/invariants/scoreTick.ts:246-313 | one stream event's whole effect |
| ScoreFrames.MarkNearCaps | backend/src/invariants/scoreTick.ts:328-333 | a frame is marked exactly when some capture of its half lies within the window on either side |
| ScoreFrames.BuildFrames | backend/src/invariants/scoreTick.ts:206-336 | the whole stream becomes the specified timeline |
| ScoreFrames.OwnershipIsTold | backend/src/invariants/scoreTick.ts:250-283 | a flag's holder is the one its latest report since the half began names |
| ScoreFrames.HeldIsTold | backend/src/invariants/scoreTick.ts:222-229 | a flag counts for a side exactly when it was last reported to hold it and its default owner is known and another |
| ScoreFrames.LatestCaptureIsTold | backend/src/invariants/scoreTick.ts:250-268 | the capture a score is compared with is the latest timed one since the half began |
| ScoreFrames.CaptureCarriesCounts | backend/src/invariants/scoreTick.ts:266-283 | a timed capture enters the timeline behind the open frame with the counts before it |
| ScoreFrames.ScoreCarriesCounts | backend/src/invariants/scoreTick.ts:285-312 | a score at another millisecond than the open frame closes it and opens its own with the counts of that moment, marked if it is at most 0.3 s after the latest capture |
| ScoreFrames.MarkedExactlyWhen | backend/src/invariants/scoreTick.ts:318-333 | in the finished timeline a frame is marked if it was, or if a capture of its half lies from 0.3 s before it to 0.8 s after it, and nothing else changes |
| ScoreFrames.TimelineIsChronological | backend/src/invariants/scoreTick.ts:316 | for every stream the timeline is in order of half and game time, captures before frames |
| ScoreFrames.FrameIsItsPeak | backend/src/invariants/scoreTick.ts:181-190 | any run of one frame's messages has the effect of one message with each team's greatest score |
| ScoreFrames.RecordingOrderIsInvisible | backend/src/invariants/scoreTick.ts:181-190 | streams that differ only in the order or repetition of one frame's messages give the same timeline and the same analysis |
| ScoreFrames.StaleMessageIsAbsorbed | backend/src/invariants/scoreTick.ts:181-190 | a lower score recorded late within its frame changes nothing |
| ScoreTick.Estimator.RollTo | backend/src/invariants/scoreTick.ts:394-408 | the roll loop computes the specified phase |
| ScoreTick.Estimator.LearnFrom | backend/src/invariants/scoreTick.ts:410-438 | one clean tick's effect on the award model |
| ScoreTick.Estimator.OnPhase | backend/src/invariants/scoreTick.ts:493-516 | a locked estimator confirms or rejects a frame |
| ScoreTick.Estimator.Seek | backend/src/invariants/scoreTick.ts:518-552 | an unlocked estimator pairs a frame with its candidate or makes it the candidate |
| ScoreTick.Estimator.JudgeFrame | backend/src/invariants/scoreTick.ts:483-552 | grid self-check, grid test, then confirmation or bootstrap |
| ScoreTick.Estimator.FeedFrame | backend/src/invariants/scoreTick.ts:462-552 | a score frame's whole effect, with the rejections in the source's order (what each verdict comes to: `ScoreTickResets.VerdictIsTold` and `ResetForgets`) |
| ScoreTick.Estimator.Feed | backend/src/invariants/scoreTick.ts:440-553 | a timeline entry's whole effect |
| ScoreTick.AnalyzeScoreTicks | backend/src/invariants/scoreTick.ts:346-560 | the loop over the timeline returns the specified result; a failed model reports no weight |
| ScoreTick.FailedModelHasNoWeight | backend/src/invariants/scoreTick.ts:410-438 | on every timeline a failed model holds no weight |
| ScoreTickLaws.RollEndsSoon | backend/src/invariants/scoreTick.ts:394-408 | for any input rolling ends within nine iterations and leaves the entry at most a period and 0.75 s past the anchor, or no lock |
| ScoreTickLaws.RollKeepsPhase | backend/src/invariants/scoreTick.ts:394-408 | rolling keeps the anchor a whole number of periods past the last confirmed tick |
| ScoreTickLaws.LockIsPeriodic | backend/src/invariants/scoreTick.ts:382-552 | on every timeline a lock has a positive period, no candidate, fewer than 2 strikes and at most 8 blind rolls; consecutive ticks of a lock are n >= 1 periods apart within 0.25 s, n <= 9 while the period exceeds 1.5 s |
| ScoreTickLaws.WeightIsTheOneThatFits | backend/src/invariants/scoreTick.ts:410-438 | given default owners, on every timeline the weight is known exactly when one weight in 1..8 and no other explains every clean tick since the last full reset, the model has failed exactly when none does, and the streak counts those ticks |
| ScoreTickLaws.ProjectionMatchesTicks | backend/src/invariants/scoreTick.ts:562-566 | the award projected by a known weight is what each of those ticks paid either team |
| ScoreTickResets.TimelineIsRemembered | backend/src/invariants/scoreTick.ts:440-481 | on every timeline, told from its entries: the half and time of the last entry, the scores last seen since a reset, the game time of the latest capout, and how many ticks had been confirmed at the latest reset, which is an entry of another half, one more than a second earlier, or a score that falls |
| ScoreTickResets.ResetForgets | backend/src/invariants/scoreTick.ts:386-391 | such an entry leaves no weight, no violated model, streak 0, no lock, no candidate and a fresh grid test, and confirms nothing; after a falling score the next one only seeds |
| ScoreTickResets.WeightSinceReset | backend/src/invariants/scoreTick.ts:410-438 | given default owners, on every timeline the weight is known exactly when one weight in 1..8 and no other pays every clean tick confirmed since the latest reset of the timeline |
| ScoreTickResets.ProjectedExactlyWhen | backend/src/invariants/scoreTick.ts:562-566 | an award is projected exactly while there is such a weight, and is that weight for every point held |
| ScoreTickResets.NoOwnersNoModel | backend/src/invariants/scoreTick.ts:410-412 | without the default owners no weight is learned and no mismatch noted |
| ScoreTickResets.MismatchesAreNoted | backend/src/invariants/scoreTick.ts:413-421 | an entry notes a mismatch exactly when it violates a model that was not, of an award it confirms; resets forget none; the grid test is noted as off once twelve first judged scores miss it |
| ScoreTickResets.VerdictIsTold | backend/src/invariants/scoreTick.ts:470-481 | a score that neither comes first nor resets is turned away for no gain, for 20 points or more, which drops lock and candidate, or within 3 s after the latest capout, in that order, and is judged otherwise |
| ScoreTickResets.JudgementIsTold | backend/src/invariants/scoreTick.ts:483-552 | a judged gain is turned away more than 0.06 s off every half second while that test is on; a lock confirms it within 0.25 s of some whole number of periods past the last tick; without one it pairs with a candidate 20 to 45 s before it or becomes the candidate, unless contaminated (a period above half a second) |
| ScoreTickResets.RollExactly | backend/src/invariants/scoreTick.ts:394-408 | rolling a lock passes over exactly the slots 0.75 s past by then: eight at most since the last tick, and one at most with something held, else nothing is left of the lock |
| ScoreTickSteady.RollPasses | backend/src/invariants/scoreTick.ts:394-408 | rolling to a frame passes over exactly the silent slots before it, keeping the lock |
| ScoreTickSteady.SteadyHalfFollowedExactlyWhen | backend/src/invariants/scoreTick.ts:440-553 | after any timeline, take a half entered by a full reset whose ticks fall on the half-second grid, the first two 20 to 45 s apart and each later one within 0.25 s of one period of at least 20 s past the slots before it that stayed silent, at most eight of them and looked back over with nothing held (or, not twice running, one slot with something held), with captures, repeated scores and off-grid gains between: every tick of it is confirmed with its gain, under one lock, and nothing else in it is turned away than the repeated and the off-grid, if and only if its first gain comes at least 3 s of game time after the last capout of any half before |
| ScoreTickSteady.SteadyHalfTeachesItsWeight | backend/src/invariants/scoreTick.ts:410-438 | if every tick of such a half that is clear of captures gains one weight in 1..8 per point held, that weight is learned, backed by every clean tick of the half |
| ScoreTickSteady.CapoutMutesNextHalf | backend/src/invariants/scoreTick.ts:386-391 | a half that ends in a capout at 1010 s, then a steady one with two ticks in its first minute: nothing of it is confirmed and no lock is found |
| MatchRecorder.MatchRecorder.constructor | backend/src/handler/matchRecorder.ts:45-49 | start-up scans the files and writes nothing |
| MatchRecorder.MatchRecorder.RehydrateActiveMatches | backend/src/handler/matchRecorder.ts:62-101 | exactly the stored matches without an end become active, each counted from its log |
| MatchRecorder.MatchRecorder.GetCompletedMetadata | backend/src/handler/matchRecorder.ts:297-319 | a lookup's memory, writes and answer |
| MatchRecorder.MatchRecorder.Create | backend/src/handler/matchRecorder.ts:141-166 | a new match's files and memory, its writes in order |
| MatchRecorder.MatchRecorder.StartActive | backend/src/handler/matchRecorder.ts:107-131 | a start for an active match is refused, repairs a placeholder, or is ignored |
| MatchRecorder.MatchRecorder.Start | backend/src/handler/matchRecorder.ts:106-167 | a start's memory, writes and answer |
| MatchRecorder.MatchRecorder.AppendLine | backend/src/handler/matchRecorder.ts:199-222 | an append's line, count and metadata flush |
| MatchRecorder.MatchRecorder.Record | backend/src/handler/matchRecorder.ts:177-223 | recording an event: lookup, automatic start, ownership, settlement, append |
| MatchRecorder.MatchRecorder.End | backend/src/handler/matchRecorder.ts:228-241 | ending a match stores its end and drops it from the active set |
| MatchRecorder.MatchRecorder.Post | backend/src/handler/ingest.ts:713-751 | the recorder's part of a POST, write for write, and whether it is refused (what it comes to: `RecorderMetadata.PostTells`) |
| MatchRecorder.MatchRecorder.ReapStaleMatches | backend/src/handler/matchRecorder.ts:251-264 | exactly the active matches idle for longer than the limit are ended, in memory and on disk, and nothing else changes |
| MatchRecorder.EndOneMore | backend/src/handler/matchRecorder.ts:251-264 | a reaper sweep is one end of a match after another, in any order |
| RecorderLaws.MemoryMirrorsDisk | backend/src/handler/matchRecorder.ts:62-101 | after every step of every run, restarts and crashes between any two writes included, the active set, the metadata and the counts in memory are those the stored files imply |
| RecorderLaws.LogsAreSealed | backend/src/handler/matchRecorder.ts:106-264 | between any two moments of a run a log only grows at its end, every line is its own server's, a match's server never changes, and a completed match is never active again, keeps its end and gains only final rows within 30 s, and no stored count runs ahead of its log |
| RecorderLaws.CrashTearsNothing | backend/src/handler/matchRecorder.ts:133-222 | a crash after any number of a POST's writes leaves good files, other matches untouched, and the log as it was or longer by that event |
| RecorderLaws.RestartRebuilds | backend/src/handler/matchRecorder.ts:62-101 | from any good files the start-up scan rebuilds what they imply |
| RecorderLaws.FirstLookUpRepairsCount | backend/src/handler/matchRecorder.ts:297-319 | the first lookup of a completed match leaves its count equal to its log's length, in memory and on disk, and changes nothing else in its files |
| RecorderLaws.IngestIsSound | backend/src/handler/ingest.ts:713-751 | a POST touches its own match only and appends exactly the event it accepts, as the last line |
| RecorderLaws.AcceptedExactlyWhen | backend/src/handler/matchRecorder.ts:106-342 | a POST is accepted if and only if its match's files allow it: a start for a new match or from the owner of an open one short of a map conflict, an event for a new match, from the owner of an open one, or a final row from the owner within 30 s of the end, a transient row never after completion |
| RecorderLaws.StartRule | backend/src/handler/matchRecorder.ts:106-167 | a start is taken exactly when the files allow it, and then the match is active and its sender owns it |
| RecorderLaws.RecordRule | backend/src/handler/matchRecorder.ts:177-223 | an event is recorded exactly when the files allow it |
| RecorderLaws.RecordEndsActive | backend/src/handler/matchRecorder.ts:329-342 | an event that is no final row is recorded only for a match that is active |
| RecorderLaws.DiskDecides | backend/src/handler/matchRecorder.ts:177-319 | a POST's answer and its file writes are determined by the stored files: memory is only a cache |
| RecorderLaws.RestartKeepsIdleTime | backend/src/handler/matchRecorder.ts:82-92 | a restart keeps an active match's idle time exactly while its log exists; without one it starts over |
| RecorderLaws.RestartsAreInvisible | backend/src/handler/matchRecorder.ts:51-61 | a crash-free run and the same run without its restarts write the same files and answer every POST alike |
| RecorderLaws.CrashLogs | backend/src/handler/matchRecorder.ts:199-222 | a POST cut short by a crash has stored its line if and only if its append was among the writes done, and no other |
| RecorderLaws.LogIsWhatWasAccepted | backend/src/handler/matchRecorder.ts:177-223 | over every run, restarts, reaping and crashes included, a match's log is what it was at the start followed by exactly the events accepted for it, in order, a POST cut short counting if its append was done |
| RecorderMetadata.PostTells | backend/src/handler/matchRecorder.ts:106-241 | what every POST makes of its match's metadata, told from the event: refused or transient nothing; else a new match is opened with the start's map, type and half or with the event's map alone, a start with a half fills in one opened without, the count goes up by one, and a ktp_match_end gives it its instant as the end, stores the count, and leaves the match inactive |
| RecorderMetadata.AcceptedEndEnds | backend/src/handler/ingest.ts:748-750 | an accepted ktp_match_end leaves the stored metadata with its instant as the end and the log's length as the count, and the match inactive |
| RecorderMetadata.EndIsTold | backend/src/handler/matchRecorder.ts:228-264 | over every run, restarts and crashes included, a match's end is the one it started with or that of the accepted match end or reap that took it; it has one exactly when some step gave it one, never two; and it is active exactly while it is stored without one |
| RecorderMetadata.CrashEnds | backend/src/handler/matchRecorder.ts:228-241 | a match end cut short by a crash ends its match exactly when all its writes were done |
| RecorderMetadata.CountIsStored | backend/src/handler/matchRecorder.ts:199-222 | the stored count is brought up to date by every hundredth event, by a match end and by every row of a completed match, and by no other event of an open match but a start |
| RecorderMetadata.LateRowsExactlyWhen | backend/src/handler/matchRecorder.ts:329-342 | a completed match takes a POST if and only if it is from its own server, from its end to 30000 ms after it, and an official final team score or the match-end summary |
| KillFeed.StoreTracksHistory | web/src/components/core/Socket/Socket.jsx:538-617 | over every run and for every player: the streak is the normal kills since the last death or round start; the open run is the longest death-free run with gaps of at most 5 s ending at the latest kill; the chain is a burst of two or more that none beats in kills and then span, and is absent exactly when there is none; the shutdowns are the streaks of three or more ended, with the longest |
| KillFeed.RunStepKill | web/src/components/core/Socket/Socket.jsx:580-584 | the run held after a new kill is the longest burst that ends at it, counted and timed |
| KillFeed.BestStepKill | web/src/components/core/Socket/Socket.jsx:586-593 | comparing only the open run with the stored best keeps the best of all bursts |
| KillFeed.FeedsAreSuffixes | web/src/components/core/Socket/Socket.jsx:597-614 | the on-air feed is the last 6 and the scrollback the last 150 entries made since the reset, the first a suffix of the second, ids ascending |
| KillFeed.EntryRecordsStreaks | web/src/components/core/Socket/Socket.jsx:599-605 | an entry carries its kill, the killer's streak after it, the streak the victim lost by it, the number of kills so far as its id, and the instant it was taken in |
| ReplayClock.FindMap | web/src/components/core/Replay/Replay.jsx:184-187 | the search finds the newest map within half a minute in offset |
| ReplayClock.ReplayTimes | web/src/components/core/Replay/Replay.jsx:175-204 | the loop computes the specified instants |
| ReplayClock.FillLeading | web/src/components/core/Replay/Replay.jsx:202-203 | rows before the first reading take that reading, or 0 when there is none |
| ReplayClock.LeadingRows | web/src/components/core/Replay/Replay.jsx:202-203 | until the first wall stamp every row takes that stamp's instant, and a recording without one reads 0 |
| ReplayClock.ReplayNeverRunsBack | web/src/components/core/Replay/Replay.jsx:175-204 | for any rows there is one instant per row and they never decrease |
| ReplayClock.MapsStayApart | web/src/components/core/Replay/Replay.jsx:184-191 | map offsets stay pairwise at least 30 s apart |
| ReplayClock.RowIsPlaced | web/src/components/core/Replay/Replay.jsx:179-199 | a row within 30000 ms of no map opens one at its wall stamp or where the clock is, whichever is later; one of the newest map takes the clock to the furthest tick's place; one of an earlier map only changes nothing; a wall stamp alone takes the clock no further than itself |
| ReplayClock.LateRowsAreHeld | web/src/components/core/Replay/Replay.jsx:162-171 | a row of an earlier map changes nothing and reads the instant before it |
| ReplayClock.ClockFollowsTheNewestMap | web/src/components/core/Replay/Replay.jsx:188-196 | with both stamps on every row the clock reads exactly where the newest map has got to |
| ReplayClock.PacedWithinAMap | web/src/components/core/Replay/Replay.jsx:162-171 | two rows with no new map between them are as far apart as the ticks reached |
| ReplayClock.OneMapPlaysByTicks | web/src/components/core/Replay/Replay.jsx:162-171 | in a recording of one map each row comes 1000 ms per tick-second of the furthest tick so far after the first wall stamp |
| ReplayClock.OneMapOnlyThen | web/src/components/core/Replay/Replay.jsx:184-191 | a fully stamped recording is one map exactly while every offset is within half a minute of the first |
| Pseudonym.KeyInjective | backend/src/handler/pseudonym.ts:72-83 | no two (scope, id) pairs share a derivation key, whatever characters they hold |
| Pseudonym.InjectiveHashNeverCollides | backend/src/handler/pseudonym.ts:117-132 | with an injective hash two ids share a token exactly when scope and id agree |
| Pseudonym.Pseudonyms.MintPlayerId | backend/src/handler/pseudonym.ts:117-132 | minting returns the pair's one token, keeps both tables consistent and forgets nothing |
| Pseudonym.Pseudonyms.Walk | backend/src/handler/pseudonym.ts:172-191 | the copy has a token at every id position and is otherwise the payload; tokens are minted for exactly its ids |
| Pseudonym.Pseudonyms.WalkField | backend/src/handler/pseudonym.ts:181-189 | a field is rewritten by its name and the type of its value |
| Pseudonym.Pseudonyms.WalkIds | backend/src/handler/pseudonym.ts:184-185 | of an id array only the strings are rewritten |
| Pseudonym.OnlyImages | backend/src/handler/pseudonym.ts:160-191 | every string left at an id position is the token of an id that was there |
| Pseudonym.FieldsByName | backend/src/handler/pseudonym.ts:172-191 | by name: user_id, killer_id, victim_id, attacker_id, breaker_id and steam_id are rewritten when they hold a string, assist_ids, captor_ids and contester_ids item by item when they hold an array, and under any other name only what is nested |
| Pseudonym.TokenIsKeyed | backend/src/handler/pseudonym.ts:72-132 | a token is p_ and the hash of the scope's length in decimal, a colon, the scope and the id; the empty id stands for itself |
| Pseudonym.RoundTrip | backend/src/handler/pseudonym.ts:143-191 | resolving the id positions of a pseudonymized payload gives back the payload, for every nested value whose tokens resolve |
| Pseudonym.Pseudonyms.ResolvesUnlessCollision | backend/src/handler/pseudonym.ts:129-145 | after any mints every token resolves to its own id if and only if no two ids share a token |
| Pseudonym.Pseudonyms.StillResolves | backend/src/handler/pseudonym.ts:134-145 | without a collision a payload published at any earlier time still resolves to itself |
| Pseudonym.RekeyByToken | backend/src/handler/pseudonym.ts:208-219 | the reply has a row for exactly the tokens whose id has one, the last such pair deciding, and no row's own id column holds anything but its token |

## Left out

- UDP RCON, the recording-state query, status text parsing, HTTP, sockets, MySQL and timers: a sample is a reply or a failure, and the driver, heartbeat, reaper and clock are actions with an instant.
- Servers not configured for HLTV sync: their events go to the sockets at once and never reach the trio.
- The match id and the raw payload a buffered event carries to the fire callback: passed through unread.
- The stats guard's TTL cache, its counters other than trips, and its reset seam: a map with an age test and an eviction bound.
- JSON text, file encodings and partially written or corrupted files: a file write is atomic, a file parses, and only the recorder writes it.
- Timestamps as strings: an end is an instant, so the recorder's test for an unparsable end is not modelled.
- Posts without a match id: they never reach the recorder.
- HltvOrderly.NeverEarlyAcrossBoundaries: all levels are of one map; every post has a tick and comes no earlier than it happened and not before the posts already in. A level's first post is more than 30 s below the highest tick so far, the highest tick queued is as far above it or no higher than the new level's time, and, if the level before followed another, some post of that one was paired with a clock of it or a later one. Later posts of the current level are at most 30 s late and not mistakable as `MistakenExactlyWhen` says; late posts of an earlier one are not its first, and come within two minutes of the boundary, within 120 s of the ended level's final tick and more than 30 s and the read lag above the current level's time. Replies describe the current level, and come before a queued post of it is 29 s past the reading, or a later one, and then strand nothing of the current level unless that is the first. A failure with an empty message and a setting of the calibration, to zero, come only with nothing of a later level than the first stranded. Runs from the start show these necessary: one map (`MapChangeFiresEarly`), ticks (`TicklessPostFiresEarly`), posts not mistakable (`MistakenPostFiresEarly`), the pairing (`UnpairedLevelFiresEarly`), replies not of an ended level (`OldReadingFiresEarly`), a later level's reply stranding nothing (`NextReplyFiresEarly`), and the two on emissions (`SilentFailureFiresEarly`, `RecalibrationFiresEarly`). The others (order of arrival, the 30 s, the bounds on first and late posts, the 29 s, a calibration other than zero) are sufficient, not shown necessary; where they fail `EarlyExactlyWhen` still says exactly when an event is early.
- HltvTimely.FiresInTimeAcrossBoundaries: besides those conditions, no post of the current level comes under a clock of a later one, some post has been paired with a clock before each change, late posts are of the level before the current one, and when a later level first shows nothing queued is of a level before the current one (`LastingLevelsFireInTime` gets that from how long the levels last); the turn from a level is no earlier than the next one's first post and any reading of a later one adopted before it. Otherwise the code can hold the new level for as long as the old one lasted (`StalledPostHoldsNewLevel`).
- HltvSequence.LevelsFireInOrder: the conditions of `NeverEarlyAcrossBoundaries`, and each change finds nothing held of a level before the one it ends (`LastingLevelsFireInOrder` gets that from how long the levels last). Within a level the order is that of `FiresInTickOrder`.
- HltvEpochs.EarlyExactlyWhen: the levels are apart by a second, the read lag and the board lag, the calibration is zero, and posts come no earlier than they happened; a post without a tick has no instant to be early for.
- HltvOverdue.DeliveryStampsLateExactlyWhen: exact for events that a clock's error does not put on either side of the threshold; the bound itself needs no such margin.
- HltvLateness.FiresInTime: one level, ticked posts at most 30 s late in order of arrival, replies adopted within 29 s of their reading, and no recalibration or silent failure that strands anything; `HeldOnlyBehindNewer` and `FiresInTimeAcrossBoundaries` cover the rest.
- HltvLateness.FiresInTickOrder: the same, because a later post can be below what has fired.
- RecorderLaws.RestartsAreInvisible: assumes crash-free runs from files in which every open match has its log, because a crash between a new match's metadata and its log leaves a match whose idle time restarts with the process.
- StatsGuardLaws.CapHolds: assumes a cap of at least 0; the failure bound needs a threshold of at least 1, as the defaults have.
- HltvBoundary.DrainInstantIsPathIndependent: covers the first same-map boundary of a server, because at a second one a rescue before detection still uses the first boundary's promoted basis (`NextReplyFiresEarly`).
- HltvAccuracy.OnlineClockIsAccurate: assumes no calibration, one delay and one level, because otherwise there is no single truth to be near; `HltvEpochs` takes any number of levels.
- ScoreTickSteady.SteadyHalfTeachesItsWeight: one direction, because gains after the window can still teach the weight of a half whose first were turned away.
- ScoreTickSteady.SteadyHalfFollowedExactlyWhen: the half is entered by a full reset, since without one the lock of the half before stays in force.
- ScoreTickResets.JudgementIsTold: for periods above half a second, below which two whole numbers of periods can both be within the tolerance; a lock starts at 20 s.
- ScoreFrames.TimelineIsChronological: takes the source's sort to be stable on entries its comparison does not separate; the comparison never reports two entries equal, so two captures of one instant can come out in either order there.
- `gt.toFixed(3)` as a frame key: taken as the time rounded to the millisecond.
- The mismatch detail text, and the `frames` list the estimator never reads.
- IEEE rounding: times and scores are reals and integers.
- The rest of the web store: other handlers, capture set-ups, rosters, half and match boards, React rendering.
- The token hash: a parameter; collisions are stated, not excluded. Object keys such as `__proto__` that a plain object treats specially.
- `ingest.ts` reducer arms, snapshots and HQ projection, event invariants, server lists, metrics and queries: per-branch record edits and simple folds.
- The legacy TCP path, the mocker, scripts and end-to-end harnesses.
