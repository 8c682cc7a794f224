# The agent-run orchestrator, modelled and proved

Agents answer mentions in a chat. A mention becomes a *run*; a run holds the one *turn* of its
(parent, thread, agent, invoker) key, works on its invoker's machine or on the server, reports
events, spends a budget, asks its invoker for approvals, and ends once. Two or more instances of
the server work on the same rows behind a load balancer, tied together only by conditional writes.
This project models that machinery and proves what it keeps, module by module.

Protocols in which several instances interleave are state machines: each actor has a program
counter between two store calls, an interleaving is a list of steps, and a main result speaks of
every such list. Code that updates its own fields, maps or buffers is a class or a loop, proved
against a specification function. `dafny verify dfyconfig.toml` checks everything.

| module | what it models |
|---|---|
| `Common`, `Texts` | optional values, results, sums, places in order; what trimming and joining leave |
| `TurnProtocol` | claim, ask, heal, create, park, check, release, take: the turn slot and parked hand-offs of one key |
| `TurnKeys`, `TurnCoordinator` | the keys, and both coordinators refined to one table of slots and hand-offs |
| `TurnHandoffs` | what becomes of every hand-off, whatever races with it |
| `TurnSteps` | what one actor of the protocol does undisturbed, the watchdog of a parked hand-off among them, and that each step of the protocol is a call on that table |
| `RunRows`, `RunLedger`, `RunReplay`, `RunTally` | the stored run, one event batch, and whole streams of batches: spend, deadline, limits; the same told in turns and tokens |
| `RunEndings`, `RunCounters`, `RunStreams`, `RunClocks` | complete, fail, cancel, limit, attach, claim, report, archive racing on one row; the counters, the spend of one event stream, the ceiling and the deadline they leave |
| `EventArchive` | moving an ended run's timeline into its archive object |
| `Approvals`, `ApprovalService`, `ApprovalRaces`, `ApprovalRefusals` | approval cards: the calls, calls in series, calls racing, and when a refusal is final |
| `CodingTasks`, `TaskEdits`, `TaskRace` | the coding-task row and its writers; what each call changes; several creators in one channel |
| `ConverseLoop`, `ConverseReplies` | the server-side loop against any model and any tools; what it makes of each reply |
| `ThemeCSS`, `ThemeText` | the stylesheet condenser: its scan, and what it does to the texts it lists |
| `Linkify`, `LinkifyRoster`, `LinkifyText` | mention markup: the scan, map order, and what the post reads |
| `PickTokens`, `PickPlaces` | connector picks: found, stripped, and where they stand |
| `Bundle`, `BundleContents` | the context document: its builder, and what it holds |
| `WakeProtocol`, `Wakeups` | parked claim polls and the wakes that reach them, step by step and as the map that keeps them |

## What the code does not keep

Each of these is a property that the source states in words and the code does not have in full.
The code is modelled as it is; a lemma gives a run that shows the failure, and another says
exactly when the property does hold.

- *A hand-off parked behind a busy run is either afterTerminal's to start or ours, never neither.*
  Once every actor is through, a taken hand-off has started its run exactly when no store call
  failed it and no step swallowed it: the step in which its startRun asks about the slot and finds
  the holder live, or loses the slot of a dead holder to another (`TakenStartsIff`, `SwallowedIff`).
  It is then refused as busy and dropped without a word (`TakenHandoffSwallowed`). What the slot
  shows when it is taken decides nothing among several actors (`FreeSlotIsNotEnough`); only a
  hand-off that nobody disturbs starts exactly when the slot is free or its holder is over
  (`TakenHandoffStartsIffTurnFree`). At rest a hand-off is left behind exactly when `cancelRun` or a
  row that could not be created freed the slot with it parked and nobody has looked since
  (`StrandedIffQuiet`, `CancelStrands`, `FailedCreateStrands`); so is one that is parked after
  StopThread has dropped what was parked and before it cancels the run (`ParkedAfterSweep`).
- *One turn per key.* A live run holds the slot exactly when nobody took it over or tore it down
  while its row did not say it ended, and it did not go ahead without one (`OneTurnUnlessStolen`).
  A second claimer that finds no row for the holder takes the slot over, so a claim that has not
  created its row yet can lose it and both runs go live (`TwoLiveTurns`); and a claim over Redis
  whose slot was held when it tried to set it and empty when it asked by whom goes ahead without
  one (`TwoLiveTurnsWithoutTheft`).
- *finishLimit: a lost write means the run is terminal either way.* It also loses when another
  batch has moved the run from acknowledged to running; then it tears down a live run
  (`LiveRunTornDown`, exactly when: `LimitTearsDownLiveRunIff`), and a second turn can start beside
  it (`TwoLiveTurnsAfterLateTeardown`).
- *The hard ceiling is the absolute cap.* It is, for a run whose claim stored its clocks; a claim
  goes on when that write fails for any reason but a stale row, and its runner then works on a run
  that has no ceiling (`NoCeiling`, exactly when: `CeilingHolds`).
- *No writer can lose another's increment.* Additions cannot lose one another, but every whole-row
  write puts the counters of its copy back (`AttachLosesPost`, `EndingLosesPost`,
  `RewriteLosesCountersIff`): nothing is lost exactly when none goes through with counters that
  have moved since its copy was read (`NothingLostIff`). And batches served at once are charged
  twice and can move the mark back (`StaleDeltaIsExactIff`, `MarkMovesBackIff`), and a batch that
  leaves a gap forfeits what it skipped (`GapLosesItsCost`): the totals count each event of a
  runner's stream exactly once, all along, exactly when no batch that goes through skips a cost or
  holds one reached before above the mark it read, and no whole-row write goes through with totals
  that have moved (`EachEventOnceIff`).
- *Archiving can shrink the table but never lose a timeline; archiving again is harmless.* A late
  event is deleted with the rows (`LateEventIsLost`), and a second archiver can store a half over
  the whole (`SecondArchiverLosesHalf`). The timeline is whole all along exactly when no step
  records a new event on a marked run, stores a part of it on a marked run, or marks the run while
  the stored part is not everything (`WholeThroughoutIff`); so it is when nothing is recorded after
  the rows were listed and nobody lists them half deleted (`TimelineStaysWhole`). A limiter that
  lost to another failure writes its own row, reason included, over the winner's
  (`LoserRewritesFailedRow`, exactly when: `WinnerOverwrittenIff`). A reader that read the run
  before it was marked may find the rows gone (`ReaderSeesAllIff`).
- *A denied action stays denied.* So it is for calls in series (`DeniedStaysDenied`). Of racing
  calls two can raise two cards, and the other card still takes a yes, whether it was open when the
  action was refused (`GrantedAfterRefusal`) or only on its way (`RaisedAfterRefusal`). The refusal
  is final exactly when no card for the action is open, nobody is about to put one, and no survey
  of it is still under way that neither waits for a card nor has the denial before it
  (`RefusalIsFinalIff`).
- *The sign-off gate.* Nothing gets past it (`GateHolds`), but a writer that read the row before
  the sign-off takes it back (`PinTakesSignOffBack`, exactly when: `SignOffStandsIff`); once all of
  those are through it is final (`SignOffIsFinal`).
- *One active coding task.* Two creators both stay when the older id is written late
  (`TwoActiveTasks`). A creator stays exactly when its second look failed or found no older row
  stored (`StaysIffNoOlderSeen`), so two of them both do exactly when the later one looked first
  (`TwoRacersBothStayIff`).
- *Mentions.* Two participants with one display name make the result depend on map order
  (`RosterIsOrderFreeIff`).

## Model

| member | source | states |
|---|---|---|
| `TurnProtocol.NoHandoffStranded` | internal/agents/orchestrator.go:1205-1258 | over every interleaving, a hand-off parked behind a free slot has an actor whose take is still to come, unless a cancel or a run that could not be created freed the slot with it parked and nobody has looked since |
| `TurnProtocol.StrandedIffQuiet` | internal/agents/orchestrator.go:1205-1258 | at rest a hand-off is left behind if and only if that is how the slot was freed; one process with its own maps leaves none |
| `TurnSteps.ParkerServesIff` | internal/agents/orchestrator.go:1233-1310 | in one process, after any run of the protocol: the actor that parked a hand-off is still with it and, left alone with the slot free or its holder over, starts it, if and only if it is not watching another run that is still live |
| `TurnSteps.WatchAloneServes` | internal/agents/orchestrator.go:1294-1306 | the watchdog of a parked hand-off, left alone once the run it watches is over, frees the slot that run still holds and starts the hand-off in it, unless another live run has the turn; then the hand-off is dropped as busy |
| `TurnSteps.WatchAloneWaits` | internal/agents/orchestrator.go:1294-1303 | while that run is live the watchdog changes nothing, and it is through once nothing is parked |
| `TurnSteps.UnreadableIsOver` | internal/agents/orchestrator.go:1151-1164 | a holder whose row cannot be read counts as over: its slot is taken over, and its watchdog goes on |
| `TurnProtocol.TakenOnceAndInOnePlace` | internal/agents/orchestrator.go:1315-1319 | a hand-off is handed out by a take at most once and never goes back; each is parked, in the hands of exactly one actor, or gone |
| `TurnHandoffs.TakenStartsIff` | internal/agents/orchestrator.go:1315-1341 | over every interleaving, once every actor is through, a taken hand-off has started its run if and only if no step swallowed it and no store call failed it |
| `TurnHandoffs.TakenStartsUnlessSwallowed` | internal/agents/orchestrator.go:1315-1341 | so with every store call going through, if and only if no step swallowed it |
| `TurnHandoffs.SwallowedIff` | internal/agents/orchestrator.go:1120-1134 | over every interleaving a hand-off is dropped as busy if and only if its startRun, in some step, found the holder's row live or lost the slot of a dead holder to another |
| `TurnHandoffs.FateIff` | internal/agents/orchestrator.go:1233-1341 | over every interleaving a hand-off is refused, started, swallowed, failed, expired or dropped if and only if some step did just that to it; nothing ends one twice or brings one back |
| `TurnProtocol.OneTurnUnlessStolen` | internal/agents/orchestrator.go:1120-1164 | a live run holds its slot if and only if the slot was not taken over or torn down while its row did not say it ended, and it did not go ahead without one; so of two live runs one lost it or never had it |
| `TurnProtocol.OneTurnAtCoarseGrain` | internal/agents/orchestrator.go:1120-1164 | with claim, its question and creation as one step, readable rows, and limiters that only lose to endings, a key has at most one live run and that run holds the slot |
| `TurnSteps.TakenHandoffStartsIffTurnFree` | internal/agents/orchestrator.go:1322-1341 | left alone, with every call going through, a taken hand-off starts exactly when the slot is free or held by a run that is over, and is dropped otherwise |
| `TurnProtocol.RunKeepsInv` | internal/agents/orchestrator.go:988-1341 | the joint invariant of ids, slot holders, turns, takers and hand-off places is kept by every step of every actor |
| `TurnProtocol.TwoLiveTurns` | internal/agents/orchestrator.go:1120-1148 | a run of the protocol with two live runs of one key, through healing a holder whose row is not there yet |
| `TurnProtocol.TwoLiveTurnsWithoutTheft` | internal/agents/orchestrator_coord.go:205-222 | two live runs of one key with every row readable and no slot taken from anybody: the holder is gone between the two commands of a claim |
| `TurnProtocol.TwoLiveTurnsAfterLateTeardown` | internal/agents/orchestrator.go:2143-2157 | the same through a limiter that tears down a live run |
| `TurnProtocol.CancelStrands` | internal/agents/orchestrator_gates.go:848-877 | a run of the protocol at rest with a hand-off still parked, after a cancel |
| `TurnProtocol.FailedCreateStrands` | internal/agents/orchestrator.go:1136-1139 | the same after a run whose row could not be created |
| `TurnProtocol.TakenHandoffSwallowed` | internal/agents/orchestrator.go:1322-1341 | a run of the protocol in which a parked hand-off is taken and lost, every actor done |
| `TurnHandoffs.FreeSlotIsNotEnough` | internal/agents/orchestrator.go:1322-1341 | the same for a hand-off taken with the slot free, every call going through |
| `TurnProtocol.ParkedAfterSweep` | internal/agents/orchestrator_gates.go:817-842 | a hand-off parked after StopThread's sweep and before the cancel outlives the stop |
| `TurnSteps.MentionAloneStarts` | internal/agents/orchestrator.go:1120-1148 | undisturbed, a mention that meets a free slot, or one whose holder is over, ends with its run live and holding the slot, and nothing else changed |
| `TurnSteps.MentionAloneParks` | internal/agents/orchestrator.go:1233-1258 | undisturbed, a mention that meets a live holder is parked if it is the first, refused otherwise, and in process stays to watch |
| `TurnSteps.EndingAloneHandsOver` | internal/agents/orchestrator.go:1205-1221 | undisturbed, a run that ends hands its slot to the run of the parked hand-off, or frees it |
| `TurnSteps.StepIsCoordinatorCall` | internal/agents/orchestrator_coord.go:17-62 | every step of the protocol, sweeps and expiries included, moves slot and hand-off as one call on the coordinators' table does |
| `TurnKeys.PrefixOfKey` | internal/agents/orchestrator_coord.go:154-160 | the prefix found in a turn key is the thread prefix it was built from |
| `TurnKeys.PrefixExact` | internal/agents/orchestrator_coord.go:154-160 | any key starts with a thread's prefix exactly when the prefix found in it is that thread's |
| `TurnKeys.KeysDoNotCollide` | internal/agents/orchestrator.go:1182-1189 | turn keys of ids without '#' are equal only for equal ids |
| `TurnKeys.HashInIdCollides` | internal/agents/orchestrator.go:1182-1184 | with a '#' in an id two different turns share a key |
| `TurnKeys.RedisKeysDoNotCollide` | internal/agents/orchestrator_coord.go:146-152 | slot, hand-off and index keys in Redis never coincide |
| `TurnCoordinator.WireRoundTrip` | internal/agents/orchestrator_coord.go:249-306 | a hand-off survives its stored form exactly when its binding, if any, names a coding task |
| `TurnCoordinator.DropTakesOneThread` | internal/agents/orchestrator_coord.go:120-127 | dropping a thread drops the hand-offs of its own turns and of no other thread |
| `TurnCoordinator.OtherKeysStay` | internal/agents/orchestrator_coord.go:84-118 | a call on one key leaves every other key alone |
| `TurnCoordinator.LocalTurns.ClaimTurn` | internal/agents/orchestrator_coord.go:84-91 | claims the slot of the specification table unless another run holds it, and names the holder |
| `TurnCoordinator.LocalTurns.ReplaceTurn` | internal/agents/orchestrator_coord.go:93-95 | compare-and-swap of a dead holder in the table |
| `TurnCoordinator.LocalTurns.ReleaseTurn` | internal/agents/orchestrator_coord.go:97-99 | frees the slot only for the run that holds it |
| `TurnCoordinator.LocalTurns.ParkTurn` | internal/agents/orchestrator_coord.go:107-110 | the first hand-off of a key wins |
| `TurnCoordinator.LocalTurns.TakeTurn` | internal/agents/orchestrator_coord.go:112-118 | takes the hand-off out and returns it |
| `TurnCoordinator.LocalTurns.DropTurns` | internal/agents/orchestrator_coord.go:120-127 | the walk over the map removes exactly the hand-offs of one thread |
| `TurnCoordinator.RedisTurns.ClaimTurn` | internal/agents/orchestrator_coord.go:205-222 | with nothing in between its two commands, the same claim on the same table |
| `TurnCoordinator.RedisTurns.TrySlot` | internal/agents/orchestrator_coord.go:206-215 | the first command sets the slot if and only if it is free |
| `TurnCoordinator.RedisTurns.AskHolder` | internal/agents/orchestrator_coord.go:216-221 | the second names the holder it finds, whenever it comes, and takes a slot that is gone for its own without setting it |
| `TurnCoordinator.RedisTurns.ReplaceTurn` | internal/agents/orchestrator_coord.go:224-232 | the same compare-and-swap |
| `TurnCoordinator.RedisTurns.ReleaseTurn` | internal/agents/orchestrator_coord.go:234-239 | the same fenced release |
| `TurnCoordinator.RedisTurns.ParkTurn` | internal/agents/orchestrator_coord.go:261-282 | the same parking of what the stored form gives back, which is the hand-off itself unless its binding names no task; the thread index has every parked key |
| `TurnCoordinator.RedisTurns.TakeTurn` | internal/agents/orchestrator_coord.go:284-306 | the same take, kept in step with the index |
| `TurnCoordinator.RedisTurns.DropTurns` | internal/agents/orchestrator_coord.go:308-322 | dropping by the index removes exactly what the prefix walk removes |
| `RunLedger.ClampUsage` | internal/agents/orchestrator.go:3926-3935 | a reported usage is brought into its bounds, and one within them is kept |
| `RunLedger.RunStore.UpdateRun` | internal/store/run.go:110-139 | replaces the whole row if and only if the stored state is the expected one |
| `RunLedger.RunStore.ReportEvents` | internal/agents/orchestrator.go:1936-2059 | the batch loop commits the delta the specification charges, judges limits on the committed row and the deadline as it was, and answers accordingly |
| `RunTally.AnswerIff` | internal/agents/orchestrator.go:2023-2059 | a batch is answered turn_limit, token_budget, deadline or go on if and only if the turn events and reported tokens in it that are new say so, and closed or wrong runner if and only if the run is |
| `RunTally.BatchLeaves` | internal/agents/orchestrator.go:1952-2022 | an accepted batch adds one turn for each new turn event and the tokens of each new usage event, within bounds, renews lease and deadline, starts the run if it says so, and changes nothing else; a run over its limits has failed for that reason |
| `RunTally.ModeLimits` | internal/model/agent.go:87-128 | the limits of each mode: the configured ones, or the defaults where none is set |
| `RunLedger.RunStore.FinishLimit` | internal/agents/orchestrator.go:2143-2157 | fails the run if its state is still the one read, and leaves it alone otherwise |
| `RunReplay.LedgerCountsEachEventOnce` | internal/agents/orchestrator.go:1936-2039 | over any gap-free series of re-delivered and overlapping batches of one stream, the stored totals and mark are those of counting each event once up to the furthest one |
| `RunTally.LedgerTallies` | internal/agents/orchestrator.go:1952-1979 | so the run has gained as many turns as turn events were counted, and the tokens that the usage events among them report |
| `RunReplay.ReplayCountsOnce` | internal/agents/orchestrator.go:1952-1979 | one such batch takes the totals of a counted prefix to those of the longer prefix |
| `RunReplay.GapLosesItsCost` | internal/agents/orchestrator.go:1964-1979 | the totals come out right if and only if the batch leaves no gap or the gap costs nothing, and a gap's cost is never charged later |
| `RunReplay.Rebased` | internal/agents/orchestrator.go:1625-1637 | claiming sets the ceiling to the mode's wall clock from now, the rolling deadline to the conversation window from now or the ceiling if that is sooner, and nothing else |
| `RunReplay.DeadlineUnderCeiling` | internal/agents/orchestrator.go:2005-2015 | over batches served one after another, the rolling deadline never passes the ceiling of the claim, which never moves |
| `RunReplay.DeadlineRolls` | internal/agents/orchestrator.go:2001-2053 | over batches served one after another, the deadline never moves back, a late batch does not move it and is stopped, and every batch let go on falls within the wall clock of the claim |
| `RunReplay.StaleReaderRecounts` | internal/agents/orchestrator.go:1964-1979 | what a stale reader charges is off by exactly the events counted since it read |
| `RunReplay.StaleDeltaIsExactIff` | internal/store/run.go:192-230 | a delta from any other read of the row charges what the row's own mark says if and only if the events between the two marks cost nothing |
| `RunReplay.MarkMovesBackIff` | internal/store/run.go:211-230 | exactly when committing sets the high-water mark back |
| `RunStreams.EachEventOnceIff` | internal/agents/orchestrator.go:1936-2039 | over every interleaving of re-delivered, overlapping and racing batches of one stream with every other writer, the stored totals count each event reached exactly once, at every moment, if and only if no batch that goes through skips a cost or holds one reached before above the mark it read, and no whole-row write goes through with totals that have moved |
| `RunTally.EachEventTalliedIff` | internal/agents/orchestrator.go:1936-2039 | told in events: turns and tokens are all along those of the turn and usage events reached and of the final answer, if and only if no batch that goes through skips or repeats an event that costs something and no whole-row write goes through with totals that have moved |
| `RunTally.OwnUsageIsFinal` | internal/agents/orchestrator.go:2167-2170 | besides its events a run is charged the usage of the final answer that ended it, and nothing otherwise |
| `RunStreams.ServiceIsInterleaving` | internal/agents/orchestrator.go:1936-2059 | every series of batches served one after another is an interleaving, with the same row at the end |
| `RunEndings.TerminalOnce` | internal/agents/orchestrator.go:2094-2108 | however endings, batches, attachments, claims and archiving race, at most one terminal write succeeds, and the row is terminal exactly when one did and says what it said |
| `RunEndings.EndedForGood` | internal/agents/orchestrator.go:4155-4235 | no later step moves an ended run out of its state or makes another ending succeed |
| `RunEndings.OnlyLimitersTearDownAfterLosing` | internal/agents/orchestrator.go:2143-2289 | whoever tears a run down won its terminal write or is the limit path |
| `RunEndings.WinnersRowStays` | internal/agents/orchestrator.go:4155-4179 | a completed or canceled run keeps every field its winner wrote but the archive marker |
| `RunEndings.WinnerOverwrittenIff` | internal/agents/orchestrator.go:4166-4168 | the row of an ended run stops being its winner's if and only if an archiver with another copy, failed like the row, goes through with the marker |
| `RunEndings.LimitTearsDownLiveRunIff` | internal/agents/orchestrator.go:2143-2157 | the limit path tears down a run that stays live if and only if it read acknowledged and the row is running |
| `RunEndings.RewriteLosesCountersIff` | internal/agents/orchestrator.go:2094-2108 | every whole-row write of a run that has not ended (attaching, extending, claiming, storing its clocks, ending, limiting) takes counters back if and only if it goes through and they have moved since its copy; an ending's own usage comes on top |
| `RunCounters.NothingLostIff` | internal/store/run.go:192-240 | over every interleaving the row shows every post and every charge ever made, at every moment, if and only if no whole-row write goes through with counters that have moved since its copy was read |
| `RunCounters.StepCountsIff` | internal/store/run.go:192-240 | a single step of anybody's adds what it is there to add and loses nothing if and only if it is no such write |
| `RunCounters.PostsAreShown` | internal/store/run.go:232-239 | as long as nothing is lost the row shows one more for each post made while the run was live |
| `RunEndings.HistoryKeepsInv` | internal/store/run.go:110-349 | the invariant behind these results is kept by every step |
| `RunEndings.BeginTerminal` | internal/agents/orchestrator.go:2094-2108 | the conditional terminal write on the store, with its outcome |
| `RunEndings.ArchiveEvents` | internal/agents/orchestrator.go:4166-4173 | the archive marker is stored as a whole row, only under the copy's own state |
| `RunEndings.AttachConnector` | internal/agents/orchestrator.go:4216-4235 | attaching is idempotent, and otherwise stores the copy with one more slug |
| `RunEndings.EndAlone` | internal/agents/orchestrator.go:2162-2175 | undisturbed, an ending changes the state, the reason if there is one, the tokens by what the final answer reports, within bounds, and the marker; nothing else |
| `RunEndings.ClaimAlone` | internal/agents/orchestrator.go:1690-1731 | undisturbed, a claim hands the run to the runner with its lease and two clocks, or fails it when no token can be minted |
| `RunEndings.AttachAlone` | internal/agents/orchestrator.go:4216-4235 | undisturbed, attaching adds the slug last unless it is there, and nothing else |
| `RunEndings.ExtendAlone` | internal/agents/orchestrator.go:913-922 | undisturbed, putting off a queued run's deadline changes the deadline and nothing else |
| `RunEndings.LiveRunTornDown` | internal/agents/orchestrator.go:2028-2053 | for every capped run and exhausting report there is an interleaving that tears the run down live |
| `RunEndings.LoserRewritesFailedRow` | internal/agents/orchestrator.go:4166-4168 | an interleaving in which a limiter that lost overwrites the winner's failure reason |
| `RunEndings.AttachLosesPost` | internal/agents/orchestrator.go:4226-4228 | an interleaving in which attaching a connector takes a counted post back |
| `RunEndings.EndingLosesPost` | internal/agents/orchestrator.go:2094-2108 | an interleaving in which the write that completes a run takes a counted post back |
| `RunClocks.CeilingHolds` | internal/agents/orchestrator.go:1625-1637 | over every interleaving, a run has no ceiling but the wall clock of its mode from its one claim, and its deadline never passes it; a live run in its runner's hands has it if and only if the claim's clocks were stored |
| `RunClocks.CeilingStays` | internal/agents/orchestrator.go:2005-2020 | no step of anybody's moves a live run's ceiling or takes it away |
| `RunClocks.BatchesStayInBounds` | internal/agents/orchestrator.go:2028-2058 | whatever it raced with, a batch let go on leaves the stored ledger within both limits of a capped mode, and arrived within the wall clock of the claim if its clocks were stored |
| `RunClocks.NoCeiling` | internal/agents/orchestrator.go:1708-1724 | an interleaving in which a runner gets a live run without a ceiling |
| `EventArchive.TimelineStaysWhole` | internal/agents/orchestrator.go:4150-4179 | over every interleaving of archivers, whatever call fails, the one source a read finds has every event, if none is recorded after the rows were listed and nobody lists them half deleted |
| `EventArchive.WholeThroughoutIff` | internal/agents/orchestrator.go:4150-4179 | over every interleaving the timeline is whole all along if and only if no step records a new event on a marked run, stores a part on a marked run, or marks a run whose stored part is not everything |
| `EventArchive.StaysWholeIff` | internal/agents/orchestrator.go:4150-4179 | a single step of anybody's leaves a whole timeline whole if and only if it is none of the three |
| `EventArchive.ReaderSeesAllIff` | internal/agents/orchestrator.go:4191-4200 | a reader is shown everything if and only if the run it read said archived or no row is deleted yet |
| `EventArchive.ArchiveAlone` | internal/agents/orchestrator.go:4150-4179 | an archiver left alone, every call going through, stores what it found, marks the run and deletes every row |
| `EventArchive.HistoryKeepsInv` | internal/agents/orchestrator.go:4155-4179 | the invariant behind both is kept by every step |
| `EventArchive.LateEventIsLost` | internal/store/run.go:489-504 | for any two events and any later one, an interleaving that loses the later one |
| `EventArchive.SecondArchiverLosesHalf` | internal/storage/eventarchive.go:27-36 | an interleaving in which archiving again leaves half of the timeline |
| `Approvals.CardStore.SettleApproval` | internal/store/runextras.go:60-86 | settles a card if and only if it is pending |
| `Approvals.CardStore.ConsumeApproval` | internal/store/runextras.go:92-111 | spends a yes if and only if nobody has |
| `Approvals.CardStore.RequestApproval` | internal/agents/orchestrator_gates.go:73-138 | raises the card the specification describes, or refuses a blank summary, bad options or a run too close to its deadline |
| `Approvals.CardStore.ProposeReply` | internal/agents/orchestrator_gates.go:145-182 | raises a reply proposal unless its text is blank |
| `Approvals.CardStore.ApprovalStatus` | internal/agents/orchestrator_gates.go:240-273 | returns the card, expired first if it is seen past its deadline |
| `Approvals.CardStore.DecideApproval` | internal/agents/orchestrator_gates.go:291-378 | only the invoker decides, once, in time, and among the options; a late answer expires the card |
| `Approvals.CardStore.ApprovalGranted` | internal/agents/orchestrator_gates.go:393-405 | grants exactly an unspent yes to exactly this purpose, and spends it |
| `Approvals.CardStore.ConsumeDeliberateApproval` | internal/agents/orchestrator_gates.go:621-636 | spends one deliberate yes if and only if there is one |
| `Approvals.CardStore.AuthorizeAction` | internal/agents/orchestrator_gates.go:662-713 | for every order of the listing: an unspent yes wins and is spent, then a no, then a card still waiting, else a new card or none in time |
| `Approvals.DecisionIsRecorded` | internal/agents/orchestrator_gates.go:291-348 | who may decide, until when and what, each if and only if; and the card then has the decision, its taker, the option chosen, the note unless it is a reply proposal, and asks what it asked |
| `Approvals.RequestIsRaised` | internal/agents/orchestrator_gates.go:73-138 | a card is raised if and only if it says something, offers no choice or two to five options, and leaves time to act; it asks what was asked for five minutes at most |
| `Approvals.ProposalIsRaised` | internal/agents/orchestrator_gates.go:145-182 | a reply proposal that is not blank is open for a day |
| `Approvals.LateCardExpires` | internal/agents/orchestrator_gates.go:240-273 | a card seen past its deadline has expired undecided, and any other is as it was |
| `Approvals.VerdictIsRight` | internal/agents/orchestrator_gates.go:662-713 | which of the four answers the cards call for: an unspent yes first, then a no, then a card waiting in time, and a new card when there is none of these |
| `Approvals.ListingShowsCards` | internal/agents/orchestrator_gates.go:673-692 | what a complete listing shows of yeses, noes and waiting cards does not depend on its order |
| `ApprovalService.Serve` | internal/agents/orchestrator_gates.go:73-713 | each call on the card store leaves what the serial specification allows |
| `ApprovalService.OneCardPerAction` | internal/agents/orchestrator_gates.go:662-713 | over any series of calls an action has at most one open card, and none once it was denied |
| `ApprovalService.DeniedStaysDenied` | internal/agents/orchestrator_gates.go:655-661 | once an action was denied, every later answer in a series of calls is a refusal |
| `ApprovalRaces.EachGrantHasItsOwnYes` | internal/agents/orchestrator_gates.go:393-427 | under every interleaving each grant rests on its own approval by the invoker, of the purpose it is spent on; stamped and plain ones never pay for each other |
| `ApprovalRaces.NoMoreGrantsThanYeses` | internal/agents/orchestrator_gates.go:407-427 | grants for a purpose never outnumber the invoker's approvals of it |
| `ApprovalRaces.AuthorizeAlone` | internal/agents/orchestrator_gates.go:662-713 | undisturbed, the racing survey comes out as the serial answer, for every order of the listing |
| `ApprovalRaces.LookAlone` | internal/agents/orchestrator_gates.go:240-273 | undisturbed, a look at a card expires it when it is late, spends a yes of the purpose wanted, and changes nothing otherwise |
| `ApprovalRaces.DeliberateAlone` | internal/agents/orchestrator_gates.go:621-636 | undisturbed, a deliberate yes is spent if and only if there is one |
| `ApprovalRaces.AnswerIsRecorded` | internal/agents/orchestrator_gates.go:291-348 | whatever raced with it, an answer is recorded whole if the card is still open and the copy answered allows it, and changes nothing otherwise |
| `ApprovalRaces.HistoryKeepsInv` | internal/store/runextras.go:60-111 | the invariant behind both is kept by every step of every caller |
| `ApprovalRaces.GrantedAfterRefusal` | internal/agents/orchestrator_gates.go:655-713 | an interleaving in which an action is refused and granted afterwards |
| `ApprovalRefusals.RefusalIsFinalIff` | internal/agents/orchestrator_gates.go:641-713 | under every interleaving: once an action was denied no later call goes ahead with it, however the run goes on, if and only if no card for it is open, none is on its way, and every survey still under way has seen the denial, will come to it, or waits for a card |
| `ApprovalRefusals.RaisedAfterRefusal` | internal/agents/orchestrator_gates.go:655-713 | an interleaving in which the action is refused with no card open, and granted on a card that was on its way |
| `CodingTasks.TaskService.UpdateTask` | internal/store/codingtask.go:145-162 | replaces the whole row if and only if the stored state is the expected one |
| `CodingTasks.TaskService.Report` | internal/agents/codingtask.go:792-848 | a report is refused as a whole, beaten by a state change, or stored as the edit of the copy it read |
| `CodingTasks.TaskService.SignOff` | internal/agents/codingtask.go:1139-1191 | the card's button is the requester's, over a copy awaiting the test; pressed again it changes nothing |
| `CodingTasks.TaskService.RequestMR` | internal/agents/codingtask.go:1051-1094 | the push is approved if and only if the copy awaits the test or has merge requests open, and a sign-off is there or is stored now on a granted approval |
| `CodingTasks.TaskService.Close` | internal/agents/codingtask.go:1230-1254 | closing is the requester's, to done or abandoned, along the lifecycle |
| `CodingTasks.TaskService.PinTaskRun` | internal/agents/orchestrator_task.go:200-230 | pinning stores runner, owner and the last fifty run ids over the copy, or nothing new |
| `CodingTasks.FindRepo` | internal/model/codingtask.go:440-447 | finds a repo at a path if and only if there is one |
| `CodingTasks.PatchKeepsRepos` | internal/agents/codingtask.go:808-830 | a report adds and removes no repo and takes no merge request away |
| `TaskEdits.ReposAreTold` | internal/agents/codingtask.go:808-830 | each fact about a repo is what the last update naming its path and saying something valid of that fact says, or as it was; of two repos at one path the first is told |
| `TaskEdits.ReportIff` | internal/agents/codingtask.go:801-848 | a report is refused if and only if an address is none, the step is no edge, or merge requests lack the sign-off or an address; otherwise it changes repos and state and nothing else |
| `TaskEdits.LifecycleIff` | internal/model/codingtask.go:341-365 | the lifecycle by the states each state is entered from |
| `TaskEdits.FieldsAreTheirs` | internal/agents/codingtask.go:1139-1254 | which call may change which field of the row, and to what; no call takes a sign-off off its own copy |
| `TaskEdits.CallsAreAllowedIff` | internal/agents/codingtask.go:1139-1254 | when each call is allowed, each if and only if |
| `CodingTasks.EditKeepsGate` | internal/agents/codingtask.go:831-843 | whatever a call makes of a gated copy is gated and follows an edge of the lifecycle, and only a report out of awaiting_user_test reaches mr_created |
| `CodingTasks.GateHolds` | internal/agents/codingtask.go:839-848 | under every interleaving of whole-row writers acting on stale reads, a stored row in mr_created has a sign-off and a merge request |
| `CodingTasks.SignOffStandsIff` | internal/agents/orchestrator_task.go:224-229 | over every interleaving a sign-off stands at every moment if and only if no call commits whose copy was read without it and which gives none |
| `CodingTasks.SignOffIsFinal` | internal/agents/orchestrator_task.go:224-229 | once every call that read the row without it is through, no later call takes a sign-off back |
| `CodingTasks.PinTakesSignOffBack` | internal/agents/orchestrator_task.go:200-230 | an interleaving in which pinning takes a sign-off back and mr_created is then refused |
| `TaskRace.SettleTaskRace` | internal/agents/codingtask.go:1098-1116 | the second look loses if and only if an older competing row is listed |
| `TaskRace.SmallestNeverRetracts` | internal/agents/codingtask.go:1098-1116 | under every interleaving the smallest id stored is never retracted |
| `TaskRace.StaysIffNoOlderSeen` | internal/agents/codingtask.go:1098-1116 | however many race, a creator stays if and only if its second look failed or no older row was stored at that moment |
| `TaskRace.BothStayOnlyIfUnseen` | internal/agents/codingtask.go:427-442 | two racers among any number both stay only if the larger looked before the smaller's row was stored, after it left, or could not look |
| `TaskRace.TwoRacersBothStayIff` | internal/agents/codingtask.go:427-442 | two racers alone, with no failed look and neither gone, both stay if and only if the larger looked before the smaller's row was stored |
| `TaskRace.WritesBeforeScansLeaveSmallest` | internal/agents/codingtask.go:427-442 | when all rows are stored before anybody looks again, exactly the smallest id remains |
| `TaskRace.TwoActiveTasks` | internal/agents/codingtask.go:356-442 | an interleaving that leaves two active tasks |
| `ConverseLoop.TurnBudget` | internal/bedrock/loop.go:92-97 | between one and the ceiling, and the configured number when that is in range |
| `ConverseLoop.Run` | internal/bedrock/loop.go:123-296 | for every model and every tools it returns after at most the budgeted requests, each carrying the specified history; usage is the sum over the trips, the text the last one said, the error the reason the last reply gives |
| `ConverseLoop.RunTools` | internal/bedrock/loop.go:226-284 | whatever order the tools finish in, the results stand in the order they were asked for |
| `ConverseLoop.AnswerTools` | internal/bedrock/loop.go:255-294 | one user message: the results in order, then the budget note if there is one |
| `ConverseReplies.HistoryGrowsByOneExchange` | internal/bedrock/loop.go:193-294 | each history is the one before, one reply, and one user message in which every tool use of the reply, at whatever place in it, is answered once and in order: its id, what the tool of that name said or an error if there is none, cut at the cap |
| `ConverseReplies.HistoryBegins` | internal/bedrock/loop.go:149-152 | the first history is the prompt and what is attached to it |
| `ConverseReplies.RequestIsHistory` | internal/bedrock/loop.go:339-353 | a request is its history, but for a cache checkpoint at its very end when the model caches |
| `ConverseReplies.RunStopsWhen` | internal/bedrock/loop.go:173-221 | the loop goes on exactly while replies ask for tools, have some to run and are not the last one allowed; each error, and none, if and only if its reason |
| `ConverseReplies.LastTextIsNewest` | internal/bedrock/loop.go:195-211 | the text returned is that of the newest reply that says anything: its texts line by line, trimmed |
| `ConverseReplies.UsageIsSum` | internal/bedrock/loop.go:176-186 | usage is the sum over the trips of fresh input with cache writes, and of output |
| `ConverseLoop.EarlierHistoriesArePrefixes` | internal/bedrock/loop.go:343-353 | every earlier history is a proper prefix of every later request, cached or not |
| `ConverseLoop.NotesAreOnSchedule` | internal/bedrock/loop.go:102-117 | which request carries the final, wrap-up or checkpoint note, and that no other carries one |
| `ConverseLoop.BudgetErrorOnlyAfterFinalNote` | internal/bedrock/loop.go:216-220 | a run that ends for want of turns used all of them and, with two or more, had been told in its last request |
| `ThemeCSS.ScanTheme` | internal/agents/project_theme.go:17-83 | the character loop with its stack, buffer and group index is the scan the specification folds, and never pops an empty stack |
| `ThemeCSS.ScanReadsTree` | internal/agents/project_theme.go:65-83 | scanning a printed tree finds its declarations in document order under their enclosing blocks and ends where it began |
| `ThemeCSS.PropertyIff` | internal/agents/project_theme.go:44-63 | a declaration counts as a custom property if and only if it stands in a block, its name begins with two dashes, and it is no alias of a theme block; it is listed under its path with the white space of its value collapsed |
| `ThemeCSS.FontIff` | internal/agents/project_theme.go:58-62 | a font family is listed, with its block, if and only if it is set for the page as a whole, and nothing else in a block is |
| `ThemeText.CollapsedKeepsText` | internal/agents/project_theme.go:67-67 | white space collapsed: the other characters stay in order, none in front or behind, and one space between two of them exactly where there was white space |
| `Texts.Trimmed` | internal/agents/project_theme.go:29-29 | trimming takes the white space off both ends, all of it, and nothing else |
| `Texts.JoinedParts` | internal/agents/project_theme.go:27-27 | joined parts stand in order, with the separator between any two |
| `ThemeText.AliasIff` | internal/agents/project_theme.go:127-127 | an alias is var(--name) with a name of letters, digits, underscores and dashes |
| `ThemeText.TopLevelMeans` | internal/agents/project_theme.go:34-42 | an import and a plugin are listed by what they name, without its quotes |
| `ThemeText.AddressMeans` | internal/agents/project_theme.go:131-136 | so is an import of url( ), quoted or not |
| `ThemeCSS.GroupsAreByPath` | internal/agents/project_theme.go:45-63 | groups are the distinct paths in order of first appearance, each with exactly its properties in order, and the count is theirs |
| `ThemeText.PathsInOrder` | internal/agents/project_theme.go:49-55 | those paths are those of the properties, in the order they first appear |
| `ThemeText.VarsInOrder` | internal/agents/project_theme.go:56-57 | those variables are the properties found under the path, in order |
| `ThemeCSS.PrintedSheetIsRecovered` | internal/agents/project_theme.go:17-83 | every printed stylesheet is recovered: its custom properties, grouped and counted, aliases of theme blocks left out |
| `ThemeCSS.StrayClosersAreIgnored` | internal/agents/project_theme.go:75-80 | closing braces with nothing open change nothing |
| `ThemeCSS.NothingToStrip` | internal/agents/project_theme.go:126-126 | a text without comments is left alone |
| `ThemeCSS.CommentDropsOut` | internal/agents/project_theme.go:126-126 | a comment drops out of the text around it and nothing else does |
| `ThemeText.UnclosedStays` | internal/agents/project_theme.go:126-126 | what opens like a comment and is never closed stays |
| `ThemeCSS.ListGroups` | internal/agents/project_theme.go:97-111 | the listing is the longest beginning whose lines all start within the limit, and it shows as many variables as it counts |
| `ThemeText.GroupsAreListed` | internal/agents/project_theme.go:97-109 | the groups are listed one after another |
| `ThemeText.OneGroupIsListed` | internal/agents/project_theme.go:97-109 | a group as its path and then its variables, a line each |
| `ThemeText.LengthIsWritten` | internal/agents/project_theme.go:99-107 | the limit is on the characters written so far |
| `ThemeText.PreambleLists` | internal/agents/project_theme.go:86-95 | imports and plugins on one line in front, fonts on another |
| `ThemeCSS.CondenseThemeCSS` | internal/agents/project_theme.go:17-115 | preamble, listing cut at the limit, and the number left out, which with the number shown makes the count |
| `Linkify.Roster.Add` | internal/agents/orchestrator.go:1431-1442 | a name is added unless it is blank or known in any letter case |
| `Linkify.BuildRoster` | internal/agents/orchestrator.go:1443-1466 | the roster is built from agents, participants and unshared short names, in that order |
| `LinkifyText.RosterHasOwners` | internal/agents/orchestrator.go:1431-1466 | the roster has names of agents and participants only, each with its owner, and every name offered once: agents first, then full names, then short names only one participant goes by |
| `Linkify.LinkifyMentions` | internal/agents/orchestrator.go:1470-1498 | the index loop writes the pieces the specification cuts the body into |
| `LinkifyText.RenderedReads` | internal/agents/orchestrator.go:1470-1498 | what is written reads, character by character: at each "@" that begins a mention the longest roster name there gives way to "@[id|name]" of its owner, and every other character is kept |
| `LinkifyText.FoldIff` | internal/agents/orchestrator.go:1482-1482 | names are compared up to the case of letters and nothing else |
| `Linkify.LongestNamesGoIn` | internal/agents/orchestrator.go:1473-1496 | a mention goes in exactly at a boundary "@" with a roster name behind it, and it is the longest that stands there |
| `Linkify.OnlyOneWayToCut` | internal/agents/orchestrator.go:1473-1496 | that leaves exactly one way to cut a body |
| `Linkify.PiecesCoverBody` | internal/agents/orchestrator.go:1473-1496 | bytes outside the replaced names are kept, in order |
| `Linkify.PiecesDoNotDependOnOrder` | internal/agents/orchestrator.go:1467-1469 | any two sorted orders of one roster give the same result |
| `LinkifyRoster.LinkifyIsDeterministic` | internal/agents/orchestrator.go:1423-1498 | whatever order participants, short names and equal lengths come in, the post is the same, if no two participants share a name |
| `LinkifyRoster.RosterIsOrderFreeIff` | internal/agents/orchestrator.go:1449-1466 | the roster is independent of the participants' order if and only if no two share a full name that no agent has |
| `PickTokens.ParseConnectorTokens` | internal/agents/orchestrator.go:4057-4071 | the matches without repeats, in order of first appearance |
| `PickTokens.StripConnectorTokens` | internal/agents/orchestrator.go:4077-4092 | the loop writes what the specification strips; no slugs, no change |
| `PickTokens.SlugsAreThePicks` | internal/agents/orchestrator.go:4049-4053 | what the pattern finds from left to right is exactly what stands with its slash at the start of a word |
| `PickPlaces.SlugsInOrder` | internal/agents/orchestrator.go:4049-4062 | the picks are found from left to right, each once |
| `PickPlaces.PickAtIff` | internal/agents/orchestrator.go:4053-4053 | a pick is a slash at the start of a word with a letter or a digit behind it |
| `PickPlaces.SlugRuns` | internal/agents/orchestrator.go:4053-4053 | its slug runs to the first character that is no letter, no digit and no dash |
| `PickPlaces.DistinctKeepsFirsts` | internal/agents/orchestrator.go:4063-4069 | without repeats: each slug where it first appears |
| `PickPlaces.StrippedIs` | internal/agents/orchestrator.go:4077-4092 | stripping takes the slash of each pick to strip out of the text, and nothing else |
| `PickTokens.StrippedSlugsAreGone` | internal/agents/orchestrator.go:4049-4092 | stripping removes exactly the stripped picks from what is found, and makes no new one |
| `PickTokens.ParseAfterStrip` | internal/agents/orchestrator.go:4049-4092 | parsing after stripping is parsing, less the stripped slugs, order kept |
| `PickTokens.StripTwice` | internal/agents/orchestrator.go:4077-4092 | stripping two sets in turn is stripping their union |
| `PickTokens.StripIsIdempotent` | internal/agents/orchestrator.go:4077-4092 | stripping twice is stripping once |
| `Bundle.BuildBundle` | internal/agents/orchestrator.go:3483-3500 | the document is the mandatory layers, the optional ones that fit, the shared context and the thread, and is never longer than the budget or the mandatory layers, whichever is more, plus the headings |
| `Bundle.BundleBuilder.Must` | internal/agents/orchestrator.go:3075-3081 | a mandatory layer is added whole at any point, and charged even into the negative |
| `Bundle.BundleBuilder.Take` | internal/agents/orchestrator.go:3085-3092 | an optional layer is added whole if and only if it fits |
| `Bundle.BundleBuilder.TakeLines` | internal/agents/orchestrator.go:3357-3368 | lines are kept whole as they fit, charged, and kept plus dropped is their number |
| `Bundle.BundleBuilder.SharedContext` | internal/agents/orchestrator.go:3369-3393 | pinned items, digests and other items are charged in that order and shown in two blocks |
| `Bundle.BundleBuilder.ThreadWindow` | internal/agents/orchestrator.go:3424-3463 | older lines are clipped, then the newest lines that fit are kept, kept plus dropped is all of them |
| `Bundle.HeadlineKeepsFront` | internal/agents/orchestrator.go:3410-3420 | a clipped line begins as its line does for up to 160 runes, breaks no rune, keeps what is no longer, and is never more than two bytes longer than a line with its line break |
| `Bundle.Compressed` | internal/agents/orchestrator.go:3410-3420 | the newest twelve lines stay as they are, the older ones become headlines |
| `BundleContents.HeadlineIs` | internal/agents/orchestrator.go:3414-3419 | a line of more than 160 runes is its first 160 and an ellipsis; one of no more keeps its text |
| `Bundle.KeepsLongestSuffix` | internal/agents/orchestrator.go:3424-3434 | what is kept of the thread is exactly the longest newest part that fits |
| `Bundle.FittingFits` | internal/agents/orchestrator.go:3357-3368 | kept lines fit together, and all are kept when all fit |
| `BundleContents.FittingIsGreedy` | internal/agents/orchestrator.go:3357-3368 | a line is taken, in order, if and only if it fits into what those taken before it leave |
| `BundleContents.TakenAreFitting` | internal/agents/orchestrator.go:3085-3092 | the optional layers likewise, of those there are |
| `BundleContents.ShareIsOneList` | internal/agents/orchestrator.go:3369-3374 | pinned items, digests and other items are charged as one list |
| `BundleContents.SharedBlocksRead` | internal/agents/orchestrator.go:3383-3393 | what stands under which heading, and that a heading with nothing under it is left out |
| `BundleContents.SectionsInOrder` | internal/agents/orchestrator.go:3095-3101 | the document is its sections one after another |
| `BundleContents.EverythingFits` | internal/agents/orchestrator.go:3483-3500 | with room for everything and a short thread everything is there, in order |
| `Bundle.SkillIndex` | internal/agents/orchestrator.go:3245-3257 | the skill index is the longest beginning within its limit |
| `Wakeups.Claims.Wait` | internal/agents/orchestrator.go:3902-3912 | one more waiter in the owner's generation, which is opened if there is none: one step of the protocol |
| `Wakeups.Claims.Release` | internal/agents/orchestrator.go:3912-3923 | one waiter fewer, the entry gone with the last one; a stale release leaves the map alone: one step of the protocol |
| `Wakeups.Claims.TakeForWake` | internal/agents/orchestrator.go:3884-3890 | the generation is out of the map and in this wake's hands: one step of the protocol |
| `Wakeups.Claims.CloseForWake` | internal/agents/orchestrator.go:3891-3894 | however many steps later, what the wake took is there and open, and is closed: one step of the protocol |
| `WakeProtocol.WakeReachesAll` | internal/agents/orchestrator.go:3884-3894 | over every interleaving, whoever a finished wake found waiting and still waits has seen the channel closed, if and only if no other wake is still about to close it |
| `WakeProtocol.ClosedOnce` | internal/agents/orchestrator.go:3884-3894 | over every interleaving no channel is closed twice; what a wake holds is open, is no other wake's, and is in no owner's entry |
| `WakeProtocol.SecondWakeOvertakes` | internal/agents/orchestrator.go:3884-3894 | an interleaving in which a wake returns before the poll it found is signalled |
| `WakeProtocol.EntryIffWaiting` | internal/agents/orchestrator.go:3896-3924 | over every interleaving, an owner has an entry if and only if someone waits whom no wake has taken out |

## Left out

- Redis failures, dropped connections and key lifetimes in the turn coordinator: the code lets the turn through there on purpose, which would empty the exclusion results. Each command or script is one atomic step, a claim two; a hand-off and its entry in the thread index are put, and taken out, as one.
- Several turn keys at once: keys never interact, so the protocol is modelled for one key; `StopThread` is a sweep and cancels of it, and across keys `DropTurns`.
- Hand-offs parked by steering of somebody other than the requester, which park under another key than the busy run's, and `StopUserAutomations`, which drops only in-process hand-offs.
- Boot recovery of runs whose instance died.
- RunLedger.ReportEvents: event names are told apart as the cases of a datatype, so matching a name against the server's own namespaces is not modelled; the timeline, progress frames and typing are left out.
- RunRows: upload counters and lease renewal (single-field additions like the ones modelled), integer width of counters, the active-runs index.
- RunEndings.HistoryKeepsInv: the delivery of answers and notices after an ending; store errors other than a stale row, but for the write of a claim's clocks.
- EventArchive: rows are deleted one at a time, where the store deletes up to twenty-five per request; clipping of long timelines for display; the fallback to the table when the archive object cannot be read.
- Approvals.CardStore.RequestApproval: length limits on summaries, labels, options and notes; the posting of an approved reply. The digest of an action's arguments is taken to be injective.
- ApprovalRefusals.RefusalIsFinalIff: the instances' clocks are not compared, so a card past its deadline counts as open until somebody has expired it.
- ApprovalService.OneCardPerAction: speaks of purposes that only `AuthorizeAction` stamps; the other gates raise a card whenever they are asked.
- CodingTasks.TaskService.Report: whether an address or a branch name parses is an input; learning a project's default branch, notes and cards are left out, and so are the checks on a test plan's wording.
- TaskRace: the delay of the channel index behind the rows; two looks of one creator see the rows as they are.
- ConverseLoop.Run: the wording of notes, previews and events; a text is cut at the cap by characters.
- Linkify.LinkifyMentions: ASCII only, one byte per character. Running it on its own output is not covered: it is not idempotent. How a person's short name is made is an input.
- ThemeCSS.CondenseThemeCSS: lengths are counted in characters; the summary is a list of lines, not yet joined.
- PickTokens: ASCII white space as the pattern's class has it.
- Bundle.BundleBuilder.ThreadWindow: texts are taken to be valid UTF-8, and where the layers' texts come from is left out.
- WakeProtocol: the broadcast of a wake to other instances and the poll timer.
- Identity, tokens, storage, HTTP, notifications, the web client, connector ingestion, seeding and migrations.
