# The adapter's session, quota and projection cores

This project models the parts of the Claude ACP adapter whose correctness depends on interleaving, on history or on
exact arithmetic, and proves what they promise. Check it with `dafny verify dfyconfig.toml` (Dafny 4.11).

Code that runs under locks is modelled twice and the two are tied together. A *machine* takes one step per critical
section (or per blocking wait that has ended), so a run is any interleaving of goroutines; theorems quantify over every
run from the initial state. An *object* is a class whose methods are those critical sections as the code writes them,
each proved to have exactly the effect the machine gives it; the session's are also composed into whole operations,
over what each goroutine may rely on while the others run. Fields named as history in a data type (`log`,
`published`, `durable`, `ledgers`, ...) are written by the model and read by no modelled code.

| files | subject |
|---|---|
| `QuotaEntry`, `QuotaMachine`, `QuotaTheorems`, `QuotaEffects` | one cache entry: probes, observations, version counters, blocks, backoff; what one answer and one turn leave in it |
| `QuotaCacheMachine`, `QuotaObjects`, `QuotaReports` | the whole cache for any number of keys, its objects, and what a turn reports to it |
| `SessionState`, `SessionMachine` | what a session's goroutines share, and their steps |
| `SessionFacts`, `SessionSettlement`, `SessionProcesses`, `SessionCycles`, `SessionSlots`, `SessionQuiet` | the invariants of those steps |
| `SessionRely`, `SessionObject` | what a goroutine may rely on between its regions, and the session object's operations over it |
| `SessionTheorems`, `SessionOutcomes`, `SessionScenes`, `SessionWitnesses` | what every run promises, what its terminal events say, and runs that show where a promise stops |
| `SessionContests`, `SessionLadder`, `SessionDialogs` | exactly when one more sample breaks a promise |
| `Projection`, `ProjectionTheorems`, `ProjectionMatches`, `ProjectionFigures`, `ProjectionObject` | streamed text, its replay, which blocks match it, and context usage |
| `Registry`, `RegistryObject` | the agent's slots, session map, tombstones and gauge |
| `Carrier`, `ProjectDir` | the options carrier and the project directory name |

Five places where the code does not do what one would first say of it, each stated exactly:

- A pump checks its generation when an event arrives and samples the foreground in a later section. If its generation
  is lost in between, it can settle the next generation's cycle beside the pump that opened it, or beside a close. After
  a sample of a live cycle, otherwise careful steps can end that cycle twice if and only if the sampler's generation is
  no longer bound, the cycle's own pump is not about to fence for a failed commit, and no close has failed to commit
  (`SessionLadder.SampleEndsTwiceExactly`, `SessionWitnesses.StaleSampleEndsTwice`). A stop that does not wait for its
  pump has the same effect (`SessionWitnesses.GivenUpPumpEndsTwice`); with every sample and every stop careful no cycle
  ends twice (`SessionTheorems.AgentRunEndsOnce`).
- The same sample can leave an action of the cycle unresolved at its terminal event: the sampler opens a dialog after
  the owner has joined the callbacks. Otherwise careful steps can do so if and only if no close has begun, the sampler's
  generation is no longer bound, and the cycle's own pump has not begun to settle it
  (`SessionDialogs.SampleLeavesDialogExactly`, `SessionWitnesses.StaleDialogOutlivesRun`); with every sample and every
  stop careful none is left (`SessionTheorems.AgentRunPublishesQuiet`).
- A close that finds its session unpersisted commits nothing and still ends the open cycle
  (`SessionWitnesses.CloseEndsUncommitted`); a close commits before that event exactly when it found the session
  persisted (`SessionTheorems.AgentTerminalIsBacked`).
- `runtimeEnded` leaves the stream of the generation it unbinds active exactly when a close is under way, until that
  close fences it (`SessionTheorems.EndedGenerationIsCutOff`, `SessionWitnesses.ClosingKeepsStream`).
- A live stream forgets the rows of an API message when the next begins; replay keeps them all. Where every block
  matched and no tail was left the two show the same text if and only if no row with text came again after a row of
  another API message, without one of its own message in between
  (`ProjectionTheorems.LiveAgreesWithReplay`, `ProjectionTheorems.RepeatedRowShowsTwice`); every block matched and nothing
  was cut off exactly where each block began the streamed tail or extended it (`ProjectionMatches.CleanExactly`).

## Model

| member | source | states |
|---|---|---|
| QuotaTheorems.ProbeRespectsBackoff | internal/claude/quota_cache.go:158-173 | a lane whose log ends in k failures is probed again only 5, 15 or 60 minutes after the last, and not before the provider's retry time it still owes, whatever interleaves |
| QuotaTheorems.BlockStays | internal/claude/quota_cache.go:127-156 | no step other than a report of the window lifts its block before the reset; a probe in flight that could report it cannot |
| QuotaTheorems.HaikuLeavesFable | internal/claude/quota_cache.go:204-207 | an answer on the account lane leaves a Fable block alone |
| QuotaTheorems.BlockHoldsUntilReset | internal/claude/quota_cache.go:127-156 | a block holds over any run without a report of its window until the clock reaches the reset |
| QuotaTheorems.NoProbeBeforeReset | internal/claude/quota_cache.go:98-111 | while a window is blocked no probe that could report it passes its due check; account-wide blocks stop both lanes, a Fable block one |
| QuotaTheorems.RefusalBlocks | internal/claude/quota_cache.go:297-310 | a refusal blocks every window it is about that the same turn reported with a future reset, until that reset: the window it names, or all three where it names none |
| QuotaTheorems.AnswerStoresUnmoved | internal/claude/quota_cache.go:98-119 | a probe's answer replaces a window exactly when no report or first refusal moved it since the snapshot; not-authenticated empties the rest |
| QuotaTheorems.WindowsLinearise | internal/claude/quota_cache.go:192-219 | in every reachable state windows are what the history leaves, and nothing that moved a window lies between a probe's snapshot and the store of its answer |
| QuotaTheorems.WakesAreSpaced | internal/claude/quota_cache.go:312-333 | refusals clear a lane deadline at most once per window time to live |
| QuotaEffects.AnswerBlocks | internal/claude/quota_cache.go:197-228 | after an answer a window it names and nothing has moved is blocked until its reset exactly if the answer calls it exhausted and the reset lies ahead; every other block stays as it was |
| QuotaEffects.AnswerMarks | internal/claude/quota_cache.go:197-219 | an answer moves no version and unmarks exactly the windows it stores |
| QuotaEffects.AnswerTimesLane | internal/claude/quota_cache.go:158-235 | the lane is due 5, 15 or 60 minutes after a failure, or at the time to live or the earliest refresh of its own stored windows after an answer, or at its old deadline where a stale answer gave that back; never before the retry time; a not-authenticated answer parks both lanes |
| QuotaEffects.TurnLeaves | internal/claude/quota_cache.go:262-334 | a turn leaves of each window its last report with version, mark and block cleared, and a refusal then blocks a reported window or marks an unreported one once |
| QuotaEffects.TurnTimesLane | internal/claude/quota_cache.go:279-333 | a lane is due at once if the refusal of an unreported, unmarked window wakes it, else, unless failing, when its last reported window is to be read again |
| QuotaEffects.DueExactly | internal/claude/quota_cache.go:127-156 | a lane is due exactly if no block that stops it lies ahead and its deadline has passed, or was lifted by the end of a block of its own |
| QuotaMachine.StepKeeps | internal/claude/quota_cache.go:59-125 | every critical section of Read and Observe keeps the entry's invariant |
| QuotaMachine.RunKeeps | internal/claude/quota_cache.go:59-125 | so does every interleaving |
| QuotaMachine.ApplyProbeKeeps | internal/claude/quota_cache.go:158-235 | applying an answer keeps windows, lanes and blocks in step with the history |
| QuotaMachine.ObserveKeeps | internal/claude/quota_cache.go:263-334 | an observation does too, and moves versions exactly where it reports or first refuses |
| QuotaCacheMachine.OneRefreshPerKey | internal/claude/quota_cache.go:58-125 | at most one reader per key refreshes, and its entry is still the one the key names |
| QuotaCacheMachine.RefreshedEntryIsReached | internal/claude/quota_cache.go:40-56 | a read or observation of any key leaves a refreshing key's entry in place, so all its callers reach the same one |
| QuotaCacheMachine.EntriesAreRuns | internal/claude/quota_cache.go:40-125 | each entry's history is a run of the entry machine, so the entry theorems hold of every entry of the cache |
| QuotaCacheMachine.RunKeeps | internal/claude/quota_cache.go:40-125 | ownership of refreshes is kept by every run, for any number of keys and readers |
| QuotaObjects.EntryObject.ExpireBlocks | internal/claude/quota_cache.go:127-141 | drops exactly the expired blocks and wakes their healthy lanes |
| QuotaObjects.EntryObject.DueLanes | internal/claude/quota_cache.go:127-156 | reports for both lanes whether a probe is due |
| QuotaObjects.EntryObject.ApplyProbe | internal/claude/quota_cache.go:158-235 | has the effect of the machine's reply on every field, which the Answer lemmas of QuotaEffects spell out |
| QuotaObjects.EntryObject.StoreOne | internal/claude/quota_cache.go:204-230 | stores, skips or restores the deadline as versions and dirtiness say |
| QuotaObjects.EntryObject.Observe | internal/claude/quota_cache.go:267-333 | has the effect of the machine's turn on every field, which the Turn lemmas of QuotaEffects spell out |
| QuotaObjects.EntryObject.RefuseOne | internal/claude/quota_cache.go:302-333 | blocks a reported window, or marks an unreported one dirty once and wakes its lane |
| QuotaObjects.EntryObject.SnapshotVersions | internal/claude/quota_cache.go:98-101 | takes the versions and the second due check in one section |
| QuotaObjects.EntryObject.Snapshot | internal/claude/quota_cache.go:237-260 | each window once, sorted by id, with the lanes' errors when there is none |
| QuotaObjects.CacheObject.EntryFor | internal/claude/quota_cache.go:40-56 | finds the key's entry or makes one, evicting exactly the idle ones |
| QuotaObjects.CacheObject.BeginRead | internal/claude/quota_cache.go:59-91 | joins a refresh, answers from the cache, or starts one; evicts exactly the idle entries when it makes one, and leaves every other entry as it was |
| QuotaObjects.CacheObject.ObserveTurn | internal/claude/quota_cache.go:262-334 | observes into the entry the key names; evicts exactly the idle entries when it makes one, and leaves every other entry as it was |
| QuotaReports.WindowRefreshes | internal/claude/quota.go:53-67 | a reading shows a window exactly when its utilization is finite and not negative, as a percentage; it is refreshed at the time to live or the reset, and no later than either |
| QuotaReports.QuotaEvent | internal/claude/quota.go:105-143 | whatever order the map is walked in, the last window of each id is the direct reading or else the named one; a refusal names its window if it has one |
| QuotaReports.ReportsExactly | internal/claude/quota.go:105-143 | an event reports a window exactly if its name, direct first, comes with a reading that shows one; Fable's only for a Fable model |
| SessionTheorems.OneForeground | session_prompt.go:107-149 | never a turn beside a cycle, and a turn only while its own prompt holds the gate |
| SessionTheorems.PromptTerminalIsDurable | session_prompt.go:285-331 | a prompt's terminal event follows a successful commit made for it and carries the decided outcome |
| SessionOutcomes.PromptEventIsTold | session_prompt.go:221-341 | a prompt's terminal event says cancelled if its claim found it struck by a cancel or a close in the run, and else the very outcome its settlement step was told; nothing with a failed commit or a lost transport has one |
| SessionOutcomes.AgentEventIsTold | session.go:565-599 | a settled agent run's event says cancelled if a cancel struck it, and else an outcome a settlement step of it was told |
| SessionTheorems.AgentTerminalIsBacked | session.go:565-599 | an agent run's terminal event follows its commit, or is a death's failure, or a close's cancellation, committed if and only if the session was persisted |
| SessionTheorems.NoTerminalUnbacked | session_prompt.go:297-323 | a prompt whose commit failed or whose transport was lost never has a terminal event |
| SessionTheorems.DurableMeansCommitted | session_store.go:68-96 | outside ephemeral sessions a run is durable only through a commit in the run |
| SessionTheorems.PromptEndsOnce | session_prompt.go:325-331 | a prompt has at most one terminal event |
| SessionTheorems.AgentRunEndsOnce | session.go:587-628 | settlement, death and close publish at most one terminal event of an agent run between them, where no unbound pump sampled a live cycle and every stop waited for its pump |
| SessionLadder.SampleEndsTwiceExactly | session.go:450-526 | in a run careful so far, closes included, a sample of a live cycle lets otherwise careful steps end it twice if and only if the sampler's generation is unbound, the owner is not about to fence for a failed commit, and no close has failed to commit |
| SessionLadder.HeldEndsTwice | session.go:913-984 | once the owner is past its events under a close that has not failed to commit, the ladder can end the cycle and the sampler can end it again, whatever holds the gate |
| SessionContests.BothEnd | session.go:565-599 | a pump at work on a live cycle that is not its own, and the owner wherever it stands before a fence, can both end it |
| SessionContests.DoomedEndsOnce | session.go:575-585 | a cycle whose owner is about to fence, or whose close has failed to commit, ends at most once, whatever the sampler does |
| SessionSlots.RunKeepsSlots | session.go:222-320 | in careful runs the generation of a live cycle in the slot is bound or its pump has finished, and a generation being set up beside it is that one |
| SessionDialogs.SampleLeavesDialogExactly | session_permissions.go:61-102 | in a run careful so far, a sample of a live cycle lets otherwise careful steps publish its terminal event beside an unresolved action of it if and only if no close has begun, the sampler's generation is unbound, and the owner has not begun to settle |
| SessionDialogs.GuardedLeavesNone | session.go:807-835 | beside an owner that is settling the sampled cycle, or is done with it, no careful continuation publishes it with an action of it unresolved: new dialogs are refused and old ones joined |
| SessionTheorems.SampleTakesOwnExactly | session.go:450-490 | outside a close, in a run careful so far, a sampled live cycle is the pump's own exactly when its generation is still bound |
| SessionTheorems.PromptSettlesQuiet | session.go:779-787 | from a prompt's join until its slot is free no interrupt or dialog runs and none is admitted, so no action is unresolved at its terminal event |
| SessionTheorems.AgentRunSettlesQuiet | session.go:807-835 | with careful samples and stops, a live agent run has no callback left, and is given none, from the join of its settlement or of its generation's end on |
| SessionTheorems.AgentRunPublishesQuiet | session.go:741-787 | so when its terminal event appears, whoever publishes it; and in every run a close finds no callback at all and a settlement no interrupt of the run |
| SessionQuiet.NoInterruptOfSettled | session.go:756-787 | in every run, once a settlement has joined, no interrupt of that foreground is left or admitted |
| SessionTheorems.ClosedStaysFenced | session.go:977-984 | after close nothing is active, nothing is opening and no opening passes its checks |
| SessionTheorems.EndedGenerationIsCutOff | session.go:642-653 | runtimeEnded leaves the stream active exactly under a close, and otherwise no stream of its generation is ever active again |
| SessionTheorems.OneProcess | session.go:222-249 | at most one process lives, and none while a relaunch repairs the transcript and starts the next |
| SessionTheorems.CancelBeforeClaimDecides | session.go:741-769 | a cancel that takes effect before the claim gives a cancelled verdict however the native run ended, unless a prompt's commit failed |
| SessionTheorems.ClaimedForGood | session.go:789-797 | once a prompt's verdict is claimed no run changes the claim or the verdict |
| SessionTheorems.AgentClaimedForGood | session.go:587-589 | the same of an agent run for as long as its stream is live, with careful samples and stops |
| SessionTheorems.CancelAfterClaimIsLost | session.go:746-756 | a cancel after the claim changes nothing, and a cancel touches no run but the one in the slot |
| SessionProcesses.StepKeeps | session.go:449-985 | every step of every goroutine keeps the session's invariant |
| SessionProcesses.RunKeeps | session.go:449-985 | so does every interleaving |
| SessionProcesses.CutStays | session_lifecycle.go:28-69 | a generation runtimeEnded has cut off stays unbound, with no opening and no active stream |
| SessionProcesses.AliveStaysOwned | session.go:656-697 | live processes belong to the bound, retired or launching generation, over unbind and relaunch |
| SessionProcesses.CallbacksStayJoined | session.go:741-835 | the joined callbacks stay joined through every step |
| SessionSettlement.RunsStaySound | session_prompt.go:268-331 | every step keeps each run's verdict and published events what its settlement decided |
| SessionSettlement.ClosureMoves | session_prompt.go:285-327 | each stage of a prompt's settlement establishes what the next relies on: commit before claim, fence before drop |
| SessionFacts.StepEvolves | session.go:148-174 | no step takes back a flag, an end or a published event, and a fenced incarnation is never active again |
| SessionCycles.StepKeepsCycles | session.go:539-599 | with careful samples and joins, a live agent run is handled by one pump, holds the slot, and can be ended by one goroutine |
| SessionCycles.PublishesOnce | session.go:589-628 | whoever publishes a live agent run's event does so first, and is done with it |
| SessionCycles.ResponsibleStays | session.go:942-969 | a live run in the slot keeps its generation bound, or the one a close is stopping |
| SessionWitnesses.StaleSampleEndsTwice | session.go:486-526 | a legal run with one careless sample, all else careful, ends an agent run twice |
| SessionWitnesses.StaleDialogOutlivesRun | session_permissions.go:61-102 | a legal run with one careless sample publishes a run's terminal event beside that run's own unresolved action; every step but that sample is careful |
| SessionWitnesses.GivenUpPumpEndsTwice | session.go:710-726 | a legal run whose every sample is careful, but with one stop that did not wait for its pump, can end an agent run twice |
| SessionWitnesses.CloseEndsUncommitted | session.go:913-975 | a legal, careful run whose close ends a cycle with nothing committed |
| SessionWitnesses.ClosingKeepsStream | session.go:618-654 | a legal run that unbinds a generation with its stream active under a close |
| SessionRely.StepRelies | session.go:449-985 | no step of any goroutine takes back a flag or an event, revives an incarnation, or admits a callback or a cycle a close has joined or taken |
| SessionRely.StepReliesTurn | session_prompt.go:268-331 | while a prompt holds the gate no other goroutine takes its turn out of the slot or rewrites what it is settled by, nor admits a callback once it has joined |
| SessionRely.StepReliesRun | session.go:565-599 | with careful samples and stops no other goroutine rewrites what a live agent run is settled by |
| SessionRely.StepClosesNone | session.go:902-985 | only the close ladder ends a run in the name of the close |
| SessionRely.RelyOn | session.go:449-985 | any number of other steps may come between two regions |
| SessionObject.Session.Cancel | session.go:741-762 | marks the turn, or else the cycle, unless it is cancelled or claimed already, and touches no other run; starts an interrupt exactly if it marked one not yet settling, on a bound, unending generation outside a close |
| SessionObject.Session.RegisterDialog | session.go:807-824 | admits a dialog exactly on a bound runtime with no cancelled or settling foreground and no close |
| SessionObject.Session.CallbackDone | session.go:826-834 | leaves the WaitGroup once |
| SessionObject.Session.Joined | session.go:786 | the wait returns exactly when no admitted callback is left |
| SessionObject.Session.Prompt | session_prompt.go:131-203 | refused beside a cycle; unslotted and unsettled when it leaves early; else accepted into the incarnation active then, answered failed, cancelled or with the native outcome it was given, and the slot is free again |
| SessionObject.Session.SettleTurn | session_prompt.go:268-341 | whatever runs beside it: failed after a failed commit, else cancelled if the claim found it so, else failed for a lost transport, else the native outcome it was given; the terminal event carries that and follows a commit of this run; a failed commit or lost transport publishes nothing and unbinds the generation; no callback is left |
| SessionObject.Session.SettleAgentCycle | session.go:565-599 | where the other goroutines' samples and stops are careful: while the stream stays live the terminal event follows the commit with the claimed verdict; a failed commit leaves the stream dead and the generation unbound |
| SessionObject.Session.OpenAgentCycle | session.go:539-561 | the run carries the active incarnation; it is handed on exactly if the slot was free on a bound generation outside a close, and it still holds it so |
| SessionObject.Session.OpenStream | session_lifecycle.go:28-61 | publishes a new incarnation exactly for a live process whose generation is found bound and unending outside a close, if the host takes it |
| SessionObject.Session.RuntimeEnded | session.go:605-654 | once no callback is left the cycle it took is failed if still live, the turn it found has an end, and the generation is unbound and retired, its stream fenced unless a close is under way; of a generation not bound, nothing |
| SessionObject.Session.Relaunch | session.go:222-275 | binds the new generation exactly if the retired process, where there is one, has exited and no close has begun |
| SessionObject.Session.Close | session.go:902-985 | cancels the turn it finds; commits what a persisted session owes and fails exactly if that fails; ends the cycle it takes as cancelled, once, if still live and no commit failed, and no other run; ends fenced, with nothing opening, admitted or in the cycle slot |
| ProjectionTheorems.ShownIsMatchedThenTail | session_updates.go:189-279 | per parent and kind, what was shown since the last message_start is the matched blocks and then the unmatched tail, with the used index in range |
| ProjectionTheorems.LiveAgreesWithReplay | session_replay.go:12-35 | with every block matched and no tail left, live and replayed text are equal if and only if no row with text came again after a row of another API message |
| ProjectionMatches.LiveAgreesWhereAllFit | session_replay.go:12-35 | the same where every block began the streamed tail or extended it and nothing was cut off |
| ProjectionMatches.CleanExactly | session_updates.go:368-399 | in any run, live or replayed, every block matched and no tail was cut exactly if no message_start came upon a tail and each block offered began the tail or extended it |
| ProjectionMatches.MatchesExactly | session_updates.go:368-399 | a block matches exactly if it and the tail begin one with the other; the tail and the suffix are then the longer of the two, and otherwise nothing is used or shown |
| ProjectionMatches.BlockShows | session_updates.go:368-399 | a block shows exactly what it adds to the tail it begins with, and a stream used up is released |
| ProjectionMatches.DeltaIsShown | session_updates.go:217-226 | a delta is shown as it arrives and joins the tail |
| ProjectionTheorems.LiveRemembers | session_updates.go:239-246 | the live stream remembers exactly the rows of a parent's last API message |
| ProjectionTheorems.ReplayRemembers | session_replay.go:12-35 | replay remembers exactly the rows that came |
| ProjectionTheorems.RepeatedRowShowsTwice | session_updates.go:232-246 | a row repeated after another API message is shown twice live and once in replay |
| ProjectionTheorems.MatchEats | session_updates.go:372-399 | a matched block eats the front of the tail or ends it, byte for byte |
| ProjectionTheorems.ContextIsLastFigure | session_updates.go:459-516 | after any input the context is the last figure sent since the cycle opened or claude compacted, and figures are positive |
| ProjectionFigures.OpeningReports | session_updates.go:459-479 | a message_start opens its call and reports input, cache reads and cache writes, an absent member counting zero; an empty report states nothing |
| ProjectionFigures.ClosingReports | session_updates.go:442-502 | a message_delta closes an open call and reports the request, each member falling back to the opening's, and its own output; a request of zero reports nothing |
| ProjectionFigures.RecordReports | session_updates.go:325-341 | a record reports its own request without output, exactly if no message_start announced its call |
| ProjectionFigures.CompactionForgets | session_updates.go:121-126 | a top-level compaction forgets call and figure, cancelled or not |
| ProjectionFigures.CancelledIsSilent | session_updates.go:128-130 | a cancelled cycle sends and keeps nothing of any event but a compaction |
| ProjectionFigures.OpenCallIsLastStart | session_updates.go:459-502 | in every run an open call is the last one a message_start opened, so a delta falls back to that one's report |
| ProjectionTheorems.OneBreakdownPerCall | session_updates.go:481-502 | each top-level message_start yields at most one message_delta breakdown before the next |
| ProjectionTheorems.NoBreakdownUncalled | session_updates.go:481-486 | before the first message_start there is none |
| ProjectionTheorems.DelegatedChangesNoFigure | session_updates.go:198-216 | a delegated event changes neither context nor call, and whatever it sends is text |
| ProjectionTheorems.SettlementRestates | session_updates.go:518-537 | settlement restates exactly the last figure, and is silent without one unless a structured result must go out |
| ProjectionObject.CycleState.ConsumeAssistantText | session_updates.go:368-399 | matches one block in place, releasing the stream once every byte is matched |
| ProjectionObject.CycleState.ProjectStream | session_updates.go:189-230 | has the effect of the specification's stream event |
| ProjectionObject.CycleState.ProjectAssistant | session_updates.go:232-341 | has the effect of the specification's row, over all its blocks |
| ProjectionObject.CycleState.EmitResponseUsage | session_updates.go:481-502 | closes the open call once and reports its figure if it states one |
| ProjectionObject.CycleState.ProjectEvent | session_updates.go:121-148 | dispatches one event; a cancelled cycle only follows compactions |
| ProjectionObject.Follow | session_replay.go:12-68 | the live loop and the replay loop compute their specified cycles |
| Registry.NeverOverLimit | agent_session.go:115-133 | installed sessions and reservations not yet installed never exceed the limit in any interleaving, and every slot is held by exactly one request until released |
| Registry.GaugeCountsSessions | agent_session.go:926-940 | the gauge is the number of installed sessions whenever no update of it is pending |
| Registry.DeletedNeverResolves | agent_session.go:886-906 | once marked deleted an id never resolves and is never installed again |
| Registry.NothingUnderDeleted | agent_session.go:827-845 | after a delete has returned nothing is ever in the map under its id |
| Registry.NothingAfterShutdown | agent.go:219-248 | after the agent's close has finished its ladder no session is installed |
| Registry.StepKeeps | agent_session.go:115-166 | every critical section keeps counts and what each request knows of the map |
| RegistryObject.AgentObject.ReserveSlot | agent_session.go:118-133 | claims a slot exactly when the agent is open and sessions and claims are below the limit |
| RegistryObject.AgentObject.ReleaseSlot | agent_session.go:130-132 | releases a slot once however often it is called |
| RegistryObject.AgentObject.Install | agent_session.go:136-166 | installs exactly when open, not deleted and not taken |
| RegistryObject.AgentObject.Detach | agent_session.go:928-940 | removes exactly this object |
| RegistryObject.AgentObject.MarkDeleted | agent_session.go:827-831 | tombstones the id and returns what is live under it |
| RegistryObject.AgentObject.Session | agent_session.go:888-906 | resolves exactly the live, undeleted ids of an open agent |
| RegistryObject.AgentObject.BeginClose | agent.go:219-229 | closes once and returns what there is to shut |
| RegistryObject.AgentObject.DetachAll | agent.go:235-241 | empties the map and lowers the gauge by as much |
| Carrier.PrintParses | session_meta.go:112-158 | every valid options value prints to metadata that parses back to it, a printed bare becoming explicitly set |
| Carrier.ParsePrintsParses | session_meta.go:247-327 | what parses is a fixed point of printing and parsing |
| Carrier.MetaTellsApart | session_meta.go:112-149 | two values print the same exactly when they agree on every field, an unset false bare aside |
| Carrier.ParseClaudeOptions | session_meta.go:247-327 | in whatever order keys are read, success and the options do not depend on it |
| Carrier.AcceptsExactly | session_meta.go:247-345 | options are accepted exactly if every key is known and typed as it must be, a schema is not empty, a mode is one of the seven and the environment passes its check |
| Carrier.ParsesFields | session_meta.go:247-327 | what is accepted has each field from its own key and nothing where it is absent |
| Carrier.PrintMeta | session_meta.go:112-149 | prints exactly the non-zero fields |
| Carrier.PrintsFields | session_meta.go:112-149 | each field that is set prints under its own key, a false bare only where it was named |
| Carrier.InheritCarrier | agent_session.go:564-601 | fills exactly the fields a restore omitted |
| Carrier.InheritsFields | agent_session.go:564-601 | each field is the request's where it names it, and else the record's |
| Carrier.SameCarrier | agent_session.go:542-562 | compares the values a relaunch would use |
| Carrier.SameIffAgrees | agent_session.go:542-562 | a restore names the same carrier exactly when every field it names has the record's value |
| Carrier.RestoreRepeats | agent_session.go:431-442 | repeating a request over the record its launch left changes no option but a model the launch took from the agent's default, leaves the same record, and compares as the same carrier |
| ProjectDir.NameShape | internal/claude/project_dir.go:22-49 | letters, digits and dashes only; one unit per UTF-16 code unit up to 200, else 201 and one to six digits; an empty path is one dash |
| ProjectDir.NameKeepsLetters | internal/claude/project_dir.go:22-49 | ASCII letters and digits stand, every other unit is a dash, and past 200 units comes one dash more |
| ProjectDir.LongNameReads | internal/claude/project_dir.go:40-65 | the end of a long name, in digits and small letters, reads in base 36 as the path's hash |
| ProjectDir.HashIsResidue | internal/claude/project_dir.go:51-65 | the hash is the absolute value of the signed 32-bit residue of the base-31 reading |
| ProjectDir.HashIsBase31 | internal/claude/project_dir.go:53-57 | the hash is the base-31 reading of the units |
| ProjectDir.EncodesEach | internal/claude/project_dir.go:22-24 | a path is encoded rune by rune, in order |
| ProjectDir.RunesEncode | internal/claude/project_dir.go:22-24 | a scalar value outside the basic plane takes a surrogate pair that reads back as it, and what is none the replacement character |
| ProjectDir.NameIdempotent | internal/claude/project_dir.go:22-45 | naming a name changes nothing for paths of at most 200 units |
| ProjectDir.LongNameRenamed | internal/claude/project_dir.go:40-45 | a longer path's name is its own name exactly when their hashes agree |
| ProjectDir.LongNamesCollide | internal/claude/project_dir.go:44 | two long paths share a name exactly when their first 200 units clean to the same and their hashes agree |
| ProjectDir.Magnitude | internal/claude/project_dir.go:51-65 | the wrapping loop computes the absolute value of the signed 32-bit residue of the base-31 polynomial, -2^31 included |
| ProjectDir.SixDigits | internal/claude/project_dir.go:59-64 | a magnitude takes one to six base-36 digits |
| ProjectDir.Base36Reads | internal/claude/project_dir.go:64 | the digits read back as the magnitude |
| ProjectDir.ProjectDirName | internal/claude/project_dir.go:22-45 | computes the specified name through the unit buffer |

## Left out

- acp-go-core, which is not part of this model: the gate is a one-slot lock; the publisher has a current incarnation, and events of a run publish nothing unless its incarnation is the active one; a mirror commit succeeds or fails; streamed text is an appendable string per parent; a usage report is known when some member is present and not zero; string maps and lists decode from objects and lists of strings; one restore per id is admitted at a time, which nothing proved here needs.
- A mirror commit's exit for a session without a transcript path (session_store.go:77-79): a run here begins after the first launch has set the path.
- Time as liveness: every wait bounded by a timeout may end either way, so the waits of close and runtimeEnded for the turn to finish are not guards; only the pump joins are assumed, where a theorem says so. Quota clocks do not go back.
- SessionTheorems.AgentTerminalIsBacked: states durability for sessions the store knows; an ephemeral session is exempt from commits by design.
- SessionTheorems.PromptSettlesQuiet: prompts that leave before dispatch (session_prompt.go:151-182) release their turn without joining callbacks and never settle, so nothing is stated of them.
- SessionTheorems.EndedGenerationIsCutOff: openStream may be called at any moment here, so an opening between a settlement's fence and its drop of the generation can leave a stream active with nothing bound; the theorem is about generations that runtimeEnded unbinds.
- SessionTheorems.AgentRunEndsOnce: assumes careful samples and stops; exactly which samples matter is SessionLadder.SampleEndsTwiceExactly; which give-ups matter is only shown by a run.
- SessionObject.Session.Prompt: ensureRuntime, dispatch and the waits for the native run are its parameters; SessionObject.Session.Relaunch models the relaunch on its own.
- SessionObject.Session.Relaunch: the transcript's repair and the start of the process are not in the object; the machine takes them as steps, over which SessionTheorems.OneProcess holds.
- SessionObject.Session.SettleAgentCycle: what it assumes of other goroutines SessionRely.StepReliesRun proves for careful samples and stops only.
- Carrier.RestoreRepeats: the model the native side reports after launch (session.go:356-371) is the default passed in.
- ProjectionObject.CycleState.ProjectAssistant: prose blocks only; tool uses, server tools and images in the same row are not projected.
- ProjectionObject.CycleState.ProjectEvent: text, usage and compaction; user rows, results and task notifications are not projected.
- ProjectionObject.Follow: assistant rows only; user rows, tool results and undecodable rows of a replay are skipped.
- RegistryObject.AgentObject.DetachAll: runs without interleaving; Registry takes the same ladder session by session.
- Cycle objects are entries of a map from run number to value in SessionObject, so aliasing of the Go pointers is represented by equal numbers and not by shared references.
- The order in which finishDelivery hands over events held back during a turn's commit (session.go:988-1017): the pump is modelled as handling them afterwards, one by one.
- Session poisoning, catalogs, configuration values, raw events, telemetry, and the native client's framing and correlation: I/O or wrappers around what is modelled.
- A dialog refused by registerDialog still runs with a cancelled context and is not counted by the WaitGroup; only registered dialogs are modelled.
- Failed deliveries: projection theorems assume each update reaches the host; message ids, tool calls, images and undecodable content are not projected.
- ProjectionTheorems.LiveAgreesWithReplay: compares rows of an uncancelled cycle; a cancelled cycle stops projecting rows that its transcript still holds.
- Version counters are unbounded here and wrap at 2^64 in the code; percentages are exact.
- Response headers of a probe (internal/claude/quota.go:69-91) and the probe itself: an answer is any list of windows with its flags.
- Eviction of quota entries is by unreachability from the key map, as in the code; a reader that waited on an evicted entry still reads the object it holds.
- What closing a session does between a registry's lookup and its detach: Registry treats it as time passing; the session machine models it.
- Listing, pagination, restore from the store and hydration: they read the registry and change nothing in it.
- The vendor namespace around the options object and its raw-event switch (session_meta.go:184-245): membership checks with no state.
