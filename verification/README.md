# A TeamSpeak bot, verified

This project models six parts of a TeamSpeak music and voice bot in Dafny and proves what they are for:

- the **play queue**: a song list whose cursor, played set, back stack and forward stack are all list indices;
- **reconnect supervision**: operator, event-driven scheduler and watchdog all start bots, while connects hang, resolve
  late, time out or drop, with several instances per bot id;
- the **edit distance** behind fuzzy name search, filled in two rows that swap roles;
- the **audio path**: the player's byte buffer, frame loop, stall guard and back-pressure, and the Opus packet splitter;
- **crate packing** in the fewest boxes;
- **bounded chat history** and the **hangar merge**.

## How it is built

Code that changes state is a class or a method with loops, proved equal to a function on values; the theorems are
lemmas about those functions, over every input or every run. `MusicQueue`, `PcmPlayer`, `Scheduler`, `Watchdog`,
`BotInstance`, `BotManager`, `ConversationStore` and `UserShipsStore` are the classes of the source. In the bot protocol
a step runs from one `await` to the next; a connect that resolves and the continuation of its caller are one step. A
queue run is a list of steps, a protocol run any interleaving of enabled steps.

| file | contents |
|---|---|
| `PlayQueue.dfy`, `MusicQueue.dfy` | queue operations on values; the queue object |
| `QueueIdentity.dfy` | refinement to a queue that stores songs by identity |
| `QueueShuffle.dfy`, `QueueRetrace.dfy`, `QueueOrder.dfy`, `QueuePlay.dfy` | shuffle bag; `prev` against `next`; humans before radio; when there is a song, and which |
| `ReconnectScheduler.dfy`, `Watchdog.dfy` | the two recovery drivers, with their objects |
| `BotProtocol.dfy`, `BotSupervision.dfy`, `BotRetries.dfy`, `BotDrops.dfy`, `BotOutcomes.dfy` | the protocol and its invariant; safety over runs; two gaps in it; what each step comes to |
| `BotManager.dfy` | manager and instances as objects, refining the protocol |
| `EditDistance.dfy`, `AudioPlayer.dfy`, `TrackEnds.dfy`, `OpusPacket.dfy`, `Crates.dfy`, `History.dfy`, `Hangar.dfy` | the other cores |
| `Wrappers.dfy`, `Octets.dfy` | shared types |

## Where the code differs from what it promises

- **Opus, code 3.** `splitOpusPacket` reads bit 0x80 of the count byte as "equal sizes"; section 3.2.5 of RFC 6716 gives
  that bit to "explicit sizes". It also accepts packets of more than 120 ms, which requirement R5 forbids.
  `OpusPacket.WhereTheStandardDiffers` and `OpusPacket.AgreeIff` say exactly when code and standard disagree, where
  `OpusPacket.StandardRoundTrip` and `OpusPacket.StandardIsPacked` pin down the standard's side;
  `OpusPacket.PolarityMatters` and `OpusPacket.LengthMatters` give packets. Round trip and soundness are proved for either
  polarity.
- **Overtaken reconnects.** An operator's start does not cancel the scheduler's run in flight. If the run's connect then
  fails, it reschedules and its timer will tear down a bot that is online: `BotRetries.OvertakenGoesDown`.
  `BotRetries.DoomedIff` and `BotRetries.DoomHasACause` say exactly how an online bot comes to have a timer pending, and
  `BotRetries.OnlyOperatorsOvertake` shows that only operators cause it.
- **Lost reconnects.** A remote drop of a bot that should be up is not scheduled while a reconnect of it is in flight, even
  if a stop has outdated that one: `BotDrops.DropScheduledIff`, `BotDrops.RecoveryLostIff`, with a run in
  `BotDrops.AbandonedHappens`.
- **`addNext` before anything plays** appends at the end, as its comment says. A consequence: a human's song can land behind
  radio fill, exactly as in `QueueOrder.AddNextKeepsOrderIff`, with a run in `QueueOrder.AddNextBreaksOrder`.
- **`addMany`'s result** is stale when its first song is radio fill and a later one is a human's: `QueueOrder.FirstIndexIff`,
  `QueueOrder.FirstIndexGoesStale`.
- **`prev` on a repeated song.** A song on top of the back stack that is also the current one makes `prev` and `next` lose
  the place, and so does a full forward stack: `QueueRetrace.RetraceIff`, with a run in `QueueRetrace.PickedTwiceSlips`.

## Model

| member | source | states |
|---|---|---|
| QueueIdentity.StepRefines | bot/src/audio/queue.ts:60-298 | Every operation, with every index replaced by the identity of its song, is the operation of a queue that stores identities: an insertion disturbs nothing, a removal forgets one song only and leaves its left neighbour current. |
| QueueIdentity.RunRefines | bot/src/audio/queue.ts:34-298 | The same over every run of operations, modes and random choices. |
| QueueIdentity.PutRefines | bot/src/audio/queue.ts:117-127 | The index shift after an insertion leaves cursor, played set and both stacks naming the same songs. |
| QueueIdentity.TakenRefines | bot/src/audio/queue.ts:129-159 | The index shift after a removal drops exactly the removed song from played set and stacks. |
| QueueIdentity.MixedRefines | bot/src/audio/queue.ts:223-256 | The shuffle bag by identity is the same bag, and the same draw takes the same song. |
| PlayQueue.StepIsValid | bot/src/audio/queue.ts:44-329 | Every operation keeps all indices in range and both stacks at most 50 long. |
| PlayQueue.RunIsValid | bot/src/audio/queue.ts:34-329 | So does every run. |
| PlayQueue.FirstRadio | bot/src/audio/queue.ts:68-75 | The insertion point is the first radio track after the current song, or the end. |
| PlayQueue.ResumesNewest | bot/src/audio/queue.ts:210-221 | Resuming pops exactly the entries above the newest one that is in range and not current. |
| PlayQueue.ReturnsNewest | bot/src/audio/queue.ts:269-281 | Going back pops exactly the entries above the newest one that is in range. |
| QueuePlay.DrawIff | bot/src/audio/queue.ts:252 | The k-th of n entries is drawn by exactly the k-th of n equal parts of the random numbers. |
| QueuePlay.PickedIff | bot/src/audio/queue.ts:223-256 | With nothing to resume, each song left, or of a new bag, is played for exactly its equal part of the random numbers. |
| QueuePlay.EverySongCanBePicked | bot/src/audio/queue.ts:223-256 | Every song in the bag is played for some random number. |
| QueuePlay.NextGivesIff | bot/src/audio/queue.ts:192-259 | `next` gives a song exactly when: in Sequential one follows; in the loop modes there is one; in Random one is ahead or in the bag. |
| QueuePlay.PrevGivesIff | bot/src/audio/queue.ts:261-298 | `prev` gives a song exactly when one was played before, or an orderly mode has a slot to step to. |
| QueuePlay.SequentialPlaysOn | bot/src/audio/queue.ts:196-202 | A Sequential run of `next` gives the songs after the current one in order, once each, and then nothing. |
| QueuePlay.LoopGoesRound | bot/src/audio/queue.ts:203-207 | A Loop run of `next` goes through the list round and round. |
| PlayQueue.StacksKeepFifty | bot/src/audio/queue.ts:42-50 | The back stack keeps the fifty latest songs; `prev` remembers at most fifty ahead. |
| MusicQueue.MusicQueue.constructor | bot/src/audio/queue.ts:34-42 | An empty queue in random-loop mode. |
| MusicQueue.MusicQueue.PushHistory | bot/src/audio/queue.ts:44-50 | The back stack keeps the 50 latest in-range indices. |
| MusicQueue.MusicQueue.Add | bot/src/audio/queue.ts:60-85 | The whole new queue and the returned index, for radio and human songs. |
| MusicQueue.MusicQueue.AddMany | bot/src/audio/queue.ts:87-95 | The songs are added one by one; the index is the first one's when it was inserted. |
| MusicQueue.MusicQueue.AddNext | bot/src/audio/queue.ts:106-115 | The whole new queue, with the source filled in. |
| MusicQueue.MusicQueue.ShiftIndicesAfterInsert | bot/src/audio/queue.ts:117-127 | All three index structures shift at the insertion point. |
| MusicQueue.MusicQueue.Remove | bot/src/audio/queue.ts:129-159 | The whole new queue and the removed song; nothing for a bad index. |
| MusicQueue.MusicQueue.Clear | bot/src/audio/queue.ts:161-167 | Everything but the mode is reset. |
| MusicQueue.MusicQueue.Play | bot/src/audio/queue.ts:169-177 | Starts at the first song with a fresh bag and no stacks. |
| MusicQueue.MusicQueue.PlayAt | bot/src/audio/queue.ts:179-190 | Jumps, remembers the song left, and starts a new bag. |
| MusicQueue.MusicQueue.Next | bot/src/audio/queue.ts:192-259 | The whole new queue in each of the four modes, and the song under the cursor. |
| MusicQueue.MusicQueue.NextShuffled | bot/src/audio/queue.ts:208-221 | Resumes the forward stack before it asks the bag. |
| MusicQueue.MusicQueue.Shuffle | bot/src/audio/queue.ts:223-256 | One draw from the bag, or from a new bag without the current song. |
| MusicQueue.MusicQueue.PopHistory | bot/src/audio/queue.ts:269-281 | The popping loop finds the newest entry that is in range. |
| MusicQueue.MusicQueue.Prev | bot/src/audio/queue.ts:261-298 | The whole new queue and the song returned. |
| MusicQueue.MusicQueue.PrevSlot | bot/src/audio/queue.ts:283-297 | Without history: one slot back, wrapping in loop mode only, nothing in the shuffle modes. |
| MusicQueue.MusicQueue.SetMode | bot/src/audio/queue.ts:321-329 | A new mode forgets bag and stacks but for the current song. |
| QueueShuffle.CyclesArePermutations | bot/src/audio/queue.ts:223-256 | Random loop: after what is left of the bag, every further n picks are a permutation of the queue, whatever the random numbers. |
| QueueShuffle.NeverTwiceInARow | bot/src/audio/queue.ts:242-250 | Random loop: no song follows itself, across cycle boundaries too. |
| QueueShuffle.EveryWindowHasEverySong | bot/src/audio/queue.ts:223-256 | Random loop: any 2n-1 picks in a row contain every song. |
| QueueShuffle.RandomStopsAfterOneCycle | bot/src/audio/queue.ts:232-234 | Random: the songs left are each picked once, then `next` gives nothing and the queue stands still. |
| QueueShuffle.OneDraw | bot/src/audio/queue.ts:223-256 | What one draw does to the bag in both shuffle modes. |
| QueueShuffle.FullCycle | bot/src/audio/queue.ts:223-256 | From an empty bag, n draws take every song once and empty the bag. |
| QueueRetrace.Retrace | bot/src/audio/queue.ts:210-281 | Any number of `prev` calls followed by `next` calls revisits the same queues in mirror order, when neighbours differ and there is room ahead. |
| QueueRetrace.RetraceIff | bot/src/audio/queue.ts:208-281 | For any k within the history, k `prev` and k `next` lead back to the same song and stacks exactly when neighbours on the way differ and the forward stack has room; with one song exactly in random-loop mode with it current and nothing ahead. |
| QueueRetrace.RetraceOnceIff | bot/src/audio/queue.ts:208-281 | The same for one `prev` and one `next`. |
| QueueRetrace.PickedTwiceSlips | bot/src/audio/queue.ts:179-281 | From an empty queue: two songs, the second picked twice, and `prev` then `next` loses the place. |
| QueueRetrace.OneOnUndoesOneBack | bot/src/audio/queue.ts:210-281 | One `next` undoes one `prev` whatever was marked played meanwhile. |
| QueueOrder.AddManyPartitions | bot/src/audio/queue.ts:60-95 | After `addMany`, what is to come is old humans, new humans, old radio, new radio, each in order; the rest and the current song are untouched. |
| QueueOrder.AddNextLands | bot/src/audio/queue.ts:106-115 | `addNext` puts the song next, or last when nothing is current, and fills in a missing source only. |
| QueueOrder.NextKeepsOrder | bot/src/audio/queue.ts:196-202 | Sequential `next` keeps humans before radio. |
| QueueOrder.RemoveKeepsOrder | bot/src/audio/queue.ts:129-159 | Removing any song keeps humans before radio. |
| QueueOrder.AddNextKeepsOrderIff | bot/src/audio/queue.ts:97-115 | A human's `addNext` keeps the order exactly when a song is current or no radio is queued. |
| QueueOrder.AddNextBreaksOrder | bot/src/audio/queue.ts:106-111 | From an empty queue: a radio track, then a human's `addNext`, and the human's song is behind. |
| QueueOrder.RunKeepsOrder | bot/src/audio/queue.ts:60-202 | Over every run in Sequential mode that never goes back, with a human's `addNext` only while a song is current, what is to come stays humans before radio. |
| QueueOrder.BackwardKeepsOrderIff | bot/src/audio/queue.ts:169-190 | Going back, by `playAt`, `play` or `prev`, keeps the order exactly when the songs gone back over are in order and, if there is radio among them, no human's song is to come. |
| QueueOrder.FirstIndexIff | bot/src/audio/queue.ts:87-95 | The index `addMany` returns is where its first song ends up exactly when that song is a human's or no human's song follows it. |
| QueueOrder.FirstIndexGoesStale | bot/src/audio/queue.ts:87-95 | Into an empty queue: a radio and a human's track; `addMany` returns 0, and the radio track ends up in place 1. |
| QueueOrder.FollowFinds | bot/src/audio/queue.ts:60-95 | The song at any slot is found again at its followed slot after a batch. |
| QueueOrder.FollowMoves | bot/src/audio/queue.ts:60-95 | A song to come moves back only if it is radio, by the number of human songs in the batch. |
| ReconnectScheduler.SingleFlightAndBackoff | bot/src/bot/reconnect-scheduler.ts:59-150 | Over every run: never a timer beside a running reconnect, never two; the k-th wait since the last success, reset or cancel is `reconnectDelayMs(k)`. |
| ReconnectScheduler.StepIsSound | bot/src/bot/reconnect-scheduler.ts:59-150 | Each operation keeps single flight and the count of attempts. |
| ReconnectScheduler.WaitsDouble | bot/src/bot/reconnect-scheduler.ts:101 | The first wait is the base wait, and each wait is twice the one before, up to the maximum. |
| ReconnectScheduler.SecondWaitDoubles | bot/src/bot/reconnect-scheduler.ts:93-115 | Over every run: two successive waits of a bot, its attempts not cleared between, are d and the lesser of 2d and the maximum. |
| ReconnectScheduler.FirstWaitIsBase | bot/src/bot/reconnect-scheduler.ts:93-115 | Over every run: the first wait of a bot, at all or since its attempts were cleared, is the base wait. |
| ReconnectScheduler.DelaysGrow | bot/src/bot/reconnect-scheduler.ts:163-167 | Waits never shrink with the attempt and never exceed the maximum. |
| ReconnectScheduler.CancelledRunEndsSilently | bot/src/bot/reconnect-scheduler.ts:69-77 | Over every run: a reconnect begun before a cancel of its bot, whenever it ends after it, clears no attempts and schedules nothing. |
| ReconnectScheduler.RunIsLater | bot/src/bot/reconnect-scheduler.ts:49-57 | Over every run generations never go back, so no later operation makes a cancelled reconnect current again. |
| ReconnectScheduler.Scheduler.IsBusy | bot/src/bot/reconnect-scheduler.ts:59-97 | Single flight: true exactly when `schedule` would change nothing. |
| ReconnectScheduler.Scheduler.CancelTimers | bot/src/bot/reconnect-scheduler.ts:69-77 | Clears timer and attempts and begins a new generation. |
| ReconnectScheduler.Scheduler.ResetBackoff | bot/src/bot/reconnect-scheduler.ts:79-87 | Clears timer and attempts within the generation. |
| ReconnectScheduler.Scheduler.ScheduleReconnect | bot/src/bot/reconnect-scheduler.ts:93-115 | Sets the next timer with its delay unless the bot is busy. |
| ReconnectScheduler.Scheduler.OnTimer | bot/src/bot/reconnect-scheduler.ts:106-125 | Begins a run unless it was cancelled or one is under way. |
| ReconnectScheduler.Scheduler.OnRunEnd | bot/src/bot/reconnect-scheduler.ts:130-149 | Success clears the attempts, failure reschedules, both only in the run's own generation. |
| Watchdog.AttemptsKeepTheirDistance | bot/src/watchdog.ts:84-137 | Over every run: two attempts at a bot with no healthy sighting between are a cooldown apart, however the clock moves. |
| Watchdog.TriedIff | bot/src/watchdog.ts:108-129 | Over every run: a visit tries a bot exactly when it is down, not being recovered, and rested since its last attempt in this spell. |
| Watchdog.CycleVisitsAll | bot/src/watchdog.ts:110-137 | Over every run of a cycle each visit takes the next target in order, ticks are ignored meanwhile, and only a visit past the last target ends it. |
| Watchdog.StepIsSound | bot/src/watchdog.ts:108-137 | Each step keeps `lastAttempt` in line with the history. |
| Watchdog.Watchdog.Tick | bot/src/watchdog.ts:84-94 | A cycle begins only when none is under way, with the clock read once. |
| Watchdog.Watchdog.Visit | bot/src/watchdog.ts:110-129 | One turn of the loop: whom it tries and what it remembers. |
| Watchdog.Watchdog.Resume | bot/src/watchdog.ts:128-137 | After a reconnect has resolved or thrown, the loop goes on. |
| BotProtocol.StepKeepsInv | bot/src/bot/manager.ts:142-467 | Every step of every interleaving keeps the invariant: instances out of the map are torn down, runs and timers exclude each other, cancelled runs wait for torn down instances. |
| BotProtocol.StartKeepsInv | bot/src/bot/manager.ts:306-371 | `startBot` up to its connect tears the outgoing instance down before the new one takes its place. |
| BotProtocol.SettledKeepsInv | bot/src/bot/manager.ts:23-41 | A connect that resolves, fails or times out keeps the invariant. |
| BotOutcomes.FailedStartIsTorn | bot/src/bot/manager.ts:30-37 | After a start by operator, watchdog or scheduler has failed or timed out, its instance is torn down and not connected, and nothing else in map, rows or instances changes; a start-up connect that fails changes none of them. |
| BotOutcomes.FailedStartStaysDown | bot/src/bot/instance.ts:736-739 | Over every run it stays so, even when its connect resolves after all, unless a start of a bot without a row connects that instance again. |
| BotOutcomes.UntornIff | bot/src/bot/manager.ts:388-390 | Of all steps exactly such a start ends the teardown of an instance. |
| BotOutcomes.ResolvedStart | bot/src/bot/manager.ts:371-390 | What a resolved connect leaves of flags and rows, for each kind of start. |
| BotOutcomes.WatchdogGoesOn | bot/src/watchdog.ts:128-137 | Over every run: however its start ends, the watchdog goes on with the rest of its targets. |
| BotOutcomes.StepKeepsWatches | bot/src/watchdog.ts:84-94 | The watchdog waits exactly while one start of its own, and only one, is open. |
| BotOutcomes.OperatorStarts | bot/src/bot/manager.ts:306-389 | An operator's start on flags, map and calls, with and without a row. |
| BotOutcomes.RemovesAndIdles | bot/src/bot/manager.ts:224-234 | A removal tears down and forgets; the idle timeout tears down and does nothing else. |
| BotOutcomes.CreatesAndLoads | bot/src/bot/manager.ts:203-218 | A created bot has its row and a fresh instance; a loaded one connects exactly when it auto-starts. |
| BotOutcomes.StopsAndTicks | bot/src/bot/manager.ts:393-404 | A stop on row, flags and timers; a tick sets the watchdog on its targets only. |
| BotOutcomes.DropTearsDown | bot/src/bot/lifecycle/event-bindings.ts:95-106 | A drop tears its instance down; the scheduler is concerned only for the current one of a bot to be recovered. |
| BotOutcomes.WatchdogStartsIff | bot/src/watchdog.ts:110-129 | The watchdog starts a bot exactly when it is known, wanted, offline, not being recovered, and due. |
| BotOutcomes.TimerStartsIff | bot/src/bot/reconnect-scheduler.ts:106-149 | A timer starts its bot exactly when it is known and wanted; an unknown one is scheduled again. |
| BotProtocol.ConnectedKeepsInv | bot/src/bot/instance.ts:733-742 | A connect that was not aborted belongs to the current instance. |
| BotProtocol.DisconnectIsLocal | bot/src/bot/instance.ts:750-775 | `disconnect()` changes only its instance and never schedules a reconnect. |
| BotProtocol.StoppedKeepsInv | bot/src/bot/manager.ts:393-404 | `stopBot` keeps the invariant; its whole effect on the state. |
| BotProtocol.RemovedKeepsInv | bot/src/bot/manager.ts:224-234 | `removeBot` keeps the invariant. |
| BotProtocol.FiredKeepsInv | bot/src/bot/reconnect-scheduler.ts:106-150 | A timer and the start it makes keep the invariant. |
| BotProtocol.WatchedKeepsInv | bot/src/watchdog.ts:108-137 | The watchdog's starts keep the invariant. |
| BotProtocol.LoadedKeepsInv | bot/src/bot/manager.ts:406-467 | Loading saved bots, with their first connects, keeps the invariant. |
| BotSupervision.AtMostOneLive | bot/src/bot/manager.ts:306-391 | Over every run a connected instance is the one in the map, so a bot id has at most one. |
| BotSupervision.TornDownForGood | bot/src/bot/instance.ts:733-775 | An instance that has left the map stays out of it, torn down and not connected, whatever its pending connects come to. |
| BotSupervision.StopIsFinal | bot/src/bot/manager.ts:306-404 | After `stopBot`, until the next operator start of that bot, in every interleaving: autoStart false, no timer pending, no instance connected. |
| BotSupervision.StepStaysQuiet | bot/src/bot/manager.ts:142-172 | No step but an operator's start of the bot ends its quiet. |
| BotSupervision.SingleFlight | bot/src/bot/reconnect-scheduler.ts:93-150 | Over every run of the whole protocol: no timer beside a running reconnect of the bot, no two running reconnects. |
| BotSupervision.CancelledRunIsIgnored | bot/src/bot/reconnect-scheduler.ts:69-149 | A reconnect in flight when its bot is stopped or removed is ignored for good: after any further run of the protocol, starts included, its end touches no attempts, timers or generations. |
| BotSupervision.RunGrows | bot/src/bot/manager.ts:306-371 | Over every run: instances keep their bots, the map only takes in new instances, waiting reconnects are old ones unchanged, generations never go back. |
| BotRetries.DoomedIff | bot/src/bot/manager.ts:158-171 | An online bot comes to have a pending reconnect timer exactly by its voice transport being stuck or by the end of a run that another start has overtaken; going online calls off any timer already pending. |
| BotRetries.DoomHasACause | bot/src/bot/manager.ts:142-172 | Over every run: an online bot with a pending timer has met one of these two steps. |
| BotRetries.SettledDooms | bot/src/bot/reconnect-scheduler.ts:137-149 | Of all ends of connects, only the end of an overtaken run of the current generation does that. |
| BotRetries.OnlyOperatorsOvertake | bot/src/watchdog.ts:115-122 | A waiting run loses its instance's place exactly by an operator's start or removal of its bot: no timer, watchdog visit, stop, drop or other connect does that. |
| BotRetries.OvertakenHappens | bot/src/bot/reconnect-scheduler.ts:146-149 | A run from a fresh start that ends that way. |
| BotRetries.FireTearsDown | bot/src/bot/manager.ts:319-329 | When the timer pending for an online bot that should be up fires, the bot is torn down. |
| BotRetries.OvertakenGoesDown | bot/src/bot/reconnect-scheduler.ts:106-149 | The run goes on: the overtaken reconnect fails, its timer fires, and the bot that the operator had brought online is offline. |
| BotDrops.DropScheduledIff | bot/src/bot/reconnect-scheduler.ts:93-97 | The drop of an online bot that should be up is scheduled exactly when no reconnect of it is in flight. |
| BotDrops.RecoveryLostIff | bot/src/bot/reconnect-scheduler.ts:129-149 | After a drop during a reconnect in flight, over any run that leaves bot and reconnect alone, nothing is scheduled; when the reconnect ends, another is scheduled exactly when it was of the current generation. |
| BotDrops.RunStaysStranded | bot/src/watchdog.ts:115-122 | Until the operator acts or the reconnect ends, no other step brings the bot a new instance, not even the watchdog. |
| BotDrops.AbandonedHappens | bot/src/bot/manager.ts:146-156 | A run from a fresh start after which a bot that should be up is offline with nothing scheduled or under way. |
| BotManager.BotInstance.constructor | bot/src/bot/manager.ts:340-368 | A new instance is neither connected nor torn down. |
| BotManager.BotInstance.BeginConnect | bot/src/bot/instance.ts:733-736 | Both disconnect flags are cleared before the await. |
| BotManager.BotInstance.FinishConnect | bot/src/bot/instance.ts:737-742 | Goes online unless it was torn down meanwhile. |
| BotManager.BotInstance.ConsumeLocalDisconnect | bot/src/bot/instance.ts:754-758 | Reads and clears the flag. |
| BotManager.BotInstance.Disconnect | bot/src/bot/instance.ts:760-775 | Marks the instance down and tells once. |
| BotManager.BotInstance.OnClosed | bot/src/bot/lifecycle/event-bindings.ts:95-106 | A remote drop marks the instance down and tells once. |
| BotManager.BotManager.constructor | bot/src/bot/manager.ts:79-135 | Nothing loaded, connected or scheduled. |
| BotManager.BotManager.OnInstanceDisconnected | bot/src/bot/manager.ts:146-156 | Stale instances and local disconnects are ignored; otherwise an auto-starting bot is scheduled. |
| BotManager.BotManager.OnInstanceConnected | bot/src/bot/manager.ts:158-161 | The current instance's connect resets the backoff. |
| BotManager.BotManager.DisconnectBot | bot/src/bot/instance.ts:760-775 | Disconnect with its listener, as the protocol has it. |
| BotManager.BotManager.Restart | bot/src/bot/manager.ts:329-389 | The outgoing instance goes down first, then a replacement connects, or itself without a row. |
| BotManager.BotManager.BeginStart | bot/src/bot/manager.ts:306-371 | `startBot` to its await: throws, skips or waits, with the whole new state. |
| BotManager.BotManager.AfterSuccess | bot/src/bot/manager.ts:372-387 | What each caller does after a connect, with autoStart read again. |
| BotManager.BotManager.AfterFailure | bot/src/bot/manager.ts:30-37 | Teardown, then each caller's own handling. |
| BotManager.BotManager.EndConnect | bot/src/bot/manager.ts:23-41 | Resolution, refusal or deadline, with everything that goes on after it. |
| BotManager.BotManager.CreateBot | bot/src/bot/manager.ts:174-222 | The `Create` step, with a fresh instance in the map. |
| BotManager.BotManager.LoadSavedBot | bot/src/bot/manager.ts:406-464 | The `Load` step. |
| BotManager.BotManager.StartBot | bot/src/bot/manager.ts:306-391 | The `OperatorStart` step. |
| BotManager.BotManager.StopBot | bot/src/bot/manager.ts:393-404 | The `Stop` step, and whether the bot exists. |
| BotManager.BotManager.RemoveBot | bot/src/bot/manager.ts:224-234 | The `Remove` step. |
| BotManager.BotManager.SettleConnect | bot/src/bot/manager.ts:369-391 | The `Settle` step. |
| BotManager.BotManager.RemoteDrop | bot/src/bot/lifecycle/event-bindings.ts:95-106 | The `Drop` step. |
| BotManager.BotManager.OnVoiceTransportUnhealthy | bot/src/bot/manager.ts:164-171 | The `Unhealthy` step. |
| BotManager.BotManager.FireTimer | bot/src/bot/reconnect-scheduler.ts:106-130 | The `Fire` step. |
| BotManager.BotManager.IdleDisconnect | bot/src/bot/instance.ts:588 | The `IdleOut` step. |
| BotManager.BotManager.WatchdogTick | bot/src/watchdog.ts:84-94 | The `Tick` step. |
| BotManager.BotManager.WatchdogVisit | bot/src/watchdog.ts:110-137 | The `WatchNext` step, tried exactly when the cooldown allows. |
| BotManager.BotManager.OnlyCurrentIsConnected | bot/src/bot/manager.ts:319-329 | A connected instance object is the one in the map. |
| EditDistance.Levenshtein | bot/src/economy/fuzzy.ts:35-55 | For all texts the result is the length of a shortest chain of single edits: some chain has it, none is shorter. |
| EditDistance.FillRows | bot/src/economy/fuzzy.ts:42-54 | The two swapped rows return the last cell of any table that obeys the recurrence. |
| EditDistance.PrefixDistances | bot/src/economy/fuzzy.ts:44-51 | The distances of all prefixes are such a table. |
| EditDistance.DistanceIsLeast | bot/src/economy/fuzzy.ts:34-55 | No chain of edits is shorter than the recursive distance. |
| EditDistance.DistanceIsReached | bot/src/economy/fuzzy.ts:34-55 | A chain of that length exists. |
| EditDistance.ZeroMeansEqual | bot/src/economy/fuzzy.ts:36 | Distance zero exactly for equal texts. |
| EditDistance.Symmetric | bot/src/economy/fuzzy.ts:35-55 | Symmetry. |
| EditDistance.Triangle | bot/src/economy/fuzzy.ts:35-55 | The triangle inequality. |
| EditDistance.Bounds | bot/src/economy/fuzzy.ts:37-38 | Between the difference of the lengths and the longer length. |
| EditDistance.Similarity | bot/src/economy/fuzzy.ts:57-71 | Always in 0..1, 1 exactly when both names have the same letters and digits in order; otherwise what is missing from 1, times the longer form's length, is the number of edits of a shortest chain. |
| EditDistance.CompactKeepsAlnums | bot/src/economy/fuzzy.ts:6-20 | The compact form of a name is exactly its letters and digits; the normalized form is empty exactly when there are none. |
| EditDistance.ScoreRates | bot/src/economy/fuzzy.ts:67-70 | The share of the longer form that a shortest chain of edits changes. |
| EditDistance.ScoreRange | bot/src/economy/fuzzy.ts:67-70 | Range, symmetry and the cases of an empty form. |
| AudioPlayer.EveryRun | bot/src/audio/player.ts:272-547 | Over every run: at most one track end per session, what was heard of a session is a prefix of its own decoder's output, and a throttled decoder leaves at least the low-water mark buffered. |
| AudioPlayer.StepIsGood | bot/src/audio/player.ts:272-630 | Every step keeps the account of every byte of every session. |
| AudioPlayer.OnlyStarvedTicksCount | bot/src/audio/player.ts:464-513 | The empty-frame counter rises only at the running session's tick while the decoder is alive, not throttled, and less than a frame is buffered. |
| AudioPlayer.PausedAndResumed | bot/src/audio/player.ts:328-335 | Within a session the decoder is paused only above the high-water mark and resumed only below the low one. |
| TrackEnds.TrackEndsIff | bot/src/audio/player.ts:458-525 | Over every run: a tick ends the track exactly when it leaves less than a frame and the decoder has gone after a proper start, or has starved the player for 250 own ticks in a row near the end, or 500 past two seconds; near the end means 5 s left by position and duration, or 45 s in when the duration is unknown. |
| TrackEnds.EveryRunIsTracked | bot/src/audio/player.ts:464-607 | Over every run the player's counters are those of its history: starved ticks in a row, frames sent in the session, start and duration of the last play, failures not made up for. |
| TrackEnds.PlayRefusedIff | bot/src/audio/player.ts:297-302 | Over every run `play` is refused exactly after three failed starts not made up for by a track end, fifty frames in a row, or a reset. |
| TrackEnds.TickSends | bot/src/audio/player.ts:549-560 | While playing a tick sends exactly the next frame; paused it sends none and keeps every byte. |
| TrackEnds.OnlyOwnCallbacksCount | bot/src/audio/player.ts:321-354 | Callbacks of other sessions change nothing; the session's own exit leaves it without a decoder. |
| TrackEnds.ResumeUndoesPause | bot/src/audio/player.ts:622-630 | Pause and resume undo each other and do nothing to an idle player. |
| AudioPlayer.OnlyOwnTimerEnds | bot/src/audio/player.ts:445-509 | A track is ended only by its own session's timer, which leaves the player idle. |
| AudioPlayer.QuietTrackEnds | bot/src/audio/player.ts:338-354 | Once PCM has stopped, the track ends within a stated number of ticks whatever else happens: decoder exit, spawn error, pause, resume, stale callbacks. One track end is logged unless the decoder had both failed to start and gone by the tick that ended the track. |
| AudioPlayer.StepTowardsEnd | bot/src/audio/player.ts:464-525 | What each step does to the ticks that remain. |
| AudioPlayer.PcmPlayer.Play | bot/src/audio/player.ts:272-358 | The whole new state, with the failure limit. |
| AudioPlayer.PcmPlayer.Stop | bot/src/audio/player.ts:360-404 | A new session with an empty buffer. |
| AudioPlayer.PcmPlayer.OnData | bot/src/audio/player.ts:321-336 | Only the session's own data is buffered; the decoder is paused above the high-water mark. |
| AudioPlayer.PcmPlayer.TakePcmFrame | bot/src/audio/player.ts:530-547 | Takes exactly the first 3840 bytes whatever the chunk boundaries, empty chunks included; the counter stays the total length. |
| AudioPlayer.PcmPlayer.SendNextFrame | bot/src/audio/player.ts:549-578 | One frame leaves; the decoder resumes below the low-water mark; fifty healthy frames forgive failures. |
| AudioPlayer.PcmPlayer.GuardFrameLoop | bot/src/audio/player.ts:458-526 | Stall guard and end of track. |
| AudioPlayer.PcmPlayer.OnFrameTimer | bot/src/audio/player.ts:445-526 | The whole timer callback. |
| AudioPlayer.PcmPlayer.OnExit | bot/src/audio/player.ts:338-346 | Only the session's own process is forgotten. |
| AudioPlayer.PcmPlayer.OnSpawnError | bot/src/audio/player.ts:348-354 | A failure counts for the session's own process only. |
| AudioPlayer.PcmPlayer.Pause | bot/src/audio/player.ts:622-624 | Only a playing player pauses. |
| AudioPlayer.PcmPlayer.Resume | bot/src/audio/player.ts:625-630 | Only a paused player resumes. |
| AudioPlayer.PcmPlayer.ClearFailures | bot/src/audio/player.ts:631-633 | Forgives all failures. |
| OpusPacket.RoundTrip | bot/src/audio/opus-packet.ts:26-119 | Packing frames in any layout of codes 0 to 3, with any padding, and splitting gives exactly those frames as code 0 packets. |
| OpusPacket.AcceptedIsPacked | bot/src/audio/opus-packet.ts:26-119 | Every accepted packet is head, frames in order and declared padding, byte for byte, and yields those frames. |
| OpusPacket.FramesSplitToThemselves | bot/src/audio/opus-packet.ts:105-115 | Splitting any frame that came out yields just that frame. |
| OpusPacket.SingleIsItself | bot/src/audio/opus-packet.ts:111-112 | A code 0 packet is passed through unchanged. |
| OpusPacket.SizeCodeIsBijective | bot/src/audio/opus-packet.ts:12-18 | The one- or two-byte length code is a bijection on 0..1275. |
| OpusPacket.SkipPaddingSound | bot/src/audio/opus-packet.ts:65-79 | The padding length bytes are a run of 255s and a last byte, and take off 254 per 255. |
| OpusPacket.SkipPaddingComplete | bot/src/audio/opus-packet.ts:65-79 | Every such code is read back. |
| OpusPacket.ReadSizesSound | bot/src/audio/opus-packet.ts:82-93 | What is read as sizes is their code, and the sizes account for every byte left. |
| OpusPacket.ReadSizesComplete | bot/src/audio/opus-packet.ts:82-93 | Every such code is read back. |
| OpusPacket.CutFinds | bot/src/audio/opus-packet.ts:105-118 | Cutting finds exactly the frames that stand there. |
| OpusPacket.WhereTheStandardDiffers | bot/src/audio/opus-packet.ts:57-98 | The code and RFC 6716, its 120 ms limit included, differ exactly on code 3 packets with two or more frames that one of them accepts. |
| OpusPacket.AgreeIff | bot/src/audio/opus-packet.ts:57-98 | Of the packets that either side accepts, code and standard agree exactly on those that are not code 3 with several frames. |
| OpusPacket.StandardRoundTrip | bot/src/audio/opus-packet.ts:57-98 | Frames packed as RFC 6716 has it, in any layout, come back exactly when they last 120 ms at most together. |
| OpusPacket.StandardIsPacked | bot/src/audio/opus-packet.ts:57-98 | What RFC 6716 accepts is packed that way and lasts 120 ms at most, so the reader it is compared with accepts nothing else. |
| OpusPacket.OverlongIff | bot/src/audio/opus-packet.ts:60-61 | A packed packet is over the limit exactly when its frames last more than 120 ms, whatever its layout. |
| OpusPacket.PolarityMatters | bot/src/audio/opus-packet.ts:81 | A packet that both accept, with different frames. |
| OpusPacket.LengthMatters | bot/src/audio/opus-packet.ts:60-61 | A packet of 180 ms that the code accepts. |
| OpusPacket.ReadingsDiffer | bot/src/audio/opus-packet.ts:81-98 | When both polarities accept such a packet, the frames' total lengths differ. |
| OpusPacket.SplitOpusPacket | bot/src/audio/opus-packet.ts:26-119 | The splitter's loops compute the specified frames or rejection. |
| OpusPacket.ParseManyHead | bot/src/audio/opus-packet.ts:57-98 | The code 3 branch, with its padding loop and both size layouts. |
| OpusPacket.ParseSizes | bot/src/audio/opus-packet.ts:83-93 | The loop over explicit sizes. |
| OpusPacket.CutFrames | bot/src/audio/opus-packet.ts:105-118 | The loop over frames. |
| Crates.CalculateBoxes | bot/src/economy/boxes.ts:52-77 | For every volume the crates hold exactly the whole SCU amount, sizes descend, and no packing of that amount by standard crates is smaller. |
| Crates.GreedyIsFewest | bot/src/economy/boxes.ts:48-51 | No list of standard crates beats the greedy count. |
| Crates.OneCrateMore | bot/src/economy/boxes.ts:9 | One more crate of any standard size costs the greedy packer at most one crate more. |
| Crates.TakeAll | bot/src/economy/boxes.ts:57-61 | Taking all crates of a size at once is taking the largest fit that many times. |
| Crates.PackSize | bot/src/economy/boxes.ts:55-62 | One round keeps volume and greedy count and leaves less than its size. |
| Crates.WholeScu | bot/src/economy/boxes.ts:42-46 | Zero for bad input, else the least whole number not below the volume up to the tolerance. |
| History.ConversationStore.Append | bot/src/llm/history.ts:53-59 | What is retained is the offline window over everything said since the last clear. |
| History.ConversationStore.AppendMany | bot/src/llm/history.ts:61-68 | The same for a batch. |
| History.ConversationStore.Clear | bot/src/llm/history.ts:70-73 | A cleared conversation has nothing said. |
| History.ConversationStore.Get | bot/src/llm/history.ts:48-51 | The window of what was said. |
| History.ConversationStore.Trim | bot/src/llm/history.ts:75-86 | Both eviction loops with the running total yield the window. |
| History.WindowIsLongest | bot/src/llm/history.ts:75-86 | The window is the longest suffix within both caps, or the last turn alone when it breaks the budget by itself. |
| History.EvictionIsOnline | bot/src/llm/history.ts:53-68 | Evicting early never matters, so batching does not either. |
| History.EstimateTokens | bot/src/llm/history.ts:16-23 | Four tokens more than the least number that covers the text at four characters each. |
| Hangar.UserShipsStore.SetShip | bot/src/data/user-ships.ts:218-238 | The row after an absolute update, at least one ship, old notes kept. |
| Hangar.UserShipsStore.AddShip | bot/src/data/user-ships.ts:240-253 | Exactly one row changes: at least one more ship, the new name and flag, old notes unless new ones are given. |
| Hangar.UserShipsStore.RemoveShip | bot/src/data/user-ships.ts:255-274 | Missing, decremented or removed, each exactly when. |
| Hangar.UserShipsStore.RekeyOwner | bot/src/data/user-ships.ts:280-309 | The loop leaves the merged rows and profile and returns how many rows moved. |
| Hangar.MergedQuantities | bot/src/data/user-ships.ts:283-296 | After a merge the source is empty, the target has the sum, bystanders' rows are untouched. |
| Hangar.MergedRow | bot/src/data/user-ships.ts:284-295 | Field by field what a merge leaves at the target: incoming notes and name win, either flag sets the flag. |
| Hangar.UnmatchedRow | bot/src/data/user-ships.ts:283-296 | A ship that only the target had is left as it was. |
| Hangar.ProfileKeepsTarget | bot/src/data/user-ships.ts:297-305 | Details of the target's profile stay, missing ones come from the other. |
| Hangar.MergedStaysSound | bot/src/data/user-ships.ts:283-296 | Every quantity stays at least one. |
| Hangar.MergeConserves | bot/src/data/user-ships.ts:280-309 | The total of each ship over the owners is the same after a merge. |
| Hangar.MergeOrderIsIrrelevant | bot/src/data/user-ships.ts:280-309 | Two owners merged into a third leave the same quantities in either order. |
| Hangar.AtLeastOne | bot/src/data/user-ships.ts:227 | The quantity is floored and at least one. |

## Left out

- TeamSpeak client, sockets, ffmpeg, native Opus codec and SQLite: nondeterministic steps, parameters or maps.
- `ReconnectScheduler.dispose` and manager shutdown: dispose with a run in flight forgets it without a new generation.
- `updateBot`, bot settings other than autoStart, identities themselves: they change nothing the protocol reads.
- Node's event emitter: an instance's events are dispatched to the manager's listeners by the caller of the instance's
  method, in the same order and before anything else runs.
- When timers fire: a pending timer may fire at any later step, so its delay is recorded but not timed.
- `BotProtocol.Watched` takes the watchdog's cooldown as a flag; `BotManager.BotManager.WatchdogVisit` ties the flag to the
  clock and `lastAttempt` of the watchdog object.
- The watchdog's memory check and the interval that drives its ticks.
- That the watchdog in the end recovers a bot whose reconnect was lost: it is a liveness claim and needs fair scheduling.
- AudioPlayer.PcmPlayer.OnFrameTimer: ticks come at any time, so pacing (`nextFrameTime`) is not modelled; listeners that call
  back into the player from an event are not modelled either.
- AudioPlayer.EveryRun: claims a prefix of the decoder's output, not its tail, which the code may drop.
- Volume, ducking, filters, bitrate and temp files of the player: easy arithmetic or I/O.
- EditDistance.Similarity: the normaliser's first steps, confusable spellings and lower case, are a parameter that may be any
  function; rationals replace floating point.
- QueueRetrace.RetraceIff: k is within the history, beyond which `prev` returns nothing.
- Score thresholds, ranking and the catalogue tables of fuzzy search; footprints, labels and fit checks of crates.
- Crates.WholeScu: volumes are rationals, so floating-point rounding of huge volumes is not modelled.
- History.ConversationStore.Trim: turn caps are not negative (the code's loop would not end) and token estimates are
  whole numbers; lists are values, so a caller who keeps a returned list sees no later change.
- Hangar.UserShipsStore.SetShip: timestamps, NaN quantities and callsign case are not modelled; row order is not modelled in
  `ListShips`.
- Queue display helpers, `size`, `list` and `unplayedCount`: one-liners.
