# fanring in Dafny

A model of the fanring channels and the machine-checked properties it has. fanring
gives every sender its own bounded single-producer single-consumer ring (crate
`yring`) and lets one receiver (`mpsc`) or several (`mpmc`) fan in over those
rings, with two-level ready bitmaps, wait cells, batched slot release and
lock-free teardown in between.

`dafny verify dfyconfig.toml` checks everything. Dafny 4.11 is assumed.

## How the model is laid out

Code that changes its own fields is a class with `modifies` clauses, specified by
functions on its old state. Code that several threads run at once is a step
relation: one atomic operation, lock section or ring call per step, any number of
threads, any interleaving. Its theorems speak about every state of every run.

| files | what they hold |
|---|---|
| `spsc_ring.dfy` | cursor arithmetic modulo the word size; the ring with wrapping cursors, bulk moves and final drop, call by call |
| `spsc_threads.dfy` | the ring with its two threads, step by step |
| `hints.dfy` | the ring's wakeup hints, for data and for space |
| `teardown.dfy` | coordinated teardown: who destroys unread values |
| `wait_cells.dfy` | the single-waiter and the shared wait cell |
| `lane.dfy` | the receiver's per-lane bookkeeping with its fast window |
| `scheduling.dfy`, `scheduling_theorems.dfy` | the receive rules for one value at a time, and what they guarantee |
| `mixed.dfy` | any mix of operations: order, bounded waiting, complete scans and the poll budget |
| `receiver_core.dfy`, `receiver.dfy` | the MPSC receiver and its refinement of those rules |
| `mpsc_model.dfy`, `mpsc_invariant.dfy`, `mpsc_steps.dfy`, `mpsc_theorems.dfy` | the MPSC channel as a concurrent protocol |
| `mpsc_collection.dfy`, `mpsc_ending.dfy`, `mpsc_witness.dfy` | what a collection finds, the end of the channel, and states that show the limits |
| `mpmc_model.dfy`, `mpmc_invariant.dfy`, `mpmc_steps.dfy`, `mpmc_theorems.dfy` | MPMC staging, stealing, cloning and the drained decision |
| `mpmc_tokens.dfy`, `mpmc_token_theorems.dfy` | the exclusive lane tokens of MPMC |
| `identity.dfy`, `work_queue.dfy` | lane keys and channel identifiers; a receiver's staging queue |
| `basics.dfy` | shared constants and helpers |

In the protocols, ring positions and notification counts are unbounded numbers.
`SpscThreads` is what justifies that for the rings: its cursors wrap, and in every
interleaving each distance and slot computed from them equals the one computed from
the counts. The class in `SpscRing` gives the same for whole calls, with the bulk
moves.

Where the code does not meet a statement one would expect, the model keeps the code
and says exactly when the statement holds:

- The poll counter `items_until_ready_poll` can wrap below zero
  (`src/mpsc/receiver.rs:248`). `BudgetWrapsExactlyWhen` gives the condition and
  `PauseThenReceiveWraps` a way to get there through `pause`. Only plain receives do it
  (`OpWrapsExactlyWhen`), and none in a run without pauses and targeted receives
  (`MixNeverWraps`).
- A hint computed for a stopped endpoint with something published can come back false
  (`PendingHintCanBeFalse`). It does exactly when an earlier hint has used up the
  endpoint's registration (`PendingHintExactlyWhen`), so the endpoint has been told
  to look again since it registered (`NoLostHint`).
- A sender and the receiver can both sleep over unread values, but only if the lane
  holds unsignaled ones (`MutualSleepNeedsUnsignaled`, `UnsignaledSendsCanDeadlock`).
- A completed send can be missed by a whole collection (`CompletedSendCanBeMissed`),
  while another sender of its page is between its page bit and its group bit. Apart
  from that, a full collection finds it (`SettledPageIsAhead`,
  `FullCollectionFinds`), and it is never stranded (`NoStranding`).
- A lane in rotation need not be pending, against the comment at
  `src/mpsc/receiver/lane.rs:268-269` (`QueuedNeedNotBePending`). It is, or is just
  being settled, in every run without `poll_all_lanes` (`QueuedIsPending`), and only
  that operation makes it otherwise (`UnpendedComesFromPollAll`).

## Model

| member | source | states |
|---|---|---|
| `CursorArithmetic.WrapIndex` | yring/src/ring.rs:122-125 | masking a wrapped cursor finds the slot of the unwrapped count, for every count, because the capacity divides the word size |
| `CursorArithmetic.IndexDistinct` | yring/src/ring.rs:122-125 | counts less than a capacity apart never share a slot |
| `SpscRing.RoundedCapacity` | yring/src/ring.rs:84-92 | the capacity is the least power of two that is large enough, and construction fails exactly for zero and for more than a quarter of the cursor range |
| `SpscRing.Ring.constructor` | yring/src/lib.rs:59-73 | a new ring is empty and valid |
| `SpscRing.Ring.Push` | yring/src/ring.rs:127-147 | for one call with no call of the other endpoint inside it: the push fails exactly when the published head is a full capacity behind, whatever the cached head was, and otherwise extends the accepted values by this one without touching an unread slot |
| `SpscRing.Ring.Flush` | yring/src/producer.rs:180-182 | everything pushed becomes visible |
| `SpscRing.Ring.FlushAndCount` | yring/src/ring.rs:149-167 | for one call with no call of the other endpoint inside it: the reported count and the observed emptiness agree with the unwrapped positions |
| `SpscRing.Ring.Prefetch` | yring/src/ring.rs:306-312 | the window grows to the published tail and the count is what became visible |
| `SpscRing.Ring.Pop` | yring/src/ring.rs:196-205 | values come out once each, in the order pushed, exactly while the window has one |
| `SpscRing.Ring.Release` | yring/src/consumer.rs:99-101 | the slots of all values taken become free |
| `SpscRing.Ring.MoveRun` | yring/src/ring.rs:216-233 | the two-segment move takes exactly the next values across the buffer end and leaves every other slot as it was |
| `SpscRing.Ring.PopInto` | yring/src/consumer.rs:44-55 | a bulk move yields what that many single pops would |
| `SpscRing.Ring.AcceptedPrefix` | yring/src/ring.rs:244-263 | the count and the final state of a stateful admission test equal those of the longest accepted prefix; the test is not called past a rejection |
| `SpscRing.Ring.PopIntoWhile` | yring/src/consumer.rs:72-91 | exactly the longest accepted prefix of the window moves |
| `SpscRing.Ring.CloseProducer` | yring/src/producer.rs:253-256 | closing publishes all pushes and stores the dropped flag |
| `SpscRing.Ring.CloseConsumer` | yring/src/consumer.rs:226-229 | closing releases all pops and stores the dropped flag |
| `SpscRing.Ring.IsDisconnected` | yring/src/consumer.rs:203-206 | true exactly when the producer is closed and everything it published was taken |
| `SpscRing.Ring.DropRemaining` | yring/src/ring.rs:333-348 | with both endpoints closed, each unread value is destroyed once, in order, every slot ends empty, and a second call would find nothing |
| `SpscThreads.StepKeepsInv` | yring/src/ring.rs:127-205 | every step of producer and consumer, with separate loads, stores, slot writes and slot reads, keeps the cursor chain, the wrapped cursors and the slot contents |
| `SpscThreads.RunInv` | yring/src/ring.rs:127-205 | these hold in every state of every interleaving |
| `SpscThreads.PoppedIsPrefix` | yring/src/ring.rs:196-205 | in every interleaving the values out are a prefix of the values in |
| `SpscThreads.WrittenSlotIsFree` | yring/src/ring.rs:140-145 | while the producer writes a slot, that slot holds no unread value and is not the slot being read |
| `SpscThreads.ReadSlotIsReady` | yring/src/ring.rs:200-203 | while the consumer reads a slot, that slot is initialised with the oldest value not yet returned |
| `SpscThreads.RefusedMeansFull` | yring/src/ring.rs:134-139 | a push is refused exactly when no slot was free at its load of the head |
| `SpscThreads.FlushReportsItsLoad` | yring/src/ring.rs:152-159 | a flush reports what becomes visible, and emptiness as of its load of the head, whatever is released before its store of the tail |
| `WakeupHints.StepKeepsInv` | yring/src/ring.rs:10-54 | every atomic step of both endpoints keeps the hint invariant |
| `WakeupHints.RunInv` | yring/src/ring.rs:10-54 | the hint invariant holds in every reachable state |
| `WakeupHints.NoLostHint` | yring/src/consumer.rs:134-148 | an endpoint that stopped looking, with something published since that asked for a hint, has been given a true hint since its look began, and since it registered if it did, unless the hint is still being computed; before activation as well as after |
| `WakeupHints.PendingHintExactlyWhen` | yring/src/ring.rs:45-53 | the hint still being computed for a stopped endpoint comes back true if and only if the notifier wakes regardless or no hint has come back true since the endpoint registered, and it relies on a registration only if there was one |
| `WakeupHints.PendingHintCanBeFalse` | yring/src/ring.rs:149-167 | a run that ends with something published for a stopped, registered endpoint and the last hint false, because an earlier hint used the registration up |
| `WakeupHints.PlainPublicationCanBeMissed` | yring/src/producer.rs:180-182 | a run in which a publication without a hint goes unnoticed, so the exclusion in NoLostHint is needed |
| `Teardown.StepKeepsInv` | src/ring.rs:45-84 | every step of a send and of a closing receiver keeps the handoff invariant |
| `Teardown.RunInv` | src/ring.rs:45-84 | the handoff invariant holds in every reachable state |
| `Teardown.EverythingReclaimed` | src/ring.rs:209-242 | once the receiver is done and no send runs, accepted values are exactly the received ones followed by the destroyed ones, and every other value offered was returned |
| `Teardown.OneSideCleans` | src/ring.rs:52-85 | the closing receiver and the overlapping send never both drain, and nobody drains after the consumer is gone |
| `Teardown.NoSendAfterClose` | src/ring.rs:113-125 | after CLOSED with no send active, no later send is accepted |
| `Teardown.ClosingFreesNothing` | src/ring.rs:232-242 | from the start of closing until the consumer is dropped the published head does not move, so a send that found the ring full cannot succeed because of the close |
| `Teardown.TeardownNeverWaits` | src/ring.rs:52-68 | a closing receiver always has an enabled step that brings it nearer to its end, whatever the sender holds |
| `Teardown.SendersDoNotDelay` | src/ring.rs:71-85 | no step of a sender sets a closing receiver back |
| `WaitCell.StepKeepsInv` | src/wait.rs:41-72 | every step of the waiter and of any number of notifiers keeps the invariant |
| `WaitCell.SleeperIsSignaled` | src/wait.rs:54-72 | a waiter asleep although notified since registration is about to be woken: its last notifier's signal is enabled and wakes it |
| `MultiWaitCell.StepKeepsInv` | src/wait.rs:184-226 | every step of any number of waiters and notifiers keeps the invariant |
| `MultiWaitCell.NotifyAllReachesEverySleeper` | src/wait.rs:216-226 | from the moment any notification of all waiters has signaled, no waiter registered before it is asleep, whatever later notifications are under way |
| `MultiWaitCell.NotifyAllIsOnItsWay` | src/wait.rs:216-226 | a sleeper the latest notification of all has not reached is about to be woken: the signal is enabled once the mutex is free |
| `MultiWaitCell.NotificationsWakeOrAreDue` | src/wait.rs:204-214 | of the notifications since a sleeper's last look, each has woken somebody or is still to signal |
| `MultiWaitCell.SkippedNotificationHadNoWaiter` | src/wait.rs:184-208 | a notification that skips the mutex had no registered waiter |
| `MpscLane.Lane.constructor` | src/mpsc/receiver/lane.rs:27-50 | the release batch is at least half the capacity, at most the capacity, and at least 64 unless the ring is smaller |
| `MpscLane.Lane.GrantFast` | src/mpsc/receiver/lane.rs:60-74 | opening a fast window only reloads the lane, and its length is the largest that stays short of release, rotation and the poll budget |
| `MpscLane.Lane.PopFast` | src/mpsc/receiver/lane.rs:78-88 | a fast pop is an ordinary take that neither releases nor rotates |
| `MpscLane.Lane.CloseFast` | src/mpsc/receiver/lane.rs:92-99 | closing a window restores the counters of the values not popped |
| `MpscLane.Lane.PollOne` | src/mpsc/receiver/lane.rs:104-136 | one value with full bookkeeping, or the lane settled idle, or kept with what a racing send published |
| `MpscLane.Lane.PopFair` | src/mpsc/receiver/lane.rs:148-158 | through the window or not, a fair pop has the effect of one fair take; declining changes nothing a fair receive can see |
| `MpscLane.Lane.PopTargeted` | src/mpsc/receiver/lane.rs:163-170 | a targeted pop takes the oldest value and leaves the burst alone |
| `MpscLane.Lane.ReleasePending` | src/mpsc/receiver/lane.rs:193-201 | releases exactly the slots of values really popped, reporting whether there were any |
| `MpscLane.Lane.Refill` | src/mpsc/receiver/lane.rs:206-215 | the lane settles exactly when neither window nor ring holds a value |
| `MpscLane.Lane.SettleEmpty` | src/mpsc/receiver/lane.rs:262-279 | settling releases all credits, and the lane stays queued and pending exactly when a racing send published before the recheck |
| `MpscLane.Lane.ChunkLimit` | src/mpsc/receiver/lane.rs:219-224 | the bound is positive when a value is prefetched and never crosses release or rotation |
| `MpscLane.Lane.MoveChunk` | src/mpsc/receiver/lane.rs:229-250 | a chunk is the longest admitted prefix and has the effect of that many single takes |
| `MpscLane.TakenTimesChunk` | src/mpsc/receiver/lane.rs:229-250 | up to the nearer limit, n single takes add n to both counters and only the last one can release or rotate |
| `MpscSchedulingTheorems.CollectionIsComplete` | src/mpsc/receiver/registry.rs:11-65 | a full collection leaves no ready entry of any slot, wherever the cursor stood |
| `MpscSchedulingTheorems.NothingIsMissed` | src/mpsc/receiver.rs:215-270 | a receive that finds nothing leaves no value in any lane that was in rotation, or marked, pending and not paused |
| `MpscSchedulingTheorems.ReceiveTakesOldest` | src/mpsc/receiver.rs:215-270 | a receive returns the oldest value of one lane and changes no other lane's values |
| `MpscSchedulingTheorems.FairServedInTurn` | src/mpsc/receiver.rs:182-211 | with fair receives alone a lane with values behind p others is served after at most p values |
| `MpscSchedulingTheorems.ReceiveKeepsPolled` | src/mpsc/receiver.rs:231-248 | one receive keeps the rule that a used-up poll budget comes with lanes in rotation |
| `MpscSchedulingTheorems.BudgetWrapsExactlyWhen` | src/mpsc/receiver.rs:219-248 | the poll budget wraps if and only if it is used up, the rotation is empty, and the first lane a full collection queues has a value |
| `MpscSchedulingTheorems.PauseThenReceiveWraps` | src/mpsc/receiver/lane_control.rs:124-138 | using up the budget on one lane, pausing it, and receiving from another lane wraps the budget |
| `MpscSchedulingTheorems.PauseThenReceiveExample` | src/mpsc/receiver/lane_control.rs:124-138 | a concrete channel meets the conditions of PauseThenReceiveWraps |
| `MpscSchedulingTheorems.DrainIsReceives` | src/mpsc/receiver/batch.rs:338-384 | with the budget sound, a bulk receive that admits everything equals that many single receives in values, order and final state |
| `MpscSchedulingTheorems.ChunkIsReceives` | src/mpsc/receiver/batch.rs:364-372 | one chunk makes the admissions single receives would make, in order, and leaves the same state, for every stateful admission test |
| `MpscMixed.DrainIsFifo` | src/mpsc/receiver/batch.rs:338-384 | a bulk receive with any stateful admission test takes each lane's values in order and leaves the rest |
| `MpscMixed.MixIsFifo` | src/mpsc/receiver.rs:162-170 | over every sequence of plain, fair, bulk, scan and targeted receives, pauses, resumes, and signaled and unsignaled sends, also one that races a targeted receive, what came from a lane followed by what it holds is what it held followed by what was sent on it |
| `MpscMixed.ServedWithinBursts` | src/mpsc/receiver.rs:236-249 | over every mix of plain, fair, bulk and scan receives with sends of both kinds in between, at most 64 p values of other lanes come out before a lane with values behind p others is served |
| `MpscMixed.AnyMixServes` | src/mpsc/receiver.rs:96-211 | a mix with more than 64 p single receives does serve that lane, with its oldest value first |
| `MpscMixed.ScanFindsEverything` | src/mpsc/receiver/batch.rs:265-306 | with no send running beside it, a scan that stops short of its limit with nothing rejected has received, in order, all that every unpaused lane held, signaled or not, and leaves those lanes empty |
| `MpscMixed.OpWrapsExactlyWhen` | src/mpsc/receiver.rs:219-248 | fair and bulk receives never wrap the poll budget, and a plain receive does if and only if the budget is used up, the rotation is empty and the first lane a full collection queues has a value |
| `MpscMixed.MixNeverWraps` | src/mpsc/receiver/batch.rs:338-398 | over every sequence of plain, fair, bulk and scan receives, sends and resumes from a sound budget, no value is taken on a used-up budget and the budget stays sound |
| `MpscReceiver.Receiver.CollectReady` | src/mpsc/receiver/registry.rs:11-65 | the scan from the cursor queues exactly the lanes the rules queue, in slot order |
| `MpscReceiver.Receiver.RefreshActive` | src/mpsc/receiver/batch.rs:388-398 | refreshes completely when the rotation is empty and by one group when a poll is due |
| `MpscReceiver.Receiver.TryRecv` | src/mpsc/receiver.rs:101-115 | with fast windows, a receive returns the lane and value and leaves the state of the one-value rules; only the front lane holds a window and it fits the budget |
| `MpscReceiver.Receiver.TryRecvRefill` | src/mpsc/receiver.rs:121-160 | opening a window or taking the full path gives the same result as the one-value rules |
| `MpscReceiver.Receiver.TryRecvInner` | src/mpsc/receiver.rs:215-270 | with no send running beside it, the full path receives as the rules say, or asks to be retried having settled at least one lane |
| `MpscReceiver.Receiver.PollFront` | src/mpsc/receiver.rs:236-269 | with no send running beside it, the polled lane goes back in front, to the end, idle or away exactly as the rules say |
| `MpscReceiver.Receiver.TryRecvFair` | src/mpsc/receiver.rs:182-211 | with the lone-lane window, a fair receive equals the fair rule |
| `MpscReceiver.Receiver.DrainInto` | src/mpsc/receiver/batch.rs:338-384 | a bulk receive ends, and returns the values, the admission state, the verdict and the channel state of offering and receiving one value at a time |
| `MpscReceiver.Receiver.PollAllLanes` | src/mpsc/receiver/batch.rs:316-325 | the loop over the slots queues, in slot order, exactly the lanes neither paused nor queued, and changes nothing else |
| `MpscReceiver.Receiver.TryRecvScan` | src/mpsc/receiver/batch.rs:298-306 | a scan returns the values, verdict and state of polling all lanes and then receiving in bulk |
| `MpscReceiver.Receiver.Pause` | src/mpsc/receiver/lane_control.rs:124-138 | pausing releases the named lane, takes it out of the rotation and keeps every receiver invariant; an identifier of another channel or generation is an error that changes nothing |
| `MpscReceiver.Receiver.Resume` | src/mpsc/receiver/lane_control.rs:145-157 | a paused lane is marked and joins the end of the rotation, one not paused is left alone, and a stale identifier is an error |
| `MpscReceiver.Receiver.TryRecvFrom` | src/mpsc/receiver/lane_control.rs:167-194 | a targeted receive follows its rule for paused, queued and idle lanes, takes what a racing send published while the lane settled, and tells a value, nothing yet and disconnected apart |
| `MpscReceiver.Receiver.constructor` | src/mpsc/receiver/registry.rs:97-108 | a receiver that has adopted idle lanes, each in the slot of its key, is valid |
| `MpscTheorems.StepKeepsInv` | src/ready.rs:105-187 | every step of every sender and of the receiver keeps the protocol invariant |
| `MpscTheorems.RunInv` | src/mpsc/sender.rs:148-172 | the protocol invariant holds in every state of every run |
| `MpscTheorems.NoStranding` | src/ready.rs:162-187 | a lane with unread values of a completed signaled send is in rotation, in the receiver's hands and not being let go, or on a page some thread or the next collection reaches |
| `MpscTheorems.QuiescentReachable` | src/ready.rs:105-170 | with nothing in progress such a lane is in rotation or both its bits are set |
| `MpscTheorems.ClaimedPageIsKnown` | src/mpsc/receiver/registry.rs:29-44 | a page whose group bit was claimed is always found after the registry refresh |
| `MpscTheorems.NoLostWakeup` | src/mpsc/receiver.rs:416-449 | when the receiver sleeps and no sender is mid-operation, no unpaused lane holds an unread signaled value |
| `MpscTheorems.SleepingSenderIsFull` | src/mpsc/sender.rs:375-393 | a sleeping sender's ring is full and open once owed notifications are sent |
| `MpscTheorems.MutualSleepNeedsUnsignaled` | src/mpsc/sender.rs:211-219 | receiver and sender asleep together implies unsignaled values in the lane |
| `MpscTheorems.NoMutualSleep` | src/blocking.rs:129-185 | a sender that only signals is never asleep together with the receiver |
| `MpscTheorems.DisconnectIsSound` | src/mpsc/receiver/registry.rs:130-138 | when a receive may report Disconnected, every lane ever registered was closed or fully received |
| `MpscTheorems.DisconnectIsFinal` | src/mpsc/receiver/registry.rs:130-138 | from then on no step registers, accepts or receives anything |
| `MpscTheorems.ScanIsComplete` | src/mpsc/receiver/batch.rs:316-325 | a scan that ends with an empty rotation has received everything its lanes had published when it began, signaled or not |
| `MpscEnding.AsleepMeansOpen` | src/mpsc/receiver/registry.rs:68-138 | the last disconnect is not slept through: a sleeping receiver with no sender mid-operation has a live sender or a paused lane with unread values |
| `MpscCollection.SettledPageIsAhead` | src/ready.rs:105-114 | a collection that starts while no sender of the page is between its page bit and its group bit has every lane of the page with signaled unread values ahead of it |
| `MpscCollection.FullCollectionFinds` | src/mpsc/receiver/registry.rs:11-65 | a full collection puts every lane that was ahead of it into the rotation, whatever senders do meanwhile |
| `MpscCollection.QueuedIsPending` | src/mpsc/receiver/lane.rs:268-269 | in every run without a poll of all lanes, a lane in rotation is pending unless the receiver is just settling it |
| `MpscCollection.UnpendedComesFromPollAll` | src/mpsc/receiver/batch.rs:316-325 | any other lane in rotation without being pending has been so since a poll of all lanes queued it |
| `MpscCollection.PollAllUnpends` | src/mpsc/receiver/batch.rs:316-325 | a poll of all lanes does queue each idle lane without making it pending |
| `MpscWitness.QueuedNeedNotBePending` | src/mpsc/receiver/batch.rs:316-325 | a reachable state with a lane in rotation that is not pending |
| `MpscWitness.UnsignaledSendsCanDeadlock` | src/mpsc/sender.rs:211-219 | a reachable state with sender and receiver asleep over an unsignaled value |
| `MpscWitness.CompletedSendCanBeMissed` | src/mpsc/receiver/registry.rs:26-35 | a run in which a completed send is followed by a whole collection that visits every group and ends without queueing the lane |
| `MpmcTheorems.StepKeepsInv` | src/mpmc/receiver.rs:121-232 | every step of every sender and receiver keeps the staging invariant |
| `MpmcTheorems.RunInv` | src/mpmc/receiver.rs:121-232 | the staging invariant holds in every state of every run |
| `MpmcTheorems.DrainedIsSound` | src/mpmc/receiver.rs:214-232 | when an empty scan answers Drained, no accepted value is left in any ring, queue or hand, and the values delivered are the values sent |
| `MpmcTheorems.DrainedIsFinal` | src/publication.rs:22-57 | after one receiver has answered Drained no value exists in any later state |
| `MpmcTheorems.ValuesAreConserved` | src/mpmc/receiver.rs:51-77 | every accepted value is delivered or in exactly one place, through clones, drops, staging and steals |
| `MpmcTheorems.PushesFit` | src/mpmc/work.rs:64-76 | no push onto a bounded work queue can overflow it |
| `MpmcTheorems.PrivateMeansSole` | src/mpmc/receiver/drain.rs:202-221 | values staged out of other receivers' reach belong to the only live receiver |
| `MpmcTokenTheorems.StepKeepsInv` | src/mpmc.rs:278-304 | every step of every sender and receiver keeps the token invariant |
| `MpmcTokenTheorems.OneToken` | src/mpmc/receiver/drain.rs:65-160 | every registered lane has exactly one token, in its slot, its page queue or with one receiver |
| `MpmcTokenTheorems.QuiescentReachable` | src/mpmc.rs:526-551 | with nothing in progress every lane with unread values is reachable through its work bit or its ready bits |
| `MpmcTokenTheorems.PageQueueFits` | src/mpmc.rs:379-396 | a page queue always has room for a token not in it |
| `MpmcTokenTheorems.PushesHaveRoom` | src/mpmc/receiver/drain.rs:246-258 | neither push onto a page queue can hit its bound |
| `LaneRegistry.Registry.AllocateLane` | src/mpsc.rs:326-346 | gives out the last returned key, or else a fresh slot, and its ready page and group exist |
| `LaneRegistry.Registry.RetireLane` | src/mpsc.rs:348-356 | returns the slot under its next generation, or not at all once generations are used up |
| `LaneIdentity.StepKeepsInv` | src/mpsc/receiver/registry.rs:82-127 | registration, adoption and retirement keep slots apart and generations growing |
| `LaneIdentity.KeysAreNew` | src/mpsc.rs:326-346 | over every run a key is given out once, and only for a slot no lane occupies |
| `LaneIdentity.AdoptedSlotIsVacant` | src/mpsc/receiver/registry.rs:99-108 | adoption never overwrites a lane |
| `LaneIdentity.OnlyLiveKeysResolve` | src/mpsc/receiver/lane_control.rs:210-219 | in every reachable state an identifier resolves if and only if it names this channel and its own lane was registered and not retired |
| `LaneIdentity.RetiredNeverResolves` | src/mpsc/receiver/lane_control.rs:210-219 | from the step that retires its lane on, an identifier never selects a later one |
| `LaneIdentity.RegisteredResolves` | src/mpsc/receiver/lane_control.rs:210-219 | until then it resolves to that very lane |
| `ChannelIds.ChannelIdsAreUnique` | src/mpsc.rs:48-57 | however many threads allocate, no channel identifier is given out twice, up to the end of the range |
| `WorkQueue.WorkQueue.PushBatch` | src/mpmc/work.rs:64-76 | a batch is appended in order |
| `WorkQueue.WorkQueue.StealBatchInto` | src/mpmc/work.rs:88-101 | the oldest value is returned, half of the rest rounded up and at most seven values move, and nothing is lost, duplicated or reordered, for every thief with room for the values that move |
| `WorkQueue.WorkQueue.DrainInto` | src/mpmc/work.rs:106-114 | everything moves, in order |

## Left out

- Weak memory orderings: every atomic operation is one step in a single order.
- Wrap-around of notification counters, generations of wait cells and publication generations: they are unbounded here.
- Asynchronous wrappers, wakers and their cancellation.
- Clocks, deadlines and spinning: a timed wait is a wait that may end at any time.
- Panicking destructors, panicking admission tests and allocation failure.
- `ProducerOwner`, iterators, formatting, benchmarks and the chart tools.
- Dropping the MPSC receiver in the channel protocol; what it does to one ring is the teardown protocol.
- The last MPMC receiver's `close_all_receivers` and MPMC receivers sleeping: the staging protocol covers runs up to that point and does not say when a parked receiver is woken.
- MPMC slot generations, which the code lets wrap (`src/mpmc.rs:561-570`): a lane is identified by its index in the run.
- Order within an MPMC page queue, and which lane a receiver picks: both are left open.
- Closing one chosen lane in the `Receiver` class; the channel protocol has it as steps.
- The ready bitmap words in `Receiver` are one set of slots visited in slot order.
- SpscRing.Ring.Push: one call at a time; calls of the two endpoints that overlap are in `SpscThreads`.
- SpscRing.Ring.FlushAndCount: one call at a time; a release between its load and its store is in `SpscThreads`.
- MpscReceiver.Receiver.TryRecvInner: runs with no send or registration beside it, so a lane that settles empty stays empty, and Empty and Disconnected are one outcome; the racing cases are in the lane's `SettleEmpty` and in the channel protocol, where DisconnectIsSound tells the outcomes apart.
- MpscReceiver.Receiver.PollFront: never sees a lane kept by a racing send, for the same reason, nor a stale key, because the receiver invariant has every queued slot occupied.
- MpscReceiver.Receiver.TryRecvScan: gives what was moved; whether an empty result is Empty or Disconnected is in the channel protocol.
- MpscMixed.ScanFindsEverything: no send runs beside the scan; with sends beside it, the statement is `ScanIsComplete` of the channel protocol.
- WakeupHints.NoLostHint: says nothing about publications made without asking for a hint, because those give none.
