# Verified model of the deterministic simulation laboratory

The repository simulates small distributed systems under virtual time. This project models its kernel and the
self-contained algorithms around it, and proves what they promise over every input and every run.

- `Scheduler.dfy`: the binary heap with its inverse position map, proved against a set of events ordered by time and
  sequence. Everything else uses only that specification.
- `BusModel.dfy`, `BusInvariants.dfy`, `BusTheorems.dfy`, `BusDelivery.dfy`, `BusFairness.dfy`, `MessageBus.dfy`: the message
  broker as a state machine, its invariant, the theorems over runs, what becomes of a delivery and its answer, fairness, and
  the broker object on the heap scheduler, whose methods do to its fields what the state machine does to its state.
- `KernelModel.dfy`, `KernelInvariants.dfy`, `KernelSteps.dfy`, `KernelDispatch.dfy`, `KernelTheorems.dfy`,
  `RunControl.dfy`, `Simulation.dfy`: tasks, controlled operations, process generations, services, network flights and the
  run loop as one system, in the same three layers. A handler is an arbitrary choice of next action for each event.
- `KernelProgress.dfy`, `KernelAgenda.dfy`, `KernelReplies.dfy`, `KernelLifecycle.dfy`: that the kernel does what is asked of
  it. Work starts, operations resume and requests are handed over in the dispatch of their event; no event is lost; a reply
  that comes before the deadline reaches its caller; a service is where its lifecycle events took it.
- `DatabaseModel.dfy`, `DatabaseTheorems.dfy`, `DatabaseTransactions.dfy`, `Database.dfy`: optimistic transactions, with the
  transactions and the database as objects that refer to each other.
- `KeyValueModel.dfy`, `KeyValueTheorems.dfy`, `KeyValue.dfy`, `Integers.dfy`: the store with lazy and evented expiry.
- `Canonical.dfy`, `CanonicalDecoder.dfy`, `CanonicalEquality.dfy`, `CanonicalOrder.dfy`: the canonical encoder, its key order
  by code units, and its injectivity, through a decoder for the JSON grammar of RFC 8259 (sections 2 to 7); object keys are
  in the order of section 3.2.3 of RFC 8785. The database's unique constraints and the store's compare-and-set use that result.
- `History.dfy`, `Assessment.dfy`, `FaultEngine.dfy`: the append-only log and its indexes, the assertion state machine, and
  the fault selector.
- `Records.dfy`, `TraceView.dfy`, `LessonPairs.dfy`, `Texts.dfy`, `TimelineQuery.dfy`, `ReviewNavigation.dfy`,
  `ReviewIntents.dfy`, `Timeline.dfy`: the web readers: canonical order, span forest, lesson grouping, filter and reveal, the
  reader's state machine and what each intent does to the rows, and the learning timeline.

How the pieces meet: `KernelFrames.dfy`, `BusFrames.dfy`, `SharedAgenda.dfy`, `SharedCommits.dfy`, `Composition.dfy` and
`CompositionTheorems.dfy` put kernel, broker and databases together. They share one agenda, which each sees with the other's
events as events of somebody else; a dispatch lets the kernel run its handler, the databases make their calls and decisions,
and the broker react: it admits, dispatches, fails and retries, takes the answer of a consumer that finished, and is told of
every transition. Its deliveries become consumer work of the kernel. `CompositionTheorems.ComposedNeverDeadlocks`,
`CompositionTheorems.DeliveriesAreServed`, `CompositionTheorems.AnswersEndAttempts` and
`CompositionTheorems.CompletedRunIsDone` are about that whole. `FaultEngine.DecisionsFitTheirPoint` shows that the fault
selector never asks an owner for an effect that it would refuse.

The methods of the objects that are not in the table below do to the fields exactly what the function of the same name does
to the state; each one says so in its contract.

## Where code and comments part

- Queries: the indexed query (`packages/kernel/src/history.ts:71-77`) is not always the plain scan. The index files a record
  twice when it is its own target, when it repeats an entity reference, or when two different references share a key because
  an identifier contains the separator character. `History.QueryIsScan` gives the exact condition, and
  `History.SharedKeyCounterexample` an input.
- Order: the comment above `orderObservations` says virtual time first; the code sorts by sequence number alone
  (`apps/web/src/records.ts:10-20`), and so does the model.
- Reveal: the branch of `revealTimelineObservation` for a draft that still does not parse after the time checks
  (`apps/web/src/timeline-query.ts:312-316`) never runs, because two bounds that both admit a record are not inverted;
  `TimelineQuery.RevealTimes` shows it.
- Cleanup: `cleanup` does not look at the epoch of its handle (`packages/kernel/src/database.ts:143-147`). That is harmless,
  because only `abandonGeneration` calls it, over the open transactions of the current epoch:
  `DatabaseTheorems.AbandonCleansOnlyOpen`.

## Model

| member | source | states |
|---|---|---|
| Scheduler.PopOrderIsSorted | packages/kernel/src/scheduler.ts:91-98 | Taking the least event again and again lists exactly the pending events, strictly ascending by time and then sequence |
| Scheduler.AscendingIsPopOrder | packages/kernel/src/scheduler.ts:103-106 | A strictly ascending list of exactly the pending events is the order in which they are taken |
| Scheduler.SwapUp | packages/kernel/src/scheduler.ts:139-144 | One sift-up step keeps the heap order everywhere except around the moved hole |
| Scheduler.DownMoves | packages/kernel/src/scheduler.ts:145-152 | One sift-down step through the smaller child keeps the heap order everywhere except around the moved hole |
| Scheduler.PluggedIsExact | packages/kernel/src/scheduler.ts:156-164 | Plugging a removed slot with the last event keeps the position map the exact inverse of the array |
| Scheduler.DeterministicScheduler.Up | packages/kernel/src/scheduler.ts:139-144 | Sifting up restores heap order, keeps the position map exact and keeps the set of events |
| Scheduler.DeterministicScheduler.Down | packages/kernel/src/scheduler.ts:145-152 | Sifting down restores heap order, keeps the position map exact and keeps the set of events |
| Scheduler.DeterministicScheduler.Insert | packages/kernel/src/scheduler.ts:153-155 | Adds exactly one event to the pending set and keeps heap and position map valid |
| Scheduler.DeterministicScheduler.Remove | packages/kernel/src/scheduler.ts:156-164 | Takes exactly the event at any index out of the pending set and keeps heap and position map valid |
| Scheduler.DeterministicScheduler.Schedule | packages/kernel/src/scheduler.ts:50-68 | A valid draft adds one event with the next sequence and returns its handle; an invalid one gives its error and changes nothing |
| Scheduler.DeterministicScheduler.Cancel | packages/kernel/src/scheduler.ts:82-89 | Removes exactly the event with the id, or nothing; the result says which |
| Scheduler.DeterministicScheduler.CancelHandle | packages/kernel/src/scheduler.ts:63-68 | A handle cancels its own event only, and is stale after a restore or reset |
| Scheduler.DeterministicScheduler.Peek | packages/kernel/src/scheduler.ts:91 | The least pending event by time and sequence, or none exactly when nothing is pending |
| Scheduler.DeterministicScheduler.TakeNext | packages/kernel/src/scheduler.ts:92-98 | Removes and returns the least pending event; none exactly when nothing is pending |
| Scheduler.DeterministicScheduler.Drain | packages/kernel/src/scheduler.ts:92-98 | Taking until nothing is left yields exactly the specified pop order |
| Scheduler.DeterministicScheduler.ExportState | packages/kernel/src/scheduler.ts:103-106 | Exports the pending events in the order in which they would be taken |
| Scheduler.DeterministicScheduler.Restore | packages/kernel/src/scheduler.ts:107-129 | Accepts a saved state exactly when the scheduler is pristine and the state is well formed, and then holds exactly its events; otherwise nothing changes |
| Scheduler.DeterministicScheduler.Reset | packages/kernel/src/scheduler.ts:130-132 | Empties the scheduler, restarts the sequence and makes older handles stale |
| Scheduler.RestoreExported | packages/kernel/src/scheduler.ts:103-129 | A pristine scheduler of the same run and handlers accepts an export exactly when no exported event is overdue on its clock, and then takes the very same sequence of events as the original |
| Scheduler.ExportIsRestorable | packages/kernel/src/scheduler.ts:107-129 | An export passes every check of restore exactly when none of its events is overdue: types, sequences and run always fit |
| BusTheorems.StepKeeps | packages/kernel/src/message-bus.ts:304-566 | Every step (event, publication, answer, reported readiness change, foreign work) keeps the whole bus invariant |
| BusTheorems.NoRunForgetsARecord | packages/kernel/src/message-bus.ts:388-400 | Whatever consumers and faults do, a run that ends with nothing pending leaves every record acknowledged, dead, or queued with no ready consumer |
| BusTheorems.QuietBusIsDone | packages/kernel/src/message-bus.ts:396-416 | With nothing pending no consumer is reserved and every record is at rest |
| BusTheorems.EveryRecordHasItsEvent | packages/kernel/src/message-bus.ts:388-400 | At every moment of every run a record in flight has exactly one pending event of its own, the timeout of its current attempt, a record in retry exactly its retry, any other none; while some record can be reserved exactly one dispatch is pending |
| BusTheorems.EveryReachableStateIsSafe | packages/kernel/src/message-bus.ts:425-560 | In every reachable state: reserved iff one in-flight record names the subscription, attempts within bounds, each dead record once in the dead-letter list, live records within capacity, first attempts of a topic subscriber in publication order |
| BusTheorems.SettledStaysSettled | packages/kernel/src/message-bus.ts:501-560 | Acknowledged and dead records never change again over any run, and dead letters are never withdrawn |
| BusFairness.QueueIsFair | packages/kernel/src/message-bus.ts:376-387 | In any run from a fresh broker, a queue consumer that is available at each of some consecutive reservations of its queue and chosen at none of them was passed over at most n - 1 times |
| BusFairness.RunIsChained | packages/kernel/src/message-bus.ts:376-416 | In any run each reservation of a queue starts from the cursor the one before it left, among the same consumers, from the first to the last; nothing else moves a cursor |
| BusFairness.EveryAttemptIsAPick | packages/kernel/src/message-bus.ts:401-433 | The attempt counter of a record is the number of recorded reservations of it, so the reservations of a run are complete |
| BusFairness.PassingOverComesCloser | packages/kernel/src/message-bus.ts:376-387 | Each time an available consumer is passed over, the cursor moves strictly closer to it |
| BusFairness.ReserveMovesCursor | packages/kernel/src/message-bus.ts:401-416 | A queue reservation leaves the cursor just after the chosen consumer; a topic reservation moves no cursor |
| BusTheorems.AttemptIsAnsweredOnce | packages/kernel/src/message-bus.ts:486-510 | After a live answer, and whatever happens then, no answer to any copy of the same attempt changes anything any more |
| BusTheorems.AttemptSchedule | packages/kernel/src/message-bus.ts:425-455 | An attempt schedules one timeout ackTimeout after its first arrival and each copy at its spacing, the timeout with the smaller sequence |
| BusTheorems.FailedAttemptOutcome | packages/kernel/src/message-bus.ts:511-543 | A failed attempt frees its consumer and retries after retryDelay while attempts are left, and otherwise becomes one dead letter |
| BusDelivery.AttemptSendsCopies | packages/kernel/src/message-bus.ts:425-455 | A reservation puts its record in flight for one more attempt to a consumer that was free, and every copy of the attempt is for that consumer and arrives at its own time |
| BusDelivery.ArrivalIsHandedOver | packages/kernel/src/message-bus.ts:461-485 | A copy that arrives is handed to its consumer, and marked so, exactly when it is not dropped, speaks for the current attempt and finds the consumer ready; if only the consumer is not ready the attempt fails, and otherwise nothing changes |
| BusDelivery.ReportedDeliveryCounts | packages/kernel/src/message-bus.ts:482-543 | After a step that reports a delivery, its acknowledgement leaves the record acknowledged with the consumer free, and its refusal has it retried after the delay or, with no attempt left, buried with its reason |
| BusDelivery.AnswersToReportsCount | packages/kernel/src/message-bus.ts:486-500 | Over any run from a fresh broker an answer counts exactly when its delivery was reported in that run and its attempt is still in flight; any other answer changes nothing |
| BusDelivery.TimeoutFails | packages/kernel/src/message-bus.ts:544-549 | A timeout that is dispatched finds its attempt in flight and fails it: retry after the delay or a dead letter, with the consumer free |
| BusDelivery.RetryQueues | packages/kernel/src/message-bus.ts:550-560 | A retry that is dispatched puts exactly its record back in the queue for a further attempt, with a dispatch pending if it can be reserved |
| BusTheorems.AdmissionAlwaysCompletes | packages/kernel/src/message-bus.ts:323-369 | Admission always completes the publisher's operation: all recipients are queued in subscription order, or none and a capacity failure |
| BusModel.ReserveShrinksQueue | packages/kernel/src/message-bus.ts:396-416 | Every pass of the dispatch loop takes exactly one record out of QUEUED, so the loop terminates |
| MessageBus.DeterministicMessageBus.SelectQueue | packages/kernel/src/message-bus.ts:376-387 | The cursor scan finds the first available consumer, cyclically from the cursor, or none when none is available |
| MessageBus.DeterministicMessageBus.FindReservable | packages/kernel/src/message-bus.ts:388-395 | The oldest reservable record, or none when no record can be reserved |
| MessageBus.DeterministicMessageBus.ReserveNext | packages/kernel/src/message-bus.ts:401-416 | Reserves the oldest reservable record for the selected consumer, or reports that there is none |
| MessageBus.DeterministicMessageBus.OnDispatch | packages/kernel/src/message-bus.ts:396-400 | Clears the pending mark and reserves until nothing more can be reserved |
| MessageBus.DeterministicMessageBus.Reserve | packages/kernel/src/message-bus.ts:425-455 | The record goes in flight, its subscription is reserved, its timeout and its copies are scheduled |
| MessageBus.DeterministicMessageBus.Publish | packages/kernel/src/message-bus.ts:313-322 | Keeps the invariant and schedules one admission at the current time, or refuses an unknown destination |
| MessageBus.DeterministicMessageBus.Acknowledge | packages/kernel/src/message-bus.ts:486-500 | Keeps the invariant; an answer settles or fails the attempt it belongs to, or changes nothing |
| MessageBus.DeterministicMessageBus.ReadyChanged | packages/kernel/src/message-bus.ts:561-566 | A reported readiness change keeps the invariant, so no reservable record waits without a dispatch event |
| MessageBus.DeterministicMessageBus.DispatchNext | packages/kernel/src/message-bus.ts:396-400 | Taking the least event and running its handler is one step of the broker and keeps its invariant |
| KernelTheorems.NoDeadlock | packages/kernel/src/simulation.ts:433-442 | No run, crashes included, ends in a deadlock, a clock rewind or a rejected completion or reply of the kernel's own; every suspended task has the pending event that will complete its operation, and an empty scheduler means no tasks |
| KernelTheorems.VirtualTimeIsMonotone | packages/kernel/src/clock.ts:34-42 | Over any run nothing pending is in the past and recorded dispatch times never decrease |
| KernelTheorems.ExactlyOnceResumption | packages/kernel/src/simulation.ts:185-220 | Over any run, failed ones included, each operation resumes its task at most once and service and core agree on every process generation; while the run has not failed each live task waits on one unsettled operation of its own |
| KernelTheorems.DeadlineOrResponse | packages/kernel/src/network.ts:141-157 | Over any run, failed ones included, a settled flight succeeded exactly when its response was due strictly before the deadline, it settled no later than the deadline, and an unsettled flight still has its deadline event pending |
| KernelTheorems.NothingOldRunsAgain | packages/kernel/src/service-runtime.ts:167-191 | Over any stretch of a run settled flights keep their outcome, settled operations stay settled, and nothing that runs, resumes or commits was meant for an older process generation than its owner had at the start, neither by its task nor by the event that caused it |
| KernelTheorems.CrashLeavesNothing | packages/kernel/src/service-runtime.ts:167-191 | A crash or stop leaves no task, no commit and no pending local event of the owner, raises its generation by one on both sides and touches no other owner |
| KernelTheorems.CrashIsFinal | packages/kernel/src/service-runtime.ts:121-125 | In every continuation after the event that ends a process, each entry of its owner's history is for a later process generation: nothing of the ended process runs, resumes or commits, and no event meant for it starts anything |
| KernelTheorems.StaleWorkIsDropped | packages/kernel/src/service-runtime.ts:295-312 | Endpoint and consumer work enqueued for a process generation that was over at some point of a run changes nothing when it is dispatched, however much later |
| KernelTheorems.CallHasOneEvent | packages/kernel/src/network.ts:131-157 | A running task that yields a call gets exactly one pending event that will complete it, at the time asked for, before the delivery of its request |
| KernelTheorems.FirstReplyIsSent | packages/kernel/src/network.ts:202-215 | The first reply to a delivered flight puts exactly one response on the agenda, due at the end of its leg, and none over a lost leg; no other flight changes and a second reply sends nothing |
| KernelProgress.AdvanceWorked | packages/kernel/src/simulation.ts:392-414 | A task that runs does all its code asks for: its local work is due, and it waits for the call it yielded with every event of that call at its time, or it is gone and its request is answered; the run fails exactly when its code throws |
| KernelProgress.WorkStarts | packages/kernel/src/service-runtime.ts:295-320 | The dispatch of endpoint or consumer work of the current process generation, of local work of a running service and of a client action starts its task at once, recorded for the generation it was meant for, and the task does all it is to do; any other such event starts nothing |
| KernelProgress.WorkResumes | packages/kernel/src/simulation.ts:188-204 | The dispatch of the event that completes an operation resumes the task that waits for it, recorded once, and the task does all it is to do; without such a task nothing happens |
| KernelProgress.RequestIsHandedOver | packages/kernel/src/network.ts:188-201 | A request that arrives becomes work for the current process generation of its target in the same dispatch, or gets an error reply when its endpoint is unknown or its service is not running |
| KernelAgenda.NothingElseIsCancelled | packages/kernel/src/service-runtime.ts:172-186 | A dispatch cancels nothing but local work and sleeps of a process it ends, the deadline of a request it answers, and events of the broker's own; every other pending event of anybody stays |
| KernelAgenda.EventsAreDispatched | packages/kernel/src/simulation.ts:443-485 | Over any stretch of a run every event is still pending, or it was dispatched or cancelled in that way |
| KernelAgenda.WorkIsServed | packages/kernel/src/service-runtime.ts:295-312 | Over any stretch of a run endpoint work, consumer work and client actions are still pending, or were dispatched, and ran in that dispatch if their process generation was still current; history keeps it |
| KernelAgenda.DispatchesAreCounted | packages/kernel/src/simulation.ts:443-449 | A run that is still going after some dispatches has taken exactly that many events |
| KernelAgenda.RunIsComplete | packages/kernel/src/simulation.ts:433-442 | Over any run that has not failed, it is complete exactly when nothing is pending any more |
| KernelReplies.RepliesAreSent | packages/kernel/src/network.ts:201-215 | In a dispatch no flight gets its reply but that of the request which the dispatched work answers or which is refused on arrival, and its first reply leaves over the leg chosen there |
| KernelReplies.ReplyDecides | packages/kernel/src/network.ts:216-229 | Once a flight was replied, in every continuation it succeeds at the time its response is due if that is before the deadline and times out otherwise, and until then the event that decides it is pending |
| KernelReplies.CallerGetsTheReply | packages/kernel/src/network.ts:177-229 | A flight whose first reply leaves at some time over a leg that ends before the deadline settles with success at that very time once it has been dispatched, and times out over a longer or lost leg |
| KernelLifecycle.TransitionsAreTheTable | packages/kernel/src/service-runtime.ts:14-20 | A transition is made exactly for the twelve pairs of the table and for the state the service is in; it leaves the owner there, one process generation later exactly when a process ended, and otherwise the run fails and no service changes |
| KernelLifecycle.LifecycleIsFollowed | packages/kernel/src/service-runtime.ts:167-191 | The dispatch of a lifecycle or crash event makes its transition exactly when the table has it, and touches no other service |
| KernelLifecycle.ServiceFollowsItsEvents | packages/kernel/src/service-runtime.ts:167-191 | Over any stretch of a run that does not fail, state and process generation of a service are exactly what the lifecycle and crash events dispatched for it say, and each step is in the table |
| KernelLifecycle.CrashedServiceRestarts | packages/kernel/src/service-runtime.ts:14-20 | After a crash, the next two lifecycle events of the service, to starting and to running, leave it running one process generation later than before the crash, whatever else is dispatched in between |
| KernelDispatch.FencedKeeps | packages/kernel/src/service-runtime.ts:295-312 | Endpoint and consumer work that passes the fence is of the owner's current process generation |
| KernelDispatch.BackgroundKeeps | packages/kernel/src/service-runtime.ts:313-320 | Local work has no fence: a local event that is still pending was scheduled by the current process generation |
| KernelDispatch.BrokeredKeeps | packages/kernel/src/message-bus.ts:425-566 | Whatever the broker cancels, schedules and hands over, at any dispatch, the kernel keeps its invariant |
| KernelDispatch.TaskHasItsEvent | packages/kernel/src/simulation.ts:245-265 | Every suspended task has one pending event that will complete the operation it waits for |
| KernelDispatch.EmptyMeansIdle | packages/kernel/src/simulation.ts:433-442 | When nothing is pending no task is left, so the boundary completes instead of deadlocking |
| KernelSteps.CompleteKeeps | packages/kernel/src/simulation.ts:188-205 | Completing an operation and resuming its task keeps every part of the kernel invariant |
| KernelSteps.AdvanceKeeps | packages/kernel/src/simulation.ts:392-414 | Advancing a task to its next operation, its end or its error keeps the kernel invariant |
| KernelSteps.SpawnKeeps | packages/kernel/src/simulation.ts:443-485 | A handler that becomes a task keeps the kernel invariant |
| KernelSteps.ReplyKeeps | packages/kernel/src/network.ts:202-215 | Only the first reply to an admitted flight is sent, and the flight still settles by its deadline |
| KernelDispatch.DeadlineKeeps | packages/kernel/src/network.ts:223-229 | A deadline event settles an unsettled flight as timed out and keeps the invariant |
| KernelDispatch.ResponseKeeps | packages/kernel/src/network.ts:216-222 | A response event settles an unsettled flight, cancels its deadline and keeps the invariant; a late one changes nothing |
| KernelDispatch.DeliveryKeeps | packages/kernel/src/network.ts:188-200 | A delivered request is answered with an error or handed to the current generation of its target, never to an older one |
| KernelDispatch.TransitionKeeps | packages/kernel/src/service-runtime.ts:167-191 | Every lifecycle transition, terminating ones included, keeps the invariant and never has its abandon rejected |
| KernelDispatch.DispatchKeeps | packages/kernel/src/simulation.ts:443-485 | Every dispatched event, whatever the handler does, keeps the invariant or ends in user failure |
| RunControl.ControlsAreDispatches | packages/kernel/src/simulation.ts:487-516 | Any list of step and bounded run calls makes exactly as many dispatches as it asks for, unless the run ends before |
| RunControl.SplittingDoesNotMatter | packages/kernel/src/simulation.ts:487-516 | Two ways of splitting a run make the same dispatches: one continues from where the other stands, and finished runs are equal in state and history |
| KernelFrames.HandlerExtends | packages/kernel/src/simulation.ts:443-485 | No handler takes an event of the broker or a commit event off the agenda, and every event it adds has a new sequence |
| KernelFrames.HandlerWorks | packages/kernel/src/simulation.ts:392-414 | A handler that lets a task run creates at most one operation; if that is a commit it is pending for its task with its event, and no other commit changes |
| BusFrames.OwnMoves | packages/kernel/src/message-bus.ts:396-560 | A handler of the broker adds only events of its own, one for each sequence it uses, and takes off nothing but timeouts |
| BusFrames.AmongKeeps | packages/kernel/src/message-bus.ts:388-400 | The broker's invariant holds whatever events others put on or take off the common agenda beside its own |
| SharedAgenda.LeastIsSame | packages/kernel/src/simulation.ts:443-450 | On an agenda both agree on, kernel and broker take the same event |
| SharedAgenda.TimedAgrees | packages/kernel/src/message-bus.ts:425-560 | Cancelling and scheduling for the kernel what the broker cancelled and scheduled brings the two views of the agenda back into agreement |
| SharedCommits.DecidedTogether | packages/kernel/src/database.ts:148-177 | A database decides a dispatched commit exactly when the kernel completes its operation |
| SharedCommits.EndServes | packages/kernel/src/service-runtime.ts:176-185 | The end of a process generation withdraws the same commits on both sides and leaves nothing of it open in the database |
| SharedCommits.SubmitServes | packages/kernel/src/database.ts:123-131 | A commit that a running task submits becomes pending on both sides, for the same process generation |
| CompositionTheorems.StepKeeps | packages/kernel/src/simulation.ts:443-485 | One dispatch of kernel, broker and databases keeps each one's invariant, one agenda, ready subscriptions exactly of the running services, and the same pending commits |
| CompositionTheorems.PartsAreReady | packages/kernel/src/simulation.ts:443-485 | In agreement, broker and databases can always take part in the next dispatch, so every run can go on until it completes or fails |
| CompositionTheorems.ComposedNeverDeadlocks | packages/kernel/src/simulation.ts:433-442 | No composed run deadlocks, rewinds the clock or rejects a completion: it fails only when user code throws or a scenario asks for an impossible transition |
| CompositionTheorems.AnswersMeetOperations | packages/kernel/src/message-bus.ts:323-369 | When the kernel takes an admission the broker admits that publication and answers exactly its operation; when it takes a commit event the database decides that commit exactly when the kernel completes its operation |
| CompositionTheorems.DeliveriesAreAccepted | packages/kernel/src/service-runtime.ts:106-114 | A delivery that the broker reports finds its service running and becomes consumer work of the current process generation in the same dispatch |
| CompositionTheorems.DeliveriesAreServed | packages/kernel/src/service-runtime.ts:304-312 | A delivery that the broker reports becomes one consumer event due at once, which stays pending until it is dispatched; if its service still has that process generation then, its handler runs in that dispatch |
| CompositionTheorems.WorkIsServed | packages/kernel/src/service-runtime.ts:295-312 | In the composed run endpoint work, consumer work and client actions stay pending until a step takes them and runs their work |
| CompositionTheorems.AnswersEndAttempts | packages/kernel/src/service-runtime.ts:310-311 | What a consumer answers when its work is done reaches the broker: its message is acknowledged, or retried while attempts are left and dead otherwise |
| CompositionTheorems.CompletedRunIsDone | packages/kernel/src/simulation.ts:433-442 | A run that completes leaves no task, every message acknowledged, dead, or queued for services none of which runs, no consumer reserved, and no commit undecided in any database |
| CompositionTheorems.TransactionsAreCurrent | packages/kernel/src/service-runtime.ts:167-191 | In every reachable world each transaction that is open or waits for its commit belongs to the current process generation of its service |
| Simulation.HeadlessSimulation.Abandon | packages/kernel/src/simulation.ts:206-220 | Drops exactly the tasks of one process generation, settles what they waited for, cancels their wakes and raises the generation; a wrong generation is an error |
| Simulation.HeadlessSimulation.Dispatch | packages/kernel/src/simulation.ts:443-485 | Takes the least event, moves the clock, runs the handler and then the boundary |
| Simulation.HeadlessSimulation.Step | packages/kernel/src/simulation.ts:487-492 | One dispatch, with the status it leaves behind |
| Simulation.HeadlessSimulation.Run | packages/kernel/src/simulation.ts:493-516 | A boundary check and at most maxEvents dispatches, with the status they leave behind |
| Canonical.EncodeIsPlainNormal | packages/kernel/src/canonical.ts:55-60 | The encoder writes the plain text of the value with the keys of every object sorted |
| CanonicalDecoder.CharsRoundTrip | packages/kernel/src/canonical.ts:56 | Every string, lone surrogates and control characters included, is read back from its escaped form and ends at its closing quote |
| CanonicalDecoder.NumberRoundTrip | packages/kernel/src/canonical.ts:56 | A number token ends where the next delimiter starts |
| CanonicalDecoder.PlainRoundTrip | packages/kernel/src/canonical.ts:55-60 | The text of any value, followed by anything that may follow it, parses back to that value and leaves the rest |
| CanonicalDecoder.DecodeEncode | packages/kernel/src/canonical.ts:55-60 | Decoding an encoding gives back the value with its object keys sorted |
| CanonicalEquality.AscendingIsUnique | packages/kernel/src/canonical.ts:59 | Sorting keys has one result: two ascending key lists with the same keys are equal |
| CanonicalEquality.SameIsNormalEquality | packages/kernel/src/canonical.ts:55-60 | Two values have equal normal forms exactly when they are the same up to key order at every depth |
| CanonicalEquality.EncodingIsInjective | packages/kernel/src/canonical.ts:55-60 | Two encodings are equal if and only if the values are equal up to the order of object keys |
| CanonicalOrder.EncodesInOrder | packages/kernel/src/canonical.ts:54-60 | The encoder writes the one value that is the same up to key order and whose objects, at every depth, list their keys by UTF-16 code units: at the first difference the smaller unit, or the shorter key, comes first |
| CanonicalOrder.BeforeIsSmaller | packages/kernel/src/canonical.ts:59 | The comparison of the key sort is by the first difference in code units |
| CanonicalOrder.EscapeIsPrintable | packages/kernel/src/canonical.ts:56 | A string is written without control characters and with surrogates only in pairs, whatever it holds |
| Integers.DecimalRoundTrip | packages/kernel/src/key-value-store.ts:207-209 | A safe integer is read back from its canonical number token |
| DatabaseTheorems.CommittedIsSerial | packages/kernel/src/database.ts:148-177 | Every reachable committed state is the result of executing the committed transactions one at a time in commit order, with every call answered as it was, and satisfies all constraints |
| DatabaseTheorems.CommitOutcome | packages/kernel/src/database.ts:148-177 | Without a fault a commit succeeds exactly when nothing was written since the transaction began and its own view satisfies the constraints; then that view becomes the committed state, with a new revision exactly when one of its calls changed something; otherwise the answer names the first of fault, conflict and constraint, and nothing changes |
| DatabaseTheorems.NetChangesReproduceSnapshot | packages/kernel/src/database.ts:247-251 | The net change log applied to the tables a transaction started from gives its private snapshot |
| DatabaseTheorems.EqualRevisionsEqualTables | packages/kernel/src/database.ts:172-173 | Within an epoch revisions never fall, and equal revisions mean equal committed tables |
| DatabaseTheorems.FirstCommitterWins | packages/kernel/src/database.ts:162 | No transaction commits after a writer that began at the same or a later revision, so of two writers with one base revision at most one commits |
| DatabaseTheorems.PerformIsEffect | packages/kernel/src/database.ts:225-246 | Reading and writing the snapshot answers and acts as the same call on plain tables |
| DatabaseTheorems.StepKeeps | packages/kernel/src/database.ts:94-177 | Every operation, reset and abandonment included, keeps the database invariant |
| DatabaseTheorems.AbandonRemoves | packages/kernel/src/database.ts:94-97 | Abandoning a generation leaves none of its transactions open or waiting to commit |
| DatabaseTheorems.AbandonCleansOnlyOpen | packages/kernel/src/database.ts:94-97 | The clean-up reaches exactly the transactions of the generation that are open in the current epoch, and changes no other |
| DatabaseTheorems.AbandonedStaysOut | packages/kernel/src/database.ts:94-97 | After that, no step commits anything of the generation; only a new begin of that generation brings it back |
| DatabaseTheorems.AbandonedNeverCommits | packages/kernel/src/database.ts:94-97 | In any continuation of a run without a new begin of the abandoned generation, none of its transactions commits any more |
| DatabaseTheorems.UniqueMeansDifferent | packages/kernel/src/database.ts:205-210 | A unique constraint holds for a row exactly when it has all the fields and no other row of the table has the same values in them |
| DatabaseTransactions.WholeTransaction | packages/kernel/src/database.ts:98-177 | An undisturbed transaction is atomic: if the tables its calls lead to satisfy the constraints they become the committed tables, with a new revision exactly when a call changed something; otherwise nothing of it is committed |
| DatabaseTransactions.AccessAnswers | packages/kernel/src/database.ts:225-246 | A valid call through an open transaction answers and acts as the same call on the tables the transaction sees, and changes nothing else |
| DatabaseTransactions.RollbackDiscards | packages/kernel/src/database.ts:132-142 | A rollback by the task of the open transaction ends it, lets the task begin another and touches nothing else; any other changes nothing |
| DatabaseTransactions.RolledBackStaysOut | packages/kernel/src/database.ts:132-142 | In every continuation of a run a transaction that was rolled back stays over, and no pending commit is its |
| Database.Constraint | packages/kernel/src/database.ts:195-214 | Nothing is reported exactly when every check and unique constraint holds, and otherwise a constraint that some row breaks |
| Database.Open | packages/kernel/src/database.ts:44-75 | A database opens exactly when its owner and tables are named, its constraints name fields and existing checks, its initial rows are in its tables, and the initial tables satisfy the constraints |
| Texts.TrimmedNames | packages/kernel/src/database.ts:9 | A name is a string of which trimming leaves something |
| Database.LocalTransaction.Changes | packages/kernel/src/database.ts:247-251 | Lists each slot with a net change once, with its change, and no other |
| Database.DeterministicDatabase.AbandonGeneration | packages/kernel/src/database.ts:94-97 | Rolls back the open transactions of one generation and drops its pending commits, and touches no other |
| Database.DeterministicDatabase.CandidateOf | packages/kernel/src/database.ts:163-167 | The committed tables with the transaction's net changes made to them |
| Database.DeterministicDatabase.Dispatch | packages/kernel/src/database.ts:148-177 | A pending commit is removed and decided; an operation no longer pending is ignored |
| KeyValueTheorems.RunRefines | packages/kernel/src/key-value-store.ts:97-230 | Over any run the store answers exactly as a plain map whose keys are absent from their deadline on, whichever of the lazy check and the expiry event comes first |
| KeyValueTheorems.OperateRefines | packages/kernel/src/key-value-store.ts:174-230 | Each operation answers and acts as on the plain timed map; increment keeps the deadline and compare-and-set compares values up to key order |
| KeyValueTheorems.StepRefines | packages/kernel/src/key-value-store.ts:97-230 | Expiry events, stray ones included, never change what the owner sees; only time does |
| KeyValueTheorems.GenerationNamesOneWrite | packages/kernel/src/key-value-store.ts:180-220 | In a run a key's generations never fall, and one key and generation name one write, deletes and expiries in between or not |
| KeyValueTheorems.StaleExpiryIsHarmless | packages/kernel/src/key-value-store.ts:110-116 | An expiry of an older write's generation removes nothing |
| KeyValueTheorems.OneExpiryEach | packages/kernel/src/key-value-store.ts:97-107 | After the initial arming every entry with a deadline has exactly one pending expiry, with its generation and its unexpired deadline, and every other key has none |
| KeyValueTheorems.FireKeeps | packages/kernel/src/key-value-store.ts:110-116 | A dispatched expiry event always finds its entry due and removes it |
| KeyValueTheorems.StepKeeps | packages/kernel/src/key-value-store.ts:97-230 | Every step keeps entries and pending expiry events in agreement |
| KeyValueTheorems.InitialItemsLive | packages/kernel/src/key-value-store.ts:74-96 | A store shows its owner exactly the items it was opened with, each with its value, until their time to live since the opening has run out |
| KeyValue.Open | packages/kernel/src/key-value-store.ts:74-96 | A store opens exactly when its initial keys are named and distinct and their times to live are in range |
| KeyValue.DeterministicKeyValueStore.DispatchNext | packages/kernel/src/key-value-store.ts:110-116 | The least expiry event moves the clock to its time and removes its entry |
| KeyValue.DeterministicKeyValueStore.ScheduleInitialExpiries | packages/kernel/src/key-value-store.ts:98-107 | Arms every initial deadline once and does nothing the second time |
| History.QueryIsScan | packages/kernel/src/history.ts:71-77 | A query through an index equals the plain in-order scan if and only if no matching record is listed twice under the queried key |
| History.ListedTwiceMeans | packages/kernel/src/history.ts:130-134 | A record is listed twice only in a query by component when it is its own target, or by entity when two of its references share a key |
| History.SharedKeyCounterexample | packages/kernel/src/history.ts:171 | Two different entities whose identifiers contain the separator share a key, and a query for one of them lists the record twice |
| History.HistoryIsOrdered | packages/kernel/src/history.ts:52-65 | In every run the limit holds, sequence numbers are positions, causes come strictly before effects and times never go back |
| History.HistoryIsAppendOnly | packages/kernel/src/history.ts:101-108 | The log only grows, and nothing is added after it was sealed |
| History.Causes | packages/kernel/src/history.ts:167 | The chain of causes of a record ends: every step goes to a strictly earlier record |
| History.AddAll | packages/kernel/src/history.ts:170 | Adding a record under each of its keys keeps the index equal to its specification |
| History.ExecutionHistory.Record | packages/kernel/src/history.ts:52-65 | Appends the record and files it, or refuses it in the order of the checks and changes nothing |
| History.ExecutionHistory.FileIn | packages/kernel/src/history.ts:130-134 | Every index holds exactly the records filed under each key, in log order |
| History.ExecutionHistory.Query | packages/kernel/src/history.ts:71-77 | Refuses an invalid filter; otherwise the answer is the plain scan exactly when no matching record is listed twice |
| History.ExecutionHistory.SealFailure | packages/kernel/src/history.ts:101-108 | The first failure seals the history; only the same failure is accepted again |
| Assessment.VerdictIsMeaning | packages/scenario/src/assessment.ts:41-73 | After completion an always assertion passes exactly when its predicate held at every boundary, an eventually one when it held before its marker closed, an at one when it held at its marker or at the end; none is pending |
| Assessment.RowIsFirstDecision | packages/scenario/src/assessment.ts:48-73 | A row is pending while no boundary decided it, and then carries the verdict, time and evidence of the first that did |
| Assessment.SettledStays | packages/scenario/src/assessment.ts:51-52 | A settled verdict never changes |
| Assessment.FailureIsIncomplete | packages/scenario/src/assessment.ts:46 | After a failure exactly the undecided assertions are incomplete, and the settled ones are untouched |
| Assessment.EvaluateAllAt | packages/scenario/src/assessment.ts:49-73 | Assertions with distinct ids do not disturb each other |
| Assessment.AssessmentAttempt.Evaluate | packages/scenario/src/assessment.ts:49-73 | One boundary evaluates every pending row by its mode, in order |
| Assessment.AssessmentAttempt.OnFailure | packages/scenario/src/assessment.ts:46 | Every pending row becomes incomplete and no other changes |
| FaultEngine.OneDuplicate | packages/kernel/src/fault-engine.ts:49-52 | Of accepted rules at most one duplication matches any probe at any time |
| FaultEngine.OverlapsMeansShared | packages/kernel/src/fault-engine.ts:29-31 | The static overlap check is exact: two accepted rules overlap if and only if some probe that evaluate takes matches both at some time, except when there are no components and so no probe at all |
| FaultEngine.AppliedDuplicatesAgree | packages/kernel/src/fault-engine.ts:146 | Two applied duplications are one rule, so declaration order never decides the number of copies |
| FaultEngine.DecisionsFitTheirPoint | packages/kernel/src/fault-engine.ts:70-72 | A commit can only be failed, only a commit can be, and only a delivery is duplicated |
| FaultEngine.BudgetsHold | packages/kernel/src/fault-engine.ts:129-151 | Over any run the counters count matches and uses, uses never exceed maxApplications or candidates, and a rule for one occurrence is used at most once |
| FaultEngine.CertainRulesApply | packages/kernel/src/fault-engine.ts:129-151 | Over any run a rule of probability one applies to every probe it matches until its budget is used up, or to exactly its one occurrence, and a rule of probability zero never applies |
| FaultEngine.DrawSelects | packages/kernel/src/fault-engine.ts:135 | A draw from the unit interval selects a rule exactly when it falls into the first probability of the interval |
| FaultEngine.DeterministicFaultEngine.Evaluate | packages/kernel/src/fault-engine.ts:116-154 | A probe identity is used once; the decision combines exactly the rules that apply, and every matching rule counts |
| TraceView.Acyclic | apps/web/src/records.ts:389-398 | The walk over possibly cyclic parent links ends, and answers whether the chain of parents ends |
| TraceView.RepeatedNeverEnds | apps/web/src/records.ts:389-398 | A chain of parents that visits a span twice never ends |
| TraceView.Build | apps/web/src/records.ts:139-167 | Groups, first parents, children and roots are those of the ordered records of the trace, and the links form a forest |
| TraceView.EveryRecordHasOneNode | apps/web/src/records.ts:139-167 | In the built view a spanned record of the trace is in the group of its span, as often as it was stored, and nowhere else, and that node is below exactly one root at exactly one depth; a record without a span is only among the unspanned ones |
| TraceView.EverySpanHasOneRoot | apps/web/src/records.ts:158-167 | Every span of a linked view is reached from exactly one root, by paths of exactly one length |
| TraceView.EverySpanHasOnePlace | apps/web/src/records.ts:158-167 | Every span of a linked view is among the roots or under exactly one parent, once |
| TraceView.SpansAreDistinct | apps/web/src/records.ts:153-157 | The view has exactly the spans that some record of the trace names, each once |
| Records.OrderIsStable | apps/web/src/records.ts:15-20 | Ordering sorts by sequence number, keeps every record and keeps the published order of equal ones |
| Records.ContinuesHistory | apps/web/src/records.ts:23-31 | True exactly when the next history repeats the previous one record for record and only grew |
| LessonPairs.Pairs | apps/web/src/lesson-pairs.ts:17-40 | The groups are exactly the connected components of the compare relation, each in catalog order, ordered by their first lesson |
| LessonPairs.RootsAreComponents | apps/web/src/lesson-pairs.ts:20-31 | Two lessons have one root if and only if they are connected |
| LessonPairs.UnionRoots | apps/web/src/lesson-pairs.ts:30 | Hanging the later root under the earlier one merges exactly the two groups and keeps the smaller root |
| LessonPairs.FindRoot | apps/web/src/lesson-pairs.ts:20-24 | The walk to the root ends, because no parent exceeds its own position |
| LessonPairs.Unite | apps/web/src/lesson-pairs.ts:25-31 | After all lessons every position is connected to its root and every named partner shares it |
| LessonPairs.DistinctIdsName | apps/web/src/lesson-pairs.ts:18 | With distinct ids a lesson's partner is the lesson its compare field names |
| TimelineQuery.RevealObservation | apps/web/src/timeline-query.ts:298-330 | Drops exactly the constraints that exclude the record, names each once, leaves a draft that parses to the returned query, and reports a change exactly when the draft did not admit the record |
| TimelineQuery.RelaxedAdmits | apps/web/src/timeline-query.ts:298-330 | The revealed draft always parses and its query keeps the record |
| TimelineQuery.AdmittedIsUntouched | apps/web/src/timeline-query.ts:298-330 | No constraint excludes the record exactly when the draft admits it, and then the draft is left as it is |
| TimelineQuery.RevealTimes | apps/web/src/timeline-query.ts:305-316 | The time bounds that are no times or leave the record out go, and what remains always parses |
| TimelineQuery.RevealTexts | apps/web/src/timeline-query.ts:317-327 | The text constraints that do not match the record go, a non-matching entity with all its parts |
| TimelineQuery.RowsAre | apps/web/src/timeline-query.ts:99-101 | The rows are exactly the records that match the query |
| TimelineQuery.TimeIsDecimal | apps/web/src/timeline-query.ts:431-436 | A bound is read as a time exactly when its trimmed text is the decimal rendering of a safe whole number |
| TimelineQuery.ModesWiden | apps/web/src/timeline-query.ts:379-384 | Exact matching is narrower than prefix matching and prefix narrower than contains; they agree on texts of equal length |
| ReviewNavigation.ErrorMeansUnparsed | apps/web/src/review-navigation.ts:174-217 | After any intents an error is shown exactly when the draft does not parse, and otherwise the query is what the draft parses to |
| ReviewNavigation.TransitionAgrees | apps/web/src/review-navigation.ts:174-217 | Every intent keeps draft, query and error in agreement |
| ReviewNavigation.RevealShowsTheRecord | apps/web/src/review-navigation.ts:345-367 | In any reachable state revealing a recorded observation leaves it selected, focused and among the filtered rows, with no error |
| ReviewNavigation.RevealOfVisibleChangesNothing | apps/web/src/review-navigation.ts:345-367 | Revealing a record that is already among the rows changes neither draft, query nor quick view |
| ReviewNavigation.NarrowShowsTheTrace | apps/web/src/review-navigation.ts:414-436 | After narrowing to a trace no error is left and the rows are exactly the records of the trimmed trace id in the quick view (all of them for a blank id); a recorded trace always has a row |
| ReviewNavigation.MoveThereAndBack | apps/web/src/review-navigation.ts:392-398 | With distinct record ids, moving selects the neighbouring row and moving back returns; at the end of the rows nothing changes |
| ReviewNavigation.GrowthAppendsRows | apps/web/src/review-navigation.ts:455-480 | When history grows, the rows shown stay where they are and new ones come only behind them; the selection keeps its record and its place |
| ReviewNavigation.ReplacementShowsAll | apps/web/src/review-navigation.ts:460-474 | When history is replaced, exactly its records are shown, in order, with nothing selected, no error and no cue |
| ReviewNavigation.CueIsNewest | apps/web/src/review-navigation.ts:475-479 | The live cue is the last new movement, and without one the cue stays |
| ReviewNavigation.NewestMovement | apps/web/src/review-navigation.ts:475-479 | The loop over the published records finds that cue |
| ReviewIntents.DraftKeepsWhatItAsks | apps/web/src/timeline-query.ts:359-384 | A draft that parses keeps exactly the records that satisfy everything typed into it: the time bounds, each text as a whole, a beginning or a part of the stored one, the component at either end, and both entity fields on one entity |
| ReviewIntents.EditedDraftDecides | apps/web/src/review-navigation.ts:439-444 | An edited draft decides the rows as soon as it parses; until then the rows stay as they are and the error says why |
| ReviewIntents.ClearShowsAll | apps/web/src/review-navigation.ts:200-205 | Clearing shows every record in order, without constraint, error or quick view, and keeps the selection |
| ReviewIntents.ComponentIsToggled | apps/web/src/review-navigation.ts:191-194 | Choosing a component shows exactly the rows that come from it or go to it, whatever else is typed; choosing it again takes that constraint away |
| ReviewIntents.TraceIsToggled | apps/web/src/review-navigation.ts:195-198 | Choosing a trace shows exactly its rows, whatever else is typed; choosing it again takes that constraint away |
| ReviewIntents.QuickViewIsToggled | apps/web/src/review-navigation.ts:180-190 | A quick view shows the rows it keeps; choosing the same one again, or clearing it, shows all rows of the draft |
| ReviewIntents.SelectionLeavesRows | apps/web/src/review-navigation.ts:207-215 | Selecting, switching the view, opening groups and focusing leave rows and draft alone and each does its one thing; opening a group twice closes it |
| ReviewIntents.IndexSelectsItsRow | apps/web/src/review-navigation.ts:379-390 | Selecting by index selects and focuses exactly that row; an index without a row does nothing |
| Timeline.LearningTimeline | apps/web/src/timeline.ts:104-136 | The items flatten to the ordered records, and exactly the maximal runs of one context are grouped |
| Timeline.NextItem | apps/web/src/timeline.ts:110-134 | One item is the longest run of records that share the context of its first one |

## Left out

- Safe-integer overflow of ids, generations, sequence numbers and durations, except where the key-value store checks a
  counter or a deadline: ids and times are unbounded naturals, and the error branches are not modelled.
- Event, operation, routing, delivery and observation ids are their allocation numbers; the text form of ids is not modelled.
- Observation payloads, trace and span metadata, schemas of payloads, and recorded wording: only the fields that a property
  mentions are kept. In the kernel and the broker recorded observations are left out altogether.
- Message bodies, request bodies and reply values; the choice of an error body in `network.ts`.
- User code: handlers, predicates, row checks and fault decisions are arbitrary total functions or choices. A handler that
  creates an operation and does not yield it, or completes one while another task runs, is not modelled.
- Network policy sampling and fault decisions of a network leg: a leg is lost or takes any delay.
- `canonicalCopy` as an object walk (accessors, prototypes, cycles, freezing), `sha256Hex` and the seeded random generator.
- Number tokens: a number is identified with its one shortest decimal rendering; how JavaScript computes it is not modelled.
- The pause request and host yielding inside `run`, host and worker transport, and notification listeners of the history.
- In the composed simulation: key-value stores and external services, several answers in one dispatch, and what a publication
  or a commit carries; the destination of a publication and the transaction of a commit are given by its operation. A database
  call of a task is made before the task yields, and `rollback` at the end of a task is a call like any other.
- The clock's own sleep bookkeeping, external services and clients beyond the start of their work, and runtime logging.
- The broker's routing records, delivery copies and dead letters are values in a list, not objects of their own, so aliasing
  between a record and its holders is not captured; the same holds for flights, tasks and operations of the simulation.
- Constraint: names some constraint that is broken, not the first in row order, because the tables are one map over table and key.
- Changes: lists the net changes in no particular order, because only the recorded observation shows their order.
- Scan: gives the rows of a table as a map by key, not as a list sorted by key; it is not in the table above.
- Publish: refuses an unknown destination; the checks of the message value itself, of the sealed broker and of the active owner are
  left out.
- Record: takes the answer of the type's schema for the payload as an input.
- The cancelled mark of a pending commit is its removal from the pending map.
- Saved scheduler states as untyped input: a saved state has typed fields, and its other checks are modelled.
- The grammar of observation type names and the visibility policies of the history.
- `apply` of scheduled faults, and capabilities of the fault engine that become stale.
- Quick views as tables of kinds: a view is any predicate on the stored type. The lists, labels, chips, counts and
  explanations that `derive` computes for display, and republishing the very same array object.
- React components, layout, overlays, catalog models, lesson scenarios and their copy: data and presentation.
