# The in-memory backend of buqueue, modelled and proved

buqueue is a message queue interface with one in-memory backend. That backend is small but concurrent: any
number of producers push into a bounded channel, scheduled messages wait in a sorted map behind a mutex, every
delivery carries an ack handle that may push its message back, and one consumer flushes the schedule, pops the
channel and races the channel against a timer, the liveness of the producers and a shutdown signal.

The model has two layers and a set of objects.

- **The atomic broker** (`Broker.dfy`, `Ledger.dfy`): an unbounded enqueue log, a schedule, a fate for each
  delivery and a nack ledger, changed by atomic events. No lock, no capacity, no half-done operation.
- **The machine** (`Machine.dfy`): the backend as it runs. Producer tasks, deliveries and the consumer have
  program counters and are interleaved arbitrarily, one suspension point at a time. The mutex, the channel
  slots, the count of senders, the clock, the producer handles and the dropping of the consumer are explicit. A
  nack is: take the lock, count, decide, wait for a slot, push, release. A flush is: take the lock, split the
  map, push one by one, release.
- `Refinement.dfy` proves that every interleaving of the machine is a run of the broker with the same log, the
  same received sequence and the same fates; a message counts as enqueued when it is pushed into the channel.
  `Safety.dfy`, `Attempts.dfy`, `Order.dfy` and `Calls.dfy` carry the consequences back to every reachable state of
  the machine, and `Promises.dfy` says what becomes, over any run, of what a step is given. `Blocking.dfy`,
  `Senders.dfy`, `ConnectionLoss.dfy`, `Progress.dfy`, `Stopping.dfy` and `Exclusion.dfy` are about slots, who can
  still send, what a lost connection means, the receive loop, shutdown, and what the mutex protects. `Witnesses.dfy`
  builds runs that reach the states the exact conditions are about.
- **The objects** (`Memory.dfy`, `Endpoints.dfy`, `Consuming.dfy`, `Streams.dfy`, `Building.dfy`): the classes of the
  source with their fields updated in place and their loops written out. They live in a `World`, which keeps account
  of them: each step the code takes is matched by a step of the machine, and before each step, and while it waits,
  the others do what a script says (`Worlds.dfy`). The contract of a method is that its code, with that script, has
  been `Played` to where it ends or can wait for ever. Script and code determine the outcome (`PlayedOnce`), and every
  such play is a run of the machine (`PlayedIsRun`), so that all that is proved of runs holds of calls. The script is
  arbitrary; an empty one is nobody interfering. `Usage.dfy` puts the operations together.

`Core.dfy` holds the shared vocabulary, including the u32 counters with their wrap-around, and `Schedule.dfy`
the sorted map of buckets together with the flat list it refines.

## What was found

- **The backend can block itself for good.** The lock is held across a push. With the channel full, a flush by
  the consumer, or a nack while the consumer has yet to take the lock, waits for a slot only the consumer could
  free. `ExactlyStuck` gives the condition. `CapacityGuarantee` says what keeps a program away from it: never to hand the
  backend more than the channel holds. That bound is tight: one message more gets any capacity stuck (`StuckHappens`).
- **A shutdown can lose messages.** `receive_graceful` drops a `receive` that waits inside its flush; the due
  messages it had not pushed yet are already off the schedule. This is exactly how an accepted message can
  vanish, message by message and for every run (`LostExactlyByCancel`, `VanishedExactlyByCancel`);
  `CancelLosesMessage` is an instance.
- **The count of a dead letter can wrap.** With a dead letter queue whose limit is the largest u32, and only
  then, the last `+= 1` on the delivery count wraps (`IncrementsAreSafe`, `NackedEveryTime`).
- **A lost connection is reported with messages left behind**: on the schedule (`ScheduleLeftBehind`), and even in the
  channel, if the last producer sends and leaves after the select has looked at the channel and before it looks at the
  producers (`MessageLeftBehind`). What has not been received by then is exactly what is scheduled, was lost with a
  cancelled flush, or was first enqueued since that look (`LeftBehindExactly`, `NothingLeftBehind`,
  `ConnectionLostComesLast`).
- **`try_receive` can say "nothing" with a message due** (`PollLooksAway`): the lock is given up between the flush and
  the look at the channel, and a message can be scheduled there for a time that has come. `PollFindsNothingExactly` says
  when a poll finds nothing. A batch that stops short means no more than that.
- **The receive loop is not always done after two rounds.** It can go round once more for every flush that reads
  the clock behind the timer that woke it up, and for no other reason (`RoundsBounded`, for any clock;
  `RoundsReached` meets the bound for any number of them). `RoundGoesOnExactly` says exactly when a round goes on
  to the select. With a monotone clock and sleeps that are not cut short two rounds do (`AtMostTwoRounds`).
- **The arms for a closed channel are dead.** The reference count of the senders never reaches zero while there is a
  consumer (`DisconnectedExactly`), so no select and no `try_receive` ever reports one, and no batch is dropped
  for it (`ClosedArmsAreDead`, `TryReceiveNeverFails`).

Where the code and its documentation differ, the model follows the code. The delivery documentation says that
a delivery dropped without ack or nack is redelivered (`crates/buqueue-core/src/core/delivery.rs:20-23`); this
backend never does that, and the model gives it a fate of its own. A dead letter is sent into a channel whose
receiver was dropped when the pair was built (`crates/buqueue-memory/src/builder.rs:43`), so it cannot be
received from anywhere; the model keeps it in a history log only. The limit is documented to be at least 1,
but its field is public; a limit of 0 is included and behaves like 1.

## Assumptions

Ids are fresh, so no other task enqueues the messages of a batch. A channel has a capacity of at least 1. Futures
are not cancelled by the caller in the middle of an operation; the one cancellation the library does itself, in
`receive_graceful`, is part of the model, at every point where `receive` can be suspended (a push can be
suspended even with slots free, when the runtime wants the task to yield). Batches are handed their ids when
they start. Clock readings are arbitrary unless a lemma says `Punctual` or `Before`. In one poll of the
select others can run between the look at the channel and the rest, but not between the look at the timer and that at
the producers. What is in the hands of a task (its consumer, its producer, a delivery it holds) is not used by others.

## Model

| member | source | states |
|---|---|---|
| Schedule.InsertIsStable | crates/buqueue-memory/src/producer.rs:65-72 | a stable insertion keeps the flat schedule sorted and puts the newcomer last among the entries of its own time |
| Schedule.StableOrderUnique | crates/buqueue-memory/src/envelope.rs:38-42 | time order together with bucket order determines the drain order completely |
| Schedule.FlattenInsert | crates/buqueue-memory/src/producer.rs:65-72 | pushing into a bucket of the sorted map is exactly a stable insertion into the flat list |
| Schedule.FlushOrder | crates/buqueue-memory/src/envelope.rs:53-65 | the split at `now` takes exactly the entries due by then, in stable order by time and insertion, and leaves exactly the later ones |
| Broker.ConservedStep | crates/buqueue-memory/src/ack.rs:22-57 | no event creates, duplicates or destroys a message |
| Ledger.NackOutcome | crates/buqueue-memory/src/ack.rs:36-54 | for any nack in any ledger state: the counter becomes the number of this attempt, and the message is dead-lettered or dropped if and only if that is the last attempt, requeued if and only if it is not and there is a consumer |
| Ledger.StepKeeps | crates/buqueue-memory/src/ack.rs:27-57 | every event keeps one live copy per message, attempts numbered without gaps, counters that agree with them, the source of every log entry, and that what is scheduled or lost was never enqueued |
| Ledger.RunKeeps | crates/buqueue-memory/src/ack.rs:27-57 | the same over whole runs |
| Refinement.StepKeepsInv | crates/buqueue-memory/src/ack.rs:27-57 | every step of the machine is exactly its atomic event, or changes nothing visible, and keeps the invariant |
| Refinement.TallyBelow | crates/buqueue-memory/src/ack.rs:36-40 | a counter about to be incremented is below the limit |
| Refinement.RunRefines | crates/buqueue-memory/src/envelope.rs:53-65 | every interleaved run maps to a run of the atomic broker that ends in the picture of its last state |
| Safety.EveryRunRefines | crates/buqueue-memory/src/builder.rs:38-73 | the same from a freshly built pair, for every capacity, limit and clock |
| Safety.FifoLaw | crates/buqueue-memory/src/consumer.rs:72-88 | in every reachable state the enqueue log is the received sequence followed by the channel |
| Safety.Conservation | crates/buqueue-memory/src/consumer.rs:62-118 | in every reachable state the copies of a message over twelve kinds of places, the channel itself among them, add up to one if it was accepted, to none otherwise |
| Safety.OnePlace | crates/buqueue-memory/src/ack.rs:22-57 | each accepted message is in exactly one place |
| Attempts.DeliveryAgrees | crates/buqueue-memory/src/ack.rs:31-54 | an unresolved delivery carries one more than the nacks counted for it, between 1 and the limit |
| Attempts.QueuedAgrees | crates/buqueue-memory/src/ack.rs:49-53 | so does a message in the channel |
| Attempts.ScheduledAgrees | crates/buqueue-memory/src/producer.rs:65-72 | a message on the schedule, or due and not pushed yet, has a count of 1 and no counter |
| Attempts.RequeueAgrees | crates/buqueue-memory/src/ack.rs:49-53 | between count and push the counter is one ahead, below the limit, and the redelivery differs only in its count |
| Attempts.IncrementsAreSafe | crates/buqueue-memory/src/ack.rs:36-52 | no u32 increment of a nack wraps, except that of a dead letter, which wraps exactly if the limit is the largest u32 |
| Attempts.LimitInForce | crates/buqueue-memory/src/ack.rs:33-53 | below the configured limit, or below 0xFFFF_FFFF without a dead letter queue, a nack requeues with the next count; at it the message is dead-lettered, or dropped |
| Attempts.RequeuedOnce | crates/buqueue-memory/src/ack.rs:49-53 | in every reachable state each nack has enqueued one redelivery if it requeued, and none otherwise |
| Attempts.RedeliveryInTheLog | crates/buqueue-memory/src/ack.rs:49-53 | what it enqueued is the message of its delivery with the next count |
| Attempts.DeadLetteredOnce | crates/buqueue-memory/src/ack.rs:42-48 | the history of dead letters holds each message exactly as often as it was dead-lettered, at most once |
| Attempts.AttemptsInOrder | crates/buqueue-core/src/feature/dlq.rs:37-43 | the log entries of a message carry 1, 2, 3, ... without a gap, and there are never more than the limit allows |
| Attempts.LastNackDeadLetters | crates/buqueue-memory/src/ack.rs:42-54 | a nack ends the life of a message if and only if it is the last one allowed |
| Attempts.DeadLetteredInFull | crates/buqueue-core/src/feature/dlq.rs:37-43 | a dead-lettered message was enqueued and nacked exactly as often as the limit says |
| Attempts.NeverAgain | crates/buqueue-memory/src/ack.rs:22-25 | in any run of the broker a message resolved for good keeps its fate and never re-enters the log |
| Attempts.ResolvedStaysOut | crates/buqueue-memory/src/ack.rs:22-57 | the same for every run of the machine |
| Promises.BatchEntersInOrder | crates/buqueue-core/src/traits/producer.rs:83-94 | over any run behind it, of the batch handed to `send_batch` the log holds a prefix in the order it was handed over, all of it once the batch is done without a failure, and what was received of it is a prefix too |
| Promises.SendFailsOnlyClosed | crates/buqueue-memory/src/producer.rs:39-42 | a send has failed only if the consumer was dropped |
| Promises.ScheduledIsCarried | crates/buqueue-memory/src/producer.rs:47-75 | over any run behind it, a message handed to `send_at` is in the log unchanged but for its delivery count |
| Promises.NotBeforeItsTime | crates/buqueue-memory/src/producer.rs:60-72 | in any run behind it in which the clock has not shown that time, a message handed to `send_at` is neither in the channel nor was it delivered |
| Promises.CloneKeepsConnection | crates/buqueue-memory/src/producer.rs:20-25 | as long as a clone of a producer is not dropped, no lost connection is reported |
| Order.BatchInOrder | crates/buqueue-core/src/traits/producer.rs:83-94 | whatever else runs, the log holds the messages of a task in the order of its batch, up to exactly the one it stopped at |
| Order.BatchReceivedInOrder | crates/buqueue-core/src/traits/producer.rs:83-94 | what was received of a batch at first delivery is a prefix of it |
| Order.DoneStays | crates/buqueue-core/src/traits/producer.rs:81-94 | a batch that is done or has failed enqueues nothing more: the log only grows, and by nothing of it |
| Order.SendsInOrder | crates/buqueue-memory/src/producer.rs:39-44 | of two sends of which one begins after the other has ended, everything of the first is in the log before anything of the second |
| Order.SendsReceivedInOrder | crates/buqueue-memory/src/producer.rs:39-44 | by the time anything the later send enqueued is received, everything the earlier one enqueued was received |
| Order.NeverEarly | crates/buqueue-memory/src/envelope.rs:53-64 | a message with a delivery time first entered the channel by a flush whose clock reading was not before it, for any behaviour of the clock |
| Order.CarriedUnchanged | crates/buqueue-memory/src/ack.rs:45-53 | payload, headers, routing key and first delivery time survive every requeue |
| Order.BudgetStep | crates/buqueue-memory/src/ack.rs:42-54 | every receive uses up one of the attempts left, and nothing but new messages adds any |
| Order.DrainTerminates | crates/buqueue-memory/src/ack.rs:42-54 | without new messages at most the attempts left in total are received, however deliveries are resolved |
| Order.DeliveriesInAll | crates/buqueue-memory/src/ack.rs:42-54 | in every run what was delivered and what can still be delivered are together at most the limit times the messages accepted |
| Blocking.CapacityGuarantee | crates/buqueue-memory/src/envelope.rs:53-65 | if the backend is never handed more than the channel can hold, no push ever waits, the lock holder can always move, and the backend is not stuck |
| Blocking.StuckForever | crates/buqueue-memory/src/ack.rs:29-53 | a stuck backend enqueues and delivers nothing any more, whatever steps follow short of dropping the consumer or cancelling its flush |
| Blocking.ExactlyStuck | crates/buqueue-memory/src/consumer.rs:56-76 | with the lock held across a push into a full channel, a slot can become free if and only if the consumer gets to look at the channel before it needs the lock |
| ConnectionLoss.EnqueuedExactly | crates/buqueue-memory/src/envelope.rs:53-65 | an accepted message was enqueued if and only if it is neither still to come nor lost |
| ConnectionLoss.LeftBehindExactly | crates/buqueue-memory/src/consumer.rs:84-102 | when a lost connection is reported, a message was received if and only if it is not scheduled, not lost, and not first enqueued since the select found the channel empty |
| ConnectionLoss.NothingLeftBehind | crates/buqueue-memory/src/consumer.rs:84-102 | then everything accepted was received if and only if nothing is scheduled, nothing was lost, and nothing was sent since |
| ConnectionLoss.ConnectionLostComesLast | crates/buqueue-memory/src/consumer.rs:84-103 | a lost connection is reported only when nothing is being sent any more; what is in the channel was pushed since the select found it empty, and of the direct sends exactly those first enqueued since then were not received |
| Senders.SendersCounted | crates/buqueue-memory/src/consumer.rs:37-41 | in every reachable state the reference count is the number of those who can still send: the consumer, the producers, the handles of deliveries that are out |
| Senders.DisconnectedExactly | crates/buqueue-memory/src/builder.rs:56-70 | the channel is disconnected if and only if the consumer and all producers are dropped and no delivery is out; never while there is a consumer |
| Senders.ClosedArmsAreDead | crates/buqueue-memory/src/consumer.rs:84-88 | during a call the channel has a sender and the closed arm of the select is never taken |
| Senders.TryReceiveNeverFails | crates/buqueue-memory/src/consumer.rs:111-117 | no `try_receive` of any run ever failed |
| Progress.RoundsBounded | crates/buqueue-memory/src/consumer.rs:64-104 | for any clock, a call goes through its loop body at most twice, plus once for each of its flushes that read the clock behind the timer that woke it |
| Progress.RoundGoesOnExactly | crates/buqueue-memory/src/consumer.rs:70-76 | a round goes on to the select if and only if the clock was read before everything scheduled, the channel was empty then, and nobody has pushed since, under any interleaving |
| Progress.PollFindsNothingExactly | crates/buqueue-memory/src/consumer.rs:107-112 | a `try_receive` ends without a message if and only if the clock was read before everything scheduled, the channel was empty then, and nobody has pushed since, under any interleaving |
| Calls.CallsInTurn | crates/buqueue-memory/src/consumer.rs:72-88 | in every run the k-th call that delivers hands out the k-th delivery |
| Calls.StretchOfTheLog | crates/buqueue-core/src/traits/consumer.rs:91-106 | what any stretch of consecutive calls hands out, be it a batch or a stream, are consecutive entries of the log, behind those of the calls before, under every interleaving |
| Exclusion.LockProtectsRun | crates/buqueue-memory/src/ack.rs:29-53 | while the lock is held nobody else changes the counters, the schedule or what the holder is about |
| Exclusion.NackAmidOthers | crates/buqueue-memory/src/ack.rs:27-57 | amid everything others do, a nack counts and judges as of the moment it took the lock, pushes its redelivery once there is a slot or finds no receiver, and keeps the lock until then |
| Exclusion.FlushAmidOthers | crates/buqueue-memory/src/envelope.rs:60-64 | amid everything others do, a flush pushes what is due once and in order, and the schedule stays as the split left it |
| Progress.AtMostTwoRounds | crates/buqueue-memory/src/consumer.rs:64-104 | with a monotone clock and sleeps that are not cut short, the receive loop runs its body at most twice, whatever is sent or scheduled meanwhile |
| Stopping.ShutdownIsFinal | crates/buqueue-core/src/feature/shutdown.rs:81-90 | the signal is never withdrawn |
| Stopping.RefusedOnlyAfter | crates/buqueue-memory/src/consumer.rs:65-67 | no call of any run is refused without a shutdown |
| Stopping.OneLateDelivery | crates/buqueue-memory/src/consumer.rs:65-67 | after the signal at most one delivery leaves through `receive` or `receive_graceful`, and only from a call past its check |
| Stopping.RefusedAfterwards | crates/buqueue-memory/src/consumer.rs:126-137 | from then on, in any run, every call of `receive` and `receive_graceful` is refused, nothing is lost, and what leaves the channel leaves it through `try_receive` |
| Stopping.QueueStays | crates/buqueue-memory/src/consumer.rs:65-67 | without a `try_receive` queue and schedule lose nothing |
| Stopping.LostExactlyByCancel | crates/buqueue-memory/src/consumer.rs:131-136 | a run loses a message if and only if a shutdown in it cancels a `receive_graceful` whose flush still has that message to push |
| Stopping.VanishedExactlyByCancel | crates/buqueue-memory/src/consumer.rs:131-136 | an accepted message is in none of the other eleven kinds of places if and only if that has happened to it |
| Witnesses.StuckHappens | crates/buqueue-memory/src/envelope.rs:60-63 | for every capacity a stuck state is reachable in which the backend holds one message more than the channel does |
| Witnesses.CancelLosesMessage | crates/buqueue-memory/src/consumer.rs:131-136 | a run in which an accepted message is lost |
| Witnesses.PollLooksAway | crates/buqueue-memory/src/consumer.rs:107-112 | a `try_receive` that found nothing although a message is due |
| Witnesses.ScheduleLeftBehind | crates/buqueue-memory/src/consumer.rs:100-102 | a lost connection can be reported with a message still scheduled |
| Witnesses.MessageLeftBehind | crates/buqueue-memory/src/consumer.rs:84-102 | a lost connection can be reported with a message in the channel |
| Witnesses.RoundsReached | crates/buqueue-memory/src/consumer.rs:78-99 | for every number of late clock readings there is a run that meets the bound on the rounds exactly |
| Witnesses.NackedEveryTime | crates/buqueue-memory/src/ack.rs:36-48 | for every limit there is a run in which a message nacked each time is dead-lettered at exactly the last attempt, with a count of 0 if the limit is the largest u32 |
| Worlds.ScriptIsPlayed | crates/buqueue-memory/src/consumer.rs:56-59 | others who can take the steps of the script, and only use what is theirs, take exactly these |
| Worlds.PlayedOnce | crates/buqueue-memory/src/consumer.rs:63-118 | the code and what the others do determine how an operation comes out |
| Worlds.PlayedIsRun | crates/buqueue-memory/src/consumer.rs:63-118 | an operation amid what the others do is a run of the machine |
| Worlds.StalledForGood | crates/buqueue-memory/src/envelope.rs:60-63 | an operation that is said to wait for ever never comes to an end |
| Memory.Channel.Send | crates/buqueue-memory/src/producer.rs:39-42 | a push succeeds if there is a receiver and a slot, and appends |
| Memory.Channel.Recv | crates/buqueue-memory/src/consumer.rs:111-117 | a pop takes the oldest message; an empty channel is disconnected if and only if there is no sender |
| Memory.SharedState.Schedule | crates/buqueue-memory/src/producer.rs:65-72 | pushing into a bucket is a stable insertion into the flat schedule |
| Memory.SharedState.NextDue | crates/buqueue-memory/src/envelope.rs:47-49 | the earliest delivery time, and none exactly if nothing is scheduled |
| Memory.SharedState.FlushDueScheduled | crates/buqueue-memory/src/envelope.rs:53-65 | the code is the machine's flush, amid whatever the others do: of what was due at the clock as it was read it has pushed a prefix of the stable order, each once and nothing else, and it ends only when that is all, or in a wait |
| Memory.SharedState.DrainBuckets | crates/buqueue-memory/src/envelope.rs:60-64 | the same of the loop over the buckets split off |
| Endpoints.NewDlqConfig | crates/buqueue-core/src/feature/dlq.rs:52-61 | accepted exactly from a limit of 1 on, and then the number of attempts is the limit asked for |
| Endpoints.MemoryAckHandle.Nack | crates/buqueue-memory/src/ack.rs:27-57 | the code is the machine's nack, amid whatever the others do: below the limit it has requeued, once, unless there is no consumer; at the limit dead-lettered or dropped; or it waits for ever |
| Endpoints.Delivery.Nack | crates/buqueue-core/src/core/delivery.rs:146-148 | resolves the delivery and nacks through its handle |
| Endpoints.MemoryProducer.Send | crates/buqueue-memory/src/producer.rs:28-45 | the code is the machine's send of a batch of one: the id if and only if the envelope was enqueued, an error only without a consumer |
| Endpoints.MemoryProducer.SendAt | crates/buqueue-memory/src/producer.rs:47-75 | once the lock is free it schedules the envelope, whether or not there is a consumer |
| Endpoints.MemoryProducer.SendBatch | crates/buqueue-core/src/traits/producer.rs:83-94 | the code is the machine's batch, amid whatever the others do: ids in input order, and what it enqueued are exactly the messages before the one it stopped at; with nobody interfering the channel gains just these |
| Consuming.MemoryConsumer.FlushScheduled | crates/buqueue-memory/src/consumer.rs:56-59 | the code is the machine's, up to the look at the channel; with nobody interfering something that was due is in the channel then |
| Consuming.MemoryConsumer.Select | crates/buqueue-memory/src/consumer.rs:84-103 | the code is the machine's biased select, with others running between its looks; it is said to wait for ever only where nothing can wake it |
| Consuming.MemoryConsumer.Round | crates/buqueue-memory/src/consumer.rs:69-103 | the loop goes round again only if others did something or nothing was due at its start, and then something is due |
| Consuming.MemoryConsumer.ReceiveLoop | crates/buqueue-memory/src/consumer.rs:63-105 | the code is the machine's receive loop, raced or not, and it comes to an end for every finite script |
| Consuming.MemoryConsumer.Receive | crates/buqueue-memory/src/consumer.rs:63-105 | one call of the machine, with the delivery it handed out, open and in the hands of the caller; with nobody interfering and nothing due it hands out the next message of the channel; after a shutdown it is refused |
| Consuming.MemoryConsumer.TryReceive | crates/buqueue-memory/src/consumer.rs:107-118 | the same for a poll, which never fails, and finds nothing in an empty channel if nobody interferes |
| Consuming.MemoryConsumer.ReceiveGraceful | crates/buqueue-memory/src/consumer.rs:126-137 | the same for the raced receive: `None` exactly where the machine stops the call, and always if it was signalled before |
| Consuming.QuietReceive | crates/buqueue-memory/src/consumer.rs:64-74 | whatever a `receive` comes to with a message in the channel, nothing due, no shutdown and nobody interfering, it is that message, and nothing else changes |
| Consuming.QuietPoll | crates/buqueue-memory/src/consumer.rs:107-118 | the same for `try_receive`, with or without a message |
| Consuming.MemoryConsumer.ReceiveBatch | crates/buqueue-core/src/traits/consumer.rs:91-106 | one receive and then polls, each of which delivered but possibly the last: between 1 and max(1, max) consecutive log entries, fewer than max only if the last poll found nothing, any error that of the first receive; with nobody interfering it is the front of the channel |
| Streams.ItemsThenOneError | crates/buqueue-core/src/traits/consumer.rs:148-154 | a stream yields items, then at most one error, then nothing; and nothing after an end |
| Streams.StreamResumes | crates/buqueue-core/src/traits/consumer.rs:140-158 | dropping a borrowed stream and taking a new one continues it if and only if the first had not ended or the second has nothing to yield |
| Streams.MessageStream.Next | crates/buqueue-core/src/traits/consumer.rs:177-183 | one call of `receive_graceful` per poll, with the very delivery it gave, and none after the end |
| Streams.MessageStream.Take | crates/buqueue-core/src/traits/consumer.rs:173-184 | the elements are what the answers of `receive_graceful` unfold to, no more answers are asked for than that takes, and the deliveries are open and consecutive log entries |
| Streams.TakeTwice | crates/buqueue-core/src/traits/consumer.rs:140-158 | two streams on one consumer, one after the other, give what one would have given if and only if the first had not ended or the second gives nothing; no message is skipped |
| Building.MemoryBuilder.BuildPair | crates/buqueue-memory/src/builder.rs:38-73 | producer and consumer around fresh objects in the initial state of the machine; the capacity defaults to 1024 and 0 panics |
| Usage.BuildWithLimit | crates/buqueue-memory/src/builder.rs:33-46 | a pair built with a dead letter queue has exactly the limit asked for as its number of attempts |
| Usage.SignalStops | crates/buqueue-core/src/feature/shutdown.rs:77-90 | after the signal both ways to receive refuse and hand nothing out, whatever the others do |
| Usage.NackFromStream | crates/buqueue-core/src/traits/consumer.rs:148-151 | a message taken from a stream and nacked below the limit is in the log of that very backend again, with the next count, enqueued once by that nack |
| Usage.ReceiveAndAck | crates/buqueue-core/src/core/delivery.rs:134-136 | the message acknowledged is the one received, and the consumer can go on |
| Usage.SendAndReceive | crates/buqueue-memory/src/producer.rs:39-44 | what is sent to an empty channel with nobody interfering is what is received next, unchanged |
| Usage.FromScratch | crates/buqueue-memory/src/builder.rs:38-73 | a freshly built pair passes on the first message sent, unchanged |

## Left out

- Kafka, NATS, SQS, RabbitMQ and Redis backends: there is no source for them.
- Type-erased producers, consumers and builders: pure forwarding.
- Message construction, JSON and UTF-8 decoding: payload, headers and routing key are one opaque value.
- Error classification and texts beyond the two kinds the backend uses.
- Wakers, scheduling and fairness of the runtime: replaced by an arbitrary choice of the next step.
- Cancellation by the caller: only the cancellation inside `receive_graceful` is modelled.
- `wait_for_shutdown`: it appears as the race in `receive_graceful` only.
- The default `try_receive` and `receive_graceful`: this backend overrides both.
- Consuming dead letters: the backend keeps no receiver for them.
- Several producers or consumers of one task in the objects: a `World` is seen from one task, which has one consumer and one producer in its hands; everybody else is in the script.
