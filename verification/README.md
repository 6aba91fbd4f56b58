# rtipc: a verified model

rtipc connects two processes by message channels in shared memory. This project models, in Dafny, the parts of
it that are hard to get right, and proves what they promise:

1. **The queue** (`src/producer.c`, `src/consumer.c`, `src/queue.h`, `src/index.h`): a wait-free queue with one
   producer and one consumer. The producer may overwrite the oldest message and may jump over the slot the
   consumer is reading; the two sides meet only in the words `tail`, `head` and `chain[]`.
2. **Event channels** (`src/channel.c`): the eventfd as a semaphore on top of the queue.
3. **The handshake** (`src/request.c`, `src/group.c`, `src/queue.c`, `src/mem_utils.h`): the request a client
   writes, what the server reads from it, and the layout of the shared memory that both compute on their own.
4. **The life cycle** (`src/channel.c`, `src/group.c`, `src/shm.c`): channel ownership and reference counting.

## How it is built

**The machine.** `Queue` is a transition system with one step per access to a shared word (all of them are
sequentially consistent in the source). A run is any sequence of actions of the two sides, so a statement about
runs is a statement about every interleaving, every queue length from 3 to the index limit and every content.
`History` records next to it, without influencing it, which messages were pushed, delivered, dropped or skipped.
`Invariant` relates the shared words to that record: the ring of slots behind the producer's own slot, the
numbers of the messages in them, and what each side knows at each point of a call. `ProducerSteps`,
`ConsumerSteps` and `Runs` prove that every step keeps it.

**What follows.** `Guarantees`, `Chain`, `Losses` and `Flushes` state what users rely on. `Refinement` and
`RefinementRuns` show that the whole machine is a bounded queue of capacity n - 1 that, when full, drops the
oldest message not held. `EventChannel` puts the semaphore around the machine, `EventFlush` the loop of its flush. `Progress` shows pushes and pops to be
wait-free, `Collisions` what flushes do to exclusive slots. All this is about a queue whose chain and message slots do
not overlap in memory, which the layout gives exactly where `Layout.SlotsClearIff` says.

**The program.** `QueueObject.SharedQueue` (with `Effects` and `Peers`) has the program's fields and arrays and
updates them in place, call by call as the C code does, with the other process free to run between any two shared
accesses. Its invariant says that its fields are the state of the machine after the actions taken so far, so all of
the above holds of it. `GroupObject.SharedGroup` does the same for `Lifecycle`. `Request` and `Handshake` hold the
writer, the reader and the loops over channels and descriptors, proved against `Wire`, `InfoMemory`, `Layout` and
`Groups`; `Parsing` says what the parser does without the parser.

## What does not hold

Where the code does not meet a promise, the model follows the code, shows an input, and proves when it does.

- **Flush before the first head.** The first push stores `tail` before `head`. A flush in between sets CONSUMED,
  finds no head and returns ERROR. A consumer that had no message is then stranded: it has no slot, but the tail
  says that it has. `Guarantees.PopErrorIff` says exactly when the consumer gets ERROR, `Flushes.StrandedRun` that
  pops go on failing until a `force_push` discards a message or another flush succeeds, and
  `FlushRuns.FlushStrandsConsumer` is such a run.
- **Flush and the announced head.** A message is linked before it is announced in `head`. A consumer that has popped
  it already and then flushes loads a `head` behind `tail` (`Flushes.HeadQueuedIff`). What this does is decided when
  the tail is swung to it:
  - *Delivery order* breaks, by handing out an older message than the consumer had, if and only if the slot is linked
    and not found when following the shared chain from `tail` (`Flushes.LandingOrder`; `Flushes.StaleGoesBack` for an
    undisturbed flush).
  - *Exclusive slots* hold unless the producer is between calls on that slot, or has chosen it in a `try_push`
    (`Collisions.CollisionIff`, `Collisions.CollidesWhere`; runs: `FlushRuns.StaleHeadCollides`,
    `FlushRuns.StaleTryCollides`). Neither property implies the other: `FlushRuns.StaleTryCollides` goes back and
    collides, `Flushes.StaleGoesBack` goes back and need not, and in `FlushRuns.StaleHarmless` the tail is swung to
    the producer's slot while it is being pushed and nothing is lost. Where the sides do not collide the queue goes
    on as before: the invariant, and exclusive slots with it, holds in every later run
    (`Collisions.RecoversUnlessCollides`, `Collisions.ExclusiveAfter`).

  The comment at `src/consumer.c:148-150` argues only about the producer being ahead.
- **Flush and the FIRST flag.** A flush that lands on the first message, where `tail` already stands, replaces
  `index | FIRST | CONSUMED` by `index | CONSUMED`. A producer about to compare `tail` with the former takes this for
  a consumer that moved on and uses the slot: exclusive slots are lost (the third case of `Collisions.CollisionIff`,
  `Flushes.FirstLostCollides` step by step, `FlushRuns.LostFlagCollides` for a run from the start).
- `Flushes.LandingIff` says the same of the invariant, on which the theorems about later steps rest: swinging the tail
  keeps it if and only if the loaded slot is queued and FIRST is not lost. Both hold if the producer is between calls
  (`Flushes.QuietFlush`).
- **Flush of an event channel.** It pops as long as the result is SUCCESS, so it stops at a DISCARDED: after a drop it
  ends on the oldest message available, not on the newest as `include/rtipc/rtipc.h:415-416` says
  (`EventFlush.FlushChannel` gives the exact condition).
- **A message twice.** A flush that lands on the message the consumer already holds returns DISCARDED for it once more
  (`Flushes.RepeatIff`).
- **Memory of a parsed request.** The memory for infos is sized by the entries before the first one without a message
  size, but filled from all of them, and the tables have n + 1 entries modulo 2^32. `InfoMemory.ParseInsideIff` says
  which requests stay inside; every request the library writes does, up to 2^32 - 2 channels of a kind.
- **Size of a mapped memory.** Mapping checks only where each region begins (`Handshake.OneByteMapped`);
  `Groups.RegionsInsideIff` says when all of it is there.
- **Slot base.** Slots are placed behind the aligned size of `add_msgs + 2` words, not of `n_msgs + 2`
  (`src/queue.c:27`). `Layout.SlotsClearIff` says when they are clear of the chain; with lines of 64 bytes
  they are not for three of every sixteen values of `add_msgs` (`Layout.ClearWith64`, `Layout.SlotOnChain`). The queue
  results keep the chain and the slots apart, so they are about channels whose slots are clear.
- **Size of a written request.** The result of writing the number of consumers is not looked at
  (`src/request.c:329`), so a buffer that ends before it is accepted when there are no channels;
  `Request.WriteRequest` states exactly which sizes are accepted and that the parser refuses the short ones.
- **Result of serializing.** `include/rtipc/rtipc.h:256` promises 0; the code returns the end of the channel table. Used
  as the length of the request, as in `examples/cnt.c:67-74`, it cuts off all infos, which the peer then refuses
  (`Parsing.ReturnedLengthIff`).
- **Wrap-around.** Alignment rounds up unless the sum wraps around (`Layout.MemAlignIff`), and the queue length is at
  least three unless `add_msgs` is within three of 2^32 (`Layout.LengthIff`).

## Model

| member | source | states |
|---|---|---|
| Index.PackedOperations | src/index.h:13-21 | setting CONSUMED, testing either flag and masking out the index, bit by bit on the 32-bit word, are the operations on the unpacked tail that the machine uses |
| Index.PackedEquality | src/queue.h:80-85 | a compare-exchange on words succeeds exactly when the unpacked values are equal |
| Index.PackedValidity | src/queue.h:114-117 | the unmasked validity check accepts exactly the valid indices that carry no flag, the masked one those with any flags |
| Runs.StepInv | src/producer.c:123-370 | every atomic step of either side, in any state satisfying the invariant, leads to one that does, except a compare-exchange of a flush onto a slot that is not queued or one that takes FIRST from a waiting producer |
| Runs.RunInv | src/producer.c:247-370 | the invariant holds after every run of every queue of at least three slots, flushes included as long as no compare-exchange of one breaks either condition of Flushes.LandingIff |
| Runs.PushPopRun | src/consumer.c:159-205 | every sequence of actions without a flush is such a run: for pushes and pops there is no side condition |
| ProducerSteps.KeepJump | src/producer.c:165-183 | jumping over a held tail keeps the invariant: the jumped slot leaves the ring, the one behind it becomes the producer's, the tail moves to the one after |
| ProducerSteps.KeepRequeue | src/producer.c:273-293 | linking the slot the consumer gave back in front of the ring keeps the invariant |
| ConsumerSteps.KeepPopAdvance | src/consumer.c:182-193 | the consumer's compare-exchange to the next link keeps the invariant and delivers the oldest waiting message |
| ConsumerSteps.KeepPopRetake | src/consumer.c:194-204 | taking the tail after a lost compare-exchange keeps the invariant |
| ConsumerSteps.KeepFlushLoad | src/consumer.c:128-143 | loading the head keeps the invariant wherever the producer is, also where the load fails |
| ConsumerSteps.KeepFlushJump | src/consumer.c:139-153 | swinging the tail to a loaded head that is queued keeps the invariant, unless it takes the FIRST flag from a waiting producer |
| Guarantees.ExclusiveSlots | src/producer.c:373-376 | in every reachable state between calls, the slot the producer may write differs from the slot the consumer may read |
| Guarantees.HeldContent | src/consumer.c:207-213 | between its calls the consumer finds in its slot what was pushed as the message last delivered |
| Guarantees.ContentStable | src/producer.c:247-321 | any number of producer steps leaves the consumer's slot and its contents unchanged |
| Guarantees.NoFatalResult | src/consumer.c:164-201 | in no run of pushes and pops does a call return ERROR |
| Guarantees.NoPushError | src/producer.c:263-266 | no push of any run, with or without flushes, returns ERROR |
| Guarantees.PopErrorIff | src/consumer.c:135-143 | a call of the consumer ends with ERROR if and only if it is a flush that loads the head before the first message is announced there, or a pop of a consumer that such a flush has left without a message, the tail being still where it was |
| Guarantees.AccessesInBounds | src/producer.c:157-183 | every chain entry that the next step of either side touches exists |
| Guarantees.PopResults | src/consumer.c:159-205 | SUCCESS is exactly the next message (or the first), DISCARDED a gap of at least one, all dropped by the producer, NO_UPDATE that the held message is the newest, NO_MSG that nothing was ever pushed, ERROR that nothing is handed out |
| Guarantees.DeliveryOrder | examples/benchmark.c:149-181 | over every run deliveries come in push order, none twice, each with the content pushed; a delivery is a message handed out for the first time, see Flushes.RepeatIff |
| Chain.ChainShape | src/producer.c:51-55 | between pushes, following the chain from `current` visits every slot once (all but `overrun` if set), passes the tail, ends at `head` with INVALID, and both copies of the chain agree |
| Chain.TailPath | src/queue.h:44-50 | the shared chain, followed from the tail, spells out the waiting messages and gives their number |
| Chain.Capacity | src/producer.c:244-321 | at most n - 1 messages are retained between pushes, n while one is made |
| Chain.ProducerCount | src/producer.c:214-242 | the producer's counting loop, called between pushes and wherever the consumer is, returns the number of retained messages |
| Chain.ConsumerCount | src/consumer.c:80-120 | the consumer's counting loop returns the same number |
| Chain.UnflaggedTail | src/producer.c:225-228 | between pushes the tail carries neither flag exactly when a message was dropped since the consumer last took one, and then n - 1 are retained |
| Losses.Conservation | src/producer.c:268-320 | at every step: pushed = delivered + dropped + skipped by flush + waiting |
| Losses.GapsAreLosses | examples/benchmark.c:164-176 | unless a flush has claimed a message and not handed it out, the gaps the consumer has seen add up to the messages lost in front of the one it holds |
| Losses.DropsAreReported | src/producer.c:281-320 | a producer step loses a message exactly when it ends a force_push with DISCARDED; it loses one, the oldest waiting, never the newest |
| Losses.InstalledTail | src/producer.c:157-183 | every tail value the producer installs is a valid index of a waiting message |
| Losses.TryPushFails | src/producer.c:324-370 | try_push fails exactly when n - 1 messages are retained at its load of the tail, with and without a pending overrun, and then changes nothing |
| Losses.TryPushNeverDrops | src/producer.c:324-370 | a run without force_push drops nothing |
| Flushes.FlushLoadsNewest | src/consumer.c:139-143 | the head a flush loads is the newest message announced; it is at or behind the tail exactly if the consumer is not already on a newer, unannounced one |
| Flushes.FlushLands | src/consumer.c:145-156 | a successful flush hands out the message in the slot it had loaded, with its content, flagged CONSUMED; it is the one that was newest at the load, unless that was behind the tail then |
| Flushes.FlushRetries | src/consumer.c:127-154 | from the start of any flush on, over any continuation, failed attempts are at most the jumps the producer makes from then on: this bounds the loop of every single flush |
| Flushes.HeadQueuedIff | src/consumer.c:139-147 | a flush loads the head of a queued message if and only if the newest message is not linked and unannounced with the consumer already on it |
| Flushes.LoadedStaysQueued | src/consumer.c:147-150 | a head loaded at or behind the tail stays queued until the tail moves, whatever the producer does |
| Flushes.QuietFlush | src/consumer.c:123-157 | a flush made while the producer is between calls is safe and hands out the newest message |
| Flushes.StaleGoesBack | src/consumer.c:139-153 | a consumer on an unannounced message that flushes undisturbed is handed the message before the one it had, and the tail goes back with it |
| Flushes.Unqueued | src/consumer.c:139-153 | a loaded head that is not queued when the tail is swung is the producer's own slot or lies before the tail |
| Flushes.LandingOrder | src/consumer.c:147-153 | wherever a flush swings the tail: a linked slot holds its message, which is at or after the last one claimed if and only if the slot is queued, and an older one otherwise; a slot that is not linked is the producer's own |
| Flushes.RepeatIff | src/consumer.c:147-156 | a successful flush hands out a message again, which is not another delivery, if and only if it lands on the message delivered last |
| Flushes.LandingIff | src/consumer.c:145-153 | a compare-exchange of a flush that succeeds keeps the invariant if and only if the loaded head is queued behind the tail in the shared chain and FIRST is not cleared while the producer waits to compare with it |
| Flushes.FirstLostCollides | src/producer.c:301-317 | where FIRST is cleared so, the producer, in at most two steps, owns the slot handed to the consumer |
| Collisions.CollisionIff | src/consumer.c:147-153 | exclusive slots under flush: once a flush has swung the tail and the producer has finished its call, both have one slot if and only if, at the swing, the loaded slot was that of a producer between calls, or chosen by a try_push under way, or a force_push was waiting for a tail on it that carries FIRST |
| Collisions.CollidesWhere | src/producer.c:301-317 | on a queued slot only the last of these happens, and exactly if FIRST is lost; on any other slot only the first two |
| Collisions.GoesBackCleanly | src/consumer.c:147-153 | a flush that hands out an older message without a collision leaves the invariant, with the journal rewound to that message |
| Collisions.HandedEarly | src/producer.c:146-151 | a flush that hands out the message being pushed before it is linked comes, once it is linked undisturbed, to the same state as a safe flush made then |
| Collisions.RecoversUnlessCollides | src/consumer.c:147-153 | unless the sides collide, the invariant holds again for some history after any swing of the tail, once the message being pushed is linked |
| Collisions.ExclusiveAfter | src/producer.c:373-376 | from any state with the invariant on, in every run with safe flushes, the slots are exclusive between calls |
| Flushes.FlushStrands | src/producer.c:128-135 | a flush returns ERROR exactly between the two stores that publish the first message, and then leaves a consumer without a message stranded, with CONSUMED set |
| Flushes.StrandedRun | src/consumer.c:176-179 | however the run goes on, without another flush every pop of a stranded consumer returns ERROR and changes nothing until a force_push discards a message |
| FlushRuns.StaleHeadCollides | src/producer.c:146-154 | a run in which a flush goes back to an older message and both sides end on one slot |
| FlushRuns.StaleTryCollides | src/producer.c:356-366 | a run in which the tail goes back to a slot that a try_push has already chosen, and both sides end on it |
| FlushRuns.StaleHarmless | src/producer.c:296-300 | a run in which the tail is swung to the slot that is being pushed: no collision, and the consumer has the newest message |
| FlushRuns.LostFlagCollides | src/consumer.c:145-153 | a run in which a flush clears FIRST and both sides end on one slot |
| FlushRuns.FlushStrandsConsumer | src/consumer.c:139-143 | a run after which both sides are between calls, one message is waiting and every pop returns ERROR |
| Refinement.ProducerSimulates | src/producer.c:247-321 | a producer step adds the pushed message to the bounded queue, or drops the oldest for it exactly if it reports DISCARDED, or changes nothing |
| Refinement.ConsumerSimulates | src/consumer.c:123-205 | a consumer step takes messages from the bounded queue in order; a message that had no room enters as soon as one is taken |
| RefinementRuns.Refines | include/rtipc/rtipc.h:525-535 | what the shared words hold after any run is what a bounded queue of capacity n - 1 holds after pushing exactly the pushed messages in order |
| RefinementRuns.Delivers | src/consumer.c:159-205 | in every run of pushes and pops the consumer finds exactly the messages that the bounded queue hands out |
| QueueObject.SharedQueue.constructor | src/producer.c:63-101 | the initialising loop sets up the initial state of the machine |
| QueueObject.SharedQueue.ForcePush | src/producer.c:247-321 | the in-place code is a run of the machine making one force_push, whatever the consumer does meanwhile; it pushes exactly the content of the producer's slot, ends with SUCCESS or DISCARDED, and drops one message exactly if DISCARDED |
| QueueObject.SharedQueue.TryPush | src/producer.c:324-370 | the same for try_push: it pushes the content of the slot with SUCCESS and nothing with FAIL, and never drops anything |
| QueueObject.SharedQueue.Pop | src/consumer.c:159-205 | the same for pop, whatever the producer does meanwhile: SUCCESS hands out the next message, DISCARDED a later one, each found in the consumer's slot; NO_UPDATE and NO_MSG hand out nothing; it ends with ERROR exactly if a flush has stranded the consumer and the tail has not moved since |
| QueueObject.SharedQueue.Exclusive | src/producer.c:373-376 | between calls the object's two sides have different slots, and the consumer's holds what was pushed as the message last delivered |
| QueueObject.SharedQueue.Flush | src/consumer.c:123-157 | the same for flush; the loop ends once an attempt is not disturbed. If its compare-exchanges were safe, DISCARDED leaves in the consumer's slot the message it names, NO_MSG means nothing was pushed, and the object can be used on; if the producer is between calls all the while, they are safe and the message is the newest |
| Effects.ActionTakes | src/consumer.c:159-205 | a step of a pop that ends it hands out what its result says, any other step nothing |
| Effects.ActionLost | src/producer.c:268-320 | outside a flush a message is dropped exactly at the step that ends a force_push with DISCARDED |
| Effects.ActionFails | src/consumer.c:164-201 | a step of a pop fails exactly if it is the first one, on a tail claimed by a flush that handed nothing out |
| Progress.PushWaitFree | src/producer.c:247-370 | in any interleaving a push ends after as many steps of its own as its rank, which is at most five after its first access |
| Progress.PopWaitFree | src/consumer.c:159-205 | the same for a pop, at most three |
| Progress.StartRanks | src/producer.c:247-370 | what is left after the first access of a call: five accesses for force_push, four for try_push, three for pop |
| EventChannel.ChannelStepInv | src/channel.c:341-405 | every step of a channel with an eventfd keeps the balance of tokens |
| EventChannel.TokensCountMessages | src/channel.c:371-385 | tokens in the eventfd + token of an unfinished pop + push linked and not yet signalled = messages waiting, at every step of every run |
| EventChannel.TokenedPopDelivers | src/channel.c:341-353 | a pop whose read succeeds always ends with SUCCESS or DISCARDED |
| EventChannel.EmptyMeansEmpty | src/channel.c:343-349 | between calls the eventfd is empty exactly when no message is waiting |
| EventChannel.EmptyReadAnswers | src/channel.c:343-349 | a pop that finds no token answers NO_MSG exactly if nothing was ever delivered, NO_UPDATE otherwise, and changes nothing; with no push under way the last message delivered is then the newest |
| EventChannel.PopAnswers | src/channel.c:341-353 | a pop that got its token answers SUCCESS exactly for the next message and DISCARDED exactly for a gap, with the message in the consumer's slot |
| EventChannel.OnlyPopsAnswer | src/channel.c:341-405 | nothing else hands anything out or changes the consumer's result |
| EventChannel.PushAnswers | src/channel.c:371-385 | a push answers DISCARDED exactly if it dropped a message, and is then over; otherwise it answers SUCCESS and goes on to signal |
| EventChannel.TryAnswers | src/channel.c:388-405 | a try_push answers FAIL exactly if the queue is full, and then changes nothing |
| EventFlush.PopOnce | src/channel.c:341-353 | a pop on its own, step by step: which result it has, and that it takes one token and one message or nothing |
| EventFlush.FlushChannel | src/channel.c:356-368 | with the producer between calls, flushing an event channel takes everything and ends on the newest message, exactly unless a message was dropped since the last pop; then it ends with DISCARDED on the oldest message available and leaves the others waiting |
| Layout.MemAlignIff | src/mem_utils.h:10-13 | for a power of two, mem_align is the least multiple not below its input if and only if the sum does not wrap around |
| Layout.SlotsDisjoint | src/queue.c:39-45 | message slots do not overlap and lie inside the channel's region |
| Layout.ChannelSizeExact | src/channel.c:35-48 | the size of a region is the least whole number of cache lines for add_msgs + 5 words, plus add_msgs + 3 times the least whole number for a message |
| Layout.SlotExact | src/queue.c:39-45 | slot i lies behind the least whole number of cache lines for add_msgs + 2 words, at i times the least whole number for a message; every slot starts on a cache line |
| Layout.SlotsClearIff | src/queue.c:8-29 | the slots are clear of the index words exactly when aligning add_msgs + 2 words leaves room for add_msgs + 5 |
| Layout.ClearWith64 | src/queue.c:8-29 | with lines of 64 bytes this is the case exactly if add_msgs modulo 16 is none of 12, 13 and 14 |
| Layout.SlotOnChain | src/queue.c:16-29 | with lines of 64 bytes and 14 additional messages slot 0 begins on a word of the chain |
| Layout.LengthIff | src/channel.h:28-31 | the 32-bit queue length is at least three exactly if adding three to add_msgs does not wrap around |
| Layout.MachineLayout | src/channel.c:35-48 | for channels small enough, machine arithmetic computes exactly the size of the region and the place of every slot |
| Layout.MachineWraps | src/channel.c:35-48 | for larger channels it computes sizes and places modulo the range of size_t |
| Wire.EncodeSize | src/request.c:131-158 | the calculated size is the length of the encoded request |
| Wire.TableRoundTrip | src/request.c:87-128 | reading a written channel table gives its entries |
| Wire.InfosRoundTrip | src/request.c:172-203 | reading written infos gives the infos of all channels in order |
| Wire.RoundTrip | src/request.c:206-294 | parsing an encoded request, whatever follows it, gives the same attributes with producers and consumers exchanged |
| Wire.HeaderIff | src/header.c:17-41 | the header of this machine is accepted exactly by its four 16-bit numbers: 0x1f0c, 2, the cache line size and 4 |
| Request.Writer.Write | src/request.c:38-50 | succeeds exactly if there is room; then the bytes are in place, the cursor is behind them and nothing else changed |
| Request.Writer.WriteInfo | src/request.c:53-68 | the same for the second cursor; an empty info needs no room |
| Request.Writer.WriteChannels | src/request.c:341-355 | both cursors move together and never overlap; succeeds exactly if table and infos have room, and then they are in place |
| Request.WriteRequest | src/request.c:297-361 | exactly which buffer sizes are accepted; from the calculated size on the buffer holds the encoded request, the rest is untouched and the result is the end of the table, in the short case 16, and -1 otherwise; what the parser then makes of it |
| Request.CalcRequestSize | src/request.c:131-158 | the loops compute the length of the request |
| Request.Reader.ReadChannels | src/request.c:262-272 | the loop reads the entries there are; entries missing at the end are zero; it tells exactly whether every entry was written inside the table made for them |
| Request.Reader.ReadChannelInfos | src/request.c:183-201 | the loop reads the infos in order and fails exactly if one is cut off; it tells exactly whether every copy stayed inside the given memory |
| Request.ParseRequest | src/request.c:206-294 | the cursor-driven parser computes Wire.Parse on any bytes, and tells exactly whether it stayed inside the memory made for the tables and for the infos |
| Parsing.ParseIff | src/request.c:206-294 | a request is accepted if and only if it holds the fixed part, begins with the numbers of this machine's header and does not end before the last info it claims |
| Parsing.FrontEntries | src/request.c:262-272 | entry i of each table is what stands 16 * i bytes behind its start, or zero where the request is cut off |
| Parsing.ParseMeans | src/request.c:172-203 | an accepted request gives the group the bytes behind the tables as info, and each channel the fields of its entry and the bytes behind the infos before it |
| Parsing.ReturnedLengthIff | src/request.c:334-357 | a request cut to the length that writing returns is accepted exactly if there are no infos |
| Request.CalcChannelsInfoSize | src/attr.c:72-85 | the sum over the entries before the first one without a message size |
| InfoMemory.ReservedIff | src/attr.c:72-97 | the memory reserved for a table never exceeds what its infos need, and suffices exactly if no info comes with or after an entry without a message size |
| InfoMemory.ReservedPrefix | src/attr.c:72-85 | what is reserved for a table is what the entries before the first one without a message size need |
| InfoMemory.NeededExact | src/attr.c:67-97 | infos need the least multiple of 16 bytes each |
| InfoMemory.InfosInsideIff | src/request.c:274-286 | reading the infos of a request that parses stays inside their memory if and only if that holds of both tables |
| InfoMemory.TableInsideIff | src/attr.c:128-157 | the entries of a table are written inside the n + 1 made for it if and only if n + 1 does not wrap around or no entry is there |
| InfoMemory.ParseInsideIff | src/request.c:255-286 | the whole condition, tables and infos, for a request that parses |
| InfoMemory.SizedStaysInside | src/request.c:172-203 | and where it holds, requests that are cut off stay inside too |
| InfoMemory.EncodedInsideIff | src/request.c:297-361 | every request a client writes is read inside, exactly if neither kind has 2^32 - 1 channels |
| InfoMemory.OneByteOutside | src/request.c:276-286 | a request with one entry without a message size and an info of one byte parses and is not read inside |
| Groups.CalcShmSize | src/channel.c:51-65 | the loops compute the sum of the channels' sizes |
| Groups.EndpointAt | src/group.c:176-194 | the place and the descriptor of a channel follow from the channels before it; its length is add_msgs + 3, its message size that of the attributes, and without an event descriptor it has -1 |
| Groups.GroupTiles | src/group.c:172-194 | the regions tile the shared memory: a byte below the computed size belongs to exactly one channel, a byte beyond it to none |
| Groups.RegionsInsideIff | src/group.c:281-321 | all regions of a group with channels lie inside a memory exactly if it has at least the computed size |
| Groups.NewChannels | src/group.c:176-194 | the client's loop gives each channel its offset and descriptor, and fails exactly if one of them cannot be made; what that means is Handshake.AllMadeIff |
| Groups.TakeEventfd | src/group.c:22-42 | hands a descriptor over exactly if it exists and is usable, and marks it as taken |
| Groups.MapChannels | src/group.c:286-321 | the server's loop computes the same row of endpoints from the received descriptors, takes exactly those it uses, and fails exactly if one endpoint cannot be made; whatever happens, descriptors stay where they are or are taken |
| Handshake.AllMadeIff | src/shm.c:97-103 | a row can be made exactly if its last region begins inside the memory and all its descriptors are there, not negative and usable |
| Handshake.FromAttr | src/group.c:151-202 | the client's group: producers first, then consumers, in memory and in descriptors; it is built exactly if memory and descriptors could be created |
| Handshake.CollectFds | src/group.c:63-98 | the shared memory and then the event descriptors in order, or the error for a short array |
| Handshake.Serialize | src/group.c:241-260 | the result in every case: -EINVAL without room for a descriptor, -1 for a buffer that is too small, -ENOMEM with too little room for the descriptors, otherwise the end of the table; the descriptors; what is written parses at the peer, and inside its memory if channels can be counted |
| Handshake.MapGroup | src/group.c:263-331 | the endpoints of a group that can be mapped, and the descriptors taken |
| Handshake.MappableIff | src/group.c:263-331 | when a group can be mapped, said of memory and descriptors alone |
| Handshake.Deserialize | src/group.c:334-363 | exactly when a group is built from any bytes and descriptors: the request is accepted, the memory is, the last region begins inside it and the event descriptors are good; such a group had this machine's header and all its endpoints begin inside the memory; and exactly whether reading stayed inside the memory made for it |
| Handshake.OneByteMapped | src/shm.c:97-103 | only the beginning of a region is checked: a single channel is mapped in a memory of one byte |
| Handshake.EndpointAgreement | src/group.c:281-321 | from what the client sends the server can be built, and it sees every channel of the client from the other side: same offset, length, message size and event descriptor |
| Handshake.ShakeHands | src/group.c:241-363 | the whole handshake through the buffer: the server's consumers are the client's producers and the other way round, and everything stays inside its memory if channels can be counted |
| Lifecycle.StepInv | src/channel.c:206-252 | every atomic operation of acquire, release and delete keeps the invariant on owners, pending deletions and references |
| Lifecycle.RunInv | src/group.c:205-231 | it holds after every interleaving, for any number of channels and threads |
| Lifecycle.DestroyedOnce | src/channel.c:214-252 | a channel is held by at most one user and destroyed at most once, and its destruction begins exactly when its last owner leaves |
| Lifecycle.FreedOnce | src/shm.c:83-94 | the count is the number of channels not destroyed plus one for the group; the memory is freed at most once, and a thread sets out to free it exactly when all of them are gone |
| Lifecycle.AccessesLive | src/channel.c:185-252 | no step touches a destroyed channel or freed memory |
| Lifecycle.OwnedIsUsable | src/channel.c:206-252 | an owned channel exists and its memory is mapped |
| Lifecycle.AcquireIff | src/channel.c:206-211 | acquire succeeds exactly when no user holds the channel |
| Lifecycle.AllReleased | src/group.c:205-231 | when nothing is left to do, every channel was destroyed once and the memory was freed once |
| Lifecycle.CanFinish | src/group.c:205-231 | every run can be brought to that end, whatever the threads have done so far |
| GroupObject.SharedGroup.Acquire | src/group.c:384-413 | one step of the machine; fails for an index out of range or a channel held by a user |
| GroupObject.SharedGroup.Release | src/channel.c:214-220 | destroys the channel exactly if the group has released it before, and frees the memory exactly if nothing is left, whatever other threads do meanwhile |
| GroupObject.SharedGroup.GroupDelete | src/group.c:205-231 | the loop is a run of the machine; afterwards each channel is destroyed, or still in the hands of exactly one user |

## Left out

- Runs.RunInv: a compare-exchange of a flush is covered where the two conditions of ConsumerSteps.Safe hold, because without either the invariant is false (Flushes.LandingIff); all other steps of flushes, pushes and pops are covered without condition.
- Runs.StepInv: the same exception, for one step.
- Guarantees.ExclusiveSlots: like everything stated of reachable states, it covers runs with flushes under those two conditions; Collisions says exactly what a single unsafe one does, and that the queue goes on unless it collides. If it hands out a message being pushed, this takes the consumer to wait until that message is linked.
- QueueObject.SharedQueue.Flush: what it promises while the producer is active depends on those two conditions, which no caller can check beforehand; it promises them only if the producer is between calls.
- Chain.ConsumerCount: covers counts taken while neither side is in a call; counts during a push are approximate by design.
- Wire.RoundTrip: only for sizes below 2^32 and message sizes above zero, which is what the 32-bit fields and the zero-terminated attribute arrays can carry.
- Layout.SlotsDisjoint: stated on unbounded numbers; Layout.MachineLayout says for which channels the machine computes the same.
- Guarantees.DeliveryOrder: a repeat by a flush is not recorded as a delivery; its exact condition is Flushes.RepeatIff.
- Handshake.Deserialize: where entries or infos are written outside their memory the program has no defined behaviour; the group it names is meant for requests that stay inside.
- EventChannel.TokensCountMessages: channels that are pushed and popped; eventfds taken out of a channel are not modelled.
- EventFlush.FlushChannel: with the producer between calls; pushes made while it runs can keep it going and are not modelled.
- Lifecycle.RunInv: a channel can be acquired until the group releases it; acquiring from a group already deleted is a caller's error and not modelled, and neither is a group whose construction failed half-way.
- Sockets, sending and checking of descriptors, mmap, mlock and the cache line probe: operating system calls; descriptors are numbers, their checks are sets of accepted numbers, the cache line size is a parameter. Allocation always succeeds.
- The cached producer (`ri_producer_cache_enable`) and `ri_producer_queue_full`, whose result for a queue without overrun is the negation of what try_push decides (`src/producer.c:207-210`).
- Copying infos into group data (`src/attr.c:100-125`), attribute equality and the counting of zero-terminated arrays: group data are sequences here.
- An info with a size but without data, which the writer leaves out while its size is written (`src/request.c:55`).
- Byte order other than little-endian, and wrap-around of the cursors in `src/request.c`.
- Rejection of truncated channel tables: the code does not do it (`src/request.c:117-118`), and neither does Wire.Parse.
- Logging, the C++ wrapper and the example programs.
