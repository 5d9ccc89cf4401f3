# The message lifecycle of the broker over its write-ahead log

The broker accepts messages on named queues, writes each to the queue's log file, delivers it to one subscribed
consumer at a time, and retries, dead-letters or tombstones it depending on the outcome. This project models that
lifecycle in two layers and joins them by one invariant.

* **The log as bytes.** `Wire` is the binary frame with its 32-bit arithmetic, `Log` the meaning of a record sequence
  (messages minus tombstoned IDs), `Replay` the scan and the in-place filter, `Compaction` appending and the rewrite
  through a temporary file over a directory that may fail or stop at any byte.
* **The broker as an interleaved transition system.** `Broker` has 30 kinds of step, cut at the code's lock boundaries:
  one program counter per dispatcher, one task per goroutine inside `Enqueue` or an outcome, one removal per entry
  taken from the in-flight map whose counter is not decremented yet. `Ownership`, `Counters`, `Durability`, `History`
  and `HistorySteps` say what each step keeps, `Safety` puts them into one invariant of every reachable state, and
  `Theorems` reads the first results off it. `Outcomes` says what a replay owes and what becomes of dead letters,
  `Descent` and `Contents` where each message in memory comes from and that it never changes. `Notes` is an observer that
  writes down, from the steps alone, what consumers asked for, were sent and received, and when messages were published
  and rejected; `Mail`, `Subscribers` and `Timing` say that channels, choices and clocks agree with it, `Order` that
  topics are first in, first out over whole runs, and `Shutdown` what no longer happens once it has begun. `Beside` runs
  the same steps with and without a compaction first, and `Sessions` and `Revival` say exactly when the difference can be
  noticed. `Runs` builds runs step by step, and `Witnesses` and `Loss` use it for runs that attain the bounds or break a
  documented promise.
* **Joined.** `Storage` drives real files with the steps of the broker (`Joined`): after any run, crashes included, each
  file holds the frames of the queue's record log, so the theorems about runs hold of what a replay of the bytes gives.

The stateful parts are also modelled as they are written, as classes with mutable fields, each proved against a
function on values: `Topic` (window over a backing array), `Registry` (two indexes), `Queues` (topics and logs by
name) and `AckManager` (the in-flight map and its batch scans); `Batches` shows that its outcomes and scans are runs of
the broker's single steps. `Core` holds the shared types and the closed form of retries, `SampleCodec` a concrete codec.

## Modelling decisions

* JSON is a pair of functions with one law: unmarshal undoes marshal on records with valid text. `SampleCodec` shows
  that the law can be met. CRC-32 is an arbitrary function of bytes.
* Lengths and offsets in `decode` are 32-bit where the source computes them in `uint32`; `int` is 64 bits wide. Instants
  are nanoseconds, and every clock reading is an input.
* A step of the broker is one locked section. The batch scans of the acknowledgement manager appear in the transition
  system as single removals in any order.
* A write may succeed, fail before or after its bytes reach the file, or stop after any part of a frame; a crash may cut
  short any set of appends. Behind the torn tail that is left, the broker goes on writing as the code does. What it writes
  there (`swallowed`) reaches no replay, and a compaction drops it with the tail. `landed` and `buried` record the
  message records and the tombstones written while the log was clean. Over bytes this rests on two hypotheses. A record
  written to a clean file is encodable: its text is valid and its payload fits the 32-bit offsets. Bytes written behind a
  torn tail, and the part of a frame that tears one, complete no frame; `Compaction.TornTailSwallowsExactly` is the
  exact form of that, and on a clean file it holds of every part of an encodable frame.
* Message and consumer IDs are generated fresh. A file is a byte sequence; rename is atomic.
* A consumer receives a message when it leaves its channel, to be forwarded to the stream or drained on disconnect.

## Where the code differs from its documentation

* README.md:158 says that a dead-lettered message is not redelivered to the main queue. Within a session that holds
  (`Outcomes.DeadLetterIsNotRedelivered`). Across a restart it never does on a clean log: the code does not tombstone the
  source log, so all maxRetries + 1 copies come back, whatever happened to the dead letter
  (`Outcomes.DeadLetterReturns`).
* README.md:160 says that unacknowledged messages are replayed with their original retry count. They are, and copies
  with all lower counts come back with them, one for each earlier write (`Outcomes.ExactLogHistory`).
* README.md:116 says that a log write precedes every change in memory. That is true of `Enqueue` (`Outcomes.LogFirst`).
  `Ack` changes the in-flight map and the counter first, and its message can be gone from memory with no tombstone
  (`Witnesses.AckedWithoutTombstone`).
* README.md:170 calls `MAX_RETRIES` the number of delivery attempts. The code allows one more, and some run makes it
  (`Theorems.DeliveriesBounded`, `Witnesses.DeliveriesAttained`).
* After a crash that leaves part of a frame, a publish succeeds and is lost (`Loss.PublishedButLost`); it is replayed if
  and only if it was written while the log was clean and not tombstoned since (`Outcomes.ReplayedExactly`).
* A session can append an ID that the log has tombstoned, and then a compaction in between changes what is replayed.
  For compactions of clean logs `Revival.CompactionHiddenExactly` gives the exact condition on the logs at startup under
  which this cannot happen, and `Witnesses.LeftOverIsNoticed` a run from an empty directory to logs where it does.
* The compaction of a torn log brings the log back to life, so it is never invisible throughout a session
  (`Witnesses.TornCompactionShows`); for a given run it is, exactly if what the run writes to the queue leaves no message
  and tombstones none (`Beside.HiddenOnTorn`).
* Frames whose payload exceeds 2^32-14 bytes do not read back, and buffers from 4 GiB on can stop the process;
  `Wire.FrameRoundTrip` and `Wire.DecodePanicsExactly` say exactly which.

## Model

| member | source | states |
|---|---|---|
| Wire.Encode | internal/wal/record.go:52-73 | the buffer filled field by field is magic, type, truncated length, payload and checksum of the middle part |
| Wire.FrameLayout | internal/wal/record.go:8-73 | byte by byte: C0 FF EE 01, the kind, the length as a big-endian word, the payload, and as a big-endian word the checksum of kind, length and payload |
| Wire.DecodePanicsExactly | internal/wal/record.go:79-107 | a buffer stops the process if and only if it holds a complete frame whose length wraps the 32-bit offsets (and, for the last five lengths, the wrapped range has a matching checksum) |
| Wire.DecodeNeverPanicsBelow4G | internal/wal/record.go:88-96 | on buffers under 2^32 bytes no offset wraps and no slice is out of range |
| Wire.Decode | internal/wal/record.go:79-107 | a success consumes at least 13 bytes and at most the buffer |
| Wire.FrameRoundTrip | internal/wal/record.go:52-107 | a well-formed record reads back with its exact length in front of every tail if and only if its payload is at most 2^32-14 bytes |
| Wire.CutFrameIsTorn | internal/wal/record.go:80-92 | every proper prefix of a frame is a torn write, whatever the checksum function |
| Wire.DecodeIgnoresTail | internal/wal/record.go:88-106 | a decoded record does not depend on the bytes after it |
| Wire.BinaryIsSound | internal/wal/record.go:52-107 | the frame meets the three laws the log layer needs, for every lawful codec and every checksum |
| SampleCodec.LawIsSatisfiable | internal/wal/record.go:53-56 | there is a codec whose unmarshal undoes its marshal on every record |
| Log.TombstonePlacementIrrelevant | internal/wal/reader.go:36-77 | logs with the same messages in order and the same tombstoned IDs replay alike, also after any common suffix |
| Log.CompactionPreservesLive | internal/wal/compactor.go:33-38 | the surviving records replay to the same message sequence |
| Log.CompactionInvisible | internal/wal/compactor.go:33-65 | later appends cannot tell a compacted log from the original if and only if they resurrect no tombstoned ID |
| Replay.Collect | internal/wal/reader.go:36-68 | the scan loop gathers exactly the messages and tombstones of the decodable front of the file, and panics exactly if decoding there does |
| Replay.FilterInPlace | internal/wal/reader.go:70-75 | overwriting the slice being read keeps exactly the messages without a tombstone, in order |
| Replay.ReplayFile | internal/wal/reader.go:27-78 | the whole of `Replay` returns the live messages of the scanned records |
| Replay.ScanFrames | internal/wal/reader.go:39-45 | encoded records are scanned back exactly, and the scan goes on with what follows them |
| Replay.ScanAfterClean | internal/wal/reader.go:39-45 | on a fully decodable file, scanning file and appended bytes is scanning one after the other |
| Replay.FitIsLongest | internal/wal/reader.go:22-24 | `Fit` counts the longest run of leading records whose frames fit in k bytes |
| Replay.CrashPrefixRecovery | internal/wal/reader.go:39-45 | cutting encoder output at any byte yields exactly that longest run, a torn tail and no panic |
| Compaction.CompactedFileReplaysAlike | internal/wal/compactor.go:33-65 | the rewritten file is clean, replays to the same messages and is rewritten to itself |
| Compaction.CompactedFileIsInvisible | internal/wal/compactor.go:33-65 | in bytes: any records appended to a compacted clean file replay as on the original if and only if they resurrect no ID |
| Compaction.CompactionNormalForm | internal/wal/compactor.go:69-103 | for encoder output with any torn tail: clean, same replay, byte-for-byte idempotent, never longer, shorter if and only if there was a tombstone or a torn tail |
| Compaction.AppendToCleanIsDurable | internal/wal/writer.go:68-86 | on a clean file an appended record is scanned in addition to all before it |
| Wire.DecodesExactly | internal/wal/record.go:79-107 | a buffer decodes if and only if it starts with a complete frame whose length fits, whose checksum matches and whose payload unmarshals |
| Compaction.TornTailSwallowsExactly | internal/wal/writer.go:25-29 | for any torn tail and any bytes appended behind it, the scan still ends where it did if and only if tail and bytes do not start with a complete frame |
| Compaction.TornTailSwallowsAppends | internal/wal/writer.go:25-29 | after a crash that leaves one to three bytes of a frame that is always so, whatever is written |
| Compaction.Writer.AppendRecord | internal/wal/writer.go:68-86 | success appends the whole frame, failure a prefix, to this queue's file only; on a clean log success adds the record; it succeeds if and only if the file is open and no operation on it fails |
| Compaction.Writer.WriteMessage | internal/wal/writer.go:43-60 | the message's record becomes part of a clean log, if and only if no operation fails |
| Compaction.Writer.WriteTombstone | internal/wal/writer.go:63-65 | the tombstone becomes part of a clean log, if and only if no operation fails |
| Compaction.Writer.WriteTemp | internal/wal/compactor.go:69-103 | whatever was in the temporary file, success leaves exactly the frames of the messages, and no state on the way touches another file |
| Compaction.Writer.PrepareTemp | internal/wal/compactor.go:33-55 | replay, write and verify leave the log alone; success means the temporary file is the compacted log; what can be written and read back passes the check unless an operation fails |
| Compaction.Writer.Compact | internal/wal/compactor.go:16-66 | at every state a crash could leave, at any byte of any write and with any leftover temporary file, every queue recovers as before; the log is the old one or the compacted one; a log whose survivors can be written and read back is compacted if and only if no operation fails, and the file is open again unless reopening failed or the process stopped |
| Compaction.TempIsIgnored | internal/queue/queue.go:46-54 | startup recovers the same whatever the temporary file holds |
| Core.RetryClosedForm | internal/ackmgr/ackmgr.go:152-165 | after k negative outcomes: retry count min(k, maxRetries), max(0, k - maxRetries) dead-letter suffixes, content unchanged |
| Core.NackAdvancesForm | internal/core/message.go:40-44 | each negative outcome takes the closed form at k to k+1 for every 32-bit limit, so the retry count never wraps |
| Core.IsDlqExactly | internal/core/dlq.go:5-10 | a queue is a dead-letter queue if and only if it is some name followed by `.dlq` |
| Safety.StepKeepsGood | internal/ackmgr/ackmgr.go:40-165 | every step of every goroutine keeps routing, ownership, counters, durability and history together |
| Safety.ReachableIsGood | internal/dispatcher/dispatcher.go:34-89 | the invariant holds in every state any run reaches from any proper logs |
| Theorems.PrefetchBound | internal/dispatcher/dispatcher.go:52-67 | every registered consumer's counter is between 0 and its prefetch limit in every reachable state, also with replayed duplicates |
| Notes.RequestBound | internal/api/server.go:89-95 | the limit that bounds a counter is the one the consumer asked for, or one if it asked for less |
| Theorems.CounterExact | internal/connmgr/connmgr.go:61-81 | with no duplicate ID in memory a counter equals the consumer's in-flight entries, plus one while its dispatcher is between increment and registration, plus removals not yet decremented |
| Theorems.SingleOwner | internal/dispatcher/dispatcher.go:37-86 | an ID that startup did not find twice is at every step held in exactly the one place its history says, once within a topic, or nowhere; every published ID has such a place |
| Theorems.DurableRun | internal/queue/queue.go:90-111 | after any run every (queue, ID) written while the log was clean, and not tombstoned while it was clean, is replayed |
| Theorems.DeliveriesBounded | internal/ackmgr/ackmgr.go:155-164 | at most maxRetries + 1 deliveries on the home queue and one on each dead-letter queue in a session |
| Witnesses.DeliveriesAttained | internal/ackmgr/ackmgr.go:155-164 | for every message, limit and depth some run makes all of them, and consumers receive every one |
| Mail.MailInOrder | internal/dispatcher/dispatcher.go:75-79 | what was sent to a consumer is what it has received followed by what its channel holds, which is never more than its capacity |
| Mail.SendAppends | internal/dispatcher/dispatcher.go:76-84 | a send puts the message at the back of the channel of the consumer it was registered with and touches no other channel |
| Mail.ReceiveTakesFront | internal/api/server.go:106-119 | a receive takes the front of its own channel and touches no other |
| Mail.InFlightIsPosted | internal/dispatcher/dispatcher.go:71-84 | every message in flight is about to be sent to the consumer recorded with it, or is in its channel, or was received by it |
| Mail.ReceiptsBounded | internal/ackmgr/ackmgr.go:155-164 | a message is received at most maxRetries + 1 times from its queue and at most once from each dead-letter queue in a session |
| Mail.AllReceived | internal/dispatcher/dispatcher.go:76-84 | once nobody is sending and the channels are empty, the receipts of a message are exactly its registrations, unless a dispatcher was cancelled |
| Subscribers.OnlyOwnQueue | internal/connmgr/connmgr.go:46-57 | whatever a consumer has received or has waiting is of the queue it subscribed to |
| Subscribers.NeverChosenAgain | internal/api/server.go:147-148 | after it disconnected a consumer is not eligible again for the rest of the session |
| Order.FirstInFirstOut | internal/queue/topic.go:25-68 | over any run of the broker every topic is what its ledger says: messages loaded or entered are those dequeued, waiting and expired, and dequeued followed by waiting ones are in the order of entry |
| Order.HandGetsFront | internal/dispatcher/dispatcher.go:37-41 | what the ledger counts as dequeued is what the dispatcher holds |
| Timing.HeldClock | internal/ackmgr/ackmgr.go:155-159 | a message on its home queue carries the time of its publish, a dead letter the clock reading of the outcome that put it on its queue, wherever it is held |
| Timing.ReplayedClock | internal/wal/reader.go:52-63 | so does every copy that a replay returns |
| Timing.ExpiryTakesExactly | internal/ackmgr/ackmgr.go:127-137 | an expiry takes a dead letter in flight if and only if it was dead-lettered before the cutoff |
| Timing.PendingExpiresExactly | internal/queue/queue.go:177-179 | the same for a dead letter that waits |
| Timing.MainNeverExpires | internal/ackmgr/ackmgr.go:125-131 | no expiry of either kind is enabled on a queue whose name does not end in `.dlq` |
| Notes.TimeoutTakesExactly | internal/ackmgr/ackmgr.go:98-109 | a timeout takes a message in flight if and only if the clock reading of its registration is before the threshold |
| Notes.TombstoneHasCause | internal/ackmgr/ackmgr.go:49-76 | a message published in the session is tombstoned only if it was acknowledged or had expired |
| Shutdown.ShutdownRefuses | internal/queue/queue.go:90-93 | from `BeginShutdown` on no ID is issued and no message, retries included, enters `Enqueue`; what was inside may finish |
| Shutdown.CloseSeals | internal/queue/queue.go:236-253 | from `Close` on no log changes |
| Shutdown.DispatchersRunOn | internal/dispatcher/dispatcher.go:34-50 | a dispatcher has stopped only if it was cancelled or the topics were closed |
| Theorems.RetriesFollowForm | internal/ackmgr/ackmgr.go:152-165 | wherever a published message is held, its queue and retry count are the closed form of the number of its retries that took effect |
| Theorems.OneOutcomePerDelivery | internal/ackmgr/ackmgr.go:40-147 | removals of an ID never outnumber its registrations, and account for all of them but the outstanding one if the ID is unique |
| Outcomes.ReplayedExactly | internal/ackmgr/ackmgr.go:61-76 | a message published in the session is replayed from a queue if and only if a record was written there while the log was clean and no tombstone was, so an acknowledgement on a clean log is final |
| Outcomes.ExactLogHistory | internal/ackmgr/ackmgr.go:152-165 | a message is replayed from its queue exactly as the retry counts 0, 1, 2, ... whose writes did not go behind a torn tail, from each dead-letter queue as at most one copy, and not at all from a queue where it is tombstoned, which can only be the last one written; compactions included |
| Outcomes.WholeLogHistory | internal/ackmgr/ackmgr.go:152-165 | with no write behind a torn tail these are 0, 1, ..., r, where r is the last retry count written |
| Outcomes.ReplayedHasLanded | internal/wal/reader.go:36-77 | whatever a queue replays, of any session, was written to it while its log was clean |
| Outcomes.GoneIsAccountedFor | internal/ackmgr/ackmgr.go:49-75 | a published message no longer in memory was tombstoned on its last queue, or is replayed from there, or its last write went behind a torn tail, or it was never written |
| Outcomes.LogFirst | internal/queue/queue.go:104-109 | a message anywhere in memory but inside `Enqueue` before its write has been written and not tombstoned, and is replayed from its queue unless that write went behind a torn tail |
| Outcomes.DeadLetterReturns | internal/ackmgr/ackmgr.go:155-161 | the maxRetries + 1 copies of a dead-lettered message, but for writes behind a torn tail, stay in the log of its home queue, and every restart puts them back into the topic |
| Outcomes.DeadLetterIsElsewhere | internal/ackmgr/ackmgr.go:155-161 | within the session a dead-lettered message is held on its home queue no more |
| Outcomes.DeadLetterIsNotRedelivered | internal/ackmgr/ackmgr.go:155-161 | nor delivered there again, whatever the rest of the session does |
| Contents.HeldContentKept | internal/core/message.go:40-44 | a message in memory has the payload and headers it was published with |
| Contents.ReplayedContentKept | internal/wal/reader.go:52-63 | so has every copy a replay returns |
| Witnesses.AckedWithoutTombstone | internal/ackmgr/ackmgr.go:64-75 | some run acknowledges a message, drops it from memory, and leaves no tombstone, so that it is replayed |
| Descent.StepTraces | internal/ackmgr/ackmgr.go:152-165 | within a session a message in memory is new, or was at one other spot before the step, with the same content, on the same queue or one level up; no two came from one spot |
| Sessions.TidyStep | internal/ackmgr/ackmgr.go:63-93 | every step keeps copies of an ID on unrelated queues, and no held message has a tombstone on its queue or below it |
| Beside.CompactedRun | internal/wal/compactor.go:16-66 | after a compaction the same steps can be taken, memory and all other logs come out the same, and the log of the queue is the compacted one followed by what the run writes to it |
| Beside.HiddenOnClean | internal/wal/compactor.go:33-65 | a compaction of a clean log is invisible after a run if and only if the run writes no record that resurrects a tombstoned ID |
| Beside.HiddenOnTorn | internal/wal/compactor.go:33-65 | one of a torn log if and only if what the run writes leaves no message and tombstones none that the log replays |
| Sessions.TidySessionHides | internal/wal/compactor.go:33-65 | if that is so at startup, compacting any log that is clean at that moment of the session changes no later replay |
| Revival.UnclearIsNoticed | internal/ackmgr/ackmgr.go:155-161 | a replayed message with a tombstone below its queue can be rejected until it reaches that log, and a compaction before shows |
| Revival.TogetherIsNoticed | internal/ackmgr/ackmgr.go:164-164 | so does one when an ID is replayed twice from a queue, or from a queue and one below it |
| Revival.CompactionHiddenExactly | internal/ackmgr/ackmgr.go:63-93 | in a session from clean logs the compaction of a clean log is invisible throughout if and only if no replayed message has a tombstone below its queue and no ID is replayed twice from a queue or from it and one below |
| Witnesses.LeftOverIsNoticed | internal/ackmgr/ackmgr.go:155-161 | from an empty directory: publish, dead-letter, acknowledge the dead letter, restart; no ID is replayed twice and yet a compaction can be noticed |
| Witnesses.TornCompactionShows | internal/wal/compactor.go:33-65 | after every startup, on every queue, some run tears the log and then writes a message that is replayed exactly if the log was compacted in between |
| Storage.JoinedStep | internal/wal/writer.go:68-86 | each step, torn appends included, keeps every file equal to the frames of its record log, followed by a torn tail if and only if the log is torn |
| Storage.PartTears | internal/wal/writer.go:77-83 | on a clean file every proper part of an encodable frame leaves a torn tail |
| Storage.JoinedRun | internal/queue/queue.go:46-57 | so does every run, restarts and crash cuts included |
| Storage.DurableInFiles | internal/wal/reader.go:27-78 | replaying the bytes after any run returns every message written, and not tombstoned, while the file was clean |
| Storage.ReplayedExactlyInFiles | internal/wal/reader.go:27-78 | of the messages of the session it returns exactly those |
| Storage.ExactHistoryInFiles | internal/wal/reader.go:27-78 | the copies of a message that a replay of the bytes of its home queue, and of each dead-letter queue, returns |
| Storage.EmptyDirectoryIsJoined | internal/queue/queue.go:30-57 | the hypotheses hold of a broker started on an empty directory |
| Loss.PublishedButLost | internal/wal/writer.go:25-29 | for every lawful codec and every message: after a crash that leaves two bytes, a publish succeeds, the message is in the topic, and no replay of the file returns it |
| Topic.FilterWindow | internal/queue/topic.go:57-65 | filtering a window while overwriting it splits it into the kept and the removed messages, both in order |
| Topic.Topic.Enqueue | internal/queue/topic.go:25-30 | the contents gain the message at the back, in place or in a larger array |
| Topic.Topic.Dequeue | internal/queue/topic.go:35-50 | the front message leaves; none only from a closed, empty topic |
| Topic.Topic.RemoveIf | internal/queue/topic.go:53-68 | a stable partition of the contents; together the parts are the old contents as a multiset |
| Topic.PartitionLosesNothing | internal/queue/topic.go:57-67 | removed and kept messages are the messages there were |
| Topic.FifoOverAllRuns | internal/queue/topic.go:25-68 | over any operation sequence nothing is lost or duplicated, and dequeued followed by remaining messages keep the order of entry |
| Topic.Drive | internal/queue/topic.go:25-68 | a topic object driven through any operation sequence holds, has handed out and has removed what that ledger says |
| Registry.Consumer.constructor | internal/connmgr/client.go:24-42 | counter zero, and a channel with room for the limit, but at least one message |
| Registry.Registry.Register | internal/connmgr/connmgr.go:21-30 | the two indexes agree afterwards if and only if the ID is new or stays on its queue |
| Registry.Registry.Deregister | internal/connmgr/connmgr.go:32-42 | the consumer leaves both indexes and they still agree |
| Registry.Registry.EligibleConsumers | internal/connmgr/connmgr.go:46-57 | the walk of one queue finds, once each, the registered consumers of the queue whose counter is below their limit |
| Registry.Registry.AddInFlight | internal/connmgr/connmgr.go:61-81 | the counter registered under the ID changes by the amount given, and no other; an unknown ID is ignored |
| Registry.Registry.Pick | internal/dispatcher/dispatcher.go:52-66 | the dispatcher's choice is registered, on the queue, below its limit and minimal among those; there is none only if every consumer of the queue is at its limit |
| Registry.Registry.Charge | internal/dispatcher/dispatcher.go:52-67 | choice and increment together: one counter more on an eligible consumer, and no counter that was within its limit passes it |
| Registry.LeastInFlight | internal/dispatcher/dispatcher.go:93-98 | a consumer of the list with the smallest counter |
| Queues.Manager.InitQueue | internal/queue/queue.go:61-85 | an unknown queue is loaded with the live messages of its log, a known one stays |
| Queues.Manager.Enqueue | internal/queue/queue.go:90-111 | accepted if and only if neither closing nor its log fails, and then logged and put into the topic (see `Queues.EnqueuedExactly`) |
| Queues.EnqueuedExactly | internal/queue/queue.go:90-111 | log and topic of the queue gain the message at the back, both or neither, and no other queue changes |
| Queues.Manager.WriteTombstone | internal/queue/queue.go:129-138 | one tombstone on a known queue that can be written, an error otherwise |
| Queues.Manager.ExpireQueue | internal/queue/queue.go:167-192 | the queue is loaded and expired (see `Queues.ExpireExactly`), and it errs exactly when a tombstone is needed and cannot be written |
| Queues.ExpireExactly | internal/queue/queue.go:177-190 | left are exactly the messages not older than the cutoff, in order, and the log has a tombstone more for each of the others |
| Queues.Manager.ExpireDlqOlderThan | internal/queue/queue.go:140-165 | each known dead-letter queue is expired once; main queues keep topic and log; a retention of zero or less does nothing |
| Queues.SweepExpires | internal/queue/queue.go:156-163 | whatever the order, each of them ends up as if it had been expired alone |
| Queues.SweepErrs | internal/queue/queue.go:156-164 | the sweep errs if and only if some queue with a message to expire cannot be written |
| Queues.Manager.BeginShutdown | internal/queue/queue.go:232-234 | from now on every enqueue is refused and changes nothing |
| Queues.ExpiryOnReplay | internal/queue/queue.go:177-190 | the next replay loses exactly the expired IDs |
| AckManager.AckManager.Register | internal/ackmgr/ackmgr.go:40-44 | the entry replaces any earlier one of the ID; nothing else changes |
| AckManager.AckManager.Unregister | internal/ackmgr/ackmgr.go:49-59 | the entry leaves and the consumer recorded in it is decremented |
| AckManager.AckManager.Ack | internal/ackmgr/ackmgr.go:63-76 | removal, decrement and tombstone for a known ID, nothing for an unknown one, and exactly when it errs |
| AckManager.AckManager.ProcessNack | internal/ackmgr/ackmgr.go:152-165 | decrement, then the message of `PutBack` is enqueued, and exactly when it errs |
| AckManager.AckManager.PutBack | internal/ackmgr/ackmgr.go:155-164 | with retries left the same message, counted once more and pending, on its queue and with its clock; otherwise a dead one, one `.dlq` down, with the clock reading |
| AckManager.AckManager.Nack | internal/ackmgr/ackmgr.go:81-93 | removal and `nackEntry` for a known ID, nothing for an unknown one, and exactly when it errs |
| AckManager.AckManager.TakeAll | internal/ackmgr/ackmgr.go:101-109 | deleting while iterating takes exactly the matching entries, once each |
| AckManager.AckManager.ScanAndTimeout | internal/ackmgr/ackmgr.go:98-123 | an entry leaves if and only if its dispatch time is before the threshold, and map, counters and per-queue multisets equal single nacks of those one at a time in every order |
| AckManager.AckManager.ExpireDlqInFlight | internal/ackmgr/ackmgr.go:125-147 | an entry leaves if and only if its queue is some name followed by `.dlq` and its clock is before the cutoff, with the effect of acknowledging those one at a time in every order; main queues keep topic and log |
| AckManager.AckAnyOrder | internal/ackmgr/ackmgr.go:63-76 | acknowledgements of a set of IDs in two orders give the same map, counters and topics, and the same logs up to order |
| AckManager.NackAnyOrder | internal/ackmgr/ackmgr.go:81-123 | single nacks of a set of IDs in two orders give the same map, counters, topics and logs up to order within a queue, whether or not enqueues fail |
| AckManager.NackAllCounts | internal/ackmgr/ackmgr.go:152-153 | each counter drops by the number of its own entries among the outcomes |
| Batches.NackIsARun | internal/ackmgr/ackmgr.go:81-93 | a removal, decrement and return of the transition system have together the effect of `Nack`, while closing and with failing writes too |
| Batches.ScanIsARun | internal/ackmgr/ackmgr.go:98-123 | a timeout scan is a run of such single steps |
| Batches.CausesAgree | internal/ackmgr/ackmgr.go:104-131 | the entries a scan takes are those to which its step applies, both ways |
| Batches.EligibleAlike | internal/connmgr/connmgr.go:46-57 | on the same consumers the registry finds eligible those that the transition system does, with the same counters |
| Batches.AckIsARun | internal/ackmgr/ackmgr.go:63-76 | a removal, decrement and tombstone write have together the effect of `Ack`, with unknown queues and failing writes too |
| Batches.UnregisterIsARun | internal/dispatcher/dispatcher.go:80-84 | a dispatcher cancelled while sending has, in steps of the transition system, the effect of `Unregister`, and stops |
| Batches.ExpiryIsARun | internal/ackmgr/ackmgr.go:127-147 | the expiry of dead letters in flight is a run of such single steps |
| AckManager.NackAllStore | internal/ackmgr/ackmgr.go:155-164 | each topic and log gains exactly the returned messages of its queue, in order |

## Left out

- gRPC transport, protobuf, stream goroutines and the mapping of publish requests: only "fresh ID, then `Enqueue`" is kept.
- The JSON and base64 libraries and the CRC-32 polynomial: the codec law and an arbitrary checksum stand for them.
- Details of the file system (sync, permissions, path joining, directory entries): a directory is a map from names to bytes with crash states.
- Tickers, sleeps, `WaitDrained` and the scan loops around the scanners: clock readings and thresholds are inputs.
- Liveness: steps are enabled or not, nothing is proved to happen eventually.
- Storage.JoinedStep: assumes that a record written to a clean file is encodable, since the codec law says nothing of text that is not valid and longer payloads do not read back, and that bytes written behind a torn tail complete no frame, since what a replay makes of them otherwise depends on the checksum.
- Storage.JoinedRun: assumes the same of every step, and so do the theorems about files that rest on it.
- Storage.DurableInFiles: assumes the same of every step.
- Storage.ReplayedExactlyInFiles: assumes the same of every step.
- Storage.ExactHistoryInFiles: assumes the same of every step.
- Revival.CompactionHiddenExactly: is about sessions that start on clean logs and about compactions of logs that are clean at that moment; for torn ones see `Beside.HiddenOnTorn`.
- Timing.HeldClock: is about messages published in the session, as are the theorems on retries; those of earlier sessions come with the clock in their record.
- Theorems.CounterExact: requires that startup found no ID twice; with replayed duplicates a second registration overwrites the first and only the bounds of `Theorems.PrefetchBound` remain.
- Registry.LeastInFlight: selects a minimum instead of sorting the slice in place with the library sort.
- Queues.Manager: holds topics and logs as sequences by name; the window and the bytes behind them are the subject of `Topic` and `Compaction`.
- AckManager.AckManager: its methods run to completion one at a time; their interleavings are the subject of `Broker`, and `Batches` relates the two.
- Headers are copied as a sequence; the element-by-element loops of writer and reader are not modelled.
- `CompactAll`: a loop over queues that calls the per-queue operation.
- Commands, the Node client, scripts, logging, environment parsing and ID generation.
