# Verified model of the Aliyun log service SDK

A Dafny model of the four parts of the SDK whose correctness is not visible from any single function, with proofs.

**The protobuf codec (`log.pb.go`).** All seven messages. The parser is one loop over fields, written once as a function
of a schema (`Schema.dfy`) and once per message as the index loops of the generated code (`Reader.dfy`). The printer is
a forward encoding (`Messages.dfy`) and the back-to-front writer into a sized buffer (`Writer.dfy`), with the size pass
(`Sizes.dfy`). Proved: the writer produces the encoding and touches nothing else; parsing inverts encoding for exactly
the messages one may expect; Unmarshal accepts exactly the buffers that are lists of allowed fields in a grammar of the
wire format (`WireFormat.dfy`, `Meaning.dfy`), takes the last occurrence of a scalar, every element of a list, and keeps
all other fields as they are (`LastWins.dfy`); whatever the parser accepts re-encodes to the same message, in no more
bytes than were read, except that a negative UncompressSize may cost six more; of every message type, parsing a
concatenation is parsing its parts in turn (`Normalise.dfy`, `Merge.dfy`). Lengths and varints are 64-bit, with their
wrap-around.

**The producer.** `Producer.dfy` holds its rules: which batch a log joins, what becomes of a failed send, how long a
retry waits. `ProducerObjects.dfy` and `RetryQueue.dfy` are the objects, methods that update fields in place and do what
the rules say. `Pipeline.dfy` is the running producer: senders, mover, pool, workers and SafeClose as a state machine
whose steps are the lock-protected sections and single atomic loads and stores, in every interleaving. `Placement`,
`CallBacks`, `KeyOrder`, `Attempts`, `Closing` and `Progress` show what every step keeps; `ProducerRuns.dfy` states the
theorems over whole runs, `Outcomes.dfy` what an answer of the service leads to; `Stranded.dfy` gives runs in which
closing loses a batch, and `Destinations.dfy` says which destinations' logs can end up in one batch.

**The consumer.** `ShardWorker.dfy` is one shard's worker, task by task, and `WorkerHistory.dfy` what its cursors, its
flushes and its status are in terms of its history; `AtLeastOnce.dfy` is a shard's whole life, with crashes, successors,
and checkpoint updates that are delayed, lost, repeated or reordered, and `Lives.dfy` each worker in it; `HandOver.dfy`
the heartbeat against the outer loop. `Shards.dfy` and `ConsumerObjects.dfy` are the objects.

**Two kernels.** `AdjustHash.dfy` (shard hash truncation) and `LiteralBlock.dfy` (the literal-only block of the LZ4 Block
Format, "Compressed block format", with a decoder for it).

Verify with `dafny verify dfyconfig.toml`.

## What turned out differently

These promises do not hold of the code as it is. Each has a concrete counterexample and the condition under which it
does hold.

- **SafeClose can leave a batch in the task queue.** The pool finds the queue empty and looks at its shutdown flag in
  two steps (`producer/io_thread_pool.go:56-66`); a task queued in between stays there (`StrandedInQueue`).
- **SafeClose can leave a batch in the retry queue or the accumulator**: a failed send that saw the retry flag unset
  pushes after the mover's last drain (`StrandedInRetry`); a sender past the shutdown check is accepted after it
  (`StrandedInAccumulator`). What is left anywhere is exactly what came after the last look at that place
  (`SafeCloseLeaves`). For a caller whose Send calls have all returned, every batch is finalised and every callback
  called once if and only if no task was queued after the pool's last look and no batch pushed back after the mover's
  (`SafeCloseExactly`); once the mover has stopped with nothing late, nothing can become late (`SafeCloseDrains`).
- **A worker can be left unreported at a hand-over.** A complete worker is cleaned up while a heartbeat is out, the
  answer takes the shard away, and a worker is created for it from the outer loop's older snapshot (`Unreported`). Safe
  are exactly the creations for protected shards (`HandOverSafe`, `UnprotectedCreate`).
- **"Since the first start" fails for END_CURSOR**: a successor without checkpoint starts later than its crashed
  predecessor, and any log group between the two starts can be missed (`MissedAtTheEnd`). Everything since the first
  start f is processed in every run whose stored checkpoint's line began at b, if and only if there is no log group
  between f and b (`NothingMissedExactly`); everything since b always is (`ProcessedAtLeastOnce`).
- **The backoff wraps around**: from 100 ms the 58th retry waits a negative time (`BackoffWraps`, `BackoffExact`).
- **Re-encoding can grow**: a negative UncompressSize may be read from 5 bytes and is written to 10
  (`NegativeSizeGrows`). A list can have come from fewer bytes than it is written to if and only if it holds such a
  size (`GrowsExactly`), and nothing else grows (`AcceptedGroups`, `AcceptedPackage`, `AcceptedPackages`).
- **A log can be sent to another destination than its own**: any two destinations with one key share batches, and no
  others do (`SentElsewhere`, `JoinsIffOneKey`). A destination's key is its own if and only if none of its fields holds
  the delimiter (`KeyCollision`); then, and only then, all its logs go to it (`OwnDestination`).

## Model

| member | source | states |
|---|---|---|
| Wire.SovIsVarintLength | log.pb.go:1003-1005 | the closed form (bit length + 6) / 7 is the number of bytes of the base 128 varint, for every value |
| Wire.VarintRoundTrip | log.pb.go:833-843 | the bytes of any uint64, anywhere in a buffer, are read back to that value and to the index behind them |
| Wire.CanonicalIsShortest | log.pb.go:1015-1029 | whatever varint the shift loop accepts, padded ones included, is at least as long as the canonical one of its value |
| Wire.SkipField | log.pb.go:1913-1990 | skipping a field always terminates and on success advances by at least one byte, through nested groups and overflowing lengths |
| WireFormat.ReadsVarint | log.pb.go:1015-1029 | the shift loop accepts exactly one to ten bytes with the high bit on all but the last, and yields their seven-bit groups modulo 2^64 |
| WireFormat.SkipsExactly | log.pb.go:1913-1990 | skipping reaches n within the buffer iff a field ends there: a varint, 8 bytes, as many as the prefix says, 4 bytes, or a group of fields up to its end tag |
| WireFormat.SkipsOne | log.pb.go:1913-1990 | so it does at any depth of nesting, wherever the field stands |
| Wire.SkipLocal | log.pb.go:1913-1990 | the skipped span depends on its own bytes only: skipped alike wherever it is copied to |
| Schema.ParseRepeated | log.pb.go:807-831 | a run of encoded list elements is parsed into the list, in order, and parsing goes on behind it |
| Schema.ParseUnknownRun | log.pb.go:1107-1121 | a run of whole unknown fields is appended to XXX_unrecognized byte for byte |
| Schema.ParseKeeps | log.pb.go:1009-1134 | for every accepted buffer: what a field-by-field invariant keeps the result keeps, unknown bytes are whole fields, and the result's size stays within the bytes read |
| Meaning.ParsesExactly | log.pb.go:1009-1134 | Unmarshal into any message succeeds with r iff the buffer is a list of fields, each allowed where it stands, required ones among them, that make r of the message; if only required ones lack, that is the error |
| Meaning.StepTakes | log.pb.go:1013-1122 | one round of the loop, on any field, stores or keeps it as it means, and fails if it is not allowed |
| Meaning.UnknownExactly | log.pb.go:1107-1121 | XXX_unrecognized may hold lists of undeclared fields and nothing else |
| LastWins.PairMeans | log.pb.go:1009-1134 | after any list of fields: key and value of the last occurrences, other fields appended as they are |
| LastWins.LogMeans | log.pb.go:1135-1255 | the same for Log: the low half of the last time, the last TimeNs, all contents in order |
| LastWins.GroupMeans | log.pb.go:1382-1632 | the same for LogGroup: four last strings, all logs and tags in order |
| LastWins.PackageMeans | log.pb.go:1633-1742 | the same for SlsLogPackage, the size cut to 32 bits |
| LastWins.PackagesMean | log.pb.go:1743-1827 | the same for the list |
| LastWins.GroupsMean | log.pb.go:1828-1912 | the same for LogGroupList |
| Messages.RoundTripPair | log.pb.go:498-526 | a LogContent (or LogTag) with key and value set is parsed back from its encoding |
| Messages.RoundTripLog | log.pb.go:543-580 | a Log with its time set and complete contents is parsed back from its encoding |
| Messages.RoundTripGroup | log.pb.go:642-708 | a LogGroup is parsed back from its encoding, through both nested lists |
| Messages.RoundTripPackage | log.pb.go:725-749 | an SlsLogPackage is parsed back, negative UncompressSize included |
| Messages.RoundTripPackages | log.pb.go:766-790 | an SlsLogPackageList is parsed back |
| Messages.RoundTripGroups | log.pb.go:807-831 | a LogGroupList is parsed back, four levels deep, with unknown fields at every level |
| Messages.SignRoundTrip | log.pb.go:734-738 | an int32 sign-extended to 64 bits is the same int32 after reading its low half |
| Messages.LittleEndianRoundTrip | log.pb.go:552-557 | the four bytes of TimeNs are read back |
| Normalise.RoundTripExactly | log.pb.go:1828-1912 | a LogGroupList survives the trip if and only if required fields are set and unknown bytes are whole unknown fields |
| Normalise.AcceptedGroups | log.pb.go:1828-1912 | whatever Unmarshal accepts is such a message, and its encoding is no longer than what was read |
| Normalise.NormalisePair | log.pb.go:1009-1134 | re-marshalling an accepted LogContent and parsing again gives the same message, in no more bytes |
| Normalise.NormaliseLog | log.pb.go:1135-1255 | the same for Log |
| Normalise.NormaliseGroup | log.pb.go:1382-1632 | the same for LogGroup |
| Normalise.NormaliseGroups | log.pb.go:1828-1912 | the same for LogGroupList: padded varints, repeated and reordered fields, unknown groups |
| Normalise.AcceptedPackage | log.pb.go:1633-1742 | an accepted package re-encodes to at most five bytes more, and only if its size is negative |
| Normalise.NegativeSizeGrows | log.pb.go:1702-1717 | it can: every package with a negative size is also read from five bytes less than it is written to |
| Normalise.NormalisePackage | log.pb.go:1633-1742 | an accepted package, re-marshalled and parsed again, is the same, in at most five bytes more, none if its size is not negative |
| Normalise.AcceptedPackages | log.pb.go:1743-1827 | an accepted list is complete and re-encodes to at most six bytes more for each negative size in it |
| Normalise.GrowsExactly | log.pb.go:1702-1717 | a complete list can have come from fewer bytes than it is written to, iff a size in it is negative |
| Normalise.NormalisePackages | log.pb.go:1743-1827 | re-marshalled within that bound and parsed again, it is the same; without a negative size it always fits a buffer again |
| Merge.StepLocal | log.pb.go:1013-1122 | one round of the parsing loop does the same wherever its field stands in a buffer |
| Merge.ConcatenationParses | log.pb.go:1009-1134 | of every message type: reading two buffers one after the other is reading their concatenation, and the required fields may be spread over both; else it is the missing-field error |
| Merge.ConcatenationMerges | log.pb.go:1382-1632 | of every message type: parsing two buffers one after the other into one message is parsing their concatenation |
| Writer.EncodeVarint | log.pb.go:833-843 | writes exactly the varint's bytes in front of offset, changes no other byte and returns where they begin |
| Writer.WriteVarint | log.pb.go:734-738 | tag and varint end up in front of what stands already |
| Writer.WriteOpt | log.pb.go:665-692 | an optional string ends up, tag and length first, in front of what stands already |
| Writer.MarshalPair | log.pb.go:498-526 | succeeds exactly if key and value are set; then the last bytes are the encoding; no byte outside changes, on errors either |
| Writer.MarshalLog | log.pb.go:543-580 | the same for Log, with its descending loop over the contents |
| Writer.MarshalGroup | log.pb.go:642-708 | the same for LogGroup, with both descending loops |
| Writer.MarshalGroups | log.pb.go:807-831 | the same for LogGroupList |
| Writer.MarshalPackage | log.pb.go:725-749 | the same for SlsLogPackage |
| Writer.MarshalPackages | log.pb.go:766-790 | the same for SlsLogPackageList |
| Sizes.SizePair | log.pb.go:844-863 | Size is the length of the encoding |
| Sizes.SizeLog | log.pb.go:864-887 | the same, summed over the contents |
| Sizes.SizeGroup | log.pb.go:908-947 | the same, summed over logs and tags |
| Sizes.SizePackage | log.pb.go:948-966 | the same |
| Sizes.SizePackages | log.pb.go:967-984 | the same |
| Sizes.SizeGroups | log.pb.go:985-1002 | the same |
| Sizes.MarshalNewGroup | log.pb.go:627-641 | Marshal of a LogGroup returns exactly its encoding, or the missing-field error |
| Sizes.MarshalNewGroups | log.pb.go:792-806 | Marshal of a LogGroupList returns exactly its encoding, or the missing-field error |
| Sizes.CompleteExactly | log.pb.go:807-831 | of messages whose unknown bytes are whole fields, Marshal refuses exactly those that would not come back from Unmarshal |
| Sizes.PackagesComplete | log.pb.go:766-790 | the same for package lists |
| Reader.ReadUint64 | log.pb.go:1015-1029 | the shift loop reads what the varint function reads, errors included |
| Reader.ReadUint32 | log.pb.go:1169-1183 | accumulating in 32 bits yields the low half of the 64-bit value |
| Reader.SkipLog | log.pb.go:1913-1990 | the loop terminates on every input, stays in bounds, agrees with the field-skipping function and advances on success |
| Reader.ReadBytes | log.pb.go:1043-1074 | the length prefix of a bytes field with its three bounds checks |
| Reader.ReadUnknown | log.pb.go:1107-1121 | where an unknown field ends, or which error it is |
| Reader.ReadPair | log.pb.go:1009-1134 | Unmarshal into a message that may hold fields already is the schema's parse, errors included |
| Reader.ReadLog | log.pb.go:1135-1255 | the same for Log |
| Reader.ReadGroup | log.pb.go:1382-1632 | the same for LogGroup |
| Reader.ReadPackage | log.pb.go:1633-1742 | the same for SlsLogPackage |
| Reader.ReadPackages | log.pb.go:1743-1827 | the same for SlsLogPackageList |
| Reader.ReadGroups | log.pb.go:1828-1912 | the same for LogGroupList |
| RetryQueues.RootIsLeast | producer/retry_queue.go:59-61 | in a heap-ordered slice nothing is due before the root |
| RetryQueues.UpStep | producer/retry_queue.go:59-64 | sifting up one level leaves only the next level to mend |
| RetryQueues.DownStep | producer/retry_queue.go:59-64 | sifting down one level leaves only the next level to mend |
| RetryQueues.RetryQueue.Push | producer/retry_queue.go:65-68 | heap.Push keeps the order and adds exactly the batch |
| RetryQueues.RetryQueue.Pop | producer/retry_queue.go:69-75 | heap.Pop keeps the order and removes exactly one batch, none being due before it |
| RetryQueues.RetryQueue.SendToRetryQueue | producer/retry_queue.go:24-31 | adds the batch, nothing for nil |
| RetryQueues.RetryQueue.GetRetryBatch | producer/retry_queue.go:33-53 | the released batches are sorted, the k-th was due at the k-th clock reading, none left is due at the last; when shutting down all come, sorted; contents are kept as a multiset |
| RetryQueues.ReleasesWhatIsDue | producer/retry_queue.go:36-45 | with a clock that does not run backwards: everything due at the first reading comes, everything that comes is due at the last, nothing left comes before it |
| ProducerRules.KeyInjective | producer/log_accumulator.go:113-125 | destinations without the delimiter in their first four fields have keys of their own |
| ProducerRules.KeyCollision | producer/log_accumulator.go:113-125 | a destination shares its key with another, if and only if one of its fields holds the delimiter |
| ProducerRules.AbsorbExactly | producer/log_accumulator.go:38-55 | on what the open batch would be charged and its count: it stays open with the logs, is sent off with them, or is sent off without them and a new batch begun, iff; and what each then holds |
| ProducerRules.AbsorbCapped | producer/log_accumulator.go:38-55 | every batch keeps its size and count limits under a validated configuration, an open one of several submissions MaxBatchSize |
| ProducerRules.BytesAddUp | producer/utils.go:40-46 | each log is charged its own bytes once, whatever lists logs come in |
| ProducerRules.RetryExactly | producer/io_worker.go:74-105 | a refused batch is retried iff the retry queue is open, the answer allows it and retries are left; how many attempts are counted |
| ProducerRules.ErrorsReserved | producer/io_worker.go:109-119 | failed attempts are kept, the first ones, up to the limit |
| ProducerRules.SuccessRecorded | producer/io_worker.go:59-66 | the delivering attempt is kept behind them if it is within the limit |
| ProducerRules.BackoffExact | producer/io_worker.go:94-99 | the n-th retry waits min(base*2^(n-1), max) if and only if the product fits an int64 or what it wraps to reaches max |
| ProducerRules.BackoffNondecreasing | producer/io_worker.go:94-99 | while the product fits, waits do not shrink and are not negative |
| ProducerRules.BackoffWraps | producer/io_worker.go:94-99 | from a base of 100 ms the 58th retry waits a negative time |
| ProducerObjects.CorrectedIsValidated | producer/producer.go:93-124 | corrected configurations are within all bounds, and only configurations out of bounds are changed |
| ProducerObjects.CorrectedEach | producer/producer.go:93-124 | value by value: within bounds kept, else the documented default |
| ProducerObjects.ProducerConfig.Validate | producer/producer.go:93-124 | rewrites the fields to the corrected configuration |
| ProducerObjects.ProducerBatch.constructor | producer/producer_batch.go:39-93 | a new batch: the first submission, its encoded size charged, no attempts |
| ProducerObjects.ProducerBatch.Append | producer/producer_batch.go:125-139 | appends logs and callback and nothing else |
| ProducerObjects.ProducerBatch.AddErrorMessageToBatchAttempt | producer/io_worker.go:108-120 | counts the attempt and keeps it if the limit allows |
| ProducerObjects.IoThreadPool.AddTask | producer/io_thread_pool.go:30-34 | appends to the queue |
| ProducerObjects.IoThreadPool.PopTask | producer/io_thread_pool.go:36-45 | takes the oldest task, nil if there is none |
| ProducerObjects.LogAccumulator.GetKey | producer/log_accumulator.go:113-125 | builds the key string |
| ProducerObjects.LogAccumulator.InnerSendToServer | producer/log_accumulator.go:107-111 | the batch moves from the map to the end of the queue |
| ProducerObjects.LogAccumulator.CreateNewProducerBatch | producer/log_accumulator.go:95-105 | the key gets a fresh batch of its own number, holding the submission and created now |
| ProducerObjects.LogAccumulator.AddOrSendProducerBatch | producer/log_accumulator.go:38-55 | the three branches do to map, queue and batch what Absorb says, and touch no other key |
| ProducerObjects.LogAccumulator.AddLogToProducerBatch | producer/log_accumulator.go:58-93 | refuses when shut down, else does what Absorb says, other keys' batches unchanged |
| ProducerObjects.LogSize | producer/utils.go:40-46 | the sum over the list |
| ProducerObjects.Mover.SendToServer | producer/mover.go:34-42 | queues and unmaps the batch if the key is still open and the second look at the clock agrees, else does nothing |
| ProducerObjects.Mover.FlushLingering | producer/mover.go:50-63 | exactly the batches that lingered are queued, each once, and exactly those leave the map |
| ProducerObjects.Mover.DrainAccumulator | producer/mover.go:82-87 | every open batch is queued once and the map is empty |
| ProducerObjects.IoWorker.SendToServer | producer/io_worker.go:59-106 | after an answer the batch, the callbacks called in order, the retry time and the retry queue, with the condition for retrying spelt out |
| ProducerObjects.CallsEach | producer/io_worker.go:134-142 | every callback of the list is called, in order, with the outcome |
| ProducerObjects.IoWorker.FailAll | producer/io_worker.go:75-83 | on shutdown every callback fails once, each recording an attempt |
| Placement.SealPlaced | producer/log_accumulator.go:107-111 | moving a batch from the accumulator to the queue keeps every batch in exactly one place |
| Placement.CommitPlaced | producer/log_accumulator.go:58-93 | so does accepting a submission |
| Placement.StepPlaced | producer/io_worker.go:44-106 | so does every step of senders, mover, pool, workers and closing |
| CallBacks.FireOnce | producer/io_worker.go:134-142 | calling a list of callbacks in a loop calls each one listed once exactly once |
| CallBacks.FinaliseCalls | producer/io_worker.go:59-74 | finalising a batch calls its callbacks, and no others, with its outcome |
| CallBacks.StepCalls | producer/io_worker.go:44-106 | every step keeps: called once with the outcome if finalised, never before |
| KeyOrder.CommitOrder | producer/log_accumulator.go:58-93 | accepting appends the logs to the key's text (queued batches, then the open one), in all three branches |
| KeyOrder.PopFifo | producer/io_thread_pool.go:36-45 | batches are popped for the first time in the order they were first queued, retries in between |
| KeyOrder.StepWorded | producer/mover.go:34-93 | every step keeps the text of every key equal to what was accepted for it |
| KeyOrder.StepAddressed | producer/log_accumulator.go:65-85 | every step keeps: a batch holds only submissions with its own key |
| Attempts.StepTried | producer/io_worker.go:74-105 | every step keeps sends, recorded attempts and their bounds in step |
| Attempts.StepSlotted | producer/io_worker.go:122-132 | no more sends run than there are slots |
| Attempts.StepCapped | producer/log_accumulator.go:38-55 | every step keeps the size and count limits of every batch |
| Progress.StepMeasure | producer/io_worker.go:74-105 | every step that carries a batch lowers a natural-number measure, and no other raises it, acceptances apart |
| Progress.CommitMeasure | producer/log_accumulator.go:58-93 | an acceptance raises it by at most 4 + 6 * retries |
| Closing.StepControl | producer/producer.go:277-292 | every step keeps what the flags and waits of SafeClose imply |
| Closing.ClosedExactly | producer/producer.go:277-284 | what is left when SafeClose returned is exactly what came after the last looks, batch by batch; all is finalised iff nothing did, or was sent off later |
| ProducerRuns.Conservation | producer/mover.go:34-93 | in every run every batch is in exactly one of accumulator, queue, pool, flight, retry queue, mover's hand, finalised |
| ProducerRuns.CallBackExactlyOnce | producer/io_worker.go:59-106 | in every run every callback was called once with the outcome if its batch is finalised, else never |
| ProducerRuns.PerKeyOrder | producer/log_accumulator.go:65-85 | in every run, per key, first-queued batches in order and the open batch together are the accepted logs in order |
| ProducerRuns.OwnKey | producer/log_accumulator.go:113-125 | in every run a batch holds submissions with its own key only |
| Destinations.SentElsewhere | producer/log_accumulator.go:58-93 | of any two destinations with one key, whatever is sent for one while a batch for the other is open, and fits, goes to the other |
| Destinations.JoinsIffOneKey | producer/log_accumulator.go:58-93 | in some run a log for e is in a batch for d, if and only if d and e have one key |
| Destinations.OwnDestination | producer/log_accumulator.go:113-125 | in every run every log for e goes to e, if and only if no field of e holds the delimiter |
| ProducerRuns.BoundedSends | producer/io_worker.go:92-104 | in every run a batch is sent at most max(Retries, 0) + 1 times, at most MaxIoWorkerCount are in flight, and the attempts kept are the first failures and then the success, if within the limit |
| ProducerRuns.BatchCaps | producer/producer.go:99-106 | in every run a batch of two or more submissions holds at most 5242880 accounted bytes, one of single logs at most MaxBatchCount logs |
| ProducerRuns.OpenIsBelowSize | producer/log_accumulator.go:38-55 | in every run an open batch is charged exactly what it holds, and with more than one submission no more than MaxBatchSize |
| Outcomes.DeliveredIsFinal | producer/io_worker.go:59-74 | in every run a delivered batch is never sent again, and its callbacks are called once, with success |
| Outcomes.GivenUpExactly | producer/io_worker.go:74-105 | in every run a refused batch is given up iff the retry queue is shut, the answer forbids retrying or it was sent more often than retries; then it is never sent again and its callbacks called once, with failure; else it goes to the retry queue |
| Outcomes.RunFinal | producer/io_worker.go:59-106 | a finalised batch is never sent, changed or finalised again |
| Outcomes.OnlyPendingAccepted | producer/log_accumulator.go:60-63 | once the accumulator is told to shut down, exactly the senders already past the check can still be accepted |
| ProducerRuns.BatchesComeToRest | producer/mover.go:70-79 | in every run at most (4 + 6 * retries) carrying steps happen per submission |
| ProducerRuns.NeverStuck | producer/io_thread_pool.go:53-70 | while the mover loops and the pool is not told to go, in every reachable state with an unfinalised batch a carrying step, or the pool's look at its flag, is possible |
| ProducerRuns.SafeCloseLeaves | producer/producer.go:277-284 | in every run, what SafeClose leaves in accumulator, queue and retry queue is exactly what came after the last look there; all is finalised iff nothing did, batches sent off later apart |
| ProducerRuns.SafeCloseExactly | producer/producer.go:277-292 | if all Send calls returned before SafeClose and none follows: every batch is finalised, and every callback called once, iff nothing was queued after the pool's last look or pushed back after the mover's |
| ProducerRuns.SafeCloseDrains | producer/producer.go:277-292 | once the mover has stopped with nothing late, every way to the end of SafeClose finalises every batch and calls every callback once |
| ProducerRuns.SafeCloseEmptiesAccumulator | producer/mover.go:82-87 | if all Send calls returned before SafeClose and none follows, the accumulator ends empty |
| Stranded.StrandedInQueue | producer/io_thread_pool.go:53-70 | a run in which SafeClose returns with a queued batch whose callback is never called |
| Stranded.StrandedInRetry | producer/io_worker.go:75-101 | the same for a batch pushed back too late |
| Stranded.StrandedInAccumulator | producer/log_accumulator.go:60-67 | the same for a log accepted too late |
| ShardHash.MaskRounds | producer/adjusthash.go:21-35 | masking a nibble rounds it down to a multiple of the remaining bits' weight |
| ShardHash.AdjustHash | producer/adjusthash.go:37-57 | for every 128-bit digest and every int64 buckets: 32 hex digits denoting the digest with all but its top floor(log2 b) bits cleared, zeros for b <= 0 |
| ShardHash.OrderPreserved | producer/adjusthash.go:46-54 | adjusted hashes come in the order of their digests |
| ShardHash.AtMostBuckets | producer/adjusthash.go:46-54 | at most b adjusted hashes occur |
| ShardHash.EveryBucketOccurs | producer/adjusthash.go:46-54 | and more than b / 2 do: every multiple of the width is one |
| ShardHash.MoreBucketsRefine | producer/adjusthash.go:46-54 | more buckets only split groups |
| ShardHash.HexOrder | producer/adjusthash.go:14-19 | hex strings of one length compare, and are equal, as the numbers they denote |
| LiteralBlocks.CopyIncompressible | log_store.go:130-155 | stays in bounds, changes only what it reports, writes the block if it fits, else a prefix of its header; decodes to src iff it fits |
| LiteralBlocks.BlockRoundTrip | log_store.go:130-155 | the decoder gives back src from its block, of at most n + n/255 + 16 bytes |
| LiteralBlocks.HeaderAlone | log_store.go:146-152 | a header without its literals, or part of one, decodes to nothing |
| LiteralBlocks.StoredIsMost | log_store.go:130-155 | what is written is the most that fits of header and, whole, literals |
| Shards.Set | consumer/util.go:11-22 | every element once, in the order of first occurrence |
| Shards.UniqueIsSet | consumer/util.go:11-22 | no repetition, nothing lost, nothing new |
| Shards.UniqueInOrder | consumer/util.go:11-22 | later elements do not change the order of earlier ones |
| Shards.Contain | consumer/util.go:71-87 | finds an element iff it is there |
| Shards.WithoutGone | consumer/heart_beat.go:96-108 | removal takes out that shard and no other |
| Shards.ConsumerHeartBeat.UploadShards | consumer/heart_beat.go:69-71 | the reported list is heartShards and heldShards without repetition |
| Shards.ConsumerHeartBeat.TakeResponse | consumer/heart_beat.go:72-81 | heldShards is the answer, kept on an error, emptied on a timeout |
| Shards.ConsumerHeartBeat.RemoveHeartShard | consumer/heart_beat.go:96-108 | takes out the first occurrence and tells whether there was one |
| ShardWorkers.DoInv | consumer/shard_worker.go:63-147 | every step of a worker keeps: one job if not done, of the status's kind; a list to process in PROCESSING; at most three updates a flush |
| ShardWorkers.WorkerRuns | consumer/shard_worker.go:63-147 | in every run: one task at a time; a list held whenever idle in PROCESSING; at most one task other than closing starts after the shutdown flag |
| ShardWorkers.ClosingEnds | consumer/shard_worker.go:106-123 | a closing task ends in SHUTDOWN_COMPLETE iff Shutdown and the flush succeed, a flush failing only after three updates |
| ShardWorkers.CompleteIsFinal | consumer/shard_worker.go:124-126 | SHUTDOWN_COMPLETE is absorbing: no task, so no Process call, ever starts again |
| ShardWorkers.RoundAdvances | consumer/tasks.go:48-106 | a round of pulling and processing moves cursor and pending checkpoint to the end of what was pulled |
| WorkerHistory.FollowsHistory | consumer/shard_worker.go:63-147 | in every run: fetched next is the cursor named last, by start, pull or rollback; held is the last list pulled; pending and saved checkpoint are those of the history |
| WorkerHistory.FetchesStartFirst | consumer/shard_worker.go:72-79 | until a pull succeeds the worker fetches from the cursor it was started from |
| WorkerHistory.NothingBeforeStart | consumer/tasks.go:12-46 | it fetches nothing before that cursor unless the user's function rolls back that far |
| WorkerHistory.StatusExactly | consumer/shard_worker.go:129-147 | the status changes with the end of a task only, to exactly what flag, task and outcome say |
| WorkerHistory.ToldToShutDown | consumer/shard_worker.go:181-186 | in every run a worker told to shut down stays told, and is closing whenever no task runs |
| WorkerHistory.FlushBeginsExactly | consumer/shard_worker.go:171-179 | a flush begins iff a task is at such a point, the interval is over and a cursor is pending that is not the one saved |
| WorkerHistory.NothingLeftToFlush | consumer/checkpoint_tracker.go:118-119 | after an update was taken or rejected nothing is left to flush |
| AtLeastOnce.PullLife | consumer/tasks.go:48-84 | pulling keeps: everything up to the cursor, or the held list, is processed |
| AtLeastOnce.ProcessLife | consumer/tasks.go:86-106 | so does processing, with saves, backward rollbacks and panics |
| AtLeastOnce.InitLife | consumer/tasks.go:12-46 | so does starting from a stored checkpoint or from a cursor |
| AtLeastOnce.NextInv | consumer/checkpoint_tracker.go:85-120 | so does every step of every worker, crash, successor and late update |
| AtLeastOnce.ProcessedAtLeastOnce | consumer/worker.go:28-45 | in every run everything between the stored checkpoint and the cursor its line began with was processed |
| AtLeastOnce.SinceTheFirstStart | consumer/tasks.go:23-43 | if no later start lies behind the first, everything since the first start was processed |
| AtLeastOnce.NothingMissedExactly | consumer/tasks.go:23-43 | every run that first started at f, and whose stored checkpoint's line began at b, has processed everything since f, iff no log group lies between f and b |
| AtLeastOnce.MissedAtTheEnd | consumer/tasks.go:30-36 | for any two starts and any checkpoint behind them, a run in which a given log group between the starts is never processed |
| Lives.LifeIsRun | consumer/worker.go:135-144 | in every run of the system every worker's life is a run of a worker of its own |
| Lives.StaysBehindStart | consumer/shard_worker.go:72-79 | in every run a worker fetches first from where it was started, and fetches and processes nothing before, rollbacks below it apart |
| Lives.StartsFromStored | consumer/tasks.go:12-21 | that is the stored checkpoint, or the service's cursor if none is stored |
| Lives.CrashIsFinal | consumer/worker.go:79-82 | in every run a worker that has crashed does nothing more |
| ConsumerObjects.FlushTries | consumer/checkpoint_tracker.go:89-116 | at most three updates; the last is the first not answered by a passing error; failure only after three; rejected iff the last answer was |
| ConsumerObjects.FlushExactly | consumer/checkpoint_tracker.go:85-120 | in terms of the answers alone: when nothing is sent, when the shard is rejected, when the cursor counts as saved |
| ConsumerObjects.DefaultCheckPointTracker.FlushCheckPoint | consumer/checkpoint_tracker.go:85-120 | sends nothing if nothing is pending or new; heartShards loses the shard iff the first answer of three that is no passing error is a rejection; error iff all three are passing errors; saved otherwise |
| ConsumerObjects.DefaultCheckPointTracker.SaveCheckPoint | consumer/checkpoint_tracker.go:52-59 | the next cursor becomes pending; if forced, saved cursor, error and heartShards follow the answers, else nothing else changes |
| ConsumerObjects.FlushStepByStep | consumer/checkpoint_tracker.go:89-116 | a flush update by update, as the worker's steps take it, ends where the loop ends |
| ConsumerObjects.ShardConsumerWorker.Consume | consumer/shard_worker.go:63-127 | starts the task of the status, none while one runs or when complete |
| ConsumerObjects.ShardConsumerWorker.ConsumerShutDown | consumer/shard_worker.go:181-186 | sets the flag and consumes unless complete |
| ConsumerObjects.ShardConsumerWorker.UpdateStatus | consumer/shard_worker.go:129-147 | the next status, and the task is done |
| ConsumerObjects.ShardConsumerWorker.RunInitialise | consumer/shard_worker.go:72-79 | the INITIALIZING task does the worker's step |
| ConsumerObjects.ShardConsumerWorker.RunPull | consumer/tasks.go:48-84 | the PULLING task, with the flush after an empty pull, does the worker's steps; a rejected flush takes the shard out of heartShards, nothing else does |
| ConsumerObjects.ShardConsumerWorker.RunProcess | consumer/tasks.go:86-106 | the PROCESSING task, with save, flush and rollback, does the worker's steps, and the same to heartShards |
| ConsumerObjects.ShardConsumerWorker.RunClose | consumer/shard_worker.go:106-123 | the SHUTTING_DOWN task does the worker's steps, and the same to heartShards |
| ConsumerObjects.ConsumerWorker.GetShardConsumer | consumer/worker.go:135-144 | the shard's worker, made if there is none |
| ConsumerObjects.ConsumerWorker.CleanShardConsumer | consumer/worker.go:146-171 | unowned workers are told to shut down; complete ones leave the map and heartShards, whatever the order of the visits |
| ConsumerObjects.CleanedMembers | consumer/worker.go:159-167 | heartShards loses exactly the visited shards whose worker is complete |
| HandOver.StepLists | consumer/heart_beat.go:67-92 | every step keeps: the outer loop's snapshot names protected shards, or ones taken out of heartShards and not reported since |
| HandOver.StepSafe | consumer/worker.go:93-107 | every step keeps live workers' shards protected, creations for unprotected shards apart |
| HandOver.HandOverSafe | consumer/worker.go:135-171 | in every run with protected creations every live worker's shard is in heartShards or heldShards |
| HandOver.UnprotectedIsGone | consumer/heart_beat.go:96-108 | a creation is unprotected only for a shard taken out of heartShards and not stored in it since |
| HandOver.CompleteWasAsked | consumer/worker.go:153-159 | in every run a worker is complete only after it was told to shut down, only workers of shards the snapshot does not name are told, and a new worker is not |
| HandOver.CleanUpExactly | consumer/worker.go:159-167 | a complete worker is forgotten iff its shard was still reported, and the shard is not reported afterwards |
| HandOver.RejectedUnreported | consumer/checkpoint_tracker.go:96-103 | a rejected checkpoint takes the shard, and no other, off the report |
| HandOver.FailedBeat | consumer/heart_beat.go:67-77 | a heartbeat without an answer reports heartShards and heldShards and keeps heldShards, unless it took too long |
| HandOver.TimeoutReleasesAll | consumer/heart_beat.go:73-77 | after heartbeats failed for too long every worker can be told to shut down from the next snapshot on |
| HandOver.UnprotectedCreate | consumer/worker.go:135-144 | after an unprotected creation the next answer can leave a live worker unreported |
| HandOver.Unreported | consumer/worker.go:93-107 | a run that does |

## Left out

- HTTP, JSON, signing, compression libraries, credentials, logging, wall clocks and sleeping: their outcomes are inputs of the steps; MD5 is an arbitrary 16-byte digest.
- Nested messages are values: pointer sharing, nil list elements, and the partly filled message an Unmarshal leaves after an error are not modelled; LogTag and LogContent, whose code is the same, are one type.
- Buffers are at most 2^63 - 5 bytes long, so that an index plus four cannot wrap; strings are bytes.
- Byte counts of batches are unbounded integers; the int64 additions of totalDataSize cannot be made to wrap by logs that fit in memory.
- ProducerObjects.ProducerBatch.constructor: takes the encoded size of the log group as an input and builds neither tags nor pack id, since no rule of the producer reads them.
- ProducerRules.BackoffExact: from the 64th retry on, 2^(n-1) exceeds an int64 and what the conversion from floating point yields is left open, as the language does.
- producerLogGroupSize and waitTime: the counter does not track buffered bytes (new batches are not added, the shutdown path subtracts nothing).
- What GetLogSizeCalculate charges for a single log, and the encoded size of a new log group, are inputs of a submission.
- MaxBatchCount for list sends: the check counts a whole list as one log.
- "The latest attempts are kept": the code keeps the first ones, and so does the model; errors are the SDK's own error type.
- Close with a timeout, and reading the accumulator's map while its lock is not held.
- AdjustHashOld, which differs from AdjustHash when the truncated byte is below 16.
- Throttling of pulls (a pull that is not due is a failed pull) and the retry loop of pullLogs, which repeats a successful pull and keeps the last answer.
- User functions that save checkpoints themselves, or from Shutdown, and rollbacks beyond the cursor; for the at-least-once results the wrapper of InitConsumerWorker is what calls the user's function.
- Slice aliasing in the heartbeat's append and unlocked reads: each step reads a consistent value.
- Stopping the whole consumer: shutDownAndWait and the end of the heartbeat add no step that removes a shard from heartShards.
