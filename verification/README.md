# Post-trade engine: a verified model

A model, in Dafny 4.11, of the single-writer post-trade core: the write-ahead log with group commit, the outbox gate,
the ledger state machine, its indexes and recovery image, fixed-point arithmetic, and the ingress. `dafny verify
dfyconfig.toml` checks the whole project.

## How it is laid out

* **Log.** `Bytes`, `WalFormat` (record and segment layout), `SegmentReading` (the reader), `LogRoundTrip` (writer and
  reader are inverse; torn and arbitrary tails), `InflightGroups` (the ring of groups in flight), `CommitLayout` and
  `CommitInvariant` (the invariant of the commit pipeline as facts about values, one lemma per step), `GroupCommitting`
  and `WriteAheadLog` (the classes). The checksum is a parameter: every result holds for every checksum function.
* **Device.** `GroupCommitting.Device` stands for the asynchronous backend. It may refuse a request, leave any bytes
  at all in the range of a request that has not completed, and report completions late, short, failed and in any order;
  it reads the registered buffer when the write completes, not when it is asked for. A crash is simply the file as it is
  at that moment.
* **Gate.** `OutboxLayout`, `Outboxes` (slot ring over a circular byte buffer), `Updates` (what an event announces, and
  its bytes), `EventLog` and `Partitions` (the loop).
* **Ledger.** `Rounding`, `Calendar`, `Idempotency`, `Ledgers` (rows and indexes), `Applying` (the ten events as a
  function: the specification), `PartitionStates` (the same state changed in place by a class whose methods refine that
  function), `TradeTables` (rows, intrusive lists, compaction). Laws: `Footprints` (what an event does, seen by owner),
  `LedgerLaws`, `DoubleEntry`, `BucketLaws`, `Rejections`, `Traces`, `AppliedOnce`, `TradeHistory`. What each event says,
  told apart from the functions that carry it out: `Figures` (balances and money), `Prices` (the average price),
  `Blotter` (trades), `Answers` (status and reason), `Notes` (exceptions, days, instruments), `Anchors`.
* **Tables and recovery.** `OpenAddressing`, `StateImages` (columns), `ImageBytes` (sections), `ImageFiles` (the file and
  how it is read back), `ImageFormat` (where every number of it lies), `Recovering`.
* **Scale and entry.** `OwnerViews`, `OwnerSteps`, `Independence` (one partition or many), `SpscRings`, `Ingress`,
  `EventBlocks` (the routed messages field by field, and where each goes).

Integers are unbounded where the source's arithmetic would stop the process on overflow; sums that wrap are wrapped
explicitly. LSNs, epochs, lengths and template numbers keep their widths. Payload decoding is a function parameter;
the layout of the routed messages, which routing depends on, is in `EventBlocks`.

## Where the code and its promise part ways

Each of these is stated as a lemma, with the exact condition under which the code does meet the promise, and mostly with
an input that shows it.

* The outbox promises never to overwrite a pending payload. When the newer run of payloads ends exactly where the oldest
  begins, the next one is still accepted and goes over it (`Outboxes.FullBufferLosesAPayload`); for non-empty payloads
  this is the only way (`Outboxes.OverwritesExactly`), and a buffer for one payload more than there are slots rules it
  out for good (`OutboxLayout.NeverAtBrim`, `Outboxes.StagedSafely`).
* No bucket is to go below zero, unless a client sells short. Three kinds of events pass every check and take one below,
  and the check made after the mutation then stops the partition: settlements of negative quantity, splits of a short
  position and bonuses on one. Each is shown by a run from an empty ledger (`BucketLaws.NegativeSettlementCorrupts`,
  `ShortSplitCorrupts`, `ShortBonusCorrupts`). `BucketLaws.CorruptExactly` says which events do it, told from the buckets
  they meet: a failed delivery when the overdue bucket plus the quantity is negative, another settlement of a purchase
  when short sales are not allowed and the free shares plus the quantity are, a split when the leftovers kept and cut off
  add up to less than nothing, a bonus likewise. `BucketLaws.RunHealthyExactly` lifts it to whole runs.
* A refused event is to leave the state identical to the byte. Rows made for the owners, instruments and positions it
  names stay, and so does an exception recorded on the way; `Traces.RefusedLeavesNothing` says exactly when nothing is
  left. Balances, trades, dates and income never change (`Rejections.RefusedLeavesState`).
* A refused corporate action promises to leave its idempotency key unused. A bonus that would take shares away and a
  subscription beyond the rights are refused after the key was taken, and the corrected event is then a duplicate
  (`Rejections.RefusedActionKeepsKey`, `Rejections.DeniedExactly`, `Rejections.CorrectionIsRefused`).
* An action is applied once per window of days. With day numbers that are no dates, the generations can turn twice
  within the window (`AppliedOnce.UnrealDatesForget`). It holds for every stream that opens given days exactly when no
  day lies two turns and yet less than the window after an earlier one (`AppliedOnce.WindowKeptExactly`); increasing day
  indexes, and so real dates in order, are enough (`IncreasingNeverForgets`, `RealNeverForgets`).
* An allocation does not check that the giver holds the trade. When it does not, no arrangement of lists fits what is
  left (`TradeTables.OnlyFromHolder`); `PartitionStates.PartitionState.Allocate` says exactly when lists remain. The laws
  over whole runs speak of the ledger, which is right either way; that a partition keeps to it over a whole run is
  `PartitionStates.RunInPlace`, for runs without such an event.
* Compaction says it keeps the order of an account's list. Executions put the newest trade first; the rebuilt list has
  the oldest first, so one account's trades 3, 2, 1 become 2, 3 (`TradeTables.OrderTurned`). The order is kept exactly
  when what remains of the list was in table order (`TradeTables.OrderKeptExactly`).
* The stored average price is exact up to 10,000 shares and, for every larger total, not for every cost
  (`Rounding.RebuiltExactlyUpTo`).
* A message cut short of its owner is routed by bytes left over in the buffer: behind a full message, it goes where that
  one went (`Ingress.ShortBlockStrays`). The owner read is the same whatever else the buffer holds exactly when the
  message reaches that far (`Ingress.OwnerIsItsOwn`).
* Recovery from an image ahead of all that can be read numbers on from the image, with no record of the events between
  (`Recovering.ImageAhead`); what the outcome is in every case is `Recovering.CrashRecovery`.

## Model

| member | source | states |
|---|---|---|
| WalFormat.EncodedFields | src/wal/wal_format.hpp:77-97 | every field of an encoded record is read back from its bytes, each at its offset |
| WalFormat.ParsedIsEncoding | src/wal/segment_reader.cpp:117-144 | bytes with the right magic and a matching checksum are the encoding of the record they parse as |
| WalFormat.PadToBlock | src/wal/wal_format.hpp:171-177 | the first block boundary at or after an offset |
| WalFormat.FloorIsMultiple | src/wal/wal_format.hpp:171-181 | masking low bits is rounding down to a multiple of the block |
| SegmentReading.ScanAccepts | src/wal/segment_reader.cpp:73-164 | whatever the bytes, an accepted record is in bounds, of the segment's epoch, an exact encoding, with the expected LSN |
| SegmentReading.ReadAllSound | src/wal/segment_reader.cpp:73-169 | reading any bytes yields disjoint well-formed records, each with the LSN the previous one announces |
| SegmentReading.ArbitraryBytes | src/wal/segment_reader.cpp:73-169 | from any first LSN up, arbitrary bytes give consecutively numbered, checksummed, in-bounds records only |
| SegmentReading.SegmentOpens | src/wal/segment_reader.cpp:29-71 | a header the writer laid down opens with its epoch, first LSN and block, unless it begins past the LSN that is due |
| SegmentReading.SegmentFields | src/wal/wal_format.hpp:123-156 | every field of a segment header is at its offset, its checksum taken with that field zero |
| SegmentReading.SegmentReader.Open | src/wal/segment_reader.cpp:29-71 | every refusal and its reason; the state reading starts from |
| SegmentReading.SegmentReader.Next | src/wal/segment_reader.cpp:73-169 | the loop over padding returns what one scan from the offset gives, and moves the cursors as the format says |
| LogRoundTrip.ReadItems | src/wal/segment_reader.cpp:73-169 | reading over records and padding yields exactly the records, then whatever follows |
| LogRoundTrip.RoundTrip | src/wal/segment_reader.cpp:73-169 | appended records, in groups of any shape, are read back in order across all padding, ending clean at the writer's next offset |
| LogRoundTrip.TornLog | src/wal/segment_reader.cpp:130-134 | a log cut at any byte past the header yields exactly the records that wholly fit |
| LogRoundTrip.AnyTail | src/wal/segment_reader.cpp:73-169 | whatever bytes follow whole groups, every record of those groups is recovered, first and in order |
| LogRoundTrip.TornRecord | src/wal/segment_reader.cpp:130-134 | a record cut short is never accepted |
| LogRoundTrip.RecordJudged | src/wal/segment_reader.cpp:117-164 | a whole record of another epoch, or out of turn, ends the reading with that reason; any other is accepted |
| LogRoundTrip.DamageJudged | src/wal/segment_reader.cpp:136-144 | a record whose checksum does not match ends the reading with that reason |
| InflightGroups.InflightRing.Push | src/wal/group_commit.cpp:156-165 | a group goes behind the others in flight |
| InflightGroups.InflightRing.Pop | src/wal/group_commit.cpp:216-218 | the oldest group leaves, order kept |
| InflightGroups.InflightRing.Mark | src/wal/group_commit.cpp:190-202 | exactly the group a completion names is marked, with whether the write was whole |
| CommitLayout.SealedIsEncoding | src/wal/group_commit.cpp:86-109 | header, payload, padding and checksum laid down one after the other are the record's encoding |
| CommitLayout.Finish | src/wal/group_commit.cpp:138-141 | zero-padding a group to the block finishes it, within 64 KiB and on a boundary |
| CommitLayout.PlanOrder | src/wal/group_commit.cpp:143-149 | groups occupy disjoint consecutive ranges with increasing last LSNs |
| CommitInvariant.FlightBound | src/wal/group_commit.cpp:134-136 | at most eight groups are in flight, at most seven while one is filled, so the ring never refuses |
| CommitInvariant.FillKeeps | src/wal/group_commit.cpp:63-119 | filling the current buffer disturbs no group in flight |
| CommitInvariant.SubmitKeeps | src/wal/group_commit.cpp:143-181 | the submitted buffer is in flight, another is filled, and the range written follows the last one |
| CommitInvariant.MarkKeeps | src/wal/group_commit.cpp:190-202 | a completion settles exactly what the device owed about its group |
| CommitInvariant.PopKeeps | src/wal/group_commit.cpp:205-219 | the oldest group, completed in full, becomes durable and frees its buffer |
| CommitInvariant.PartialKeeps | src/wal/io_backend.hpp:38-60 | whatever an unfinished write leaves in its range disturbs no other group on the device |
| CommitInvariant.CompletionKeeps | src/wal/io_backend.hpp:44-60 | only a write of every byte counts, and then the group is on the device |
| CommitInvariant.TokensDistinct | src/wal/group_commit.cpp:145-147 | no two groups in flight share a token |
| CommitInvariant.PendingFew | src/wal/group_commit.cpp:184-188 | the device never owes more reports than there are groups in flight, so one collection takes all there are |
| CommitInvariant.DurableHeld | src/wal/group_commit.cpp:205-219 | the groups known durable are, whole, on the device |
| GroupCommitting.Device.Submit | src/wal/io_backend.hpp:62-67 | a request is taken whole or refused without effect |
| GroupCommitting.Device.Complete | src/wal/io_backend.hpp:44-60 | a result equal to the length means every byte was written |
| GroupCommitting.Device.Collect | src/wal/group_commit.cpp:184-188 | finished requests are reported each once, in any order; none is left back short of thirty-two |
| GroupCommitting.GroupCommit.Append | src/wal/group_commit.cpp:63-119 | a record goes whole after the last one of the group, or nothing changes; which error, and exactly when; the group is due one window after its first record |
| GroupCommitting.GroupCommit.Gather | src/wal/group_commit.cpp:86-118 | the record is in the buffer, and only the first record of a group sets the time it is due |
| GroupCommitting.DeadlineWraps | src/wal/group_commit.cpp:110-113 | the time a group is due is a 64-bit sum that wraps |
| GroupCommitting.GroupCommit.MaybeSubmit | src/wal/group_commit.cpp:121-182 | a group whose oldest record has waited out the window, or that is full, or forced, is padded and handed over at the writer's offset or refused by the device and kept; any other is left alone; after success none is late or full |
| GroupCommitting.GroupCommit.Deliver | src/wal/group_commit.cpp:187-203 | completions in any order settle their groups; one not written in full halts the log for good |
| GroupCommitting.GroupCommit.Advance | src/wal/group_commit.cpp:205-223 | durability advances over the oldest completed groups only, in order, and stops at one that failed |
| GroupCommitting.GroupCommit.Reap | src/wal/group_commit.cpp:184-223 | durability only grows, nothing pending moves, an error is answered exactly when halted; unless halted, the oldest group left in flight is one the device has not finished |
| GroupCommitting.FirstFree | src/wal/group_commit.cpp:168-174 | the first free buffer, or word that all eight are in flight |
| WriteAheadLog.Wal.Append | src/wal/wal.hpp:112-138 | the next LSN, or the same log as before: no outcome loses, repeats or renumbers a record; when each error is answered; a full log is reported only when the group had no room |
| WriteAheadLog.Wal.MaybeSubmit | src/wal/wal.hpp:140-152 | only a refusal by the device halts the log; after success no group is late or full, and one that is neither is left alone |
| WriteAheadLog.Wal.Reap | src/wal/wal.hpp:154-163 | durability grows, the log is untouched, an error halts for good; unless halted, nothing the device finished is left at the front |
| WriteAheadLog.Wal.ForceCommit | src/wal/wal.hpp:171-183 | success leaves nothing ungrouped |
| WriteAheadLog.DurableIsRead | src/wal/group_commit.cpp:205-219 | reading the device back yields every durable record, first and in order |
| WriteAheadLog.LoggedNumbered | src/wal/wal.hpp:112-121 | records are numbered 1, 2, 3, … in the order appended |
| WriteAheadLog.DurableRecovered | src/wal/wal.hpp:166-168 | at any moment the file opens and yields every record up to the durable LSN, which never passes the last |
| WriteAheadLog.CleanReadBack | src/wal/segment_reader.cpp:73-169 | with everything durable, reading back gives exactly what was appended and the writer's own offset |
| WriteAheadLog.DriveLog | src/wal/wal.hpp:112-183 | over any interleaving of log and device, durability only advances, records are only added, and what was durable is recovered |
| OutboxLayout.ChooseIsApart | src/core/outbox.cpp:23-44 | short of exactly full, the place chosen shares no byte with a pending payload |
| OutboxLayout.RoomIsEnough | src/core/outbox.cpp:57-66 | a free run of so many bytes admits any payloads that total no more, in any order |
| OutboxLayout.PlacedExactly | src/core/outbox.cpp:33-66 | a payload finds a place exactly when it is no longer than the free run |
| OutboxLayout.NeverAtBrim | src/core/outbox.cpp:23-44 | with buffer for one payload more than slots, exactly full is never reached |
| Outboxes.Outbox.Stage | src/core/outbox.cpp:18-55 | the output goes to the place chosen, or nothing changes; which error, and when |
| Outboxes.Outbox.FindPlace | src/core/outbox.cpp:33-47 | never split in two: after the last payload, or from byte 0, or no room |
| Outboxes.StagedSound | src/core/outbox.cpp:33-54 | staging leaves every pending payload readable as it was staged |
| Outboxes.OverwritesExactly | src/core/outbox.cpp:33-54 | for non-empty payloads, an accepted one goes over a pending one exactly when the runs meet |
| Outboxes.FullBufferLosesAPayload | src/core/outbox.cpp:39-47 | a reachable state in which the next accepted output destroys a pending payload |
| Outboxes.StageAll | src/core/outbox.cpp:57-66 | outputs within a reservation are all staged, and in a buffer of that size nothing pending is disturbed |
| Outboxes.StagedSafely | src/core/outbox.cpp:33-54 | with buffer for one payload more than slots, staging keeps every pending payload readable and the buffer that large |
| Outboxes.Release | src/core/outbox.cpp:68-80 | the oldest leave, and what is read out of the buffer is what was staged |
| Outboxes.Outbox.HasRoom | src/core/outbox.cpp:57-66 | slots and a free run for what was asked |
| Outboxes.Outbox.Ready | src/core/outbox.cpp:68-73 | the longest prefix no newer than durable; none once frozen |
| Outboxes.Outbox.Commit | src/core/outbox.cpp:75-80 | the oldest leave, the others stay where they are |
| Outboxes.Pump | src/core/outbox.cpp:18-80 | over any run, the k-th output released carries the bytes of the k-th staged |
| EventLog.OutputsPrefix | src/core/partition.hpp:86-108 | the first n events stage the first outputs; all later outputs bear later LSNs |
| EventLog.RunSnoc | src/core/partition.hpp:86-108 | one more event at the end of a run is one more application to its ledger |
| Updates.UpdateTells | src/core/apply.cpp:69-79 | an accepted execution, settlement or corporate action stages one update, of the position it concerns: its owner, its instrument, what is free and the average price after it; any other event stages none |
| Updates.UpdateReads | src/core/apply.cpp:73-78 | the 32 bytes of an update read back as owner, quantity free, average price and instrument, in that order |
| EventLog.OutputsAreTold | src/core/partition.hpp:86-108 | over a run, the outputs staged are one for every such event, in order, under its LSN, with bytes that tell the position the run is then at |
| Partitions.Partition.DrainOne | src/core/partition.hpp:70-110 | one frame is logged, then applied, then staged; one there is room for everywhere is taken, and one left in the ring, untouched, has a reason to wait |
| Partitions.Partition.Drain | src/core/partition.hpp:69-110 | frames are taken from the front, up to a batch, until the next has to wait or stops the partition |
| Partitions.Partition.Publish | src/core/partition.hpp:132-142 | exactly the durable prefix leaves; nothing after a fatal event |
| Partitions.Partition.Poll | src/core/partition.hpp:66-116 | durability and publication only advance; a frame there is room for is taken; unless the log halted no group is left late, full or finished; unless the partition stopped nothing durable is left unpublished; a stopped one changes nothing and publishes nothing |
| Partitions.PublishedSurvives | src/core/partition.hpp:66-142 | whenever the process stops, the device yields every durable event, whose replay stages all that was published, each output telling the position the replay is then at; and the bytes sent out are those staged |
| Partitions.PublishedFromDurable | src/core/outbox.cpp:68-73 | outputs published up to a durable LSN come from the events up to it |
| Partitions.StoppedStays | src/core/partition.hpp:120-130 | after a fatal event nothing is published or applied, ever |
| Partitions.Drive | src/core/partition.hpp:66-142 | over any interleaving of frames, turns and device: ledger is the replay of the log, every frame logged once or waiting, published only what is durable, sent only what was staged, and what was staged tells the positions of the replay |
| Rounding.Rounded | src/base/rounding.hpp:34-69 | every policy yields a value of its meaning: how far from exact, and on which side |
| Rounding.RoundedUnique | src/base/rounding.hpp:34-69 | that meaning admits no other value |
| Rounding.NoDrift | src/base/rounding.hpp:120-140 | after purchases totalling at most 10,000 shares the stored price is exact total cost over total quantity, rounded once |
| Rounding.RebuiltExactlyUpTo | src/base/rounding.hpp:105-118 | every cost is rebuilt exactly from the stored price iff the total is at most 10^12 raw units |
| Rounding.ScaledBound | src/base/rounding.hpp:147-177 | a scaled quantity loses less than one raw unit, and its whole part is whole shares |
| Rounding.ValueKept | src/base/rounding.hpp:179-186 | where scaling is exact, quantity times price moves by at most half the new quantity |
| Calendar.DateRecovered | src/base/ids.hpp:95-123 | every real date is recovered from its day index |
| Calendar.LaterDate | src/base/ids.hpp:95-108 | a later real date has a larger day index |
| Calendar.UnrealDatesDisorder | src/base/ids.hpp:95-108 | larger numbers that are no dates need not have larger indexes |
| Idempotency.TableSize | src/base/pair_index.hpp:21-33 | a table made for n elements has room for them below seven tenths |
| Ledgers.InternAccount | src/core/partition_state.cpp:72-85 | the owner's row, made empty behind the others when new; a known owner keeps its row and nothing changes; refused exactly when the table is full, even a known owner |
| Ledgers.InternInstrument | src/core/partition_state.cpp:87-104 | the instrument's row, made without a description when new; a known one keeps its row; refused exactly when the table is full |
| Ledgers.InternPosition | src/core/partition_state.cpp:106-120 | the row of owner and instrument, made empty when new; a known one keeps its row; refused exactly when the table is full |
| Ledgers.PushQueues | src/core/partition_state.cpp:223-236 | after any number of pushes the queue holds exactly the newest records, each at its ring slot, and counts those that came in and those that went |
| Applying.Compacted | src/core/partition_state.cpp:122-164 | dropping finished trades leaves every remaining one found by its number |
| Applying.ReindexedIndexes | src/core/partition_state.cpp:158-162 | the index filled again finds every row |
| Applying.Apply | src/core/apply.cpp:842-872 | rows and indexes stay in step through every event, which stages at most one update, none when fatal |
| PartitionStates.PartitionState.Apply | src/core/apply.cpp:842-872 | any event in place: state, status and updates are those of the specification; the lists stay lists exactly unless a trade was taken from one who did not hold it |
| PartitionStates.RunInPlace | src/core/apply.cpp:842-872 | a whole run in place is the run of the specification |
| PartitionStates.PartitionState.OpenDay | src/core/apply.cpp:132-219 | the day's rotation and compaction in place |
| PartitionStates.PartitionState.RotateRows | src/core/apply.cpp:151-200 | skipping idle rows changes nothing: every row ends rotated |
| PartitionStates.PartitionState.TurnSlots | src/core/apply.cpp:165-176 | each dated slot goes to its place in the new window or out of it |
| PartitionStates.PartitionState.Execute | src/core/apply.cpp:223-298 | an execution in place: checks in order, then buckets, money, trade, list |
| PartitionStates.PartitionState.Allocate | src/core/apply.cpp:302-400 | any allocation in place, whoever gives; the lists stay lists exactly unless the giver did not hold the trade |
| PartitionStates.PartitionState.Net | src/core/apply.cpp:408-449 | netting compares the clearing house's figure and advances the account's trades of the date |
| PartitionStates.PartitionState.SettleTrade | src/core/apply.cpp:453-564 | a settlement, failure or buy-in in place |
| PartitionStates.PartitionState.Act | src/core/apply.cpp:568-711 | a corporate action in place, its key taken after the first checks |
| PartitionStates.PartitionState.Pay | src/core/apply.cpp:718-770 | income in place, its figures checked against position and rate |
| PartitionStates.PartitionState.Describe | src/core/apply.cpp:774-793 | a closing price describes the instrument |
| PartitionStates.PartitionState.Reconcile | src/core/apply.cpp:800-816 | divergences are recorded and marked, the books untouched |
| PartitionStates.PartitionState.Anchors | src/core/partition_state.cpp:193-221 | the two anchors, recomputed over every row, as wrapping counters |
| PartitionStates.PartitionState.MarkEnd | src/core/apply.cpp:823-836 | anchors that do not match are corruption |
| TradeTables.PushLists | src/core/apply.cpp:280-294 | a new trade goes in front of its account's list; every list still visits exactly its trades, once |
| TradeTables.MoveLists | src/core/apply.cpp:389-392 | a trade taken from its holder's list and put in front of another keeps every list |
| TradeTables.OnlyFromHolder | src/core/apply.cpp:389-392 | put in front of a list while still in another, or in the same, no lists remain |
| TradeTables.WalkCounts | src/core/apply.cpp:433-443 | walking an account's list counts what a scan of the table would |
| TradeTables.TradeTable.Unlink | src/core/apply.cpp:83-98 | the row leaves the list, or nothing changes when it is not there |
| TradeTables.TradeTable.Move | src/core/apply.cpp:389-392 | lists remain lists exactly when the giver held the trade |
| TradeTables.TradeTable.NetAll | src/core/apply.cpp:431-443 | every allocated trade of account and date is advanced and counted, once |
| TradeTables.TradeTable.SettleAll | src/core/apply.cpp:551-560 | every covered trade is advanced where the graph has an edge |
| TradeTables.TradeTable.Compact | src/core/partition_state.cpp:122-164 | exactly the surviving trades, in table order; nothing touched when none is dropped; otherwise lists and index anew, a list in its old order exactly when what remains of it ascended |
| TradeTables.OrderKeptExactly | src/core/partition_state.cpp:151-157 | a rebuilt list is the old one without the dropped rows iff what remains of the old one was in table order |
| TradeTables.OrderTurned | src/core/partition_state.cpp:151-157 | three executions of one account, the first dropped: the list turns from 3, 2 to 2, 3 |
| TradeTables.TradeTable.Rebuild | src/core/partition_state.cpp:152-157 | every account's list visits exactly its rows, oldest first |
| TradeTables.TradeTable.Reindex | src/core/partition_state.cpp:158-162 | every trade number leads to its row |
| Footprints.Effect | src/core/apply.cpp:842-872 | the whole effect of any event on any owner's books: what the event says when it reaches them, nothing otherwise |
| LedgerLaws.ExecutedGuard | src/core/apply.cpp:223-266 | an execution that reached the books passed every check, in its owner's terms |
| LedgerLaws.AllocatedGuard | src/core/apply.cpp:302-372 | and an allocation |
| LedgerLaws.SettledGuard | src/core/apply.cpp:453-549 | and a settlement |
| LedgerLaws.ActionGuard | src/core/apply.cpp:568-690 | and a corporate action |
| DoubleEntry.StepFlow | src/core/ledger.hpp:61-75 | an accepted event moves custody, projection and money by its flow; any other event by nothing |
| DoubleEntry.BooksBalance | src/core/ledger.hpp:61-75 | over whole runs without corporate actions the totals are the sums of accepted flows, through every day, failed delivery and buy-in |
| DoubleEntry.RotationKeeps | src/core/apply.cpp:151-200 | opening a day moves what fell out of the window to overdue and loses nothing |
| BucketLaws.CorruptExactly | src/core/apply.cpp:28-55 | the check after a mutation fires iff the event corrupts, told from the buckets it meets, and exactly then a bucket ends below zero |
| BucketLaws.RunHealthyExactly | src/core/ledger.hpp:77-88 | over whole runs every bucket stays non-negative iff no event met corrupts; then corruption is only ever reported by an anchor |
| BucketLaws.SettlementExactly | src/core/apply.cpp:490-530 | a settlement that passes the checks keeps the buckets iff what it adds to leaves none negative |
| BucketLaws.SplitExactly | src/core/apply.cpp:622-653 | a split keeps the buckets iff the leftovers kept and cut off are not negative |
| BucketLaws.ActionExactly | src/core/apply.cpp:618-690 | a corporate action keeps the buckets iff its fractions do not take the leftovers below zero |
| BucketLaws.EnoughForSafety | src/core/apply.cpp:490-690 | no settlement of a quantity that is not negative, and no action on a position that is not short, corrupts |
| BucketLaws.NegativeSettlementCorrupts | src/core/apply.cpp:495-514 | from an empty ledger, a settlement of minus one raw unit passes the checks and ends in corruption |
| BucketLaws.ShortSplitCorrupts | src/core/apply.cpp:622-653 | from an empty ledger, a split of a short position ends in corruption |
| BucketLaws.ShortBonusCorrupts | src/core/apply.cpp:655-672 | from an empty ledger, a bonus on a short position ends in corruption |
| BucketLaws.CorruptShows | src/core/apply.cpp:28-55 | where the check fires, a bucket is negative |
| BucketLaws.SplitCreatesNothing | src/core/apply.cpp:622-653 | a split leaves at most the exact quantity, short of it by fewer than seven raw units, none when the divisor is one |
| Rejections.RefusedLeavesState | src/core/apply.cpp:8-14 | a refused event leaves every balance, trade, date and credited income as they were |
| Traces.RefusedLeavesNothing | src/core/apply.cpp:8-14 | a refused event leaves the ledger identical, rows and records included, iff it leaves none of the traces told from the ledger it meets |
| Rejections.RefusedActionKeepsKey | src/core/apply.cpp:588-616 | a refused action keeps its key unused iff it is not one of those refused after the first checks |
| Rejections.DeniedExactly | src/core/apply.cpp:655-689 | which those are, in figures the sender can compute |
| Rejections.CorrectionIsRefused | src/core/apply.cpp:588-616 | the corrected action is then refused as a duplicate |
| AppliedOnce.WindowKeptExactly | src/base/pair_index.hpp:116-132 | every stream that opens given days applies each action and income a window apart iff no day is two turns and yet less than the window past an earlier one |
| AppliedOnce.IncreasingNeverForgets | src/base/pair_index.hpp:124-132 | days of increasing index never forget too early |
| AppliedOnce.RealNeverForgets | src/base/pair_index.hpp:124-132 | nor do real dates in order |
| AppliedOnce.AppliedOncePerWindow | src/core/apply.cpp:612-616 | over whole runs on days that do not forget, accepted applications of one action or income to one owner are a window apart |
| AppliedOnce.FirstDay | src/core/apply.cpp:211-212 | the first day opened starts that memory |
| AppliedOnce.UnrealDatesForget | src/base/pair_index.hpp:124-132 | four numbers that are no dates make the set forget within five days |
| TradeHistory.TradesMoveAlong | src/core/trade_state.hpp:50-62 | every event keeps every trade, in its row, moved along at most one edge; its holder changes only as it is allocated |
| TradeHistory.DayDropsOnlyFinished | src/core/partition_state.cpp:122-164 | a day drops exactly the settled trades whose date left the window, the others staying whole and in order |
| TradeHistory.MissingEdges | src/core/trade_state.hpp:10-17 | no failed delivery settles directly, no trade is netted before its holder is fixed, closed is final |
| Figures.BooksTold | src/core/apply.cpp:842-872 | the books of any owner in any instrument after any event: each figure told from the event and the books before, by date and by what rounding means; what they were when it did not reach them |
| Figures.FeesAddUp | src/core/apply.cpp:108-115 | fees add up, in whatever pieces they are listed |
| Prices.PriceMovesOnly | src/core/apply.cpp:493-496 | a price moves when a purchase is delivered in full, or by a corporate action; by nothing else |
| Prices.DeliveryAverages | src/core/apply.cpp:117-125 | a purchase delivered enters the average of all that is in custody, what is reserved for pending sales included, rounded once to cost and once to price |
| Prices.SplitKeepsValue | src/core/apply.cpp:622-653 | a split moves the price against the quantity, rounded once; where the quantity scales exactly, what the position is worth moves by at most half the new quantity; every bucket is scaled and cut as told |
| Prices.RunDoesNotDrift | src/base/rounding.hpp:120-140 | over any run with sales pending and none settled, the price after purchases of at most 10,000 shares is their exact cost over their exact quantity, rounded once |
| Blotter.TicketsTold | src/core/trade_state.hpp:50-62 | after an accepted event, what is known of any trade: a new one as its execution gives it, one the event concerns moved along the edge it stands for, any other as before |
| Answers.Answered | src/core/apply.cpp:223-836 | any event is answered with the first reason there is to refuse it, told from what its owner sees; with none it is accepted, unless it leaves a bucket below zero |
| Answers.StopsExactly | src/core/apply.hpp:70-73 | two answers stop a partition and no others: corruption, and a table with no room |
| Notes.RecordsTold | src/core/partition_state.cpp:223-236 | the exceptions any event records, with their figures, and when the mark of divergence is set |
| Notes.DaysTold | src/core/apply.cpp:207-209 | a day that opens brings its window and the day before it; no other event moves a date |
| Notes.PaperTold | src/core/apply.cpp:774-793 | a closing price describes its instrument in full; no other event changes what is known of any |
| Anchors.OwnAnchorsHold | src/core/apply.cpp:823-836 | the anchors of a ledger are accepted by it |
| Anchors.PositionNoticed | src/core/partition_state.cpp:193-208 | with any one figure of any one position changed they are corruption, exactly unless both are zero, which stands for none |
| Anchors.AccountNoticed | src/core/partition_state.cpp:210-221 | and with any one sum of any one account changed |
| OpenAddressing.NotThere | src/base/dense_index.hpp:77-85 | a hole on the path, or a whole turn, means the key is absent |
| OpenAddressing.PutKeeps | src/base/dense_index.hpp:50-75 | a key put in the first hole of its path is found, and so is every other |
| OpenAddressing.DenseIndex.Find | src/base/dense_index.hpp:77-85 | finds what the map holds, for every hash |
| OpenAddressing.DenseIndex.InsertOrGet | src/base/dense_index.hpp:50-75 | inserts the new, returns the known, refuses from seven tenths up |
| OpenAddressing.DenseIndex.Clear | src/base/dense_index.hpp:104-110 | the empty map |
| OpenAddressing.InsertDistinct | src/base/dense_index.hpp:31-48 | a table made for n takes any n distinct keys |
| OpenAddressing.PairIndex.Insert | src/base/pair_index.hpp:47-71 | exact set insertion, telling present from full |
| OpenAddressing.PairIndex.Contains | src/base/pair_index.hpp:73-81 | membership, wrap-around included |
| OpenAddressing.TwoGenSet.Insert | src/base/pair_index.hpp:116-122 | refused when either generation has the key, written to the current one otherwise |
| OpenAddressing.TwoGenSet.MaybeRotate | src/base/pair_index.hpp:124-132 | the older generation is emptied and written from then on, once the window has passed |
| StateImages.KeysBack | src/core/state_image.cpp:211-230 | recorded keys reinserted in any order give both generations back |
| StateImages.IndexesBack | src/core/partition_state.cpp:166-184 | scanning the rows gives the very indexes left out of the image |
| StateImages.LoadBack | src/core/state_image.cpp:167-249 | loading the columns of a state gives that state, links, keys and indexes included |
| StateImages.LoadedSums | src/core/state_image.cpp:241-248 | no image is accepted whose sums are not those it announces |
| ImageBytes.SaveSections | src/core/state_image.cpp:148-165 | every section is in place, aligned, none over another |
| ImageBytes.SectionsBack | src/core/state_image.cpp:193-209 | every section of a saved image is read back |
| ImageBytes.SectionsChecked | src/core/state_image.cpp:193-209 | whatever the bytes, an accepted section has the length and checksum announced |
| ImageFiles.SaveImage | src/core/state_image.cpp:109-165 | the file is header and sections, each where the header says with its checksum, or nothing for want of room |
| ImageFiles.RowsBack | src/core/state_image.cpp:148-165 | rows of numbers of any widths are read back from their bytes |
| ImageFiles.HeaderReads | src/core/state_image.cpp:167-174 | counters, capacities, anchors and references are read back from the header, whose checksum matches with its own field zero |
| ImageFiles.FileBack | src/core/state_image.cpp:167-249 | loading a saved file is loading the image that was saved, refusals included |
| ImageFiles.FileLoadsBack | src/core/state_image.cpp:109-249 | saved and loaded, byte for byte and whatever follows the file, a state comes back whole |
| ImageFormat.HeaderInBytes | src/core/state_image.hpp:78-109 | every field of the header of a saved file is at its offset: days, counters, idempotency sets, anchors, capacities, checksum |
| ImageFormat.SectionPlaced | src/core/state_image.hpp:61-68 | every section begins where the header says, as wide and as long as it announces, with that checksum |
| ImageFormat.StateInBytes | src/core/state_image.hpp:42-76 | every position, account, instrument, trade, exception and key of the state saved is in the section and at the place the format gives it, in the bytes the format gives it |
| Recovering.SnapshotLoads | src/wal/recovery.cpp:88-97 | the file of an image after any events loads as the ledger after them |
| Recovering.SnapshotEquivalence | src/wal/recovery.cpp:112-167 | image file after k events, loaded and replayed over the log, equals applying every event directly |
| Recovering.CrashRecovery | src/wal/recovery.cpp:60-167 | after a crash at any moment, from an image after any k events: those and every newer one read back; the log read back when the image was durable, the image alone when it is ahead; what was published is among the outputs of the durable events |
| Recovering.ImageAhead | src/wal/recovery.cpp:148-176 | an image ahead of all that is read: nothing is applied, and the writer goes on from the image |
| Recovering.StartsFromNewest | src/wal/recovery.cpp:66-97 | recovery starts from the newest image that loads, and from nothing only when none does |
| Recovering.ResumesPastAll | src/wal/recovery.cpp:112-176 | whatever the bytes, the next LSN is past the image and past every record read, and one past one of them |
| Recovering.FatalIsNamed | src/wal/recovery.cpp:152-159 | a fatal event is the last record read and the one reported; only then is anything readable left unread |
| Recovering.WriterGoesOn | src/wal/recovery.cpp:169-176 | after a log that is wholly durable, recovery hands on what its writer had: the next LSN and the offset; every record past the image is counted once |
| Recovering.CountedApart | src/wal/recovery.cpp:161-165 | what is counted as applied answered Ok, what is counted as rejected did not |
| Recovering.Recover | src/wal/recovery.cpp:59-180 | the first image that loads, then the log after it until the reader stops or an event is fatal: ledger, status, counts, last LSN, stop reason, fatal LSN and where a writer resumes |
| Recovering.ReplayLog | src/wal/recovery.cpp:134-171 | the loop over the reader replays exactly the entries past the image, counts them, and leaves the cursors after the last one read |
| Independence.PartitionsDoNotMatter | src/ingress/partitioner.hpp:21-31 | every owner's books in its partition are those of a single ledger fed the whole stream, and the sums agree |
| Independence.ChecksumsAgree | src/app/simulador_main.cpp:208-226 | from empty ledgers the anchors summed over the partitions are those of one |
| Independence.OwnerStep | src/core/apply.cpp:842-872 | one event on two ledgers that share an owner leaves them sharing it |
| Independence.OthersStay | src/core/apply.cpp:842-872 | an owner's event passes every other owner by |
| OwnerSteps.ExecutionReaches | src/core/apply.cpp:223-266 | an execution takes effect exactly when what its owner sees allows it |
| OwnerSteps.SettlementReaches | src/core/apply.cpp:453-549 | and a settlement |
| OwnerSteps.ActionReaches | src/core/apply.cpp:568-616 | and a corporate action, whose key is taken exactly when new and well formed |
| OwnerSteps.DividendReaches | src/core/apply.cpp:718-762 | and income |
| OwnerViews.PositionsAfter | src/core/partition_state.cpp:106-120 | which positions exist after an event |
| SpscRings.SpscRing.ClaimSlot | src/base/spsc_ring.hpp:37-44 | a slot exactly when one is free, whatever the stale copy says |
| SpscRings.SpscRing.WriteSlot | src/base/spsc_ring.hpp:35-44 | writing touches no unread slot |
| SpscRings.SpscRing.ReadSlot | src/base/spsc_ring.hpp:54-61 | what is read is what was published, whatever the producer does meanwhile |
| SpscRings.SpscRing.PopSlot | src/base/spsc_ring.hpp:63-65 | the item read counts as consumed, in order |
| SpscRings.Interleave | src/base/spsc_ring.hpp:37-72 | over every interleaving, what was read is a prefix of what was published, never further behind than the ring is long |
| Ingress.TakenIsPrefix | src/ingress/ingress_pipeline.cpp:34-75 | messages taken off a stream are the first messages of that stream |
| Ingress.IngressPipeline.BroadcastAll | src/ingress/ingress_pipeline.cpp:99-122 | to every partition or to none |
| Ingress.IngressPipeline.RouteAndDispatch | src/ingress/ingress_pipeline.cpp:88-177 | every message, long enough or not, goes where the byte at the owner's place leads, to all, or nowhere when stalled |
| Ingress.FullGoesRight | src/ingress/ingress_pipeline.cpp:124-177 | a full block goes to exactly its receivers |
| EventBlocks.EventGoesTo | schema/events.xml:91-178 | with the six routed messages laid out field by field, an event's message reaches a partition exactly when the event's own document leads there, the receiver's for an allocation; the other four reach every one |
| EventBlocks.InboxIsShare | src/ingress/partitioner.hpp:21-31 | what an inbox receives of the messages of a stream of events is exactly the events its partition is to get, in order |
| Ingress.IngressPipeline.Feed | src/ingress/ingress_pipeline.cpp:22-78 | bytes in pieces of any size: boxes, buffer and status are those of the specification of the parser; back-pressure keeps the message; bad framing never comes from a well-framed stream |
| Ingress.IngressPipeline.Finish | src/ingress/ingress_pipeline.cpp:80-86 | bytes left over are a message cut short |
| Ingress.ExactlyOnce | src/ingress/ingress_pipeline.cpp:22-177 | over any fragmentation, drains and retries each inbox gets exactly its messages of a prefix, in order; the whole stream once all is in and nothing stalls |
| Ingress.OwnerIsItsOwn | src/ingress/ingress_pipeline.cpp:124-152 | the owner read is the same for every buffer that holds the message in front iff the message reaches that far |
| Ingress.ShortBlockStrays | src/ingress/ingress_pipeline.cpp:124-152 | fed to a new pipeline behind a full message, a block without its owner goes to whichever box that message went to |

## Left out

- Resuming a writer on a torn segment, logs of several segments, and the choice of block size and epoch: one new segment from LSN 1 per log.
- Kernel calls, file listing, mapping and opening, the snapshot file itself, sockets, metrics, command line, benchmarks and the simulator.
- CRC-32C as a particular function and `mix64`: each is a parameter.
- The generated payload codecs: decoding is a parameter; the six routed messages are laid out field by field in `EventBlocks`, the four that go to every partition are not.
- What an image that is refused leaves in the state, an arena too small for the capacities an image announces, and numbers in an image that are no trade state or error code (read as the first of their kind).
- Wrap-around of LSNs, offsets and the ring's 64-bit cursors at 2^64, and of 32-bit byte counts in an outbox of more than 2 GiB: stated preconditions or unbounded counters.
- Aborts on 64-bit overflow of a bucket: quantities and money are unbounded integers.
- Memory order: ring steps are atomic, as acquire and release justify.
- Waiting for durability with a deadline, and shutting buffers down.
- Partitions.Partition.Poll: applies the specification of the ledger to a value; that the in-place class refines it is `PartitionStates.PartitionState.Apply`.
- PartitionStates.PartitionState.Apply: rows are sequences of records, not one array per field; the arrays per field appear in `StateImages`, and hash tables in `OpenAddressing` only.
- Partial allocations, which the source refuses, and the identity per settlement date between pending buckets and trades.
- Outboxes.FullBufferLosesAPayload: one reachable state stands for the failing family; `Outboxes.OverwritesExactly` gives the family.
- Recovering.Recover: an image that loads is taken to have rows and indexes in step, as every saved one has; one that matches its checksums and does not is not part of this model.
- Recovering.CrashRecovery: one image file; the choice among several is `Recovering.Recover`.
