# A verified model of the distributed collection

One logical vector collection is served over several shards, and the claim is
that its answers are the ones a single index would give, tie order included.
This project models the code that claim rests on and proves it. There are four
state machines and the row-moving path between them.

**Live-floor search** (`Float32`, `TopK`, `Ranking`, `Collector`,
`ScanProtocol`, `ScanSafety`, `ScanRuns`, `ScanTheorems`, `ScanProgress`,
`ScanFloors`, `ScanAdmission`, `ScanFleet`, `ScanFleetLimits`, `QueryOutcome`,
`FloorCell`). Shards scan in chunks and drop rows below a floor that may be
stale; the coordinator keeps one bounded heap and raises the floor through a
one-cell channel that overwrites. The machine has a step for each thing a node
or the coordinator does, in any interleaving, with any chunking and any delay or
loss of intermediate floors, under each node's scan slots and a bounded queue
per shard. Several queries at once share the slots. `Collector.StreamQuery` is
the loop itself, proved against the function the machine steps with. Scores are
float bit patterns, so both orders the code mixes exist and -0.0 and +0.0 are
not confused away: totalOrder (section 5.10 of IEEE 754-2008) ranks, the
comparison predicates (section 5.11) suppress and prune.

**Answers as functions of rows** (`AnswerOrder`, `GlobalOrder`, `LabelOrder`,
`Flatten`, `SplitRanking`). Two collections whose eligible rows can be renamed
to one set without disturbing the order answer alike. From this come the
single-index reading, independence of shard boundaries, the label-order promise
and the main result about reshaping: a split spliced in place, or a join,
changes no answer.

**Candidate stream** (`Wire`, `CandidateStream`, `CandidateLoop`,
`CandidateOutcome`, `CandidateScan`, `CandidateProgress`). The same shard side
with the caller driving the floor and packed output. A positive completion is
proved to mean what it certifies and, without a failure, to be within reach.

**Moving encoded rows** (`Rows`, `Transfer`, `Import`, `Reshape`,
`LabelBitmaps`). Export ranges and frames, the import builder, plans with u64
wrap-around, staged splits, joins; and the label filter's bitmap form.

**Topology and growth** (`Topology`, `TopologyRuns`, `Staging`, `Growth`,
`Autoscale`). Publications, registrations, bindings, an autoscaler tick,
persist failures on either side of the rename, and crashes, all interleaved.
The class `Coordinator` carries out the operations; the runs are about the
functions its methods are proved against. `Growth` follows repeated ticks to
their end.

**Durable shards and retry-safe ingest** (`Store`, `StoreFiles`, `Registry`,
`StoreRuns`, `StoreContents`, `StoreTheorems`, `IngestOnce`, `StoreLimits`,
`PersistOverlap`). Every file step of a persist with a failure or crash after
each, deletes, clean-up cut short, restarts, adds interleaved with flushes, and
requests dropped while their rows or their persist are still under way. The
class `IndexStore` is the registry with its four maps and the data root.

## How to read it

A method is proved against a function (`StreamQuery` against `Collector.Run`,
`RunCandidateStream` against `CandidateStream.Drive`, `RebindInner` against
`Topology.Rebind`, `Persist` against `Store.After`), and what the source
promises is proved about that function over all runs. Runs are sequences of
states from an initial one, each next state reached by an enabled step, so a
lemma about runs quantifies over every schedule.

Fields such as `seen`, `history`, `order`, `emitted`, `published`, `answered`
and `origin` record what has happened; no step reads them.

## Where the code and its descriptions differ

- `plan_counts` says counts that do not add up are refused. The sum is taken
  modulo 2^64, so some are not (`Reshape.WrappedPlanPasses`). No split that
  succeeds is affected (`Reshape.PlanDecides`, `Reshape.StageSplit`).
- `collection` says two concurrent bindings agree. A bind that races a
  publication can store the older one (`TopologyRuns.SomeBindingIsStale`). The
  cached binding is the current table exactly when its generation is
  (`TopologyRuns.CacheIsCurrentIff`), and a bind stores the current table exactly
  when nothing was published since it began (`TopologyRuns.BindIsCurrentIff`).
- A search in which nothing fails can still block until its deadline
  (`ScanAdmission.SomeRunBlocks`): streams are opened one by one, each waits for
  a scan slot, and no event is taken before the last one opens, while a scan with
  more to send than fits on the way keeps its slot. A search alone always
  finishes if and only if no stream can find the slots of its node held by
  earlier shards that can block (`ScanAdmission.FinishesIffAdmissible`). For `m`
  queries under way on one table, whatever they are: if and only if every node
  has more than `m * (shards it serves - 1)` slots
  (`ScanFleetLimits.NeverBlocksIffRoomy`).
- The architecture notes say a retried operation never adds its rows again. A
  request that is dropped frees the mutation lock while its append is still
  queued; a retry is then admitted and both append
  (`StoreLimits.RetryDoublesRows`). `IngestOnce.RowsLandWhereDeclaredIff` and
  `IngestOnce.RowsDoubleIff` say exactly when; a request dropped between its
  append and its record leaves rows whose retry is declined
  (`IngestOnce.RetryAfterDrop`).
- `delete` says a restart cannot resurrect the shard. If it fails after its
  rename the shard stays in memory and a later flush writes it again
  (`StoreLimits.SomeTombstoneReturns`). `StoreTheorems.TombstoneReturnsIff` says
  exactly when that can happen; once memory has let go it never returns
  (`StoreTheorems.GoneStaysGone`).
- A replayed add is answered from its recorded generation. A flush that overlaps
  the add, or the persist of a dropped request, can bring that generation about
  without the rows (`StoreLimits.OverlapLosesAnAnswer`,
  `StoreLimits.DropLosesAnAnswer`). Answers given after their own persist are
  always durable, and a replayed one is exactly when the directory CURRENT names
  holds as many rows as the record says (`StoreTheorems.AnswerIsDurableIff`,
  `StoreTheorems.ShortcutIsDurableIff`).
- A persist stopped between activating its directory and moving CURRENT
  (`StoreTheorems.StoppedPersistBars`, `StoreLimits.SomeShardIsBarred`) bars the
  shard: every later persist is refused, restarts included, until a delete
  renames the directory away
  (`StoreTheorems.BarredStaysBarred`).
- A node is said to start from what CURRENT names. Nothing makes persists of one
  shard wait for each other, and one that hangs through two later ones can move
  CURRENT back to a directory that clean-up has removed
  (`PersistOverlap.LatePersistStrands`). Short of that, overlaps are harmless
  (`PersistOverlap.OverlapIsHarmless`).

## Model

| member | source | states |
|---|---|---|
| Float32.OrdersDisagreeOnlyOnZeros | src/coordinator/mod.rs:236-245 | the heap order on scores (totalOrder) is injective, refines the order that suppression and pruning use, and differs from it on exactly the pair -0.0, +0.0 |
| Float32.NegInfinityIsLeast | src/coordinator/mod.rs:1093-1093 | the default floor suppresses nothing |
| Float32.ComparesValues | src/service.rs:664-681 | the numeric order on bit patterns is the order of the numbers they denote, both zeros being 0 |
| Ranking.BeforeIsStrictOrder | src/coordinator/mod.rs:236-245 | the candidate order is a strict order; two candidates tie only when score bits, label key, shard rank and slot all agree |
| Ranking.BeforeIs | src/coordinator/mod.rs:236-245 | the higher score comes first; between equal scores the smaller label, then the lower shard, then the lower slot |
| TopK.OfferKeepsTopK | src/coordinator/mod.rs:1147-1156 | one turn of the bounded heap keeps it the first k of everything offered, whatever the order of arrival |
| TopK.TopKUnique | src/coordinator/mod.rs:1090-1093 | the first min(k, n) of a set is one list, of length min(k, n) |
| TopK.SortRanks | src/coordinator/mod.rs:1237-1237 | sorting distinct candidates gives each once, best first |
| Collector.OfferBatch | src/coordinator/mod.rs:1129-1157 | the per-candidate loop refuses a batch exactly when some score is NaN and otherwise offers every entry, keeping tie candidates when asked |
| Collector.AcceptBatch | src/coordinator/mod.rs:1107-1182 | the checks on a batch in order, the heap and tie list after it, and the floor broadcast to uncertified shards exactly when the root of a full heap rose |
| Collector.StreamQuery | src/coordinator/mod.rs:1090-1237 | the whole loop, as the function of its events that the protocol results are about: its result and what every control cell is left holding, starting from the floor the caller gave |
| Collector.RunFollowsReaches | src/coordinator/mod.rs:1096-1237 | events that certify every shard lead the loop to the answer of the state they lead to |
| Collector.ClosingsChangeNothing | src/coordinator/mod.rs:1214-1224 | a certified shard's stream may close at any moment: with any such closings among its events the loop gives the same result and leaves the same cells |
| Collector.FailureStopsShards | src/coordinator/mod.rs:274-284 | a query that fails leaves Stop in the cell of every shard not certified by then |
| QueryOutcome.QuerySucceedsIff | src/coordinator/mod.rs:1096-1237 | the loop succeeds if and only if some prefix of its events is well-formed throughout and certifies every shard; it reports closed streams exactly when all events are well-formed and some shard is not certified |
| QueryOutcome.FailureNamesEvent | src/coordinator/mod.rs:1100-1227 | a failure names what was wrong with the event that caused it, in the order of the checks |
| QueryOutcome.RaisePrunesTies | src/coordinator/mod.rs:1158-1170 | the floor is raised exactly to the root of a full heap, each raise throws out the tie candidates that fell behind it, and only a tie-complete query keeps any |
| ScanProtocol.PublishIsBroadcast | src/coordinator/mod.rs:1165-1180 | the state machine publishes a floor exactly as the loop broadcasts it |
| ScanRuns.SendKeepsNode | src/coordinator/mod.rs:1032-1050 | moving the latest value of the cell onto the request stream keeps every floor in flight at or below the published one |
| ScanSafety.OfferAllKeepsTopK | src/coordinator/mod.rs:1129-1157 | a whole batch keeps the heap the top k of what was seen and lets no root fall below the published floor |
| ScanSafety.PublishKeepsHeapInv | src/coordinator/mod.rs:1158-1164 | publishing the root keeps every later suppression and every prune of the tie list safe |
| ScanRuns.PumpKeepsNode | src/service.rs:1101-1122 | a floor read off the request stream, late and after newer ones were published or overwritten, never lifts a node above the published floor |
| ScanRuns.ScanKeepsNode | src/service.rs:1194-1250 | a chunk scanned at a stale floor loses only rows strictly below the published floor and sends nothing twice |
| ScanRuns.StepKeepsInv | src/coordinator/mod.rs:1032-1227 | every step of every shard and of the coordinator, in any interleaving, keeps the whole invariant |
| ScanTheorems.SearchIsExact | src/coordinator/mod.rs:1090-1262 | every run that returns gives exactly the first min(k, n) of the n owed rows, in heap order: each row returned is admitted and at or above the floor the caller gave, if any, and each such row is in the answer or behind k rows of it |
| ScanTheorems.TieCompleteSearchIsExact | src/coordinator/mod.rs:1147-1164 | a tie-complete run returns exactly the admitted rows numerically at or above the k-th best score, all of them if there are at most k |
| ScanTheorems.SuppressedIsWorse | src/service.rs:1237-1249 | a scanned row that was neither delivered nor queued ranks strictly behind k rows already held |
| ScanTheorems.LoopReturnsTheAnswer | src/coordinator/mod.rs:1096-1262 | the loop itself, fed the events of such a run with the closings of certified streams anywhere among them, returns that answer |
| ScanProgress.FloorsStaySafe | src/coordinator/mod.rs:1158-1182 | each floor a node holds or can read is at most the published one, which a full heap's root has reached; an unstarted node reads Start first |
| ScanProgress.FloorsNeverFall | src/service.rs:664-681 | no step lowers a published or held floor |
| ScanFloors.FloorsTakeEffect | src/coordinator/mod.rs:1158-1182 | floors do what they are for: the published one has reached the root of a full heap, every uncertified shard can read it, and a shard that has read what was sent to it scans its next chunk at that floor or a higher one |
| ScanProgress.StepUsesUp | src/coordinator/mod.rs:1096-1227 | a measure over unsent and unread floors, undelivered messages and unscanned rows falls at every step |
| ScanProgress.RunsAreFinite | src/coordinator/mod.rs:1096-1227 | every run is no longer than a bound fixed by the shard sizes |
| ScanAdmission.NeverStuck | src/service.rs:1137-1290 | on an admissible deployment, scan slots and bounded queues included, a running search always has a step that is not a failure |
| ScanAdmission.FailureFreeRunsReturn | src/coordinator/mod.rs:1054-1262 | and a failure-free run that cannot go on has returned the reference answer, tie-complete or not, with every shard certified |
| ScanAdmission.EnoughSlotsAdmit | src/service.rs:1139-1142 | a slot for every shard of the query that a node holds is always enough, whatever the rows and the capacity |
| ScanAdmission.OneSlotForTwo | src/service.rs:1139-1142 | one slot for two shards is not admissible once the first has more to send than fits on the way |
| ScanAdmission.SomeRunBlocks | src/service.rs:1137-1223 | on any other deployment some failure-free run blocks: a scan waiting to send keeps the slot the next stream waits for, and nothing is drained until that stream opens |
| ScanAdmission.FinishesIffAdmissible | src/coordinator/mod.rs:1054-1096 | so for one query alone every failure-free run ends with the reference answer if and only if the deployment is admissible for it |
| ScanFleet.SharedAnswersAreExact | src/coordinator/mod.rs:2047-2080 | queries that share slots, begin whenever there is room and may fail one by one do not disturb each other: each one that returns has the reference answer |
| ScanFleet.FleetRunsAreFinite | src/coordinator/mod.rs:2047-2080 | every run of such queries, failures included, is no longer than a bound fixed by their sizes |
| ScanFleet.RoomyNeverBlocks | src/service.rs:1137-1142 | with more slots on every node than queries under way times its shards less one, a failure-free run of any queries that cannot go on has answered all of them, whatever fits on the way |
| ScanFleetLimits.SomeRequestBlocks | src/service.rs:1137-1223 | with fewer, some request of at most that many queries blocks: nothing fails, all its queries still run and none can go on |
| ScanFleetLimits.NeverBlocksIffRoomy | src/coordinator/mod.rs:2047-2080 | so a deployment answers every failure-free request, whatever its queries, if and only if it has that many slots |
| FloorCell.Cell.Raise | src/service.rs:664-681 | the compare-and-swap loop, under concurrent raises and spurious failures, leaves the maximum: no raise lost, no fall |
| FloorCell.RaisedAllIsMax | src/service.rs:664-681 | any order of raises ends at the numeric maximum of all of them |
| AnswerOrder.AnswersCorrespond | src/coordinator/mod.rs:1090-1262 | collections whose eligible rows rename to one set without disturbing the order give corresponding answers, tie-complete or not |
| GlobalOrder.ReferenceIsGlobal | src/coordinator/mod.rs:200-215 | over shards the answer is the top k of one index that holds the rows in table order |
| GlobalOrder.AnswerIgnoresBoundaries | src/coordinator/mod.rs:236-245 | two tables with the same rows in the same order give the same answer, position by position, wherever the shard boundaries fall |
| LabelOrder.PlacementDoesNotMatter | proto/turbovec/v1/coordinator.proto:212-216 | with stable label order and no label twice among the eligible rows, collections with the same scored labels give the same sequence of scores and labels, however the rows are spread |
| SplitRanking.SpliceKeepsRows | src/coordinator/autoscale.rs:184-192 | a table with one shard replaced in place by its pieces holds the same rows in the same order |
| SplitRanking.JoinKeepsRows | src/coordinator/mod.rs:2212-2236 | a join holds its sources' rows in table order |
| SplitRanking.ViewIs | src/service.rs:1160-1190 | a query sees each row by its own codes, scale and label, and its filter admits it by the mask the node builds |
| SplitRanking.SearchableIsAccepted | src/service.rs:1082-1086 | a search the nodes take is one the coordinator runs |
| SplitRanking.SplitChangesNoAnswer | src/coordinator/autoscale.rs:161-192 | any run on the old table and any on the split one that return give the same scores for the same rows in the same order, ties included |
| SplitRanking.JoinChangesNoAnswer | src/coordinator/mod.rs:2193-2245 | nor does joining every shard into one change an answer |
| SplitRanking.SplitStaysSearchable | src/service.rs:1082-1086 | a search accepted before a split is accepted after it |
| Wire.DecodeEncode | proto/turbovec/v1/coordinator.proto:321-328 | packed 12-byte little-endian records decode to what was packed |
| Wire.PackLayout | proto/turbovec/v1/coordinator.proto:321-328 | a record is its label in 8 bytes, then its score bits in 4, lowest byte first |
| CandidateStream.CompletionCertifies | src/coordinator/mod.rs:802-1016 | a positive completion: the bytes sent decode to every record accepted, once and in order; emitted is their number (at most 2^64 - 1) and both shard counts are the number of shards |
| CandidateStream.CertificateIsLast | src/coordinator/mod.rs:1769-1816 | any completion is the last message and the only one; every batch is non-empty and made of whole records |
| CandidateOutcome.StreamCertifiesIff | src/coordinator/mod.rs:842-1016 | a stream ends with a positive completion if and only if some prefix of its inputs is well-formed throughout and certifies every shard |
| CandidateOutcome.CompletionCounts | src/coordinator/mod.rs:802-1016 | in any completion, positive or not, emitted is the number of records sent, the total is the number of shards and shards_completed the number certified by then |
| CandidateOutcome.PendingStaysSmall | src/coordinator/mod.rs:926-950 | fewer than 65536 bytes are ever held back, and none after a tick |
| CandidateOutcome.RowsGoOutTogether | src/coordinator/mod.rs:926-945 | a shard's rows wait until 64 KiB of them do, and then go out as one message |
| CandidateOutcome.ProblemNamesInput | src/coordinator/mod.rs:842-1000 | an early end names the input that caused it, and a caller who is gone is sent nothing more |
| CandidateStream.LastFloorIsHighest | src/coordinator/mod.rs:853-868 | the floor in force is the highest of the initial one and every floor the caller sent |
| CandidateStream.CellsCarryTheFloor | src/coordinator/mod.rs:824-883 | each uncertified shard's cell carries the floor in force, or Stop after a cancel or a deadline |
| CandidateLoop.PackBatch | src/coordinator/mod.rs:926-939 | the packing loop refuses a batch exactly when a score is NaN and otherwise appends its records |
| CandidateLoop.CheckEvent | src/coordinator/mod.rs:902-1000 | the checks a shard event must pass, in the order of the code |
| CandidateLoop.RunCandidateStream | src/coordinator/mod.rs:802-1016 | the select loop sends exactly the messages, and leaves exactly the control cells, that the certified results are about |
| CandidateScan.CertifiedStreamIsComplete | src/coordinator/mod.rs:802-1016 | over live shards, completed=true means the bytes decode to every row the shards produced, each once, including every admitted row at or above the last floor and none below the initial one, and the counts are those of these rows and of the shards |
| CandidateScan.RunKeepsInv | src/coordinator/mod.rs:802-1016 | the invariant behind it holds in every reachable state |
| CandidateProgress.FloorsTakeEffect | src/coordinator/mod.rs:853-868 | the caller's floors reach the shards: the cell of every uncertified shard holds the one in force, and a shard that has read what was sent to it scans its next chunk at that floor or a higher one |
| CandidateProgress.NeverStuck | src/service.rs:1137-1290 | on an admissible deployment a running stream always has a step that is no failure, with the caller silent |
| CandidateProgress.UndisturbedStreamsCertify | src/coordinator/mod.rs:802-1016 | so from any state in which no shard has stopped early the stream can be brought to its positive completion |
| CandidateProgress.SomeRunCertifies | src/coordinator/mod.rs:802-1016 | in particular from its beginning: the certificate is reachable over any rows |
| CandidateProgress.AnyoneIsHeard | src/coordinator/mod.rs:842-883 | and at any moment once the streams are open the loop takes a floor, a cancel, a deadline or whatever else the caller or the clock has to say |
| LabelBitmaps.ValidateLabelBitmaps | src/service.rs:476-525 | validation accepts exactly the ordered, disjoint, in-range segments whose last byte has no bit past its count |
| LabelBitmaps.MaskSeesUnusedBits | src/service.rs:508-520 | the shift-and-mask test sees exactly the bits past the last label |
| LabelBitmaps.PartitionSplits | src/service.rs:527-531 | the bisection finds the boundary between segments that start at or before a label and those after it |
| LabelBitmaps.LookupIsCoverage | src/service.rs:527-540 | on a list validation accepts, the lookup stays in range and admits a label exactly when a segment covers it with its bit set |
| LabelBitmaps.MasksAgree | src/service.rs:1169-1185 | bitmaps and an explicit set for the same labels give the same mask, one entry a row, set exactly when its label is in the set |
| Rows.DifferenceIsExact | src/service.rs:1728-1762 | calibration pairs compare equal exactly when bit-identical, and a reported coordinate is the first that differs |
| Rows.SlicesJoin | src/service.rs:1539-1575 | adjacent exports concatenate to the export of the union: codes, scales and labels |
| Rows.PartsAre | src/service.rs:1700-1716 | an index is built exactly from rows of bitWidth bits a coordinate, 2 to 4, a dim that is a multiple of 8, one scale a row, and no calibration or one pair a coordinate |
| Transfer.FrameFits | src/service.rs:1421-1426 | a frame of at most the computed row count fits in 2 MiB or holds one row |
| Transfer.FramesAreFull | src/service.rs:1421-1426 | one row more than the computed count would not fit |
| Transfer.ExportRows | src/service.rs:1400-1451 | an export succeeds exactly for a start inside the index and a count that ends inside it or is 0; its frames spell the rows from start on, count of them or, for 0, all that are left, each frame small enough |
| Transfer.ExportFrames | src/service.rs:1433-1446 | the offset loop covers a range that is not empty, in frames of which none is empty and all but the last are full |
| Transfer.ExportFrame | src/service.rs:1434-1444 | no frame is requested with the count 0 that means "to the end" |
| Import.ImportBuilder.constructor | src/service.rs:1591-1601 | a builder starts with no accepted block |
| Import.ImportBuilder.Push | src/service.rs:1603-1686 | a block is refused for the first reason in the order of the checks, and then nothing is kept of it |
| Import.ImportBuilder.Finish | src/service.rs:1688-1717 | an index is built exactly when the accepted blocks agree, align and add up to the promised count |
| Import.ImportRows | src/service.rs:1454-1503 | a stream is accepted exactly when it is importable as a whole, whatever its framing |
| Import.ImportableIs | src/service.rs:1603-1717 | bit by bit: one shape throughout, one scale and one label a row, the promised count, whole rows of codes, and the index and labels they make |
| Import.RefusalSpoils | src/service.rs:1603-1686 | a block refused midway dooms every continuation of the stream |
| Reshape.EvenPlanIsExact | src/coordinator/mod.rs:1742-1749 | an even plan hands out every row and no two targets differ by more than one, larger shares first |
| Reshape.WrappedPlanPasses | src/coordinator/mod.rs:1759-1766 | a plan whose true sum is 2^64 too large passes the wrapped u64 check |
| Reshape.PlanDecides | src/coordinator/mod.rs:1735-1767 | a plan that is accepted and no larger than the source is exactly a possible split, so the wrap is the only gap |
| Reshape.PlanBlocks | src/coordinator/mod.rs:1440-1464 | a zero count in a plan ships one empty block and never reaches the export |
| Reshape.ImportRanges | src/coordinator/mod.rs:1419-1482 | a transfer succeeds exactly when every range is readable, the shapes agree and the rows add up |
| Reshape.StageOne | src/coordinator/mod.rs:1398-1410 | shipping one range succeeds exactly when it ends inside the source, and gives that cut |
| Reshape.StageAll | src/coordinator/mod.rs:1392-1413 | staging succeeds exactly when the true sum of the counts fits the source, and cuts it into consecutive runs in target order; start never wraps |
| Reshape.StageSplit | src/coordinator/mod.rs:1384-1414 | a split succeeds exactly when it is possible, wrapped plans included, and its counts add up to the source |
| Reshape.Disagreement | src/coordinator/mod.rs:1621-1650 | one shard passes exactly when its dim, width and calibration are those of the first, unbound dims and bit-equal pairs included |
| Reshape.Bind | src/coordinator/mod.rs:1603-1662 | binding succeeds exactly for a non-empty set of shards of one dim, width and calibration, whatever they are; the row total is summed as u64, wrapping |
| Reshape.Join | src/coordinator/mod.rs:2193-2245 | a join succeeds exactly when its sources are servable and their true row sum fits u64, and gives their rows in order |
| Reshape.PiecesSpellSource | src/coordinator/mod.rs:1392-1412 | however a source is cut, its pieces end to end are its rows |
| Reshape.SplitThenJoinRestores | src/coordinator/mod.rs:2212-2236 | split then join rebuilds codes, scales and calibration bit for bit, with the source's labels or its slots |
| Topology.WithScheme | src/coordinator/nodes.rs:294-304 | an address that has a scheme is left alone and any other becomes http:// |
| Topology.FreeSparesAre | src/coordinator/mod.rs:466-473 | the surviving pool is exactly the spares no shard of the new table uses |
| Topology.FreeSparesInOrder | src/coordinator/mod.rs:466-473 | and they keep their order |
| Topology.PublicationIs | src/coordinator/mod.rs:440-492 | a publication succeeds exactly over the expected generation, if one is given, with a number left and, if durable, a table and no failing write; the table is then the new one, the generation the next, the cache empty and the file level; a failed one changes nothing in memory |
| Topology.ConfigIs | src/coordinator/mod.rs:1503-1526 | the config of a staged shard: its address and index, the generation it must find, and the replicas of the first shard that had that address |
| Topology.Coordinator.RebindInner | src/coordinator/mod.rs:440-492 | the publication as a whole: which generation, table, pool and file each outcome leaves, and that success empties the cached binding |
| Topology.Coordinator.RegisterNode | src/coordinator/mod.rs:2276-2316 | a registration as a whole: a member and a known spare change nothing, any other address ends up last in the pool, persisted first; the flag tells which |
| TopologyRuns.RebindKeeps | src/coordinator/mod.rs:440-492 | a publication that succeeds, or fails before or after the rename, keeps the invariant |
| TopologyRuns.RegisterKeeps | src/coordinator/mod.rs:2276-2316 | so does a registration, even one that overwrites a file left ahead by a failed publication |
| TopologyRuns.StepKeepsInv | src/coordinator/mod.rs:322-347 | so does every other step: boot, crash, binding, tick |
| TopologyRuns.StoredFollowsVisible | src/coordinator/nodes.rs:187-271 | the stored generation is the visible one or one more, equal generations carry equal tables, the pool has no duplicates and serves nothing, acknowledged spares are stored, every shard names a generation, the binding was published |
| TopologyRuns.BindIsCurrentIff | src/coordinator/mod.rs:1330-1360 | a finished bind caches the current table exactly when nothing was published since it began |
| TopologyRuns.CacheIsCurrentIff | src/coordinator/mod.rs:1330-1360 | at any moment the cached binding is the current table exactly when its generation is the current one |
| TopologyRuns.SomeBindingIsStale | src/coordinator/mod.rs:1350-1360 | a run, a bind across a publication, that leaves an older table in the cache |
| TopologyRuns.PublicationEmptiesCache | src/coordinator/mod.rs:487-490 | right after a publication, an operator's or a tick's, no binding is cached |
| TopologyRuns.StaleCacheIsALateBind | src/coordinator/mod.rs:1330-1360 | so an older table in the cache was always put there by a bind that began before the last publication and finished after it |
| TopologyRuns.VisibleNeverFalls | src/coordinator/mod.rs:440-492 | over crashes and restarts the visible generation never falls and never names two tables |
| TopologyRuns.RestartsAreCurrent | src/coordinator/nodes.rs:187-219 | a coordinator that was ever visible boots again: the file it finds passes the restart rule, even one left ahead by a failed publication, and is no older than any table that was visible |
| TopologyRuns.BootIs | src/coordinator/nodes.rs:187-219 | what a boot shows: the stored table, if there is a file and every entry of it names a generation, and the configured one as generation 1 otherwise, if that can be written |
| TopologyRuns.AnnouncedNodeIsKnown | src/coordinator/mod.rs:2276-2316 | an announced node is a member or in the pool from then on, and a pool that grew is stored, if the write works |
| TopologyRuns.TickPublishesOverItsPlan | src/coordinator/autoscale.rs:97-205 | a tick publishes only over the generation it planned from, splices one place, leaves every other shard where it was and uses up exactly its spare |
| TopologyRuns.ConfigsSound | src/coordinator/mod.rs:1503-1526 | tables built from flushed shards meet the restart rule |
| Staging.FlushBeforeDurableRebind | src/coordinator/mod.rs:1487-1501 | if every flush works, a restart of its node would restore each future member exactly as it is, at a positive generation |
| Staging.DurableConfigs | src/coordinator/mod.rs:1487-1526 | so the table of a durable publication names generations that are restorable, and passes the restart rule |
| Autoscale.FindOverfull | src/coordinator/autoscale.rs:102-127 | the tick picks the first shard over the ceiling in table order; it finds one exactly when the collection is servable and some shard is over |
| Autoscale.StageHalves | src/coordinator/autoscale.rs:161-192 | staging moves rows without changing the collection's contents and is one growth step in sizes |
| Autoscale.AutoscaleTick | src/coordinator/autoscale.rs:97-225 | one tick: it splits exactly when a shard is over the ceiling, a live spare exists, staging works and the publication holds, and otherwise changes nothing; the table it leaves is written out; it drops the old source once the new collection serves, and the staged targets if the publication did not hold |
| Autoscale.PublishedIs | src/coordinator/autoscale.rs:176-205 | what its publication puts in place of the source: the kept half at its address, then the moved half at the first spare, everything else as it was |
| Autoscale.PublishedTickKeepsRows | src/coordinator/autoscale.rs:97-205 | under any interference, a tick that publishes keeps the collection's rows in order, provided its source is stable |
| Autoscale.SplitIsTick | src/coordinator/autoscale.rs:161-192 | the row counts after a split are those of one growth step |
| Growth.TickConserves | src/coordinator/autoscale.rs:114-192 | a tick neither makes nor loses rows |
| Growth.TicksKeep | src/coordinator/autoscale.rs:114-167 | from one shard on: rows, shards plus spares, and the lower bound on every shard once split |
| Growth.GrowthStops | src/coordinator/autoscale.rs:114-167 | ticks stop; each split takes one spare; at most rows / floor((M+1)/2) shards; with that many spares every shard ends at or under M |
| StoreFiles.NamesRoundTrip | src/store.rs:541-543 | every generation is read back from its directory name of 24 characters, so no two share one, and a number that is no u64 names none |
| StoreFiles.WriteLabels | src/store.rs:646-667 | the label file is each label in 8 little-endian bytes, with their checksum |
| StoreFiles.ReadLabels | src/store.rs:669-703 | a label file is accepted exactly at its promised size and checksum, and read back as written |
| StoreFiles.LabelBytesInjective | src/store.rs:646-703 | two tables with the same bytes are the same table |
| Store.AfterIs | src/store.rs:336-418 | disk, memory and temporary directory after each file step of a persist |
| Store.RestoreIs | src/store.rs:476-529 | a shard comes back exactly as the manifest CURRENT names describes it, and only if index and labels are what that manifest was written over; anything else is refused |
| Store.PersistMakesDurable | src/store.rs:336-431 | an uninterrupted persist makes memory restorable exactly as it is, clean-up included; one that finds its directory taken changes nothing a restart sees |
| StoreTheorems.StoppedPersistBars | src/store.rs:392-418 | from any idle state that could have persisted, a flush stopped between activating its directory and moving CURRENT leaves the shard barred |
| StoreTheorems.BarredStaysBarred | src/store.rs:336-431 | and from then on, restarts and failed deletes included, no persist gets past the check and nothing more becomes durable, until a delete renames the directory away |
| StoreLimits.SomeShardIsBarred | src/store.rs:392-418 | a run that gets there |
| Registry.WriteGeneration | src/store.rs:349-418 | the file steps of one persist, stopped at any of them |
| Registry.IndexStore.InsertWithId | src/store.rs:203-238 | a shard is registered exactly when its id is valid and new and its labels match its rows |
| Registry.IndexStore.SetIngestRecord | src/store.rs:269-274 | only that shard's record changes |
| Registry.IndexStore.Persist | src/store.rs:336-431 | memory and disk after a persist that fails at any step; one that succeeds is restorable exactly as it is in memory; no other shard is touched |
| Registry.IndexStore.Delete | src/store.rs:287-323 | what a delete leaves when it succeeds, and when it fails before or after the tombstone rename, the tombstone included |
| Registry.IndexStore.RestoreAll | src/store.rs:442-531 | the open succeeds exactly when every directory that is no tombstone has a valid name and is not corrupt; then the registry holds exactly what each CURRENT names, and tombstones, and nothing else, are gone |
| StoreRuns.AdvanceKeeps | src/store.rs:373-418 | every file step keeps the disk restorable and never moves CURRENT back |
| StoreRuns.SweepKeeps | src/store.rs:770-790 | clean-up, even cut short inside a directory, leaves the current generation alone |
| StoreRuns.StepKeepsInv | src/store.rs:336-431 | adds, requests dropped at any moment with their rows or their persist still under way, flushes, deletes, failures and a crash after any step keep the invariant |
| StoreContents.AppendsInOrder | src/service.rs:1765-1800 | rows come in only at the end and in the order sent: creating, an add and a late chunk put exactly their vectors there, a restart takes what is on disk, nothing else touches them |
| StoreContents.HeldRowsAreSent | src/service.rs:863-940 | wherever an operation's rows are held, in memory or for a restart, they hold the vectors its requests sent, in order |
| StoreTheorems.RestartsSucceed | src/store.rs:442-531 | whenever the process stops, the directory CURRENT names is complete and a restart loads exactly it |
| StoreTheorems.DurableGrows | src/store.rs:336-431 | while the shard stands, CURRENT never moves back and no restorable row is lost |
| StoreTheorems.GoneStaysGone | src/store.rs:287-323 | a tombstoned shard that memory has let go of never returns |
| StoreTheorems.FlushBringsBack | src/store.rs:336-431 | a shard whose directory is gone while memory keeps it is written whole by the next flush |
| StoreTheorems.TombstoneReturnsIff | src/store.rs:287-323 | after its rename a delete may forget, fail or crash: some continuation restores the shard if and only if it failed with the shard still in memory and a generation left to write |
| StoreLimits.SomeTombstoneReturns | src/store.rs:293-303 | a run that deletes a flushed shard, fails after the rename, and ends with a restart finding it |
| IngestOnce.RowsAtMostOnce | src/service.rs:835-908 | as long as no declared rows still to be added wait together with others, no row of a retry-safe operation occurs twice, in memory or on disk, and each sits where the operation declared it |
| IngestOnce.RowsLandWhereDeclaredIff | src/service.rs:853-925 | an operation that passed its check ends up in the index once, where it declared and with the vectors it sent, in order, however things go on, if and only if nothing was added since the check and no rows of a dropped request are still to come |
| IngestOnce.RowsDoubleIff | src/service.rs:853-925 | it can end up there twice if and only if rows of an earlier request for it are in the index or still to come |
| IngestOnce.RetryAfterDrop | src/service.rs:855-904 | what a retry right after a dropped request meets: recognised exactly when the record was made and the index ends there, added again exactly when the rows are still to come, declined otherwise |
| StoreLimits.RetryDoublesRows | src/service.rs:1765-1800 | a run in which a request is dropped before its append, the retry is admitted, and its success leaves the row twice on disk |
| StoreTheorems.AnswersComeTwoWays | src/service.rs:846-940 | a success answer comes after the add's own persist or from the replay shortcut, which matched operation, row count and generation |
| StoreTheorems.PersistedAnswerIsDurable | src/service.rs:863-940 | an answer given after the add's own persist is durable in every run, and where it was declared exactly when its rows were added there |
| StoreTheorems.ShortcutIsDurableIff | src/service.rs:852-862 | the replay shortcut is only taken for rows that are where they were declared; its answer is durable if and only if the directory CURRENT names holds as many rows as the record says |
| StoreTheorems.AnswerIsDurableIff | src/service.rs:846-940 | every success answer in every run, dropped requests included: durable exactly when its own persist gave it or disk and memory hold as many rows at that moment, and in place exactly when its rows were added there |
| StoreTheorems.DurableAnswerStands | src/store.rs:442-531 | an answer durable once is restored by every restart while the shard stands, at the same place and with the vectors its requests sent |
| StoreTheorems.SuccessIsDurable | src/service.rs:846-940 | in runs where no record overtakes a snapshot and no delete fails after its rename, a success answer, fresh or replayed, means every later restart restores those rows, with the vectors its requests sent |
| StoreLimits.SomeAnswerIsDurable | src/service.rs:846-940 | such a run |
| StoreTheorems.OvertakenLosesAnAnswer | src/service.rs:846-940 | and wherever a record can overtake a snapshot, going on can lose its answer: the retry is told of success for rows no restart will find |
| StoreLimits.OverlapLosesAnAnswer | src/service.rs:852-862 | a flush overlapping an add does it |
| StoreLimits.DropLosesAnAnswer | src/service.rs:906-940 | so does the persist of a dropped request, with no flush at all |
| PersistOverlap.OverlapIsHarmless | src/store.rs:336-431 | any number of overlapping persists, failures and restarts: CURRENT never moves back and names a directory that is there, as long as no persist is still to rename its own when two later generations have come about |
| PersistOverlap.LatePersistStrands | src/store.rs:350-429 | one that is, on a shard that can still be persisted, can move CURRENT back to a directory that was swept away, and no restart gets past that |
| PersistOverlap.SomePersistStrands | src/store.rs:350-429 | a run that does |

## Left out

- Transport, channel caching, dialling, health, reflection, logging, metrics and
  environment parsing: no property of their own. In a search a timeout, a
  disconnect or an unreachable node is a step that ends it with an error; an add
  that is dropped leaves its rows or its persist under way.
- Encoding, scoring and calibration fitting in the engine: a row's score is a
  function of its codes, scale, shape and the query; a chunk scan emits exactly
  the admitted rows at or above the floor in effect; the shapes `from_parts`
  accepts are `Rows.GoodParts`.
- `BinaryHeap`, `HashMap` and `HashSet`: the heap is its contents in rank order,
  maps and sets are Dafny's.
- CRC32 and the scoring fingerprint: a checksum is represented by the content it
  was taken over, or by an arbitrary function of the bytes.
- Back pressure: a shard's capacity is whatever its channel, the transport and
  the query's event channel let it have in flight; the model fixes one number per
  query (`ScanFleet.RoomyNeverBlocks` holds for any). Slots held by other
  searches than the queries of one table are not modelled.
- A 32-bit process: `usize` conversions of u64 values succeed.
- Bytes lost below fsync, and a delete that races an add or a persist of the same
  shard: nothing in the code serialises them.
- Overlapping persists of one shard: in `StoreRuns` the later one waits;
  `PersistOverlap` says, by generations alone, when that makes no difference.
- Reads that an add's check makes one after the other (length, record,
  generation): one step here.
- Temporary directories and pointer files left by a crash: nothing reads them.
- A read or a removal that fails while the store is opened: it refuses the open.
- Id-mapped indexes, unary search, `Remove`, listing, batch scheduling, node
  table text, calibration fitting and the clients: thin calls or user glue.
- The frame-by-frame staging of one add: an add enters with its whole vector
  list, and malformed frames never reach the state modelled here.
- Replica failover: a tick's source may be any address that serves the shard,
  whichever of them answered.
- Trimming of an announced address: `RegisterNode` takes it already trimmed.
- Floor-raise and block counters in completions: reported, never read.
- Aliasing of the shared handles: a shard's index, its disk and the control
  cells of one query are each reached in one way only.
- IngestOnce.RowsAtMostOnce: not for every run, because a dropped request can
  make it false (`StoreLimits.RetryDoublesRows`);
  `IngestOnce.RowsLandWhereDeclaredIff` and `IngestOnce.RowsDoubleIff` are the
  exact conditions.
- StoreTheorems.SuccessIsDurable: about runs in which no record overtakes a
  snapshot and no delete fails after its rename;
  `StoreTheorems.AnswerIsDurableIff` is the exact condition for one answer. What
  the rows hold is said for operations whose requests all sent the same vectors,
  which the code does not compare.
- ScanFleetLimits.NeverBlocksIffRoomy: about all requests a deployment may get;
  whether one given set of queries can block also depends on the order in which
  their streams open.
- TopologyRuns.StoredFollowsVisible: says the cached binding was published, not
  that it is the current one, because a racing bind can store an older one
  (`TopologyRuns.SomeBindingIsStale`).
- Autoscale.AutoscaleTick: the tick without interference; its interleavings are
  in `TopologyRuns` and `Autoscale.PublishedTickKeepsRows`. A tick whose probe of
  some shard fails returns at once and is not a call here.
- FloorCell.Cell.Raise: interference is a list of what others do before each
  exchange; the memory orderings are not modelled.
- Growth.GrowthStops: starts from one shard and assumes every tick finds the
  collection servable and the spare live; a tick that does not is no step.
