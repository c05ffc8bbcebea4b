# Verified models of the delivery, snapshot and serialization cores

These Dafny files model the parts of the logging library that are protocols or algorithms in their own right, and prove what
they promise. `dafny verify dfyconfig.toml` checks everything.

The models come in two layers. State machines, specification functions and theorems are on values (`…Spec`, `…System`,
`…Theorems`, `…Policy`). Beside them stand classes that change their fields the way the TypeScript objects do
(`…Transport`, `Serializer`, `ContextClone`, `TomlReader`, `Coordinator`, `ServerLifecycle`, `Reporter`, `Metrics`,
`CursorQueues`); each method is proved against the function of the specification that it stands for.

* **Ingest** (`IngestClient`, `IngestSystem`, `IngestTheorems`, `IngestTransport`): the stop-and-wait client, a network that may
  delay, lose, repeat and reorder anything, and a server that stores each record id once, as one machine.
* **Durable** (`PersistentQueue`, `DurableSystem`, `DurableTheorems`, `DurableCalm`, `DurableWitnesses`,
  `PersistentTransport`): the write-ahead queue on top of it, with failing storage, crashes between any two steps,
  overlapping calls of `close`, and late batches of dead processes.
* **Ack** (`AckClient`, `AckMachine`, `AckSystem`, `AckTransport`): the acknowledged Realtime transport.
* **Batch** (`BatchPolicy`, `BatchTransport`, `CursorQueues`): the byte-budgeted batcher with fallback, and the queues.
* **Context** (`ContextGraph`, `ContextSteps`, `ContextLoops`, `ContextClone`): the copy of cyclic and shared graphs, on an explicit heap.
* **Serializer** (`SerializeSpec`, `SerializeNodes`, `SerializeFaithful`, `SerializeTheorems`, `SerializeBounds`, `Serializer`):
  caps, redaction, cycles.
* **TOML** (`TomlSpec`, `TomlRoundTrip`, `TomlDocuments`, `TomlReader`), **Base64Url**, **Coordinator**, **Server**,
  **Reporter**, **Histograms and metrics**.

Sockets, timers, storage calls, callbacks, clocks and random ids are inputs: events of a run, or parameters. In the machines a
run is any sequence of events, so every interleaving of the synchronous stretches is covered.

## What turned out not to hold

Each has a concrete input, and a theorem that says exactly when the promise holds.

* A persisted record can be lost without a call of `onPersistentDrop` in four ways (`DurableWitnesses`): a start-up that cannot
  read storage; a `close` that is called while another one awaits `inner.close()`, whose flush then fails; a persistent queue
  that overflows while a drain is handing records over, after which the socket queue evicts a record that the next drain
  removes; and a record id that is used again after its first record was committed. The socket queue reports an eviction to its
  own `onDrop`. `DurableTheorems.LostExactlyWhen` names the steps at which a record leaves storage, `LossesHaveACause` what is
  behind them, and runs in which callers avoid the four lose nothing (`DurableCalm.CalmRunsLoseNothing`).
* Redaction does not hide the name of an own `constructor` (`SerializeTheorems.TypeNamesAreShown`). Nor does it hide the name,
  message, stack and cause of an error, except under an own enumerable key of that name
  (`SerializeTheorems.ErrorsShowTheirBase`).
* The output is bounded exactly when no constructor name is an object (`SerializeBounds.BoundedExactlyWithPlainTypes`), and a
  record whose constructor name cannot be read is spoilt as a whole (`SerializeFaithful.RecordShown`).
* A force callback that throws instead of rejecting leaves the coordinator's completion open for good
  (`CoordinatorTheorems.CompletesUnlessForceThrows`).
* Disposing of the server controller while it drains removes the drain deadline (`ServerTheorems.DeadlineCloses`).
* The base64url decoder accepts texts that no encoding produces (`Base64Url.EncodingsAreTheCanonicalTexts`).
* The TOML reader loses the key `__proto__` (`TomlDocuments.ListRoundTrip`).
* The node limit of the context copier counts a shared class instance once for each reference
  (`ContextClone.SharedHandlesWeigh`).

## Model

| member | source | states |
|---|---|---|
| `IngestTheorems.EveryRunAgrees` | src/supabase-websocket-ingest.ts:500-541 | in every run with delay, loss, replay, reordering and stale ACKs: committed sequences are 1, 2, 3, …, the in-flight batch has the next one, committed ++ in flight ++ queued is the admitted records minus the evicted ones in admission order, drops are evictions plus refusals, `accepted + duplicates` counts the committed records, and the server log is the committed log or ahead by exactly the in-flight batch |
| `IngestTheorems.ReplaysAreIdentical` | src/supabase-websocket-ingest.ts:518-541 | two frames that ever carry the same sequence number are the same batch |
| `IngestTheorems.ServerStoresOnce` | examples/supabase/migrations/0003_ws_ingest.sql:60-122 | the server, which skips a `record_id` it has, stores every id at most once, the id of everything the client counts as committed, and the committed record itself unless another admitted record has the same id |
| `IngestTheorems.OnlyAcksMoveTheBatch` | src/supabase-websocket-ingest.ts:736-754 | a step changes the committed list only by appending the in-flight batch, all of which the server has; no other step, so no eviction either, touches the in-flight batch |
| `IngestClient.OnlyTheAwaitedAckCounts` | src/supabase-websocket-ingest.ts:700-734 | a frame of another connection generation changes nothing; the wait ends in success exactly for an ACK that names the awaited batch and sequence on the current connection |
| `IngestSystem.AckProvesStored` | src/supabase-websocket-ingest.ts:712-734 | an ACK that matches the in-flight batch can only exist when the server has stored all of it |
| `IngestSystem.PushKeepsOrder` | src/supabase-websocket-ingest.ts:477-498 | an admission, with or without an eviction, keeps the admission order of everything the client is responsible for |
| `IngestTransport.Transport.constructor` | src/supabase-websocket-ingest.ts:342-393 | a fresh transport is the initial state |
| `IngestTransport.Transport.Enqueue` | src/supabase-websocket-ingest.ts:477-498 | a closed transport, an oversized record, a full queue and room each have their effect on queue and drop counter, and nothing else changes |
| `IngestTransport.Transport.CreateBatch` | src/supabase-websocket-ingest.ts:500-516 | the batch is the first `batchSize` queued records, in order, under the next sequence number |
| `IngestTransport.Transport.RejectAck` | src/supabase-websocket-ingest.ts:763-770 | ends the wait only if it belongs to the given generation |
| `IngestTransport.Transport.Disconnect` | src/supabase-websocket-ingest.ts:772-788 | an outdated generation is ignored; otherwise the socket is gone and the wait has failed |
| `IngestTransport.Transport.ProtocolFailure` | src/supabase-websocket-ingest.ts:756-761 | counts the error and disconnects the generation it is about |
| `IngestTransport.Transport.HandleMessage` | src/supabase-websocket-ingest.ts:700-734 | a frame of an older generation is ignored, a malformed one or an ACK that was not awaited is a protocol failure, and the awaited ACK ends the wait |
| `IngestTransport.Transport.Commit` | src/supabase-websocket-ingest.ts:736-754 | commits exactly when `accepted + duplicates` is the batch size; a refused ACK changes nothing |
| `IngestTransport.Transport.SendAndWait` | src/supabase-websocket-ingest.ts:658-698 | installs the wait for this batch on this generation, or fails at once when the socket is not open or the send throws |
| `IngestTransport.Transport.ConnectAndSend` | src/supabase-websocket-ingest.ts:543-698 | yields an ACK exactly when the network answered with one that names the batch and sequence |
| `IngestTransport.Transport.Pass` | src/supabase-websocket-ingest.ts:518-541 | one iteration either commits the in-flight batch and moves the sequence on by one, or keeps the batch and all records in order |
| `IngestTransport.Transport.Backoff` | src/supabase-websocket-ingest.ts:529-540 | tries again exactly while the reconnect budget lasts |
| `IngestTransport.Transport.DrainWithReconnect` | src/supabase-websocket-ingest.ts:518-541 | the loop ends by (records left, tries left); it leaves nothing outstanding or throws with the in-flight batch kept, takes at most `maxReconnectAttempts + 1` tries per batch, commits gapless sequences, and committed ++ held is what was held before |
| `DurableTheorems.NothingIsLostSilently` | src/supabase-websocket-persistent.ts:303-396 | in every run with crashes at any point, failing storage, network faults, overlapping calls of `close` and replays of batches from dead processes: a persisted record is itself in storage or on the server, or was reported as dropped, or its id was evicted, unread, abandoned or reused |
| `DurableTheorems.LostExactlyWhen` | src/supabase-websocket-persistent.ts:282-396 | a stored record that is not on the server and was not reported leaves storage, unreported, if and only if the step is a removal that takes its id although nothing stored it, a write to storage by a memory that does not hold it, or a write of another record under its id |
| `DurableTheorems.LossesHaveACause` | src/supabase-websocket-persistent.ts:282-418 | behind every such step is one of four accidents: its id was evicted by the socket queue, unread at a start-up, or used for two records, or a `close` was late or had been |
| `DurableCalm.CalmRunsLoseNothing` | src/supabase-websocket-persistent.ts:282-396 | callers exclude the accidents by four rules: no id is used twice, no write overflows the persistent queue while a drain hands records over, no `close` is called while another is pending, and storage is readable at start-up; then every persisted record is in storage, on the server or reported |
| `DurableCalm.CalmRemovalsAreStored` | src/supabase-websocket-persistent.ts:282-396 | in such runs everything that a drain or a `close` removes as committed is on the server |
| `DurableTheorems.RemovedAreStored` | src/supabase-websocket-persistent.ts:282-396 | what `removeCommitted` is about to remove after a drain, or in a `close` that did not find the socket transport closed, is on the server, unless its id was evicted or reused |
| `DurableTheorems.StoredRecordsAreGenuine` | src/supabase-websocket-persistent.ts:303-385 | whatever the server stores under an id is a record that was persisted under that id |
| `DurableTheorems.ServerStoresOnce` | src/supabase-websocket-persistent.ts:362-396 | through all crashes and replays the server holds one row per record id |
| `DurableWitnesses.AnUnreadableStoreLosesARecord` | src/supabase-websocket-persistent.ts:410-418 | a concrete run: a start-up that cannot read storage, then one write, and a persisted record is nowhere and unreported |
| `DurableWitnesses.AnOverlappingCloseLosesARecord` | src/supabase-websocket-persistent.ts:282-301 | a concrete run: a second `close` while the first awaits `inner.close()`, whose flush then fails, removes a record the server never got |
| `DurableWitnesses.AnEvictedRecordIsLost` | src/supabase-websocket-persistent.ts:362-396 | a concrete run: writes that overflow the persistent queue while a drain is handing over make the socket queue evict a record that the persistent queue counts on, and the next drain that succeeds removes it |
| `DurableWitnesses.AReusedIdLosesARecord` | src/supabase-websocket-persistent.ts:315-319 | a concrete run without crash, failure or overflow: the id of a committed record is given to a second one, which the server skips and the drain removes |
| `PersistentQueue.PersistIsSafe` | src/supabase-websocket-persistent.ts:303-351 | each sequence number is used once, a resident entry is never displaced, every displaced entry is reported, and the write is all or nothing |
| `PersistentQueue.MakeRoomSplits` | src/supabase-websocket-persistent.ts:327-337 | making room splits the queue into what stays, in order, and what is displaced, none of it resident |
| `PersistentQueue.RemovedIsSafe` | src/supabase-websocket-persistent.ts:387-396 | exactly the given ids go, the rest is the old queue with them left out, and the queue keeps its invariant |
| `PersistentQueue.SiftAccounts` | src/supabase-websocket-persistent.ts:450-475 | each stored element is kept or dropped once, kept ids are unique |
| `PersistentQueue.SortedIsOrdered` | src/supabase-websocket-persistent.ts:476-476 | sorting yields non-decreasing sequences of the same entries |
| `PersistentQueue.RestoreRepairs` | src/supabase-websocket-persistent.ts:410-496 | any stored state of this session is repaired: unique ids, non-decreasing sequences below `nextSequence`, at most `maxRecords` entries, every stored element kept or reported exactly once |
| `PersistentQueue.RestoreInvertsWrite` | src/supabase-websocket-persistent.ts:410-512 | restoring an unexpired state that `writeState` stored is the identity on entries and `nextSequence` |
| `PersistentTransport.Transport.Restore` | src/supabase-websocket-persistent.ts:410-496 | the three loops compute the restored queue, drops and storage of the model |
| `PersistentTransport.Transport.SiftAll` | src/supabase-websocket-persistent.ts:450-475 | the sifting loop computes the kept entries and the reports |
| `PersistentTransport.Transport.WriteState` | src/supabase-websocket-persistent.ts:498-512 | an empty queue removes the key, any other replaces it, a throw leaves it |
| `PersistentTransport.Transport.PersistRecord` | src/supabase-websocket-persistent.ts:303-351 | too large, blank, duplicate, full, failing and successful writes, the displacement loop included, give the queue, reports and storage of the model |
| `PersistentTransport.Transport.RemoveCommitted` | src/supabase-websocket-persistent.ts:387-396 | memory loses the ids in any case, storage only if the write succeeds |
| `PersistentTransport.Transport.EnqueueEntry` | src/supabase-websocket-persistent.ts:363-373 | the socket queue admits, refuses, or evicts for the entry; the entry becomes resident exactly when it was taken, under its stored id |
| `PersistentTransport.Transport.EnqueueEntries` | src/supabase-websocket-persistent.ts:363-373 | the loop hands over every entry that is not resident in turn, whatever the socket queue does with it, until one throws |
| `PersistentTransport.MissingAreHanded` | src/supabase-websocket-persistent.ts:363-373 | with room for all, the socket queue receives exactly the entries it does not hold, in order, and all are resident |
| `AckSystem.EveryTicketIsSomewhere` | src/supabase-realtime.ts:606-653 | every write is acknowledged, dropped, queued or in flight, and in exactly one place |
| `AckSystem.PromisesTellTheTruth` | src/supabase-realtime.ts:498-548 | each delivery promise is settled at most once: resolved iff acknowledged, rejected iff dropped, open iff queued or in flight |
| `AckSystem.BoundsHold` | src/supabase-realtime.ts:536-588 | no record is sent more than `maxAttempts` times, in flight ≤ `maxInFlight`, queued + in flight ≤ `maxQueueSize + maxInFlight` even after a restore, and nobody waits for idle when nothing is outstanding |
| `AckSystem.RepliesHitTheirOwnTicket` | src/supabase-realtime.ts:498-548 | refs are never reused; a good reply acknowledges the ticket its ref was issued for and no other, a bad one or a timeout none, and an unknown ref changes nothing |
| `AckSystem.PumpKeeps` | src/supabase-realtime.ts:550-588 | the mutual recursion of `pump` and `retry` keeps the books |
| `AckSystem.RestoreKeeps` | src/supabase-realtime.ts:297-308 | restoring the in-flight table on close loses and duplicates nothing |
| `AckTransport.Realtime.constructor` | src/supabase-realtime.ts:51-64 | a fresh transport is the initial state |
| `AckTransport.Realtime.Drop` | src/supabase-realtime.ts:208-218 | counts the drop and rejects the waiter of that record only |
| `AckTransport.Realtime.NotifyIdle` | src/supabase-realtime.ts:220-227 | wakes the idle waiters exactly when nothing is outstanding |
| `AckTransport.Realtime.RestoreInFlight` | src/supabase-realtime.ts:297-308 | survivors go to the front of the queue, exhausted records are dropped, the table is empty |
| `AckTransport.Realtime.FailPending` | src/supabase-realtime.ts:310-315 | everything queued and in flight is dropped |
| `AckTransport.Realtime.ScheduleReconnect` | src/supabase-realtime.ts:326-352 | arms the timer once, or fails what is pending when the attempts are used up |
| `AckTransport.Realtime.Retry` | src/supabase-realtime.ts:536-548 | requeues at the front or drops, then pumps; terminates with `Pump` |
| `AckTransport.Realtime.Pump` | src/supabase-realtime.ts:550-588 | the filling loop refines the model and terminates |
| `AckTransport.Realtime.OnReply` | src/supabase-realtime.ts:498-534 | an unknown ref changes nothing; ok acknowledges, an error retries |
| `AckTransport.Realtime.OnClose` | src/supabase-realtime.ts:382-484 | a lost connection restores, drops or reconnects as the model says |
| `AckTransport.Realtime.MakeRoom` | src/supabase-realtime.ts:641-649 | drops the oldest queued records and only as many as needed |
| `AckTransport.Realtime.Write` | src/supabase-realtime.ts:606-653 | admission, refusal and overflow of one write |
| `AckTransport.Realtime.Flush` | src/supabase-realtime.ts:655-668 | parks the caller exactly when something is outstanding |
| `BatchPolicy.BatchesFit` | src/supabase-realtime-batch.ts:481-496 | a batch is a non-empty prefix of at most `batchSize` records with 768 + Σ bytes + (n − 1) ≤ `maxBatchBytes` on the wire, and the longest one |
| `BatchPolicy.CountIsGreedy` | src/supabase-realtime-batch.ts:481-496 | the taking loop stops exactly where the next record would break a limit |
| `BatchPolicy.RetakeExtendsTheBatch` | src/supabase-realtime-batch.ts:498-505 | a failed batch is a prefix of the next batch, whatever was written meanwhile |
| `BatchPolicy.RestoreUndoesTake` | src/supabase-realtime-batch.ts:498-505 | without writes in between, restoring is undoing |
| `BatchTransport.Transport.Enqueue` | src/supabase-realtime-batch.ts:445-462 | admission, refusal and overflow, with the books balanced |
| `BatchTransport.Transport.TakeBatch` | src/supabase-realtime-batch.ts:481-496 | the loop takes exactly the specified prefix |
| `BatchTransport.Transport.RestoreBatch` | src/supabase-realtime-batch.ts:498-505 | the queue is the first `maxQueueSize` of batch ++ queue, and exactly the rest is counted as dropped |
| `BatchTransport.Transport.SendNext` | src/supabase-realtime-batch.ts:507-533 | offered = delivered + queued + dropped after every send, also with writes during it; a failed batch is at the head again |
| `BatchTransport.Transport.Drain` | src/supabase-realtime-batch.ts:507-540 | the loop ends by (queue length, not yet on the fallback), tries a batch at most twice, delivers in order, returns only with an empty queue and stops at a failing fallback |
| `BatchTransport.Transport.DrainToFallback` | src/supabase-realtime-batch.ts:550-561 | drains in order until empty or the fallback throws |
| `CursorQueues.CursorQueue.Push` | src/supabase-realtime-batch.ts:120-122 | appends to the plain sequence |
| `CursorQueues.CursorQueue.Shift` | src/supabase-realtime-batch.ts:124-133 | removes the head of the plain sequence; compaction is invisible and copies no more than was removed before |
| `CursorQueues.CursorQueue.Pop` | src/supabase-realtime-batch.ts:135-143 | removes the last element |
| `CursorQueues.CursorQueue.Prepend` | src/supabase-realtime-batch.ts:145-149 | puts the values in front |
| `CursorQueues.CursorQueue.Compact` | src/supabase-ingest/queue.ts:30-35 | changes nothing observable; total copying stays below total removals |
| `CursorQueues.BrowserQueue.Peek` | src/browser-stream.ts:189-191 | shows the first `count` elements |
| `CursorQueues.BrowserQueue.Drain` | src/browser-stream.ts:193-200 | removes the first `count` elements; the clearing loop empties exactly the dead slots |
| `CursorQueues.BrowserQueue.TrimToLast` | src/browser-stream.ts:202-209 | keeps the last `max` elements and returns how many went |
| `ContextClone.CloneContextValue` | src/context-shared.ts:281-283 | a result is a snapshot (new copies of exactly the cloneable nodes reached, injective, opaque handles kept by identity) of a graph whose weight, cloneable nodes once and every reference to a handle, is at most 10,000; the node error means a larger weight, the depth error a path of 130 nodes, and the source is untouched |
| `ContextClone.SharedHandlesWeigh` | src/context-shared.ts:184-192 | references to one class instance are counted each time: n of them in one array weigh n + 1, so 10,000 are too many |
| `ContextClone.Cloner.Clone` | src/context-shared.ts:165-274 | one recursive call keeps the partial snapshot and the exact count, leaves open copies alone, and names a real reason when it throws |
| `ContextClone.Cloner.CloneMap` | src/context-shared.ts:205-215 | copies keys and values in order into a map of the same size |
| `ContextClone.Cloner.CloneSet` | src/context-shared.ts:216-223 | copies the items in order into a set of the same size |
| `ContextClone.Cloner.CloneView` | src/context-shared.ts:233-242 | builds the view over the copy of its buffer |
| `ContextClone.Cloner.CloneRecord` | src/context-shared.ts:115-131 | copies the data properties with their attributes in order and leaves accessors out |
| `ContextGraph.WalksMirror` | src/context-shared.ts:165-274 | walking any steps through the copy finds the same atom or handle, or a copy of the node found in the source that is of its kind, with its keys, attributes, lengths and bytes and the copies of its children |
| `ContextGraph.SnapshotIsComplete` | src/context-shared.ts:165-274 | a finished snapshot covers everything reached from the root |
| `ContextGraph.ImageIsInjective` | src/context-shared.ts:165-274 | two places hold one copy exactly when they hold one node in the source |
| `SerializeTheorems.RedactionHides` | src/base-logger.ts:353-512 | two graphs, up to renaming, that differ only below redacted keys serialize to one output, at every depth, with cycles, caps and throwing getters, provided that type names agree and, of errors, name, message, stack and cause where there is no own key |
| `SerializeTheorems.TypeNamesAreShown` | src/base-logger.ts:480-508 | for such graphs all outputs are the same if and only if all records have the same type names: an own `constructor` is read even below a redacted key |
| `SerializeTheorems.InheritedTypesAgree` | src/base-logger.ts:504-507 | records of one class, with no own `constructor` key, have the same type name whatever their redacted properties are |
| `SerializeTheorems.RedactedConstructorsAreShown` | src/base-logger.ts:484-507 | a concrete input: the pattern `constructor` redacts `{ constructor: { name } }` and the output shows the name as `__type` |
| `SerializeTheorems.ErrorsShowTheirBase` | src/base-logger.ts:361-393 | two errors with the same own properties that are both written give one output if and only if name, message, stack and cause each agree as written or are overwritten by an own enumerable key; no pattern comes in otherwise |
| `SerializeTheorems.ErrorIsWritten` | src/base-logger.ts:361-393 | an error is written, and does not throw, exactly when its cause can be written, redacted or not, and every own property that is not redacted |
| `SerializeTheorems.CausesAreShown` | src/base-logger.ts:375-378 | under any patterns, errors with two causes given to the constructor have one output exactly when the causes are the same after truncation |
| `SerializeBounds.OutputIsBounded` | src/base-logger.ts:395-512 | on any graph without an object for a type name the output is at most 2·(maxDepth − depth) high, lists have at most maxArrayLength + 1 items, records at most maxProperties + 2 keys and errors at most four more than their own |
| `SerializeBounds.BoundedExactlyWithPlainTypes` | src/base-logger.ts:395-512 | these bounds hold of all values of a graph if and only if no record of it has an object for the name of its constructor |
| `SerializeBounds.ParsedObjectsCanBeUnbounded` | src/base-logger.ts:504-507 | a concrete input that `JSON.parse` can make puts an object into the output as it is |
| `SerializeFaithful.PositionsShowWhatIsThere` | src/base-logger.ts:425-512 | following any steps, the output shows `[Circular]` exactly when the object found was entered on the way, the depth marker exactly at the limit, and otherwise the object in full up to the caps, with its type name; getters of records may throw |
| `SerializeFaithful.RecordShown` | src/base-logger.ts:480-508 | a record is written exactly when its type name can be read; then a property that throws spoils only itself |
| `SerializeFaithful.StepShown` | src/base-logger.ts:436-512 | one step in the source is one step in the output |
| `SerializeTheorems.ThrowingConstructorsSpoil` | src/base-logger.ts:497-510 | a concrete shape: a throwing own `constructor` getter makes the whole record throw, at any depth and beside any other properties |
| `SerializeNodes.ThrowsOnlyWhenLoud` | src/base-logger.ts:395-512 | no value of a graph throws if and only if every map key that is written has a text, every record a readable type name, and every error a readable cause and readable unredacted properties |
| `Serializer.Serialization.Serialize` | src/base-logger.ts:395-512 | computes the serialization and leaves `seen` as it was, also when it throws |
| `Serializer.Serialization.SerializeRecord` | src/base-logger.ts:481-508 | the key loop, with its own catch, and the reading of the type name outside of it compute the record |
| `Serializer.Serialization.SerializeError` | src/base-logger.ts:361-393 | the error loop computes the record or propagates the first throw |
| `Serializer.SerializeValue` | src/base-logger.ts:514-530 | the entry points compute the specified output |
| `TomlDocuments.DocumentReads` | src/cli/toml.ts:276-360 | any document of one-line string arrays under bare keys, however the strings are spelled and whatever comments follow, reads as exactly its keys and lists if no key is repeated, and else fails at the first repeated one; `__proto__` is neither kept nor ever repeated |
| `TomlDocuments.ListRoundTrip` | src/cli/toml.ts:161-202 | any list of strings printed on one line under a bare key is read back; under `__proto__`, and only there, nothing is |
| `TomlRoundTrip.LiteralReads` | src/cli/toml.ts:53-119 | a basic string, spelled with any mix of raw characters and escapes, reads as what it means |
| `TomlRoundTrip.LiteralScan` | src/cli/toml.ts:31-49 | the quote-parity scan is inside the string from the opening to the closing quote and outside after it |
| `TomlRoundTrip.SplitRest` | src/cli/toml.ts:172-202 | only the commas between strings split an array |
| `TomlDocuments.LineStrips` | src/cli/toml.ts:31-49 | only the real comment is cut off |
| `TomlDocuments.ArrayBalances` | src/cli/toml.ts:122-142 | brackets in strings do not count |
| `TomlRoundTrip.CanonicalMeans` | src/cli/toml.ts:53-119 | every string can be spelled |
| `TomlReader.StripComment` | src/cli/toml.ts:31-49 | the loop computes the cut |
| `TomlReader.ReadString` | src/cli/toml.ts:53-119 | the loop computes the string or the first problem |
| `TomlReader.BracketDepth` | src/cli/toml.ts:122-142 | the loop computes the depth |
| `TomlReader.SplitArray` | src/cli/toml.ts:172-202 | the loop computes the items |
| `TomlReader.GatherArray` | src/cli/toml.ts:340-351 | continuation lines are joined until the brackets balance |
| `TomlReader.ReadToml` | src/cli/toml.ts:276-360 | the line cursor computes the document or the first problem, or the line where a header leads out of the document by way of `__proto__` |
| `Base64Url.DecodingInvertsEncoding` | src/supabase-realtime-common.ts:173-189 | every byte sequence is recovered from its base64url encoding (section 5 of RFC 4648), padded or not |
| `Base64Url.Decode` | src/supabase-realtime-common.ts:173-189 | undefined exactly for a character outside the alphabet; otherwise the leading bits of the text, none lost or added, with 0, 2, 4 or 6 left over and the accumulator below 2^bits |
| `Base64Url.BytesDetermined` | src/supabase-realtime-common.ts:173-189 | digits stand for one byte sequence only |
| `Base64Url.EncodingsAreTheCanonicalTexts` | src/supabase-realtime-common.ts:173-189 | the converse: a text, less padding, is an encoding if and only if it decodes, has no `+` or `/`, its length is not 1 modulo 4, and no bits are set after the last byte; it is then the encoding of what it decodes to |
| `Base64Url.EncodedExactly` | src/supabase-realtime-common.ts:173-189 | decoded digits are the digits of the encoding exactly when the bits left over are zero and are not six |
| `Base64Url.OtherTextsDecodeToo` | src/supabase-realtime-common.ts:173-189 | concrete inputs: `QR` decodes as `QQ` does, and `Q` decodes to nothing |
| `CoordinatorTheorems.CoordinatorIsSafe` | src/shutdown.ts:141-320 | in every interleaving, re-entrant calls included: phases never go back, drain, force and flush start at most once, completion resolves at most once and after the flush ended, a second request forces |
| `CoordinatorTheorems.CompletesUnlessForceThrows` | src/shutdown.ts:207-250 | a shutdown that was begun can still complete if and only if no call of the force callback threw synchronously |
| `CoordinatorTheorems.StuckForever` | src/shutdown.ts:234-250 | after such a throw no timer, promise or request completes it |
| `CoordinatorTheorems.AThrowingForceSticks` | src/shutdown.ts:141-160 | a concrete run: one forced request whose callback throws |
| `Coordinator.ShutdownCoordinator.Request` | src/shutdown.ts:141-160 | a finished coordinator ignores it; otherwise the trigger is recorded and the phase decides between draining, forcing and nothing |
| `Coordinator.ShutdownCoordinator.BeginDrain` | src/shutdown.ts:207-232 | only the running phase starts to drain, and the callback is still to be called |
| `Coordinator.ShutdownCoordinator.BeginForce` | src/shutdown.ts:234-250 | forcing starts once, clears the deadline, and the callback is still to be called |
| `Coordinator.ShutdownCoordinator.Finish` | src/shutdown.ts:283-304 | a drain that lost the race against a force, or a second end, changes nothing; else the phase stops and observers are awaited |
| `ServerTheorems.ServerIsSafe` | src/server-lifecycle.ts:422-577 | in every interleaving: phase changes are those of the transition table, hooks and flush start at most once, `done` resolves at most once, with the final phase and after the flush was started |
| `ServerTheorems.RequestsFollowTheTable` | src/server-lifecycle.ts:591-599 | a request does to the phase exactly what `trigger` does in the table, a force what `force-now` does |
| `ServerTheorems.DeadlineCloses` | src/server-lifecycle.ts:403-527 | for a drain in progress the deadline and those of the two waits resolve `done`, whatever servers and hooks do, if and only if the first disposal did not come after the deadline was armed |
| `ServerTheorems.DroppedDeadlineWaits` | src/server-lifecycle.ts:403-527 | otherwise no timer, signal, end of stdin, flush or further disposal ever resolves it: only its own servers and hooks or another call of `requestGraceful` or `force` do |
| `ServerTheorems.BothHappen` | src/server-lifecycle.ts:403-420 | concrete runs: a disposal while draining drops the deadline, one before the drain does not, even when repeated |
| `ServerLifecycle.Controller.ForceShutdown` | src/server-lifecycle.ts:445-457 | forcing starts once and clears the deadline; closing the servers comes after the announcement |
| `ServerLifecycle.Controller.RequestGraceful` | src/server-lifecycle.ts:507-527 | a second request forces, one after that changes nothing, and arming the deadline comes after the announcement |
| `ServerLifecycle.Controller.GracefulNext` | src/server-lifecycle.ts:529-559 | each await of the graceful part checks the phase as the model says |
| `ServerLifecycle.Controller.ForceNext` | src/server-lifecycle.ts:487-504 | hook, flush, finish, each with its deadline |
| `ServerLifecycle.Controller.Finish` | src/server-lifecycle.ts:422-443 | resolves once and disposes |
| `ServerLifecycle.Controller.FlushOnce` | src/server-lifecycle.ts:342-349 | starts the flush the first time only |
| `ReporterSpec.EveryReportIsAccountedFor` | src/internal-diagnostics.ts:334-455 | in every interleaving each report has exactly one outcome or is in flight, each record tells min(suppressed since the last, 65535) with the saturation bit iff there were more, and no suppressed report is left out or told twice |
| `ReporterSpec.UnsaturatedCountsAreExact` | src/internal-diagnostics.ts:334-455 | without saturation the told counts add up to the suppressed reports |
| `ReporterSpec.ClosedIsForGood` | src/internal-diagnostics.ts:445-455 | closed never reopens, closing only becomes closed |
| `Reporter.InternalDiagnosticReporter.Report` | src/internal-diagnostics.ts:402-443 | a closed, suppressing or busy reporter and one that starts a delivery each have their effect on phase and counters |
| `Reporter.InternalDiagnosticReporter.AccountSuppressed` | src/internal-diagnostics.ts:384-388 | the counter stops at 65535 and then sets the saturation bit |
| `Reporter.InternalDiagnosticReporter.Deliver` | src/internal-diagnostics.ts:390-400 | the first sink that accepts the record is named; failure only if none does |
| `HistogramSpec.HistogramsAgree` | src/apm.ts:254-273 | for any observations over increasing bounds, the disjoint buckets total the count, and their prefix sum is the number of values ≤ the bound |
| `HistogramSpec.SizeBound` | src/prometheus.ts:412-433 | at most max(1, maxSeries) series |
| `HistogramSpec.RouteStands` | src/prometheus.ts:412-433 | an ordinary series stands for exactly the values under its labels, the overflow series for exactly the others |
| `HistogramSpec.CounterKeeps` | src/prometheus.ts:448-469 | every series is the sum of what it stands for and all series together are the sum of everything recorded |
| `Metrics.CountInto` | src/prometheus.ts:279-284 | the loop adds one value to exactly the buckets whose bound it does not exceed |
| `Metrics.Counter.Inc` | src/prometheus.ts:448-459 | refuses negative increments and keeps the books |
| `Metrics.Counter.Get` | src/prometheus.ts:461-463 | reads the series that stands for the labels |
| `HistogramSpec.HistogramKeeps` | src/prometheus.ts:412-564 | count, sum and every bucket of each series are those of the values it stands for, and over all series, the overflow included, they add up to those of everything recorded |
| `Metrics.Histogram.Observe` | src/prometheus.ts:545-564 | routes the value, counts it into one series and keeps the books |
| `Metrics.PrometheusHistogram.Observe` | src/prometheus.ts:258-285 | a value finds its series or room for one, or is counted as dropped; the series add up to everything that was not |

## Left out

- Sockets, `fetch`, DOM and process events, token providers and URL or credential checks: they are events that may or may not happen.
- JSON and UTF-8: a record is an identity, a byte size and whether it can be encoded; a stored state is its decoded value, written atomically.
- The server's check that a reused batch id has the same content: the server model only skips record ids it has.
- `flushOnExit` with a fallback overlapping a running `flush` of the ingest transport: the exit steps are enabled only when no flush runs, and a `close` that would start them joins the flush.
- The moment between a promise that settles and the `finally` that follows it, except where a file says otherwise.
- That a persistent `flush` resolves only after all entries have been committed: a running drain is handed out again, so it need not.
- FIFO order of the acknowledged transport: retrying and then restoring reorders records by design.
- Observers and callbacks that call back into a transport while it is in a synchronous stretch; the two shutdown controllers and the reporter do model this.
- JavaScript `Map` and `Set` iteration order is modelled as a sequence in insertion order.
- Blank record ids: `trim` is modelled for space, tab, newline and carriage return.
- Getters, proxies, prototypes and typed-array internals in the copier: objects with accessors and class instances are opaque handles, buffers are their bytes.
- ContextClone.CloneContextValue: of the depth error it says that a path of that length exists; which of several paths is walked first depends on what was copied before.
- The serializer: wording of markers, order of output keys, array holes, the prototype that an own `__proto__` key sets on the output, own `name`, `message` and `stack` of errors that are not strings or throw, other own properties of arrays, dates, maps and sets, getters that give something else each time, and lower-casing beyond ASCII.
- The TOML reader: values of numbers (kept as spelled) and `onFloat`. Where a header leads out of the document, through `__proto__` or in a table that has an array for its prototype, the model stops.
- TomlDocuments.DocumentReads: arrays on one line under the root table; headers and multi-line arrays are modelled without a round trip.
- The text decoding that follows base64url decoding.
- Histograms: values are real numbers without rounding; minimum and maximum, refusal of non-finite or negative values in `recordLatency`, label escaping and rendering.
- Durations: deadlines fire at any time.
- The remaining transports, loggers, context merging, configuration, CLI, OpenTelemetry bridge and the SDKs in other languages.
