# Proof of existence: a verified model

The program takes documents, and gives evidence later that they existed. A document is put into a cache. From there
two halves take it independently. The persister batches documents into a Cassandra table. The registrar folds a batch
into a Merkle root, has the chain register the root, and when the chain's event arrives writes a digest into the rows of
the batch. To verify a document, all rows with its digest are read back, the root is computed again from them, and the
chain is asked about that root. The two halves share nothing but the table, and neither waits for the other.

The model follows the program's parts:

- `Lexicographic`, `Merkle`, `Documents`, `Proofs`: from a batch to its root. The leaf string of a document, sorting in
  place, the Merkle tree kept as a stack of perfect subtrees, and what an equal root says about two batches.
- `Cassandra`: the table as a map of rows whose column groups may be null, and the persister's statements as upserts.
- `Kafka`, `ChannelCreation`, `Memory`: the two caches. `Kafka` is a step system over logs, consumers and bounded
  channels, and a class whose calls are its steps. `ChannelCreation` takes the creation of a channel apart.
- `Persister`: the select loop with getters, channel, queue, semaphore and database writes, as a step system with a class
  for the loop's own code.
- `Ring`: the pointer ring of Go's `container/ring` and the round-robin balancer on it.
- `Blockchain`: the registrar's methods, with failover over the peers and the filter on chain events. `Failover`: calls
  that share the ring of peers and interrupt each other.
- `Registrar`, `System`: the registrar's goroutines and their clock as steps, and the whole program as one step system in
  which the Kafka cache feeds both halves and both write to one table.
- `EndToEnd`: what holds at verification time. `Forsaken`: which batches can never verify. `Completions`: what repeated,
  overlapping, early and failing completions do over whole runs. `Witnesses`: runs of the whole system that show that
  what the theorems do not exclude does happen.

The main result is `EndToEnd.VerificationAgrees`. In every reachable state of the whole system, take a batch of which an
update has reached the table. The rows found by its digest are the rows of exactly its documents, and they give the
registered root again if and only if every document of the batch has been inserted. If one is missing they give a root
that the chain was never asked to register, for any batch, so verification fails as it should.
`Witnesses.DocumentVerifies` is a run in which its premises hold and verification succeeds, and in
`Witnesses.SkippedNeverVerifies` it fails for good. Once the persister is quiet, verification fails exactly for the
batches with a document that was logged before the persister subscribed, or whose write failed
(`Forsaken.VerifiesWhenNoneForsaken`).

A run is a sequence of states and labels; what is left open by the program (which goroutine moves, whether a write, a
dial or a send succeeds, what a map iteration yields first) is left open in the label, in an argument, or by choosing any
value. So each theorem about reachable states is about every interleaving.

## What is taken as given

- A Go string is a `string` with one `char` for each byte, so comparing chars is comparing bytes.
- Hash functions are arguments. SHA-256 gives 32 bytes. Nothing is assumed about all inputs: where collisions matter,
  `CollisionFree`, `Separated` and `EndToEnd.Unclashed` speak only of strings hashed for the batches at hand.
  That the Merkle root determines its leaves is proved from this.
- Ids are 128 characters and fresh. Submission times are positive.
- The chain's event for one transaction always reports the same, and the digests made from what it reports differ for
  batches with different roots. The chaincode is not part of this model.
- Kafka gives each consumer group each log entry of a topic once, in order. A new group starts at the end of the log.
- The clock is monotone: a reading is never less than an earlier one.
- In `Kafka` and `System`, finding that there is no channel and making one is a single step. `ChannelCreation` is about
  what happens otherwise.
- Where a theorem is about leaves of different documents, submission times have 19 digits (`Documents.Timely`): they are
  between September 2001 and the end of the 64-bit nanosecond clock.
- A database batch takes effect at one point or not at all, and writes take effect in the order of arrival.
- A transaction id is new when the chain returns it: storing a batch under a used id compares slices in Go, which panics.

## Where the code and what it is meant to do differ

- `Remove` of the balancer is meant to take away one backend. It does so only in the cases of `Ring.RemoveTakesOneWhen`.
- The cache interface promises every subscriber the documents of a topic. The memory cache gives each to the first
  customer that asks (`Memory.DeliveredOnce`), even if another had subscribed before the document came
  (`Memory.SecondCustomerGetsNothing`), so the whole system is modelled with the Kafka cache.
- `proofStatus` is meant to tell whether there is a proof. A row with a proof says so exactly if its document has not
  been inserted since its last digest update (`Completions.StatusOfProvenRow`); a run ends with a proof and NOT_PROOFED
  (`Witnesses.ProvenButNotProofed`).
- Repeated completions are meant to change nothing. Digest, transaction id and the batches kept are as one completion
  leaves them (`Completions.ProofIsWrittenOnce`, `Completions.RepeatsForgetNothing`). The time of proof goes back exactly
  if the later of two updates read the clock first, with the clock moving in between; never for a completion begun after
  the last update (`Completions.TimeGoesBackWhen`, `Witnesses.ProofTimeGoesBack`).
- An event is meant to complete its batch. It does so exactly if it comes after the batch was stored and before it was
  forgotten, and reports on it (`Completions.CompletedWhen`). An event that overtakes the storing of its batch is lost
  (`Completions.EarlyEventIsLost`, `Witnesses.EventOvertakesStore`).
- A completion whose update fails forgets its batch all the same. Without another update under way, the batch never gets
  its digest (`Completions.MissedForGood`, `Witnesses.UpdateFails`).
- Every document is meant to reach the table. One that is logged before the persister subscribes, which it does only when
  it first fetches, or whose write fails, never does, and its batch verifies in no continuation
  (`Forsaken.NeverVerifies`).
- The persister's `Close` looks at the channel and then at the queue, and at nothing else. What it misses is stated by
  `Persister.CloseIsCompleteWhen`; it does miss documents that getters hold (`Persister.CloseMayForsakeDocument`), and
  documents sent on the channel between the two looks (`Persister.CloseMayBeOvertaken`).
- `execute` is meant to try every peer before it gives up. It does so unless calls that interrupt it shift its turns by
  whole rounds (`Failover.TriesEachOnceWhen`); with two peers one interruption is enough (`Failover.OnePeerTwice`).
- The event loop stops for good at the first event it is not interested in (`Blockchain.EventsLostWhen`).
- Goroutines that find no channel each make one. What was sent is within reach of the next `Get` exactly if each channel
  that was replaced was empty or has been drained by calls that had found it before (`ChannelCreation.ReachedWhen`); what
  is left in a channel that nobody is reading is lost for good (`ChannelCreation.DocumentInLostChannel`).
- The leaf of a document has no separators; digits at the start of the metadata can be read as part of the duration, and
  digits at the end of the duration as part of the metadata. So every document that waits for ten nanoseconds or more has
  a double (`Documents.LeafCollisions`, `Documents.LeafDoublesWhen`).

## Model

| member | source | states |
|---|---|---|
| EndToEnd.VerificationAgrees | blockchain/blockchain.go:131-155 | in every reachable state, for a batch with an update in the table: the rows with its digest are those of its documents; its root is registered; the root recomputed from the rows, in any order, is the registered one iff every document has been inserted, and, unless hashed strings collide, is registered at all only then |
| EndToEnd.Provenance | blockchain/chaincode.go:236-271 | a row has digest and txid only if its document was in the batch stored under that txid, the event reported that batch's root, and the digest is the hash of what it reported |
| EndToEnd.ProvenanceInBytes | blockchain/chaincode.go:255-261 | and the digest in the row decodes from hexadecimal, byte by byte, to the SHA-3 hash of what the event reported for the batch's root |
| EndToEnd.DigestWhenApplied | persist/cassandra/cassandra.go:137-160 | either every row of a batch carries its transaction or none does, and they do iff an update of one of its completions succeeded |
| Completions.ProofIsWrittenOnce | blockchain/chaincode.go:192-196 | no step of any goroutine, repeated events included, changes a row's digest or txid once set; only a repeated update of the same transaction changes the time of proof, and to its stamp |
| Completions.TimeGoesBackWhen | persist/cassandra/cassandra.go:142-154 | over whole runs: an update sets the time of proof back iff it read the clock before the update whose time is in the row did and the clock has moved in between; a completion begun after that update never does |
| Completions.RepeatsForgetNothing | blockchain/chaincode.go:268-269 | after one completion of a txid is done, another one's deletion changes neither what is kept nor any batch, and a further event changes nothing |
| Completions.ForgottenForGood | blockchain/chaincode.go:58-62 | over whole runs: a txid that was stored and is not kept any more is never kept again |
| Completions.ForgottenWhen | blockchain/chaincode.go:200-210 | over whole runs: a batch that is kept is forgotten iff a completion of its transaction ends, or Close clears what is kept |
| Completions.CompletionInTurn | blockchain/chaincode.go:236-271 | over whole runs: a completion that is done began with an event while its batch was kept, then read the clock, then tried the update, and only then forgot the batch, whatever came in between |
| Completions.StatusOfProvenRow | persist/cassandra/cassandra.go:88-97 | over whole runs: a row with a proof has status NOT_PROOFED iff an insert of its document came after its last digest update, and ALREADY_PROOFED otherwise |
| Completions.SignOfRow | persist/cassandra/cassandra.go:162-177 | over whole runs: a row has the last signature that it was given, and none if it was given none, whatever is inserted, updated and repeated |
| Completions.CompletedWhen | blockchain/chaincode.go:239-259 | over whole runs: a txid has a completion iff an event for it came while its batch was kept, with a payload that reports on it |
| Completions.MissedForGood | blockchain/chaincode.go:268-269 | in no continuation does a row get the digest of a batch that was forgotten before an update of it succeeded, once none of its completions is still to update |
| Witnesses.DocumentVerifies | blockchain/blockchain.go:110-171 | a run of the system, for any document, in which it is registered, completed and inserted: all premises of VerificationAgrees hold, and what is read back has a registered root |
| Witnesses.ProofTimeGoesBack | persist/cassandra/cassandra.go:142-154 | a run of the system under a monotone clock, for any document, in which the second of two overlapping completions sets the time of proof back |
| Witnesses.ProvenButNotProofed | persist/cassandra/cassandra.go:88-97 | a run of the system, for any document, that ends with a proof in the row and status NOT_PROOFED |
| Witnesses.EventOvertakesStore | blockchain/blockchain.go:164-169 | a run in which an event comes between acceptance and storing and changes nothing; the batch is then kept, and without another event no continuation completes it |
| Witnesses.UpdateFails | blockchain/chaincode.go:268-269 | a run, for any document, in which the update fails and the batch is forgotten: the premises of MissedForGood hold |
| Witnesses.SkippedNeverVerifies | persist/persist.go:114-119 | a run, for any document, in which it is put before the persister subscribes and its digest is in the table: the premises of MissingIsNotRegistered hold, and the document is forsaken |
| EndToEnd.RegistrarConservation | blockchain/blockchain.go:173-206 | a document was given to the registrar iff it is in a batch; it is in one batch only, once; a pending batch is what is kept under its txid |
| EndToEnd.BatchesAreOrderly | blockchain/blockchain.go:189-205 | in every run the registrar begins no batch of a topic while another of it is collected or registered, and takes at most the topic's limit of documents into one |
| EndToEnd.BatchesInOrder | blockchain/blockchain.go:177-187 | in every run the batches of a topic, one after the other, are what the cache gave the registrar of it, in order |
| EndToEnd.RegisteredWhen | blockchain/blockchain.go:164-169 | over whole runs: a root is registered iff a batch with documents and this root was sent and not refused, whether or not the reply came |
| Forsaken.StepKeepsFetched | persist/persist.go:110-131 | every step of the system keeps: the persister has fetched exactly what the cache gave it, each document once |
| Forsaken.NeverVerifies | persist/persist.go:114-119 | in no continuation does a batch with a document that was logged before the persister subscribed, or whose write failed, give a registered root |
| Forsaken.VerifiesWhenNoneForsaken | blockchain/blockchain.go:131-155 | once the persister has been given all that was logged since it subscribed and has settled it, what is read back for a batch has a registered root iff no document of it is of that kind |
| EndToEnd.FoundAreBatch | persist/cassandra/cassandra.go:179-190 | no two batches have one digest: the rows found by a digest have exactly the ids of its batch |
| EndToEnd.AllInsertedAgree | blockchain/blockchain.go:131-138 | with all documents inserted, what is read back has the registered root |
| EndToEnd.MissingDisagree | blockchain/blockchain.go:131-138 | with a document missing, its row exists but reads back blank, and the root differs from that of any batch compared with it, its own or another |
| EndToEnd.MissingIsNotRegistered | blockchain/blockchain.go:131-155 | with a document missing, the recomputed root is not among the roots registered, lost replies included |
| EndToEnd.EventIsItsSteps | blockchain/chaincode.go:236-271 | handling an event in one go is the goroutine's separate steps run without interruption; a refused event changes nothing |
| EndToEnd.RegisterIsItsSteps | blockchain/blockchain.go:157-171 | registering a batch in one go is the goroutine's separate steps run without interruption, for every outcome of the call |
| Registrar.LostReply | blockchain/blockchain.go:164-168 | a reply that is lost leaves the root registered, and keeps nothing |
| Completions.EarlyEventIsLost | blockchain/blockchain.go:164-169 | over whole runs: if no event for a txid comes while its batch is kept, no row ever gets that txid, and its batch once stored is kept until Close |
| System.StepKeepsInv | persist/cassandra/cassandra.go:85-160 | every step of cache, persister, registrar and database keeps the invariant that ties logs, batches and rows together |
| System.CollectKeepsBatches | blockchain/blockchain.go:177-187 | a batch only ever takes a document that is in no batch yet |
| System.TransactionsAreDisjoint | blockchain/blockchain.go:158-171 | batches of different transactions share no document id |
| System.InsertKeepsBodies | persist/cassandra/cassandra.go:85-105 | after a write a row has the body of its document iff that document was written, whatever was in the row before |
| System.UpdateKeepsProofs | persist/cassandra/cassandra.go:137-160 | an update leaves every other batch's proofs alone and gives all rows of its own batch the proof |
| Registrar.StepKeepsInv | blockchain/chaincode.go:36-68 | what is kept by txid is exactly the batches that are pending; every completion holds the batch and the digest of its transaction; a batch whose completion is done is not kept; no stamp is ahead of the clock; every registered root is that of a batch |
| Registrar.StepGrows | blockchain/chaincode.go:236-271 | no step drops a batch, changes one that was sent, or takes one back from stored, handled, cleared or failed |
| Merkle.Tree.Push | vendor/github.com/NebulousLabs/merkletree/tree.go:173-246 | pushing keeps the stack a decomposition of all leaves pushed into perfect subtrees of increasing height |
| Merkle.Tree.RootSum | vendor/github.com/NebulousLabs/merkletree/tree.go:249-263 | collapsing the stack gives the root defined by recursion on the leaves, split at the largest power of two below their number, and the one computed level by level |
| Merkle.RootOfJoin | vendor/github.com/NebulousLabs/merkletree/tree.go:79-95 | joining a perfect subtree with at most as many leaves on its right gives the root of all of them |
| Merkle.CollapseStep | vendor/github.com/NebulousLabs/merkletree/tree.go:255-262 | one join of the collapse keeps the sum the root of the leaves joined so far |
| Merkle.RootIsTop | vendor/github.com/NebulousLabs/merkletree/tree.go:65-77 | the root is what comes out on top when each leaf is hashed behind a byte 0 and then, level by level, neighbours are hashed together behind a byte 1, left before right, and an odd one goes up as it is |
| Merkle.RootDeterminesLeaves | vendor/github.com/NebulousLabs/merkletree/tree.go:65-77 | equal roots mean equal leaf sequences, of any lengths, unless two strings hashed for them collide |
| Proofs.FormatDocs | blockchain/blockchain.go:110-129 | fills, sorts in place and folds: the result is the root of the sorted leaves, empty for no documents |
| Proofs.RootInWords | blockchain/blockchain.go:110-129 | the root decodes from hexadecimal to what comes out on top of the batch's strings, of which each that comes later is a continuation or greater at the first difference |
| Proofs.HexIs | blockchain/blockchain.go:125 | hexadecimal text has two lower-case digits for each byte, the first of which counts sixteen times |
| Proofs.RootIsCanonical | blockchain/blockchain.go:115-119 | the root is the same for every order of the batch and whatever the fields outside the leaf are |
| Proofs.RootDeterminesBatch | blockchain/blockchain.go:110-129 | two batches have one root iff they have the same leaves as often |
| Proofs.CommonRootCommonId | blockchain/blockchain.go:110-129 | batches with one root share a document id |
| Lexicographic.SortStrings | blockchain/blockchain.go:119 | sorts the array in place into the one sorted arrangement of its strings: of two places the later one continues the earlier or is greater at the first difference |
| Lexicographic.LeqIs | blockchain/blockchain.go:119 | the order is: a beginning of the other, or smaller at the first place where they differ |
| Lexicographic.SortedIsUnique | blockchain/blockchain.go:119 | a multiset of strings has one sorted arrangement, so any sorting algorithm gives it |
| Documents.LeafCollisions | blockchain/blockchain.go:117 | leaves are equal iff id and time are, and duration and metadata are up to digits that may belong to either |
| Documents.NumeralReadsBack | blockchain/blockchain.go:117 | a numeral has a sign iff the number is negative, then decimal digits without zeros in front that stand for its magnitude |
| Documents.LeafInjective | blockchain/blockchain.go:117 | the leaf determines all four fields if no metadata starts with a digit |
| Documents.LeafDoublesWhen | blockchain/blockchain.go:117 | a document with a 64-bit duration has a double with a 64-bit duration iff its duration has two digits or more, or is not zero and can take the digit that its metadata starts with |
| Cassandra.ColumnsAreLastWrites | persist/cassandra/cassandra.go:85-177 | after any statements each column group of a row holds what the last one writing it wrote |
| Cassandra.UpsertsConverge | persist/cassandra/cassandra.go:85-177 | the same statements in any order and repetition leave every column but proofStatus the same |
| Cassandra.RoundTrip | persist/cassandra/cassandra.go:85-177 | a document that is inserted, given a digest and signed is read back with every field as it was written, whatever was in the row before |
| Cassandra.StatusIsLastWriter | persist/cassandra/cassandra.go:88-97 | proofStatus is ALREADY_PROOFED iff the last INSERT or digest UPDATE of the row is an UPDATE |
| Cassandra.StatusTellsProofWhen | persist/cassandra/cassandra.go:144-153 | after any statements with a digest UPDATE of the row, the proof is that of the last one, and the status ALREADY_PROOFED iff no INSERT of the row follows it |
| Cassandra.CassandraPersister.PutDocsIntoDB | persist/cassandra/cassandra.go:85-105 | inserts all documents, or none if the session fails, and never reports a failure |
| Cassandra.CassandraPersister.SetDocsBlockDigest | persist/cassandra/cassandra.go:137-160 | updates all rows with one stamp, or none and reports it; nothing for no ids |
| Cassandra.CassandraPersister.SetDocSignature | persist/cassandra/cassandra.go:162-177 | sets one column, refusing an empty id or signature |
| Cassandra.CassandraPersister.GetDocFromDBByDocID | persist/cassandra/cassandra.go:107-135 | the row of an id, each field from its own column and a zero value for each null one, or an error |
| Cassandra.CassandraPersister.IterToDocs | persist/cassandra/cassandra.go:293-319 | for any order of the cursor, each matching row once and no other, each field from its own column |
| Cassandra.CassandraPersister.FindDocsByBlockDigest | persist/cassandra/cassandra.go:179-190 | lists exactly the rows with this digest, and the documents returned carry it; refuses an empty one |
| Cassandra.CassandraPersister.FindDocsByHash | persist/cassandra/cassandra.go:192-203 | lists exactly the rows with this hash, and the documents returned carry it; refuses an empty one |
| Persister.Conservation | persist/persist.go:110-186 | in every reachable state each document fetched is with a getter, in the channel, in hand, queued, being written, written or failed, as often as it was fetched |
| Persister.Batching | persist/persist.go:134-186 | batches handed over, then queue, then hand are the documents received in order; batch sizes, queue, channel and running writes are bounded |
| Persister.HandedWhen | persist/persist.go:168-184 | over whole runs: a batch has fewer than queueSize documents iff the timeout led to its hand-over, and is as long as can be iff the document that filled the queue did |
| Persister.GettersKeepOrder | persist/persist.go:110-131 | in every run a getter is for a configured topic, gets at most the topic's limit, and sends what it got in order |
| Persister.Progress | persist/persist.go:107-144 | with a permit to give out no state is stuck before all is settled, even with a full channel and the loop waiting for the semaphore |
| Persister.QuietRunIsBounded | persist/persist.go:160-186 | once fetching stops every step lowers a measure, so only so many are left |
| Persister.QuietRunDrains | persist/persist.go:160-186 | a run without further fetching that cannot go on has written or failed every document that was fetched |
| Persister.CloseIsCompleteWhen | persist/persist.go:194-203 | over whole runs: when Close goes on, having found the channel empty at one step and the queue at a later one, all is settled iff no getter holds a document, none is in hand, no write runs, and as many documents came off the channel in between as were sent on it |
| Persister.CloseMayForsakeDocument | persist/persist.go:194-203 | a run in which Close goes on while a getter holds a fetched document |
| Persister.CloseMayBeOvertaken | persist/persist.go:195 | a run in which a document is sent after Close has looked at the channel: no getter holds it, none is in hand, no write runs, and it is not settled |
| Persister.PersistLoop.PutDocumentsIntoDB | persist/persist.go:134-144 | hands a copy of the queue to a new write, or waits for a permit with the queue untouched |
| Persister.PersistLoop.OnDocument | persist/persist.go:168-176 | takes the first document off the channel; keeps it queued while the queue is below queueSize, and else hands the whole queue over, or waits for a permit with it |
| Persister.PersistLoop.OnTimeout | persist/persist.go:177-184 | hands over what is queued, or waits for a permit; nothing for an empty queue |
| Persister.PersistLoop.OnTick | persist/persist.go:162-167 | starts a getter for each configured topic under a permit that it gives back, or waits for one |
| Persister.PersistLoop.OnPermit | persist/persist.go:138-144 | goes on with what was waiting for the permit: the write of the queue, or the getters |
| Kafka.Delivery | cache/kafka/kafka.go:192-217 | delivered, then channel, then message in hand are the log from the subscription point to the read position |
| Kafka.DeliveredOnce | cache/kafka/kafka.go:134-158 | what a consumer was given is a prefix of the stream, without a repeated id |
| Kafka.ConsumersSeeOneStream | cache/kafka/kafka.go:161-190 | two consumers given the document at one place of a log were given the same one |
| Kafka.OffsetBound | cache/kafka/kafka.go:214-215 | at most one enqueued document is unmarked, and marked ones exceed delivered ones by at most the channel, which holds at most the limit |
| Kafka.StepKeepsInv | cache/kafka/kafka.go:192-247 | every step keeps each consumer's lanes consistent with the logs and each id at one place |
| Kafka.KafkaCache.Put | cache/kafka/kafka.go:102-132 | appends to the topic's log, or changes nothing if sending fails |
| Kafka.KafkaCache.Subscribe | cache/kafka/kafka.go:161-190 | starts a consumer once, at the end of every log; refuses a topic that is not configured |
| Kafka.KafkaCache.HandleMessage | cache/kafka/kafka.go:200-216 | reads, enqueues and marks one message: the step system's steps in a row, up to the wait before a full channel |
| Kafka.KafkaCache.SendAndMark | cache/kafka/kafka.go:214-215 | enqueues and marks the message in hand once there is room |
| Kafka.KafkaCache.Get | cache/kafka/kafka.go:134-158 | the oldest documents of the channel, as many as there are up to count, which are taken off it |
| ChannelCreation.Conservation | cache/kafka/kafka.go:134-158 | for any number of channels: what was sent is what was returned and what is in all of them, sent on one channel after the other, and each channel gives back in order what was sent on it |
| ChannelCreation.ReachedWhen | cache/kafka/kafka.go:232-247 | over whole runs: all that was sent is returned or in the channel that the next Get finds iff each channel that was replaced was empty then, or as much has been taken from it since as was in it and sent late |
| ChannelCreation.OnlyEarlierFindersDrain | cache/kafka/kafka.go:135-152 | a Get that looks after a channel was replaced takes nothing from it; at most one document is sent on it late, by a sender that had found it |
| ChannelCreation.CallIs | cache/kafka/kafka.go:134-158 | over whole runs: a Get keeps to the channel that was in the map when it looked, takes no more than it asked for, and returns with less only because it found that channel empty |
| ChannelCreation.SentWhereFound | cache/kafka/kafka.go:214 | over whole runs: a document goes on the channel that was in the map when the sender last looked, and on no other, even if that one has been replaced |
| ChannelCreation.OrderKeptWhen | cache/kafka/kafka.go:232-247 | over whole runs: what was sent is in order what was returned and then the newest channel iff the replaced channels are empty and what was returned is what was taken channel by channel; if no document is sent twice, iff they are empty and no step took from an older channel after one took from a newer |
| ChannelCreation.LostForGood | cache/kafka/kafka.go:232-247 | a document in a replaced channel that no call is reading is returned in no continuation, unless it is sent again |
| ChannelCreation.SecondChannelWhen | cache/kafka/kafka.go:232-240 | each channel made or about to be made comes from one look that found none, and none finds none after the first is made |
| ChannelCreation.DocumentInLostChannel | cache/kafka/kafka.go:232-240 | a run in which a document that is sent ends up in a replaced channel, out of reach; no continuation returns it |
| Memory.MemoryCache.Put | cache/memory/memory.go:48-71 | holds the document under its id in its topic |
| Memory.MemoryCache.Subscribe | cache/memory/memory.go:124-133 | always succeeds and records the topic |
| Memory.MemoryCache.GetLocked | cache/memory/memory.go:91-121 | for every iteration order: distinct unread documents, exactly min(max(count, 0), unread), removed from the topic and recorded as read, and nothing else changes |
| Memory.MemoryCache.Get | cache/memory/memory.go:85-122 | subscribes first, even if there is no such topic; then as GetLocked |
| Memory.GetsInWords | cache/memory/memory.go:94-121 | distinct documents, at most as many as asked for, each held and unread before and neither after; fewer only if nothing unread is left; other topics stay |
| Memory.MemoryCache.Close | cache/memory/memory.go:136-142 | drops the documents and forgets nothing about what was read |
| Memory.Ledger | cache/memory/memory.go:48-142 | in every run each document put has one fate: held, delivered to one customer, dropped or overwritten; the held ones are those in the cache |
| Memory.GetSettlesItsEntries | cache/memory/memory.go:100-119 | a Get delivers precisely the held entries of the documents it returns |
| Memory.NoCustomerReadsTwice | cache/memory/memory.go:102-115 | no customer gets an id of a topic twice, even if it is put again, even after Close |
| Memory.DeliveredOnce | cache/memory/memory.go:108 | unless an id is put again only one customer gets it |
| Memory.SecondCustomerGetsNothing | cache/memory/memory.go:94-121 | a run in which of two customers that have subscribed one gets the document, and the other can only get nothing |
| Memory.TopicDrains | cache/memory/memory.go:85-122 | without new documents a customer that asks for k of n unread ones leaves at most n - k, whatever else is called in between |
| Ring.RoundRobin.constructor | blockchain/balance.go:57-64 | the ring holds the configured backends in order |
| Ring.RoundRobin.Len | blockchain/balance.go:66-70 | the number of backends, zero for no ring |
| Ring.RoundRobin.Choose | blockchain/balance.go:72-81 | the first backend, which goes to the end; nothing for no ring |
| Ring.RoundRobin.Add | blockchain/balance.go:83-92 | the new backend becomes second and the cursor moves three on, around the ring: of three or more old ones the first two go behind the others, with the new one between them |
| Ring.RoundRobin.Remove | blockchain/balance.go:94-111 | nothing is left of one; of more, all if none has the name, else one |
| Ring.RemovedIs | blockchain/balance.go:102-110 | what is left is the backend behind the first one of the name, scanning from behind the cursor around the ring |
| Ring.RemoveTakesOneWhen | blockchain/balance.go:94-111 | Remove takes away one backend of the name, or nothing if there is none, iff the ring has two or none, or one of that name, or more without that name |
| Ring.ChoiceIsFair | blockchain/balance.go:72-81 | over any number of calls from any point each backend is chosen between q and q + 1 times as often as it is configured, with one q for all |
| Blockchain.BlockchainClient.GetGrpcConn | blockchain/chaincode.go:212-233 | dials until one succeeds, all before it having failed, at most failOver times |
| Blockchain.BlockchainClient.Execute | blockchain/chaincode.go:125-165 | in a call that no other one interrupts, the peers are tried in ring order, each at most once, until one connects; it fails to connect only if all refuse; the ring turns by the number tried |
| Failover.TriesAreTurns | blockchain/chaincode.go:134-143 | however calls interrupt each other, each turn of the ring goes to one call, and what a call tries is in order its part of the peers chosen by all |
| Failover.TriesEachOnceWhen | blockchain/chaincode.go:134-147 | with distinct peers, a call tries none twice iff no two of its turns are whole rounds apart; a call that gave up has tried all peers iff that is so |
| Failover.ConnectsOnce | blockchain/chaincode.go:134-147 | over whole runs: a call has connected iff one of its tries did, and after that it tries no more |
| Failover.UninterruptedInOrder | blockchain/chaincode.go:134-143 | a call whose turns follow each other tries the peers in ring order |
| Failover.OnePeerTwice | blockchain/chaincode.go:134-147 | with two peers, a run in which an interrupted call tries one twice and gives up without trying the other |
| Blockchain.DialsBounded | blockchain/chaincode.go:134-143 | one execution makes at most as many dials as there are peers, times failOver |
| Blockchain.BlockchainClient.RegisterProof | blockchain/blockchain.go:157-171 | asks the peers to register the batch's root, and keeps the batch under the txid replied, or keeps nothing if there is no root, no peer or no reply |
| Blockchain.BlockchainClient.VerifyDocs | blockchain/blockchain.go:131-155 | true iff there is a root, a peer connects, and the chain says that the root recomputed from the documents exists |
| Blockchain.BlockchainClient.InvokeCompleted | blockchain/chaincode.go:236-271 | refuses an event without batch, payload or root and changes nothing; otherwise forgets the batch, and if the database takes it each row of the batch has the txid, the time, and a digest that decodes to the SHA-3 hash of the payload's entry for its root, and no other row changes |
| Blockchain.ProcessEvents | blockchain/event.go:138-162 | hands over the events of this chaincode named invoke_completed before the first other one, where it stops, and reports an error only of a stream read to its broken end |
| Blockchain.EventsLostWhen | blockchain/chaincode.go:83-96 | all interesting events are handled iff none comes after an uninteresting one |

## Left out

- HTTP handlers, configuration, logging, signals, period parsing and statistics: nothing hard is in them.
- gRPC, the event hub, sarama and gocql: their outcomes are arguments, labels or arbitrary values.
- SHA-256, SHA3, MD5 and ECDSA: hash functions are arguments; signatures are strings.
- The proof set that the Merkle tree collects beside the root: the program never asks for it.
- Go's own sorting algorithm: `Lexicographic.SortStrings` is an insertion sort, which leaves the same array.
- The listing queries FindDocs, FindRegisteredDocs and FindProofedDocs, and cell timestamps and replicas of Cassandra.
- Kafka topics with several partitions, rebalancing, and the Close of the Kafka cache, which does not end.
- Kafka.KafkaCache.Get: the calls between which other goroutines run are one step each in the step system; the method is their uninterrupted sequence, and a limit of zero, with which `Get` is never asked for anything, has no channel.
- Blockchain.BlockchainClient.RegisterProof: the reply is an argument; that the chain may register a root and the reply be lost is a step of `Registrar`.
- System.StepKeepsInv: the registrar's Close is a step (`Clear`); closing the database and the cache while the rest runs is not.
- Ring.RoundRobin.Choose: the lock makes each call one step, so interleaved callers are one sequence of calls.
- Aliasing of document pointers: documents are values, as none is written to after it was made.
