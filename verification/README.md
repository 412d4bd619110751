# Verified model of concrnt

A Dafny model of the parts of concrnt, a federated social-network server, whose guarantees
span several functions: the chunkline reader that merges many timelines, the commit path with
its replay guard and garbage collection, the federation of acks, the leader's peer
subscriptions, proof verification, the job queue, and the id, paging, range-delete and policy
algebra under them. Pure code is modelled by functions and lemmas; code that changes state is
modelled by methods and classes that are proved against those functions; protocols are state
machines whose theorems hold in every run, for every interleaving of their steps.

Check everything with `dafny verify dfyconfig.toml`.

## Modules

| file | what it holds |
|---|---|
| `Wrappers.dfy` | the option type |
| `Chunkline.dfy`, `Merge.dfy`, `MergeCost.dfy`, `MergeReference.dfy`, `ChunklineServer.dfy` | chunk arithmetic, the heap merge, how many pops it takes, "sort everything and cut" as its reference, and the server queries that meet the merge's contract |
| `Bits.dfy`, `Cdid.dfy` | bit regrouping, document ids, their text form and their order |
| `RangeDelete.dfy`, `Deletion.dfy`, `KeyTaking.dfy` | LIKE patterns for subtree deletes; what an applied delete removes and flags, and when one applies; what an applied record changes |
| `Store.dfy`, `StoreInvariant.dfy`, `Replay.dfy`, `Repository.dfy` | the tables and one commit, the invariant, whole runs, and the same as a class with transactions and loops |
| `Resurrection.dfy`, `LogListing.dfy` | when a collected document takes effect again; the listings of the commit log itself |
| `AcceptIfNewer.dfy`, `AckFederation.dfy` | concurrent commits to one key; acks across two servers |
| `Subscriber.dfy`, `SubscriberInvariant.dfy`, `SubscriberRuns.dfy`, `LeaderSubscriber.dfy`, `Keeper.dfy` | the leader's subscriptions as a state machine, its invariant, whole runs, the object with its loops, and keeper ticks against sessions |
| `Verify.dfy`, `JobQueue.dfy`, `Paging.dfy`, `Policy.dfy` | proof chains, the queue over Redis, cursors, policy stacks |

## What turned out false, and exactly when it holds

- **Merge completeness.** The reader drops a timeline whose first body lies wholly at or after
  `until`; on a table a server can hold that is exactly a flood of 32 or more rows in the two newest
  chunks, none before `until` (`ChunklineServer.MergeDropsExactly`). `ChunklineServer.DropLosesAnItem`
  is such a table, whose older item no answer holds. A drained answer holds all a timeline offers
  if and only if each of its ids is offered by a timeline that was not dropped
  (`MergeReference.CompleteExactly`). An answer short of the limit is drained if and only if the
  query's cost in pops is within the cap of 1000 (`Merge.QueryDescending`), and that cost is at
  most twice the items before `until` (`MergeCost.CostBound`).
- **GC changes no answer.** No row changes, and no answer by key, association, edge or entity.
  Fetching by document id changes exactly for the collected ids (`Replay.GcInvisible`), the replication
  feed and the repository dump read the log without regard to the flag and lose exactly the
  collected ids, order kept (`LogListing.CollectionShowsInFeed`, `LogListing.CollectionShowsInDump`),
  and a commit of a collected document is refused by the window instead of being known, unless
  it is exempt (`Resurrection.CollectedTakesEffectIffExempt`).
- **A document never takes effect twice.** The author's own import of a deleted and collected note
  brings it back (`Resurrection.ImportUndoesDelete`); a collected record, association or delete takes
  effect again exactly when the commit is exempt and the checks and tables let it in
  (`Resurrection.CollectedTakesEffectIffExempt`).
- **Superseded records are flagged.** Two overlapping commits to a fresh key leave the loser
  unflagged (`AcceptIfNewer.FreshKeyRaceLeavesUnflagged`); a winner flags what it displaced exactly
  when its check had found a row (`DisplacedIsFlagged`).
- **A stamped, wanted prefix survives a keeper tick.** `EnsureSubscriptions` reads the clock
  before it takes the lock and overwrites the stamp unconditionally, and the tick compares with a
  strict `After`. Where the session's own ensures read a moving clock, a tick drops a prefix that was
  stamped at some moment and wanted ever since exactly when its snapshot misses it and somebody
  else's ensure, which had read the clock no later than the tick began, wrote the stamp last (`Keeper.StampedIsDroppedExactly`).
  `Keeper.StaleStampDrops` is a run on an always moving clock in which that happens, and
  `Keeper.TieDrops` one without any stale stamp in which the clock does not move.
- **Jobs are never lost.** A mover that stops between adding a job to the stream and removing
  it from the retry set can meanwhile have the job die, be reinjected and fail again into the very
  member it then removes (`JobQueue.CarelessReinjectionLoses`). A job of which no such rewritten
  member is removed is conserved, whatever happens to others (`JobQueue.JobsConserved`); a removal
  gives a place up exactly under `JobQueue.UnscheduleGivesUpExactly`; and never reinjecting a job
  mid-move is enough (`JobQueue.PatientReinjectionLosesNothing`).
- **What was stored can be deleted.** An association that brings its associated document along
  may be attached to a placeholder key, but deleting it looks the associated document up, which
  such a key has not (`Resurrection.StuckOnPlaceholder`).
- **Paging terminates** exactly when no sort key is shared by more than `limit` rows
  (`Paging.EndsIffUncrowded`).
- **Repair.** An entry with neither connection nor dial exists only where its last dial's lead
  term has ended (`SubscriberRuns.Ownership`), so `repairBrokenSubscriptions` has no other work.
- **`item*` selects item and its subtree** unless `item` itself ends in a slash
  (`RangeDelete.TargetNotation`).

## Model

| member | source | states |
|---|---|---|
| Chunkline.ChunkSpan | chunkline/types.go:29-35 | an instant is in a chunk before c exactly when it is before c's start time |
| Chunkline.ChunkStart | chunkline/types.go:29-35 | a chunk's start time maps back to that chunk |
| Merge.FirstBefore | chunkline/client.go:76-82 | the binary search finds the first item of a descending body before `until` |
| Merge.FillQueue | chunkline/client.go:70-89 | the heap starts with the newest eligible item of every timeline that is not dropped, and the pops it stands for are the cost of the query |
| Merge.PopMax | chunkline/client.go:22-24 | extraction points at an entry no other is newer than, any of several equals |
| Merge.Advance | chunkline/client.go:113-143 | after an entry is taken, its timeline is re-queued at the next unseen item, from the same or an older body, or has nothing left; each pop takes exactly one off the pops left |
| Merge.PreviousChunkLower | chunkline/client.go:122-143 | every reload asks for a strictly lower chunk than the one it leaves |
| Merge.QueryDescending | chunkline/client.go:50-147 | newest first, distinct ids, only items before `until` that their source did not retract, gap-free for every kept timeline, complete if the queue drained; an answer short of the limit comes from a drained queue if and only if the cost of the query is within the iteration cap |
| MergeCost.BodyCost | chunkline/client.go:121-143 | from an index of a body on, an item of the body's own chunk is popped once and any older one at most twice |
| MergeCost.CostBound | chunkline/client.go:96-97 | the query costs at most two pops for every item before `until` of the timelines that are not dropped, so 500 such items never meet the cap |
| MergeReference.MergedIsSortedCut | chunkline/client.go:50-147 | every newest-first, deduplicated, gap-free answer sorts the pool of eligible entries, one per id, and cuts it, ties in any order |
| MergeReference.SortedCutIsMerged | chunkline/client.go:50-147 | and every such sorted cut is newest-first, deduplicated and gap-free |
| MergeReference.SortedCutIsUnique | chunkline/client.go:22-24 | where no two ids share an instant there is one sorted cut |
| MergeReference.AnswerIsSortedCut | chunkline/client.go:91-146 | where no lookup failed, what the merge returns is a sorted cut of all the kept timelines offer, with ties, shared ids and dropped timelines |
| MergeReference.CompleteExactly | chunkline/client.go:80-105 | a drained merge holds all a timeline offers if and only if each of its eligible ids is offered by a timeline that was not dropped |
| ChunklineServer.LookupHonoursContract | internal/infra/repository/postgres/chunkline.go:80-106 | the iterator query answers the newest non-empty chunk at or before the one asked for, or truthfully none |
| ChunklineServer.BodyHonoursContract | internal/infra/repository/postgres/chunkline.go:115-154 | a body for c is a contiguous newest-first run before the end of c with all of chunks c and c-1 |
| ChunklineServer.ServedTimelineIsValid | internal/infra/repository/postgres/chunkline.go:69-180 | a served timeline meets everything the merge relies on, however ties are ordered |
| ChunklineServer.ServedListsOnce | internal/infra/repository/postgres/chunkline.go:115-180 | where no two keys of a timeline share instant and href, no body lists an item twice, whichever query answered |
| ChunklineServer.DroppedExactly | internal/infra/repository/postgres/chunkline.go:141-154 | the first body lies wholly at or after `until` exactly when the two newest chunks hold 32 or more rows, none before `until` |
| ChunklineServer.MergeDropsExactly | chunkline/client.go:76-82 | the merge drops a served timeline with something before `until` exactly when the chunks its iterator finds hold 32 or more rows, none before `until` |
| ChunklineServer.DropLosesAnItem | chunkline/client.go:80-82 | a table of distinct keys, served in any order, with an eligible row no answer of the merge holds |
| Chunkline.ClampedIsValid | internal/infra/gateway/chunkline_gateway.go:468-471 | not asking past the last chunk of a truthful manifest keeps everything the merge relies on |
| Cdid.SetTime | cdid/cdid.go:57-75 | the six bytes written in place are the big-endian clamped millisecond |
| Cdid.TimeRoundTrip | cdid/cdid.go:30-93 | reading an id's time gives back the clamped millisecond |
| Cdid.AlphabetInOrder | cdid/cdid.go:9-13 | the characters of the 32 digits are the encoding's alphabet, in order |
| Cdid.DecodeEncode | cdid/cdid.go:95-142 | decoding the base32 text gives back any byte string |
| Cdid.ParsePrint | cdid/cdid.go:103-142 | parsing a printed id of either kind gives back the id |
| Cdid.PrintOrder | cdid/cdid.go:63-75 | byte order on printed time ids is the order of (clamped millisecond, data) |
| Cdid.CutoffIsStrict | cmd/conctl/gc-commitlog.go:83-88 | an id sorts below the zero-data id of an instant exactly when its millisecond is strictly below |
| RangeDelete.SelectsExactly | internal/infra/repository/postgres/record.go:1038-1060 | for any base, wildcards included, the escaped pattern selects base (if asked) and exactly the keys extending it by a slash segment, and agrees with the receiving server's prefix test |
| RangeDelete.SiblingsSpared | internal/usecase/record/delete.go:503-507 | a key that merely continues base's last segment is never selected |
| RangeDelete.TargetNotation | internal/usecase/record/delete.go:508-533 | both notations denote the range they spell, the bare asterisk exactly when base does not end in a slash |
| StoreInvariant.CommitGood | internal/usecase/record/commit.go:196-265 | every commit of any kind, applied, lost or refused, keeps foreign keys, one key per record, rows backed by documents of their kind, and no flagged log behind a row |
| StoreInvariant.CommitExtends | internal/usecase/record/commit.go:234-265 | a commit adds at most its own log, record or association, changes no stored document and clears no flag |
| StoreInvariant.CommitMoves | internal/infra/repository/postgres/record.go:86-394 | a commit moves an ack edge only by an ack, an acked edge only by an acked, an entity only by an entity document, and only strictly forward |
| StoreInvariant.CreateRecordGood | internal/infra/repository/postgres/record.go:179-268 | taking a key flags and drops what it supersedes and keeps the invariant |
| KeyTaking.TakesExactly | internal/infra/repository/postgres/record.go:179-268 | an applied record is strictly newer than the holder, takes its key alone, leaves every other key row, and exactly the superseded document that did not ask to be retained loses its row and is flagged |
| KeyTaking.CommitUniques | internal/infra/repository/postgres/record.go:300-312 | no commit ever stores the same association twice under different document ids |
| StoreInvariant.DeleteSweeps | internal/usecase/record/delete.go:144-496 | an applied delete only removes rows and sets flags, and stores its own log |
| StoreInvariant.NothingHangsOff | internal/infra/database/models/core.go:54-79 | deleting flagged logs with their cascades removes the logs and no row |
| StoreInvariant.CollectGood | cmd/conctl/gc-commitlog.go:64-88 | a collection changes the log table alone and keeps the invariant |
| Replay.RunGood | internal/usecase/record/commit.go:19-298 | the invariant holds in every state of every run of commits, ticks and collections |
| Replay.SameIdSameStamp | types.go:141-151 | two documents with one id carry the same clamped millisecond |
| Replay.SameIdReplays | types.go:141-151 | committing the same id by an ordinary path is a replay, with no further demand |
| Replay.StaysGuarded | internal/usecase/record/commit.go:99-125 | a stored document stays in the log or past the backdate window, through any run and any collection that is not refused |
| Replay.ReplayChangesNothing | internal/usecase/record/commit.go:50-57 | once stored, committing that id again by any ordinary path leaves the tables as they are, in every run |
| Replay.NeverTwice | internal/usecase/record/commit.go:99-125 | no document takes effect twice in any run unless the second commit is exempt |
| Replay.NoResurrection | internal/usecase/record/delete.go:166-183 | a deleted or superseded document's row never comes back in any run that resubmits it by ordinary paths |
| Resurrection.StoresExactly | internal/usecase/record/commit.go:50-265 | a commit of a new record, association or delete stores it exactly when the windows, the checks and the tables let it in |
| Resurrection.CollectedTakesEffectIffExempt | internal/usecase/record/commit.go:104-119 | at every moment of every run at which a record, association or delete stored before has been collected, it takes effect again exactly when the commit is exempt, not too far in the future, passes the checks and applies to the tables |
| Resurrection.ImportUndoesDelete | internal/usecase/record/commit.go:105-125 | for any note, its delete and the instant they are sent: commit, delete, eight days, collection and own import are a run in which one document takes effect twice and the deleted key is back |
| Resurrection.StuckOnPlaceholder | internal/usecase/record/delete.go:430-441 | an association attached to a key that holds nothing is stored, and every delete of it by its id is rejected while the tables are so |
| Replay.GcInvisible | cmd/conctl/gc-commitlog.go:83-125 | in every reachable state a collection changes no row and no answer by key, association, edge or entity; fetching by id changes exactly for the collected ids |
| LogListing.ListingIsUnique | internal/infra/repository/postgres/record.go:1489-1493 | receipt time and id decide the order of a listing of the log |
| LogListing.CollectionShowsInFeed | internal/infra/repository/postgres/record.go:1471-1530 | in every reachable state a collection changes the replication feed's listing of any owner and time range exactly by leaving out the collected ids, order kept |
| LogListing.CollectionShowsInDump | internal/infra/repository/postgres/record.go:1440-1469 | and what is left of a repository dump is a repository dump |
| LogListing.RunReceived | internal/infra/database/models/core.go:31 | every log has a receipt time, in every run |
| Replay.LateDeleteIsInvisible | cmd/conctl/gc-commitlog.go:138-194 | deleting a snapshot's ids later, with the server running in between, removes their logs and no row |
| Deletion.DeleteExact | internal/usecase/record/delete.go:185-378 | an applied delete removes a key exactly when it holds a target or a permitted reference to one, and leaves every other key row as it was |
| Deletion.DeleteFlagsExactly | internal/usecase/record/delete.go:166-183 | an applied delete acted on something, flags exactly what it acted on and nobody asked to retain, and its own log exactly when nothing of it is retained |
| Deletion.DeleteLeavesExactly | internal/usecase/record/delete.go:185-378 | it takes exactly the record and association rows of what it acted on and the associations of the keys that went |
| Deletion.DeleteAppliesExactly | internal/usecase/record/delete.go:46-496 | a delete applies exactly when it finds targets, all of kinds that can be deleted as they were addressed and with the documents they are associated with at hand, and something to act on |
| Deletion.NoReferenceLeft | internal/usecase/record/deliver.go:73-95 | after an applied delete no destination here holds the delivered reference unless its policy kept it |
| Deletion.RangeFreesExactly | internal/usecase/record/delete.go:50-64 | after a range delete every selected key is free for any later document, and what else went is a swept reference |
| Repository.Tables.CreateRecord | internal/infra/repository/postgres/record.go:156-270 | the in-place update is the specified one, or nothing |
| Repository.Tables.CreateAssociation | internal/infra/repository/postgres/record.go:272-313 | an association is added once per document and per unique text, and needs its target |
| Repository.Tables.SweepDistribution | internal/usecase/record/delete.go:309-378 | the loop over destinations is the specified sweep |
| Repository.Tables.ApplyDelete | internal/usecase/record/delete.go:161-496 | the loop over targets, with its two flags, is the specified delete |
| Repository.Tables.Commit | internal/usecase/record/commit.go:50-265 | dedup, windows and one transaction that is rolled back unless the document took effect give the specified outcome and keep the invariant |
| Repository.Tables.GcCommitlog | cmd/conctl/gc-commitlog.go:107-125 | the batch loop ends having removed exactly the collectable logs, and counts them |
| Repository.Tables.DeleteBackedUp | cmd/conctl/gc-commitlog.go:182-195 | the batches remove exactly the backed-up logs that are still there |
| AcceptIfNewer.OnlyForward | internal/infra/repository/postgres/record.go:179-252 | in every interleaving the holder's createdAt only strictly increases |
| AcceptIfNewer.EndsAtMaximum | internal/infra/repository/postgres/record.go:236-252 | once all transactions finished the key is at the maximum submitted |
| AcceptIfNewer.SameHolder | internal/infra/repository/postgres/record.go:179-252 | with distinct timestamps any two interleavings, in any arrival order, leave the same holder |
| AcceptIfNewer.Progress | internal/infra/repository/postgres/record.go:184-187 | no interleaving is stuck on the row lock or goes on forever |
| AcceptIfNewer.DisplacedIsFlagged | internal/infra/repository/postgres/record.go:254-266 | a winner flags the clean document it displaced exactly when its check had found a row |
| AcceptIfNewer.FreshKeyRaceLeavesUnflagged | internal/infra/repository/postgres/record.go:236-266 | a concrete interleaving that supersedes a document without flagging it |
| AckFederation.NeverAhead | internal/usecase/record/ack.go:37-146 | at every moment the target's row is a state the acker's server accepted and never newer than the acker's row |
| AckFederation.AgreeOnceHeard | internal/usecase/record/ack.go:70-144 | once the acker's newest accepted state was heard the rows agree in validity and createdAt, whatever late, repeated or reordered deliveries follow |
| SubscriberInvariant.NextInv | internal/worker/LeaderSubscriber.go:486-991 | every step keeps ownership of dials and websockets, watchers and identities |
| SubscriberRuns.Ownership | internal/worker/LeaderSubscriber.go:601-852 | in every interleaving: exactly one dial per dialling state and none otherwise, no connection while dialling, every unclosed websocket current or about to be closed by its holder, every connected entry watched, a broken entry only from an ended term |
| SubscriberRuns.ExitSparesNewer | internal/worker/LeaderSubscriber.go:782-852 | a leaving goroutine removes at most its own host's entry, and only one whose connection is its own and already closed |
| SubscriberRuns.Edges | internal/worker/LeaderSubscriber.go:514-537 | each step that closes a prefix leaves a depth-1 purge due, each that opens one leaves its listen due |
| SubscriberRuns.ClosingPurges | internal/worker/LeaderSubscriber.go:936-991 | in every run, from the step that closes a prefix on, a depth-1 purge of it is due or done |
| SubscriberRuns.OpeningPurges | internal/worker/LeaderSubscriber.go:668-699 | in every run, from the step that opens a prefix on, its listen is due, a depth-2 purge of it is due or done, or its connection is closed |
| LeaderSubscriber.Leader.EnsureSubscriptions | internal/worker/LeaderSubscriber.go:601-666 | not leading nothing changes; leading, every wanted prefix is with its host, connected or dialling, and no entry is replaced |
| LeaderSubscriber.Leader.RepairBrokenSubscriptions | internal/worker/LeaderSubscriber.go:486-506 | while leading no entry is left without connection or dial |
| LeaderSubscriber.Leader.CloseAllSubscriptions | internal/worker/LeaderSubscriber.go:514-544 | a newer term is left alone; otherwise no entry is left and the only websockets still open are being closed |
| LeaderSubscriber.Leader.DeleteExcessSubscriptions | internal/worker/LeaderSubscriber.go:928-971 | every entry keeps exactly the prefixes in demand or stamped after the snapshot; one left with none is closed |
| LeaderSubscriber.Leader.DialReturned | internal/worker/LeaderSubscriber.go:705-750 | installs the websocket or backs out, by term and identity |
| LeaderSubscriber.Leader.RunnerLeft | internal/worker/LeaderSubscriber.go:783-797 | the deferred section is the specified exit |
| Keeper.StampedIsNeverDropped | internal/worker/LeaderSubscriber.go:423-484 | from the moment a session's ensure stamped a prefix and as long as the session keeps wanting it, through any session updates and in every interleaving in which its own ensures read a moving clock and nobody stamps this prefix stale, no tick drops it |
| Keeper.StampedIsDroppedExactly | internal/worker/LeaderSubscriber.go:936-944 | where the session's own ensures read a moving clock, a prefix stamped at some moment and wanted ever since, through any session updates, is dropped exactly when the snapshot misses it and a stale stamp of somebody else's was written last |
| Keeper.StaysStamped | internal/usecase/subscription/subscription.go:100-126 | a stamped prefix stays stamped through every session update that still wants it |
| Keeper.TieDrops | internal/worker/LeaderSubscriber.go:939 | a run without a stale stamp of the prefix in which a clock that does not move drops what the session has just opened and stamped |
| Keeper.StaleStampDrops | internal/worker/LeaderSubscriber.go:556-569 | a run in which the session's clock moves at every ensure and a late write of an older stamp drops the prefix |
| Verify.VerifiesIffChain | verify.go:73-349 | a document verifies exactly when a chain within the budget leads to a document signed by its author's key or a bracketed subkey, and its proof kind is allowed |
| Verify.Soundness | verify.go:39-61 | success within depth four: at most four documents (three with a subkey), all by one author, references up to a last derivation, rooted in the author's key or enact and revocation documents that bracket createdAt |
| Verify.Monotone | verify.go:73-76 | a larger budget never turns success into failure |
| Verify.LinkKeepsAuthor | verify.go:244-246 | a reference and its target, or an acked document and its ack, have one author |
| Verify.InlinedCopiesIgnored | verify.go:111-118 | inlined references cannot change the verdict of any proof but a document-reference |
| Verify.Refusals | verify.go:343-348 | an unsigned or unknown proof never verifies, and a subkey never vouches for an enact or revocation |
| JobQueue.JobsConserved | internal/infra/jobqueue/redis.go:350-488 | in every interleaving with crashes between any two writes, an enqueued job of which no mover removed a member rewritten since its add was handled or is in the stream, the retry set or the dead letters |
| JobQueue.PatientReinjectionLosesNothing | internal/infra/jobqueue/redis.go:540-567 | it is enough never to reinject that job while a mover is in the middle of moving it |
| JobQueue.UnscheduleGivesUpExactly | internal/infra/jobqueue/redis.go:364-377 | removing a member from the retry set gives up a place of its job if and only if the member is there, the job was not handled, no copy has come further and no other member stands for the same attempt |
| JobQueue.AttemptsExact | internal/infra/jobqueue/redis.go:423-437 | in every run, careful or not, copies to be tried have attempts left and dead ones used exactly the maximum |
| JobQueue.WriteKeeps | internal/infra/jobqueue/redis.go:386-488 | each write but the removal of a rewritten member gives up no place the job had reached and leaves the worker's next removal covered by a copy further on |
| JobQueue.CarelessReinjectionLoses | internal/infra/jobqueue/redis.go:540-567 | a concrete run in which reinjection during a move loses a job |
| JobQueue.ProcessedKeeps | internal/infra/jobqueue/redis.go:386-447 | uninterrupted processing takes the entry off the stream and loses nothing |
| JobQueue.MovedAllExactly | internal/infra/jobqueue/redis.go:350-378 | the mover empties the retry set of the due members and appends each to the stream in order |
| JobQueue.Redis.Process | internal/infra/jobqueue/redis.go:386-438 | the in-place pass is the specified one and loses nothing |
| JobQueue.Redis.MoveDueRetries | internal/infra/jobqueue/redis.go:364-377 | the loop moves exactly the due members |
| JobQueue.BackoffDuration | internal/infra/jobqueue/redis.go:569-585 | the delay is base times 3 to the attempt minus one where base and that are below the cap, else the cap |
| Paging.PaginateWindow | internal/usecase/record/query.go:19-44 | the window is the first `limit` rows, the cursors the peeked row's and the first row's keys |
| Paging.PageThrough | internal/usecase/record/query.go:80-114 | following the cursors ends and every row comes at least once, in order, when no key is shared by more than `limit` rows |
| Paging.PageThroughKeys | internal/infra/repository/postgres/record.go:1189-1204 | in key order the pages put together are the table |
| Paging.EndsIffUncrowded | internal/infra/repository/postgres/record.go:978-993 | following the cursors ends if and only if no sort key is shared by more than `limit` rows |
| Policy.OrIsNotAssociative | policy/types.go:34-60 | the conclusion fold depends on grouping |
| Policy.DecisiveInAnyOrder | policy/types.go:34-60 | every order of a layer folds to ALLOW (or DENY) if and only if it is there and its opposite is not |
| Policy.FoldUnopposed | policy/types.go:34-60 | a conclusion nothing outranks or opposes is the fold |
| Policy.StarMatches | policy/functions.go:86-98 | the key pattern of a single star matches exactly the keys without line breaks |
| Policy.AndStops | policy/operators.go:28-52 | And is true exactly when every argument is; else the first other one decides, a non-boolean by an error |
| Policy.AnyStops | policy/operators.go:54-77 | Or is false exactly when every argument is; else the first other one decides, a non-boolean by an error |
| Policy.EvaluatePolicy | policy/functions.go:79-136 | the loop folds what the applicable true statements emit, else the default |
| Policy.EvaluateStack | policy/functions.go:14-77 | the loop answers the specified decision over the layers |
| Policy.FirstFinalDecides | policy/functions.go:62-66 | the first layer concluding ALLOW or DENY decides |
| Policy.LastSetDecides | policy/functions.go:67-76 | with none, the last layer that concluded anything decides |
| Policy.UnsetIsNeutral | policy/functions.go:67-68 | a layer that concludes nothing is neutral wherever it stands |
| Policy.GlobalLayer | cmd/concrnt/defaultPolicy.go:141-248 | on read, update and delete the global layer concludes ALLOW exactly for the entitled when the evaluated key, the record's own or its document URI, has no line break, else its default |
| Policy.OwnerAlwaysMay | internal/service/policy.go:265-303 | a namespace owner's read, update or delete succeeds whatever the additional stack is and however the record is addressed, if that key has no line break |
| Policy.MayAloneExactly | internal/service/policy.go:292-302 | with no additional stack an update or delete succeeds for the entitled on such keys and for nobody else |

## How the model reads the source

- Instants are unix nanoseconds as integers; clocks, randomness, network answers, policy
  verdicts and parsing results enter as parameters (`Env`, `Context`, step arguments).
- A commit is one atomic step, except in `AcceptIfNewer`, where the lock-and-check and the
  conditional upsert are separate. Reads inside a delete see the tables before the transaction.
- Ids are compared in byte order.
- A destination with which no reference key can be formed is skipped by delivery and by delete
  alike; the model's destinations are the others, so forming a reference key is total.
- A lock section that loops over hosts is one step per host in the state machine, which allows
  more interleavings than the code; the class methods keep the loops.
- Document texts, hashes and signatures are uninterpreted. The theorems that need it say so:
  `Identified` (the id is derived from hash and createdAt), `Faithful` (parsing the re-rendered acked
  form of a parsed ack gives it back), and for a delivered acked document that a stored log with its id is that document.
- The receipt time column of the commit log is kept beside the tables, as the clock at insertion.
- In the job queue, issued writes succeed and streams are not trimmed.

## Left out

- HTTP handlers, websockets as bytes, metrics, tracing, health probes, configuration and command-line flags.
- Keccak, xxh3, bech32, JSON and URL parsing: functions of a context.
- The memcached chunk cache, its expiry and purge replay: only the iterator and body contract is used.
- Unregister and delete-user, which flag or erase logs of live rows.
- Acked documents submitted by anyone but the acker's own server: the ack theorems are about derived deliveries.
- Acks that carry `distributes`: a delete re-derives their href from the associate's owner, delivery used the author's, and such targets are refused where the delete is decided.
- Parent ids of keys (dangling after a parent's deletion) and the listing queries that follow them.
- The wire order of `listen` frames against the prefix list they were taken from.
- Overlapping keeper ticks of two lead terms: one tick runs at a time.
- Peer demand polling and the served aggregate: peers enter a tick as an arbitrary extra demand.
- Error texts and which error a refused verification or commit reports.
- `Eq` and `Contains` on lists or objects, which make the evaluator panic; the model has them fail.
- Resolving policy URLs and virtual parents: the additional stack is arbitrary.
- The paging loop that writes the GC backup file; the deletion of its ids is modelled.
- JobQueue.BackoffDuration: does not model 64-bit wrap-around, which a cap below a third of the largest duration never reaches.
- Leader election, web push, module proxying, legacy v1 code, migrations and repair commands.
- Reinjection by several operators at once beyond its effect on the stream and dead letters; purging dead letters, which discards jobs on purpose.
