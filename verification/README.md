# Chunk server: record append, chunk I/O and their bookkeeping

A Dafny model of the chunk server of the Kosmos distributed file system, with proofs of what its protocols and
data structures promise. `dafny verify dfyconfig.toml` checks the whole project.

## What is modelled

**The record append protocol.** A chain of servers replicates appends to a chunk. The master gives each append its
offset, every server adds it to its log and forwards it, and success travels back, so that the tail commits first
and the master last. When something fails the replicas are trimmed and brought to one size.

- `RecordAppender` has the state of one appender as a value and every operation on it as a function, branch by branch.
- `AppenderObject` is the appender as an object with mutable fields; each method is proved to do what the function
  says. `AppendManager` is the table of appenders with its counters, `Forwarding` the way a server finds its place.
- `Chain` is a transition system: any number of servers, FIFO wires that may break at any time and lose what is on
  them, timeouts, lost leases, status inquiries, closes, lost and deleted chunks, and a meta server that decides once,
  either for the size the master gave up its lease with, or for the shortest size among any of the replies it has.
- `ChainInvariant` states the invariant, `ChainQuiet`, `ChainAppend`, `ChainLinks`, `ChainSteps`, `ChainReplies`,
  `ChainMaster` and `ChainAccept` show that each step keeps it, `ChainTheorems` puts them together, `ChainSafety` has
  the results about safety, and `ChainLimits` shows where they end.
- `AppendAccept`, `ChainTakes`, `ChainAnswers`, `ChainMasterAnswers`, `ChainCounts` and `ChainConverge` say exactly when
  an append is taken and committed, an inquiry answered, a write id dropped, and a replica stable or lost.
  `ChainRoundTrip` and `ChainLife` show that a healthy chain gets its work done.
- `Reservations` and `ConnectionLedger` follow reserved space through the master and all client connections.

**From the write buffer to the disk.** `Flush` cuts the buffer into writes (`FlushObject` is the loop, `FlushRuns` has
what becomes of the data when nothing fails), `ChunkBlocks`
and `ChunkAgreement` are chunk files with block checksums (`ChunkFile` is the object with the checksum array and its
loops), `ChunkTruncate` makes a chunk stable. `DiskFlush` and `DiskRuns` put these together: many writes in flight,
the first of them possibly waiting for its block to be read. In `DiskWrites` sizes and checksums are noted when a write
is issued, and its bytes are on disk when it is done, in any order; it refines `DiskRuns`, in which bytes arrive at
once. The checksum is an arbitrary function of a block.

**Bookkeeping.** `PendingWrites` (three indexes), `BufferBooks` and `BufferManager` (quotas and the wait queue),
`ChunkLru` (closing idle files), `ClientOrder`, `ClientSafety`, `ClientAnswers`, `ClientSyncs` and `ClientObject` (order of
answers on a connection), `Replicator`, `ReplicatorRuns` and `ReplicatorObject` (copying a chunk from a peer), `ChunkName` (file names).

## What the code does not keep

These came out of the proofs. The model follows the code, and each has a lemma that shows it.

- An empty append from a client, and a status inquiry at a slave between its begin and its commit, bring that slave
  down: the inquiry settles the append, and the commit then finds it settled (`ChainLimits.EmptyAppendAborts`). AppendBegin
  does not compare the chunk version, AppendCommit aborts on it (`ChainLimits.OtherVersionAborts`).
  `ChainSafety.GoesDownIff` shows that these two are all that brings a server down, and exactly when. The theorems about
  the chain hold for whatever clients send, up to the first server that goes down; that none ever does takes clients
  that send data under the version of the chunk (`ChainSafety.NeverAborts`).
- The assertion in the completion handler of a write fails for every appender that starts inside a checksum block and
  flushes more than one block (`Flush.ShortOnlyIfStaggeredIff`, `Flush.UnalignedStartBreaksIt`).
- The checksum that comes with a prepared write is stored unseen when one block is written
  (`ChunkAgreement.PreparedWriteIff`). It is wrong when it is zero, which is never compared
  (`ChunkAgreement.UnclippedBlockIff`), and when it is the right one for two blocks of which the second does not fit into
  the chunk and is cut off (`ChunkAgreement.ClippedBlockIff`).
- Invalidating a write id does not give its reservation back (`Reservations.InvalidateIff`).
- A replicator that is cancelled while its metadata is being written reports success, although the one that cancelled it
  started the copy over (`Replicator.SuccessWithoutCopy`, `Replicator.StartedOver`).
- A replicator that fails to start deletes the copy another one is making (`Replicator.FailedStartRemovesCopy`). It does
  so if the peer fails, its chunk is too large or no local chunk can be made, and also if the chunk is empty and the
  write of its metadata cannot be started (`Replicator.CopyRemovedIff`).
- A replica that trims itself to what it committed when the meta server's size arrives is lost if the size is a smaller
  one, although it holds all of it (`ChainConverge.BecomesStableIff`).

## Model

| member | source | states |
|---|---|---|
| `ChainSafety.Converged` | src/cc/chunk/AtomicRecordAppender.cc:86-114 | any two replicas that became stable are byte for byte equal and have the size the meta server decided on, whichever of the two ways it decided, and hold every append the master acknowledged at the offset it was given; after any run with any link failures and any appends from clients, as long as no server went down |
| `ChainSafety.AnswersNeverLie` | src/cc/chunk/AtomicRecordAppender.cc:1499-1601 | in every such run, an inquiry answered with success means that the append is, with its bytes, in every stable replica; one answered with failure means that every stable replica ends at or before the place of the append, so that no byte of it is there |
| `ChainSafety.AnswersAgree` | src/cc/chunk/AtomicRecordAppender.cc:50-68 | no two answers about the same append, from any two replicas at any two times of such a run, contradict each other |
| `ChainSafety.InquiryIsFinal` | src/cc/chunk/AtomicRecordAppender.cc:1561-1581 | once a replica has answered an inquiry for a write id, no append with that id that it had not begun by then is committed by the master, however the run goes on and whatever clients send, up to the first server that goes down |
| `ChainSafety.ChainOrder` | src/cc/chunk/AtomicRecordAppender.cc:1055-1327 | commit offsets do not decrease from master to tail, no server commits beyond its log, and each log that was not trimmed has the logs further down as prefixes |
| `ChainSafety.ReplicasAgree` | src/cc/chunk/AtomicRecordAppender.cc:1055-1327 | of any two replicas, trimmed or not, one is a prefix of the other |
| `ChainSafety.RelinquishedHeld` | src/cc/chunk/AtomicRecordAppender.cc:2474-2506 | the size the master gives up its lease with is its commit offset, and every replica that is not lost holds at least that much |
| `ChainSafety.NeverAborts` | src/cc/chunk/AtomicRecordAppender.cc:1439-1460 | in no run in which clients send appends with data that name the version of the chunk does a server reach a fatal branch, nor does a piggy-backed commit offset fall outside the window |
| `ChainTakes.ClientAppendIff` | src/cc/chunk/AtomicRecordAppender.cc:1055-1300 | in every run, a client's append enters the history and the master's log exactly if it came the right way, fits, its id is free, its data intact, its space reserved and the peer up; what is refused leaves no byte anywhere |
| `ChainTakes.DeliverIff` | src/cc/chunk/AtomicRecordAppender.cc:1055-1327 | in every run, an append that arrives at a slave is taken, and passed on or answered, exactly if it is next and carries intact data of a free id or no data; otherwise the slave leaves the chain |
| `ChainTakes.DamagedAtMaster` | src/cc/chunk/AtomicRecordAppender.cc:1167-1182 | data that the master finds damaged gets into no history and no log |
| `ChainTakes.DamagedAtSlave` | src/cc/chunk/AtomicRecordAppender.cc:1167-1182 | data that a slave finds damaged gets into no log, and the slave leaves the chain |
| `ChainTakes.ReplyOutcome` | src/cc/chunk/AtomicRecordAppender.cc:1348-1482 | in every run, a success commits the oldest append in flight, which is the one it is about, and goes on to the next server; a failure ends the server's part in the chain |
| `AppendAccept.MasterBeginIff` | src/cc/chunk/AtomicRecordAppender.cc:1055-1300 | the exact condition under which the master takes a client's append, and the log, list of appends in flight, offsets and row after it |
| `AppendAccept.SlaveAppendIff` | src/cc/chunk/AtomicRecordAppender.cc:1055-1327 | the exact condition under which a slave takes an append; refused, it leaves an open slave no longer open |
| `AppendAccept.MasterRefusal` | src/cc/chunk/AtomicRecordAppender.cc:1055-1300 | which of the four refusals a client is told, and exactly when |
| `AppendAccept.SlaveRefusal` | src/cc/chunk/AtomicRecordAppender.cc:1055-1300 | the same for a slave |
| `AppendAccept.CommitsIff` | src/cc/chunk/AtomicRecordAppender.cc:1390-1482 | an append that came back is committed exactly if the appender is open, it succeeded, and it is the next one with an open row; what a commit, a failure and an append out of line change |
| `AppendAccept.AllocateIff` | src/cc/chunk/AtomicRecordAppender.cc:839-913 | a write id is given out exactly if the request repeats the route, the appender is open and there are not too many ids; its row is unused |
| `AppendAccept.SlaveCloseIff` | src/cc/chunk/AtomicRecordAppender.cc:1604-1690 | a slave closes an id exactly if it can still be used and its last append is over as far as the slave knows |
| `ChainRoundTrip.AppendGoesThrough` | src/cc/chunk/AtomicRecordAppender.cc:25-48 | in a chain of any length that is at rest, an append of a known id with reserved space gets into every log and is committed by every server, and the chain is at rest again |
| `ChainRoundTrip.NewsGoThrough` | src/cc/chunk/AtomicRecordAppender.cc:2508-2535 | the master's own append tells every slave how far it committed, and leaves every log as it was |
| `ChainLife.EveryReplicaBecomesStable` | src/cc/chunk/AtomicRecordAppender.cc:86-114 | from any chain at rest there is a run in which the master closes and every replica becomes stable with every byte of its log, if the offset of the next append is the end of the master's log |
| `ChainConverge.FinishOutcome` | src/cc/chunk/AtomicRecordAppender.cc:2177-2276 | in every run, once its writes are over a closed replica becomes stable exactly if the disk works, the decided size is on disk and no trim to another size goes before; it is lost, or only trimmed, exactly in the other cases, and only a master that trimmed gives up its lease |
| `ChainConverge.BecomesStableIff` | src/cc/chunk/AtomicRecordAppender.cc:2104-2276 | told to become stable, a replica whose disk works does so exactly if it has as much as was decided and was not about to trim itself to another size; it is then the prefix of its log of that size |
| `ChainConverge.RelinquishedConverges` | src/cc/chunk/AtomicRecordAppender.cc:2474-2506 | if the master gave up its lease, every replica that is not lost has that much, and becomes stable with it unless a trim to another size goes before |
| `ChainConverge.ReportersConverge` | src/cc/chunk/AtomicRecordAppender.cc:1771-1831 | if the meta server decides for the shortest size it was told, every replica that told one and is not lost has that much and becomes stable with it |
| `ChainConverge.BeginOutcome` | src/cc/chunk/AtomicRecordAppender.cc:1771-1831 | asked for its size, a replica tells what it committed, trims itself first, waits for writes in flight, or fails, each exactly when |
| `ChainConverge.EveryReplicaReports` | src/cc/chunk/AtomicRecordAppender.cc:1771-1831 | every replica that is not stable or lost can be brought to tell what it committed |
| `ChainAnswers.StableAnswersAreDefinite` | src/cc/chunk/AtomicRecordAppender.cc:1499-1601 | in every run, a stable replica answers success exactly if the append lies within its log, and then it holds its bytes; otherwise it answers failure |
| `ChainAnswers.SlaveAnswerIff` | src/cc/chunk/AtomicRecordAppender.cc:1499-1601 | in every run, a slave that is not stable answers success exactly if the master told it a commit offset at or past the end of the append, and otherwise leaves it open |
| `ChainAnswers.AskedBeforeIff` | src/cc/chunk/AtomicRecordAppender.cc:1499-1601 | an answer tells whether the replica was asked about the id before |
| `ChainMasterAnswers.MasterAnswerIff` | src/cc/chunk/AtomicRecordAppender.cc:1499-1601 | in every run, a master that is not stable answers success exactly if it committed the append, and otherwise leaves it open |
| `ChainMasterAnswers.ClientCloseIff` | src/cc/chunk/AtomicRecordAppender.cc:1604-1690 | in every run, a client closes an id at the master exactly if it can still be used and its last append is committed; the slaves are told how far |
| `ChainCounts.ReachedCounts` | src/cc/chunk/AtomicRecordAppender.cc:1461-1482 | in every run, the row of a write id counts exactly the appends with this id that the server committed |
| `ChainCounts.InvalidateIff` | src/cc/chunk/AtomicRecordAppender.cc:995-1026 | in every run, a master that is not stable takes an id back exactly if it was not inquired about and no append with it was ever begun |
| `ChainSafety.GoesDownIff` | src/cc/chunk/AtomicRecordAppender.cc:1439-1460 | from any state that some run reaches without a server down, a step brings server i down if and only if it makes it commit an append of another version, or one without data that an inquiry at that server has settled; every other step leads to such a state again |
| `ChainTheorems.StepKeeps` | src/cc/chunk/AtomicRecordAppender.cc:1055-1482 | every one of the nineteen kinds of step keeps the invariant of the chain, unless it brings a server down |
| `ChainTheorems.Reachable` | src/cc/chunk/AtomicRecordAppender.cc:25-116 | the invariant holds after every run of every chain in which no server went down, for every initial content and all client requests |
| `ChainLimits.PhasesOnlyMoveUp` | src/cc/chunk/AtomicRecordAppender.cc:637-682 | whatever the step and whatever the state, no appender moves back in open, replication failed, closed, stable, lost, pending delete, and none comes back from an abort |
| `ChainLimits.CommitAbortsIff` | src/cc/chunk/AtomicRecordAppender.cc:1439-1460 | exactly when the commit of the oldest append brings the server down, master or slave, with and without an inquiry in between |
| `ChainLimits.InquiryThenCommit` | src/cc/chunk/AtomicRecordAppender.cc:1499-1601 | for an append with data and the right version, an inquiry between begin and commit changes neither the commit nor the commit offset |
| `ChainLimits.EmptyAppendAborts` | src/cc/chunk/AtomicRecordAppender.cc:1439-1460 | a concrete run: an empty append from a client and one inquiry bring a slave down |
| `ChainLimits.OtherVersionAborts` | src/cc/chunk/AtomicRecordAppender.cc:1439-1460 | a concrete run: one byte appended under another version brings a single server down |
| `AppenderObject.AtomicRecordAppender.EnterState` | src/cc/chunk/AtomicRecordAppender.cc:637-682 | the transition, the check for an impossible one, and the manager's counters |
| `AppenderObject.AtomicRecordAppender.Delete` | src/cc/chunk/AtomicRecordAppender.cc:685-707 | write ids go, the phase is pending delete, and the appender is counted no more |
| `AppenderObject.AtomicRecordAppender.TryToCloseChunk` | src/cc/chunk/AtomicRecordAppender.cc:2455-2471 | only the master closes on its own, by trimming to its commit offset |
| `AppenderObject.AtomicRecordAppender.TrimToLastCommit` | src/cc/chunk/AtomicRecordAppender.cc:2474-2494 | queues one internal make-stable for the commit offset and closes |
| `AppenderObject.AtomicRecordAppender.CheckLeaseAndChunk` | src/cc/chunk/AtomicRecordAppender.cc:811-836 | a master without a lease fails replication |
| `AppenderObject.AtomicRecordAppender.AllocateWriteId` | src/cc/chunk/AtomicRecordAppender.cc:839-913 | chunk, version, position, peer and replication checks in order, new table and status for every branch, and the count of appenders with write ids |
| `AppenderObject.AtomicRecordAppender.ReplicationTimeout` | src/cc/chunk/AtomicRecordAppender.cc:1940-1955 | an open appender whose peer is late fails replication |
| `AppenderObject.AtomicRecordAppender.IdleTimeout` | src/cc/chunk/AtomicRecordAppender.cc:1874-1895 | an idle master without reservations closes once its slaves know how far it is committed |
| `AppenderObject.AtomicRecordAppender.LoseChunk` | src/cc/chunk/AtomicRecordAppender.cc:743-765 | the chunk is lost, whatever the phase |
| `AppenderObject.AtomicRecordAppender.ChangeChunkSpaceReservation` | src/cc/chunk/AtomicRecordAppender.cc:922-992 | new ledger and status for every branch of reserve and release, `size_t` wrap-around included |
| `AppenderObject.AtomicRecordAppender.InvalidateWriteId` | src/cc/chunk/AtomicRecordAppender.cc:995-1026 | erases an unused id, optionally failing the chunk |
| `AppenderObject.AtomicRecordAppender.UpdateMasterCommittedOffset` | src/cc/chunk/AtomicRecordAppender.cc:1029-1052 | accepts a commit offset inside the window only |
| `AppenderObject.AtomicRecordAppender.BeginOp` | src/cc/chunk/AtomicRecordAppender.cc:1055-1300 | all header, write id, offset, checksum and reservation checks in order, and the state in which each leaves the appender |
| `AppenderObject.AtomicRecordAppender.AppendBegin` | src/cc/chunk/AtomicRecordAppender.cc:1055-1327 | begin, then commit at once if there is no peer to wait for |
| `AppenderObject.AtomicRecordAppender.AppendCommit` | src/cc/chunk/AtomicRecordAppender.cc:1390-1482 | commit of the oldest append, failure, or abort |
| `AppenderObject.AtomicRecordAppender.OpDone` | src/cc/chunk/AtomicRecordAppender.cc:1348-1387 | unlinks the append wherever it is in the list, and commits it |
| `AppenderObject.AtomicRecordAppender.GetOpStatus` | src/cc/chunk/AtomicRecordAppender.cc:1499-1601 | the answer, the new row and the reservation given back |
| `AppenderObject.AtomicRecordAppender.CloseChunk` | src/cc/chunk/AtomicRecordAppender.cc:1604-1690 | settles, refuses or erases the write id |
| `AppenderObject.AtomicRecordAppender.BeginMakeStable` | src/cc/chunk/AtomicRecordAppender.cc:1771-1831 | refuses another version; stops, trims to the commit offset if there is more, waits for writes in flight, or reports the size |
| `AppenderObject.AtomicRecordAppender.MakeChunkStable` | src/cc/chunk/AtomicRecordAppender.cc:2104-2176 | queues the requested size and closes, or answers at once |
| `AppenderObject.AtomicRecordAppender.WritesDone` | src/cc/chunk/AtomicRecordAppender.cc:2177-2276 | truncates to the queued size, then goes on to stable, lost, the next request or the lease |
| `AppendManager.AtomicRecordAppendManager.Dispatch` | src/cc/chunk/AtomicRecordAppender.cc:2922-2957 | whatever happens to an appender, timeouts and loss of the chunk included, it does what the specification says, no other one changes, and the counters of open, active and write-id-holding appenders equal a recount |
| `AppendManager.AtomicRecordAppendManager.DeleteChunk` | src/cc/chunk/AtomicRecordAppender.cc:2965-2972 | the appender stays in the table with its chunk lost, no other one changes, and the counters equal a recount |
| `AppendManager.AtomicRecordAppendManager.RemoveAppender` | src/cc/chunk/AtomicRecordAppender.cc:685-707 | the appender leaves the table, no other one changes, and the counters equal a recount without it |
| `AppendManager.AtomicRecordAppendManager.CleanUp` | src/cc/chunk/AtomicRecordAppender.cc:1896-1934 | an appender that nobody used for long is removed, its chunk lost unless it is stable |
| `AppendManager.AtomicRecordAppendManager.AllocateChunk` | src/cc/chunk/AtomicRecordAppender.cc:2643-2716 | an open appender is kept, with success if and only if the request repeats what it was opened with; a finished one is replaced, nothing is left behind on error, no other one changes, and the counters equal a recount |
| `AppendManager.AtomicRecordAppendManager.CheckParameters` | src/cc/chunk/AtomicRecordAppender.cc:710-740 | success if and only if version, position, peer, number of servers, server list and file handle are those the appender was opened with |
| `Forwarding.NeedToForwardToPeer` | src/cc/chunk/KfsOps.cc:1823-1858 | position, write id and peer for every list of servers, even with repeated entries |
| `Forwarding.ServersFormAChain` | src/cc/chunk/KfsOps.cc:1823-1858 | for a list without repeated locations server i finds position i and forwards to i + 1: all servers agree on one chain |
| `ConnectionLedger.LedgersAgree` | src/cc/chunk/ClientSM.h:118-139 | in every run, while the master is open: the total is the sum over write ids, fits into the rest of the chunk, read-only ids hold nothing, and an id holds what all connections together hold for it |
| `ConnectionLedger.StepKeeps` | src/cc/chunk/KfsOps.cc:2425-2487 | every reserve, release, append, answer, allocation, inquiry, close and disconnect keeps that |
| `ConnectionLedger.GiveBackKeeps` | src/cc/chunk/ClientSM.cc:700-710 | a connection that closes gives back exactly what it still holds, in whatever order |
| `Reservations.ChangeKeeps` | src/cc/chunk/AtomicRecordAppender.cc:922-992 | reserve and release change one row and the total alike; the subtraction never wraps |
| `Reservations.ReserveIff` | src/cc/chunk/AtomicRecordAppender.cc:922-992 | space is granted exactly to a known id that can still be used at an open master with a lease, while all reservations and the data fit into the chunk |
| `Reservations.ReleaseIff` | src/cc/chunk/AtomicRecordAppender.cc:922-992 | a release gives back what is asked for, but no more than the id holds |
| `Reservations.PlaceCharges` | src/cc/chunk/AtomicRecordAppender.cc:1183-1216 | an append takes its bytes out of the total, its id and the free space at once, or changes nothing |
| `Reservations.InquireKeeps` | src/cc/chunk/AtomicRecordAppender.cc:1574-1580 | an inquiry gives back what its id held |
| `Reservations.CloseKeeps` | src/cc/chunk/AtomicRecordAppender.cc:1647-1652 | a close gives back what its id held |
| `Reservations.InvalidateIff` | src/cc/chunk/AtomicRecordAppender.cc:998-1011 | invalidating an id keeps an open master's ledger balanced if and only if the id holds nothing or the call fails the chunk |
| `Flush.WritesTile` | src/cc/chunk/AtomicRecordAppender.cc:2279-2375 | in every run the issued writes cover [initial size, next offset) without gap or overlap, carry exactly the data taken in, and meet the alignment rule of the chunk manager |
| `Flush.InFlightDisjoint` | src/cc/chunk/AtomicRecordAppender.cc:2301-2320 | writes in flight never share a checksum block, and at most one ends inside a block |
| `Flush.ClosedIsDrained` | src/cc/chunk/AtomicRecordAppender.cc:2283-2288 | a closed appender has handed out all its data unless a write failed, and the restart after a staggered write is never needed |
| `Flush.ShortOnlyIfStaggeredIff` | src/cc/chunk/AtomicRecordAppender.cc:2380-2383 | the completion handler's assertion holds if and only if a staggered write is in flight, the chunk started on a block boundary, or the write is not the first |
| `Flush.UnalignedStartBreaksIt` | src/cc/chunk/AtomicRecordAppender.cc:2380-2383 | every appender that starts inside a block and flushes more than a block violates that assertion |
| `FlushRuns.LoopLiveIff` | src/cc/chunk/AtomicRecordAppender.cc:2301-2375 | a flush goes wrong exactly if one of the writes it made cannot be started |
| `FlushRuns.AtMostThreeWrites` | src/cc/chunk/AtomicRecordAppender.cc:2295-2320 | one flush makes at most three writes, two if it starts on a block boundary |
| `FlushRuns.AllOfferedIsWritten` | src/cc/chunk/AtomicRecordAppender.cc:2279-2375 | if nothing fails, all data offered before the close is handed to the chunk manager once the appender is closed, and after a flush of full blocks all but at most one block |
| `FlushObject.WriteBuffer.FlushSelf` | src/cc/chunk/AtomicRecordAppender.cc:2279-2375 | the loop issues exactly the writes of the specification, stops where it does, and terminates |
| `FlushObject.WriteBuffer.TakeWrite` | src/cc/chunk/AtomicRecordAppender.cc:2295-2356 | length, stagger flag and remaining buffer of one write |
| `FlushObject.WriteBuffer.WriteDone` | src/cc/chunk/AtomicRecordAppender.cc:2378-2424 | completion, loss of the chunk on failure, and restart of the flush |
| `ChunkAgreement.WriteKeepsSound` | src/cc/chunk/ChunkManager.cc:1411-1571 | a write that starts at or before the end is accepted under an exact condition, replaces its bytes and nothing else, and leaves every block checksum right, on the aligned, the new block and the one and two block read-modify-write path, whatever buffers go to disk |
| `ChunkAgreement.RunIsSound` | src/cc/chunk/ChunkManager.cc:1411-1571 | over any run of such writes the chunk does what a byte array does |
| `ChunkAgreement.WriteRefusedIff` | src/cc/chunk/ChunkManager.cc:1411-1470 | each of the three reasons for which a write is refused, and exactly when |
| `ChunkAgreement.ReadIff` | src/cc/chunk/ChunkManager.cc:1574-1650 | a read that starts within the chunk returns the bytes from there on, as many as asked for or up to the end, if and only if the checksums of all blocks it touches are right |
| `ChunkAgreement.ReadRefusedIff` | src/cc/chunk/ChunkManager.cc:1350-1408 | each of the three reasons for which a read is refused, and exactly when |
| `ChunkAgreement.ReadSound` | src/cc/chunk/ChunkManager.cc:1350-1408 | reads of a chunk with right checksums get all that was asked for, up to the end of the chunk |
| `ChunkAgreement.PreparedWriteIff` | src/cc/chunk/KfsOps.cc:2035-2049 | a prepared write leaves right checksums if and only if it does not come down to one block, or the checksum that came along is that of the block that is left after clipping |
| `ChunkAgreement.UnclippedBlockIff` | src/cc/chunk/ChunkManager.cc:1440-1447 | if nothing is cut off, this is the case if and only if that checksum is not zero, or the block's is |
| `ChunkAgreement.ClippedBlockIff` | src/cc/chunk/ChunkManager.cc:1422-1447 | two blocks with their right checksum, of which only the first fits, leave right checksums if and only if the two checksums happen to be equal |
| `ChunkBlocks.ChecksumsAreOfBlocks` | src/cc/libkfsIO/Checksum.cc:97-170 | one checksum for each block, each of that block |
| `ChunkFile.ComputeBlockChecksums` | src/cc/libkfsIO/Checksum.cc:97-118 | the loop over blocks |
| `ChunkFile.Verify` | src/cc/chunk/ChunkManager.cc:1606-1615 | stops at the first difference and finds one if and only if there is one |
| `ChunkFile.ChunkFile.UpdateChecksums` | src/cc/chunk/ChunkManager.cc:1546-1571 | entries of the written blocks change, all others stay, the size grows to the end of the write |
| `ChunkFile.ChunkFile.WriteChunk` | src/cc/chunk/ChunkManager.cc:1411-1543 | all branches, errors included, with the request to read first |
| `ChunkFile.ChunkFile.ReadChunk` | src/cc/chunk/ChunkManager.cc:1350-1408 | clipping, verification and cutting out |
| `ChunkFile.ChunkFile.ComputeChecksum` | src/cc/chunk/AtomicRecordAppender.cc:1710-1729 | checksum of the printed block checksums |
| `ChunkFile.ChunkFile.Truncate` | src/cc/chunk/AtomicRecordAppender.cc:2178-2234 | cuts the chunk and replaces the checksum of the last block |
| `ChunkTruncate.TruncateSound` | src/cc/chunk/AtomicRecordAppender.cc:2178-2234 | a chunk can be cut to any size it has, and is then its prefix with right checksums |
| `ChunkTruncate.TruncateCommutes` | src/cc/chunk/AtomicRecordAppender.cc:2018-2101 | size, block checksums and whole checksum after a cut equal those of a chunk written from scratch with the prefix; aligned, unaligned and zero sizes |
| `ChunkTruncate.SameContent` | src/cc/chunk/AtomicRecordAppender.cc:1710-1729 | replicas of the same content report the same checksum |
| `ChunkTruncate.MakeStableIff` | src/cc/chunk/AtomicRecordAppender.cc:2177-2250 | a closed chunk becomes stable if and only if it has the size and the checksum asked for |
| `DiskWrites.QuietIsExact` | src/cc/chunk/AtomicRecordAppender.cc:2301-2320 | whenever nothing is in flight and nothing failed, the chunk is its first content plus all issued data in order, under right checksums, whatever the order in which writes were done, their bytes being on disk only from then on |
| `DiskWrites.CompletionsCommute` | src/cc/chunk/AtomicRecordAppender.cc:2301-2320 | in every run, two writes in flight may be done in either order: the disk is the same |
| `DiskWrites.StepRefines` | src/cc/chunk/ChunkManager.cc:1411-1571 | as long as no write failed, every step of the disk on which bytes arrive late and in any order is a step of the one on which they arrive at once |
| `DiskWrites.StableOnDisk` | src/cc/chunk/AtomicRecordAppender.cc:2104-2276 | from the first append to the stable chunk: any size up to what was taken in can be made stable, and gives exactly that prefix |
| `DiskWrites.AllOfferedIsOnDisk` | src/cc/chunk/AtomicRecordAppender.cc:2279-2424 | if nothing fails, all data offered before the close is on disk, under right checksums, once all writes are done, in whatever order |
| `DiskWrites.ResumeRefines` | src/cc/chunk/ChunkManager.cc:1471-1520 | the block read for a partial write, as it is on disk when the read is done, matches its checksum although other writes were issued and done meanwhile, and the write goes ahead |
| `DiskRuns.PlannedIsExact` | src/cc/chunk/AtomicRecordAppender.cc:2279-2375 | if bytes arrive at once: whenever nothing is in flight the chunk is its first content plus all issued data in order, under right checksums |
| `BufferBooks.AlwaysBalanced` | src/cc/chunk/BufferManager.cc:92-165 | in every run remaining plus all clients' bytes is the total, waiting bytes, waiting count and clients with buffers equal a recount, and requested = granted + waiting + cancelled |
| `BufferBooks.ServeEnds` | src/cc/chunk/BufferManager.cc:209-242 | the scan ends only when buffers are short, all waiters are over quota, or the first that is not wants more than remains |
| `BufferBooks.GrantedIff` | src/cc/chunk/BufferManager.cc:92-165 | in every run a request is granted at once exactly if the client waits for nothing, has no more than its quota, and less is asked for than there is; otherwise it waits |
| `BufferBooks.NothingMoreOverQuota` | src/cc/chunk/BufferManager.cc:209-242 | in every run a client that has and waits for more than its quota gets nothing more, whatever happens |
| `BufferBooks.ServeAllOrNothing` | src/cc/chunk/BufferManager.cc:209-242 | a client is left alone or gets all it waited for |
| `BufferBooks.ServedInOrder` | src/cc/chunk/BufferManager.cc:209-242 | clients within their quota are served in the order in which they queued up |
| `BufferBooks.UnregisterLeavesNothing` | src/cc/chunk/BufferManager.cc:167-182 | a client that unregisters leaves no bytes, no request and no place in the queue |
| `BufferManager.BufferManager.Get` | src/cc/chunk/BufferManager.cc:92-165 | when a request is granted, and the books after it |
| `BufferManager.BufferManager.Put` | src/cc/chunk/BufferManager.cc:119-131 | bytes come back, never more than the client has |
| `BufferManager.BufferManager.CancelRequest` | src/cc/chunk/BufferManager.cc:184-201 | the request leaves the queue |
| `BufferManager.BufferManager.Unregister` | src/cc/chunk/BufferManager.cc:167-182 | cancel, then give everything back |
| `BufferManager.BufferManager.Timeout` | src/cc/chunk/BufferManager.cc:209-242 | the two loops serve exactly the clients of the specification, and terminate |
| `PendingWrites.PendingWrites.Insert` | src/cc/chunk/ChunkManager.h:546-565 | front or back of the order of use, refused for a known id, all indexes kept in agreement |
| `PendingWrites.PendingWrites.Erase` | src/cc/chunk/ChunkManager.h:584-594 | the op leaves all three indexes, and an empty chunk list goes |
| `PendingWrites.PendingWrites.Remove` | src/cc/chunk/ChunkManager.h:566-582 | the first or the last in the order of use goes |
| `PendingWrites.PendingWrites.Delete` | src/cc/chunk/ChunkManager.h:431-455 | exactly the ops for the chunk and version go, the order of the others stays, and the result tells whether the chunk has none left |
| `PendingWrites.PendingWrites.FindAndMoveBack` | src/cc/chunk/ChunkManager.h:456-468 | the op moves to the back of the order of use |
| `PendingWrites.PendingWrites.HasChunkId` | src/cc/chunk/ChunkManager.h:416-417 | agrees with a scan over all ops |
| `PendingWrites.PendingWrites.GetChunkIdCount` | src/cc/chunk/ChunkManager.h:469-470 | the number of chunks that a scan finds |
| `PendingWrites.PendingWrites.CloneWriteOp` | src/cc/chunk/ChunkManager.cc:2262-2282 | the time moves on, the place in the order of use does not |
| `PendingWrites.PendingWrites.Scavenge` | src/cc/chunk/ChunkManager.cc:2343-2374 | retires a prefix of the order of use, all of it expired, and nothing fresh |
| `ClientSafety.AnsweredOnceInOrder` | src/cc/chunk/ClientSM.cc:226-282 | in every run everything that arrived is answered, queued or held back, and that exactly once; ops other than write id allocations and record appends are answered in the order in which they were queued |
| `ClientSafety.SyncAfterWrites` | src/cc/chunk/ClientSM.cc:622-654 | a write sync is let into the queue only when every write that arrived before it has been answered |
| `ClientSyncs.SyncsInOrder` | src/cc/chunk/ClientSM.cc:665-698 | in every run write syncs are let into the queue in the order in which they arrived, whatever completes while they are submitted |
| `ClientSafety.NoSyncStranded` | src/cc/chunk/ClientSM.cc:340-389 | a sync that waits, waits for a write that is still queued: none is left when the queue is empty, also after the connection is closed |
| `ClientSafety.Reachable` | src/cc/chunk/ClientSM.cc:226-282 | no op that is done is held up at the head of the queue, and no released sync is left unsubmitted, even when submitting an op completes it and any others at once |
| `ClientAnswers.AnsweredAtOnceIff` | src/cc/chunk/ClientSM.cc:226-282 | in every run an op that is done is answered at once exactly if it heads the queue, or need not wait for others |
| `ClientAnswers.DoneWhenSubmitted` | src/cc/chunk/ClientSM.cc:226-282 | in every run a command that is done while it is being submitted is answered at once exactly if nothing is before it, or it need not wait for others |
| `ClientAnswers.DroppedAtOnceIff` | src/cc/chunk/ClientSM.cc:340-389 | after the connection is closed an op that is done is dropped exactly if it heads the queue |
| `ClientAnswers.AnsweredAreDone` | src/cc/chunk/ClientSM.cc:226-282 | only ops that are done are ever answered |
| `ClientObject.ClientSM.CommandDone` | src/cc/chunk/ClientSM.cc:226-282 | answers out of order or drains the queue, calling itself through the ops it submits, each of which may complete any ops of the queue |
| `ClientObject.ClientSM.OpFinished` | src/cc/chunk/ClientSM.cc:665-698 | releases what waited for the op; only the outermost call submits |
| `ClientObject.ClientSM.TerminateDone` | src/cc/chunk/ClientSM.cc:340-389 | after the connection is closed ops are dropped from the head only, and what waited for them is still submitted |
| `ClientObject.ClientSM.HandleCommand` | src/cc/chunk/ClientSM.cc:622-654 | a sync is held back behind the last queued write |
| `ClientObject.ClientSM.ChunkSpaceReserve` | src/cc/chunk/ClientSM.h:135-139 | the connection's own reservation grows |
| `ClientObject.ClientSM.UseReservedSpace` | src/cc/chunk/ClientSM.h:118-127 | never uses more than the connection holds |
| `Replicator.CopyIsPrefix` | src/cc/chunk/Replicator.cc:194-302 | while a replicator that was not cancelled is at work, the local copy is a prefix of the peer's with right checksums |
| `Replicator.OneAtATime` | src/cc/chunk/Replicator.cc:142-170 | at most one replicator of a chunk is at work without having been cancelled |
| `Replicator.SuccessIsFullCopy` | src/cc/chunk/Replicator.cc:304-353 | a replicator that reports success, cancelled or not, leaves a full copy under the peer's version if it is still the one in the table and there is a copy |
| `Replicator.StartedOver` | src/cc/chunk/Replicator.cc:142-170 | if it is no longer the one in the table, then a step of the run took the entry from it for another replicator, and left an empty copy or none |
| `Replicator.SuccessThoughCancelled` | src/cc/chunk/Replicator.cc:67-76 | a concrete run: cancelled with all others, a replicator still leaves its full copy |
| `Replicator.SuccessWithoutCopy` | src/cc/chunk/Replicator.cc:332-353 | a concrete run: cancelled while its metadata is written, a replicator still reports success, although the copy was started over |
| `Replicator.CancelledLeavesChunk` | src/cc/chunk/Replicator.cc:304-353 | a cancelled replicator neither deletes nor changes nor re-versions the local copy |
| `Replicator.CopyRemovedIff` | src/cc/chunk/Replicator.cc:128-192 | in every run, while a replicator makes its copy, a step of another one removes the copy if and only if that one, not cancelled, fails to start: the peer fails or its chunk is too large, or no local chunk can be made, or the source is empty and its metadata write cannot start; only in the first two cases is the replicator left uncancelled |
| `Replicator.FailedStartRemovesCopy` | src/cc/chunk/Replicator.cc:332-353 | a concrete run: the peer does not answer a second replicator, and the first goes on reading without a copy |
| `Replicator.EndsAfter` | src/cc/chunk/Replicator.cc:229-302 | in every run a replicator takes in at most three answers more than twice the bytes it has to copy, whatever the others do: every answer ends it, extends the copy or gets it to the next phase |
| `ReplicatorRuns.ArrivedIff` | src/cc/chunk/Replicator.cc:229-270 | in every run, data that arrives extends the copy by what was read, cut to whole blocks, exactly if nobody cancelled, the read succeeded, there is a copy and the chunk manager takes the write; otherwise it ends the replicator |
| `ReplicatorRuns.WroteIff` | src/cc/chunk/Replicator.cc:272-302 | in every run, after a write the replicator reads on, or writes the metadata of a full copy, or ends, each exactly when |
| `ReplicatorRuns.StartedIff` | src/cc/chunk/Replicator.cc:128-192 | in every run, when the peer told its size the copy starts exactly if nobody cancelled, the size fits and a chunk could be made |
| `ReplicatorRuns.GoodRunCopies` | src/cc/chunk/Replicator.cc:194-353 | whatever the sizes in which the data comes: if nothing fails the replicator does not, and it ends, after at most twice as many answers as there are bytes and four, with the full copy under the peer's version |
| `ReplicatorRuns.EveryChunkReplicates` | src/cc/chunk/Replicator.cc:194-353 | every chunk can be replicated: a peer that answers in full and a disk that works give a run that ends with success and the full copy |
| `Replicator.AnswerMakesProgress` | src/cc/chunk/Replicator.cc:229-302 | each answer lowers the bound on the answers still to come |
| `ReplicatorObject.Replications.HandleStartDone` | src/cc/chunk/Replicator.cc:128-192 | cancels the one before, and starts over with an empty copy |
| `ReplicatorObject.Replications.HandleReadDone` | src/cc/chunk/Replicator.cc:229-270 | rounds the piece down to whole blocks and writes it |
| `ReplicatorObject.Replications.HandleWriteDone` | src/cc/chunk/Replicator.cc:272-302 | advances the offset and reads on |
| `ReplicatorObject.Replications.Terminate` | src/cc/chunk/Replicator.cc:304-330 | gives the copy its version only if all was copied and nothing cancelled |
| `ChunkLru.StayingIff` | src/cc/chunk/ChunkManager.cc:2386-2440 | a handle stays in the list if and only if it is recent or its file is open and in use, leased, write-pending or has a metadata write in flight |
| `ChunkLru.RecentStay` | src/cc/chunk/ChunkManager.cc:2406-2406 | behind the first recent handle there is nothing to close: stopping there loses nothing |
| `ChunkLru.HandleList.CleanupInactiveFds` | src/cc/chunk/ChunkManager.cc:2386-2440 | the list keeps exactly those handles, the others are closed, no other handle changes |
| `ChunkLru.HandleList.LruUpdate` | src/cc/chunk/ChunkManager.cc:175-184 | to the back or out of the list, which stays ordered by time of use and free of handles somebody else looks after |
| `ChunkLru.HandleList.ScheduleSyncMeta` | src/cc/chunk/ChunkManager.cc:186-190 | leaves the list while a metadata write is due |
| `ChunkLru.HandleList.SetMetaWriteInFlight` | src/cc/chunk/ChunkManager.cc:192-197 | comes back when the write is under way |
| `ChunkLru.HandleList.MetaWriteDone` | src/cc/chunk/ChunkManager.cc:259-282 | is used again when it is over; after a failed write the chunk goes, unless it is being replicated or written to |
| `ChunkLru.HandleList.SetWriteAppenderOwns` | src/cc/chunk/ChunkManager.cc:199-214 | an appender takes the handle out of the list and gives it back |
| `ChunkLru.HandleList.Release` | src/cc/chunk/ChunkManager.cc:233-257 | closes the file |
| `ChunkName.NamesRoundTrip` | src/cc/chunk/ChunkManager.cc:1178-1231 | parsing a chunk's path name gives back directory, file id, chunk id and version, for every directory string and all integers |
| `ChunkName.NamesAreUnique` | src/cc/chunk/ChunkManager.cc:1178-1184 | different chunks have different path names |
| `ChunkName.ReadsBack` | src/cc/chunk/ChunkManager.cc:1213-1224 | what is printed is what the C library reads |
| `ChunkName.SplitPath` | src/cc/chunk/Utils.cc:55-66 | the loop with two moving indexes computes the split at every separator |

## Left out

- The meta server beyond its one decision per chunk, the client library, the disk queue, I/O buffers and the network:
  environment. Buffers are byte sequences, a disk write is complete or fails, and time is an event or a parameter.
- More than one life of an appender on the same replica: each server opens the chunk once in a run of `Chain`.
- Write ids are unique along a chain and never reused; in the code each server has its own id for the same writer.
- Closes and appends to a peer share one connection, so that they stay in order; a close that a new connection
  overtakes is not modelled.
- A chunk file that the chunk manager discards is the step `Lose`, so a lost handle is found at any time, not only at
  the next call.
- Flush timing inside the chain: `FinishStable` is told how far the data reached the disk; `DiskWrites` shows how far
  that is.
- AppenderObject.AtomicRecordAppender.TryToCloseChunk: the commit ack it sends first, and the wait while appends are
  in flight, are steps of their own (`SendCommitAck` and `IdleClose` in `Chain`).
- AppenderObject.AtomicRecordAppender.CheckLeaseAndChunk: a file handle that the chunk manager discarded is found by
  `LoseChunk`, a call of its own.
- AppenderObject.AtomicRecordAppender.MakeChunkStable: requests name this chunk and version and a size; a checksum, and a
  request without a size, are covered by `ChunkTruncate.MakeStableIff`.
- AppenderObject.AtomicRecordAppender.WritesDone: the read of the last block, the comparison of checksums and the metadata
  write are one parameter; `ChunkTruncate.TruncateSound` and `ChunkTruncate.MakeStableIff` have what they do.
- AppendManager.AtomicRecordAppendManager.AllocateChunk: whether server list and file handle are those of the open
  appender comes with the request.
- ChunkAgreement.WriteKeepsSound: only writes that start at or before the end of the chunk, because skipped blocks keep
  the entry they had; another write to the same block between the read and the write of a read-modify-write is covered
  only for the appender's own writes, by `DiskWrites.QuietIsExact`.
- ChunkFile.ChunkFile.WriteChunk: offsets are at most the chunk size; the code does not check this here and would
  index past the checksum array.
- PendingWrites.PendingWrites.Scavenge: does not promise to retire every expired write, because a touched write keeps
  its place at the front; what retiring does to the chunk file is left out.
- A replicator's peer keeps its copy unchanged and answers with bytes of it, possibly fewer than asked for, or an error.
- BufferManager.BufferManager.Timeout: a client that is granted bytes does not call back into the manager.
- Shut-down of a connection beyond dropping the ops that are done and giving back reservations, and limits on request
  sizes.
- TruncateChunk and its zero checksum, space accounting by directory, the flush limit and pending byte totals,
  counters and statistics.
- Request parsing and formatting, the hello and reconnect logic, checkpoints, scrubbing, scripts and bindings.
- Integers are unbounded except where the code subtracts unsigned sizes: chunk offsets are at most 2 to the power 26, and
  ids are assumed to fit.
