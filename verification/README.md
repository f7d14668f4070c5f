# A verified model of a distributed RDF store

gStore-rust is an RDF triple store that is replicated by a Raft-style protocol, sharded over a changing set of
nodes, read and written concurrently under four isolation levels, and reached over a hand-written wire format
and over SPARQL results in JSON. This project models the parts of it whose correctness is hardest to see and
proves what they promise, over every input, every run or every reachable state. `dafny verify dfyconfig.toml`
checks all of it.

## How the model is built

**Replication.** `RaftNode` gives every step of one node as a function on its state; the class `RaftState`
updates the same fields in place and each of its methods is proved equal to its function. `RaftNetwork` puts
nodes on a network that may lose, repeat and reorder requests and replies for ever, with crashes, revivals,
application of committed entries, compaction and snapshots. `RaftLedger` and `RaftActions` hold the protocol
behind the code: complete logs, who won which term with which log, every vote with the log it was cast with,
and how much of each term's log every node has stored. `RaftLink` and `RaftSteps` show that every step of the
code is such a protocol action or none, and `RaftSafety` draws the conclusions about node states alone.
`GroupSpec` and the class `ReplicaGroup` are the synchronous driver with its message queue; `GroupRuns` embeds
each of its runs in a run of the network, `GroupSafety` transfers the theorems, `GroupElection` proves that
electing the most up-to-date replica cannot fail, and `CatchUp` that a lagging follower always catches up.
`FreeRuns` has what holds even when snapshots do harm: one leader a term, and terms that only grow.

The code differs from the Raft paper (Ongaro and Ousterhout, sections 5.2 to 5.4 and 7), and the proofs are
about the code: the follower's commit bound is its own last index, the election no-op is conditional, a
leader's knowledge of what a follower has may go down, and a reply to a snapshot is believed whatever its term.

**A snapshot can lose a committed entry.** Section 7 of the paper keeps the entries that follow a snapshot; the
code clears the whole log. `SnapshotLoss.CommittedEntryLost` is a run of three nodes in which a snapshot is
overtaken by a younger append, makes its receiver forget an entry it had acknowledged, and a leader is elected
without that entry although it was committed. So leader completeness is false for arbitrary deliveries of
snapshots. `RaftSafety.InstallDropsShared` gives the exact condition, which the receiver can check before it
installs, `RaftSteps.DiscardsMatch`: it has an entry at the snapshot's index, of the snapshot's term, beyond its
commit index, and more entries after it. `RaftNetwork.Run` delivers a snapshot only when that is not so,
`RaftNetwork.FreeRun` always.

**The driver never does that.** Its queue is first in, first out, and only one node's messages are in it at a
time. `GroupTracking` and `GroupQueue` say what a leader then knows: between calls its next index for a follower
is beyond all they share, or the follower's commit index is; during a delivery whatever falls short of that is
mended by a message already in the queue, ahead of any snapshot. `GroupHarmless` carries this through every
exchange and `GroupCalls` through every call, so no delivery of a group throws a matching suffix away
(`GroupCalls.BoundedIsHarmless`). This needs the driver's loop to empty its queue. The code gives up after
100,000 deliveries; `GroupBound.LightEnds` shows that it does not come to that when (peers) x (4 + entries the
sender keeps) x (3 + entries it has not committed) is at most 100,000 as the loop starts (`GroupRuns.Light`).
The theorems on groups ask this of each loop, or that it was not cut off for another reason; without compaction
those of `GroupSafety` and `GroupElection` ask nothing, and `GroupSafety.GroupElections` asks nothing at all.

**What becomes of a write.** `GroupWrites.CommitsIffQuorum`: the call that proposes it commits it if and only if
a majority of the replicas is running. If so, every running replica has applied it when the call returns
(`GroupWrites.QuorumApplies`). If not, it stays in the leader's log and is applied nowhere, for as long as the
replicas that have run since are no majority (`GroupMinority.NeverApplied`); they are counted together, because
an acknowledgement outlives the failure of the replica that gave it.

**Concurrent transactions.** `Mvcc` has version chains, write sets and validation on values, `Transactions` the
whole system as a step relation with a record of everything ever committed that no step looks at, and
`ConcurrentDb` the objects: registry, chains, database, transaction handle and reader. A triple is identified
with its key, its lossless N-Triples text. Every public operation is one atomic step, as the fixed lock order
makes it.

**Sharding and membership.** `TripleStore` is a store as the set of its triples with sorted access methods,
`Sharding` and `ShardedStore` the scatter-gather merge, `Membership` rendezvous hashing and the replicated
configuration, `ShardCluster` migration. Hashes and weights are arbitrary functions. For the empty-endpoint,
new-id and last-member conditions of joining and leaving, `ShardCluster.JoinConserves`,
`ShardCluster.RejoinKeeps` and `ShardCluster.LeaveConserves` say exactly what holds without them.

**Wire format.** `Rpc` and `RpcMessages` define encodings and position-based reading, `RpcCodec` the buffer and
the cursor that compute them. A socket address is the text it prints as, and parsing it is a parameter.

**Results as JSON.** `Json` prints and reads JSON text (section 7 of RFC 8259 for strings), `SparqlResults` says
what a table is written as and what is read back (section 3.2 of the SPARQL 1.1 Query Results JSON Format), and
`SparqlJson` has the loops of the writer and the recursive-descent parser. Parsing a cell's term and deciding
which texts are numbers are parameters.

**Where documentation and code differ.** The comments on snapshots promise that an install reproduces the
committed state; it does, but it may cost the follower entries it had acknowledged, as above. The comments on
joining allow an endpoint that already holds triples; the code leaves them where they are, so triples that do
not belong to the new node stay with it (`ShardCluster.JoinConserves`), and registering a member a second time
replaces its data (`ShardCluster.RejoinKeeps`). The comments on electing a leader say that the most up-to-date
replica always wins; it may first win and be deposed by a voter of a higher term, and then wins the second
election (`GroupElection.FirstFlush`, `GroupElection.SecondFlush`). The model follows the code in each case.

## Model

| member | source | states |
|---|---|---|
| `RaftState.RaftState.constructor` | src/cluster.rs:1747-1784 | a new node is a follower in term 0 with an empty log and a drawn election timeout |
| `RaftNode.ResetElection` | src/cluster.rs:1868-1872 | a drawn timeout lies between the configured minimum and maximum and the elapsed count is zero |
| `RaftState.RaftState.ObserveTerm` | src/cluster.rs:1876-1884 | a newer term makes the node a follower without a vote; an older or equal one changes nothing |
| `RaftState.RaftState.Tick` | src/cluster.rs:1891-1908 | the new state and the emitted messages are those of the step function `RaftNode.Tick`, about which the run theorems are proved |
| `RaftState.RaftState.StartElection` | src/cluster.rs:1910-1939 | standing for election and the vote requests, or immediate leadership in a cluster of one |
| `RaftState.RaftState.BecomeLeader` | src/cluster.rs:1941-1964 | the no-op is appended exactly when the log reaches past the commit index; all peers start at the last index plus one |
| `RaftState.RaftState.Handle` | src/cluster.rs:1970-2007 | each request is answered as its step function says, with the state it leaves |
| `RaftState.RaftState.HandleRequestVote` | src/cluster.rs:2009-2039 | a vote is granted only once per term and only to a log at least as up to date |
| `RaftState.RaftState.HandleAppendEntries` | src/cluster.rs:2041-2107 | the consistency check, the append loop, the commit bound and the reply for every request |
| `RaftState.RaftState.StoreAll` | src/cluster.rs:2081-2096 | the in-place truncate-and-push loop leaves the log `StoreEntries` describes |
| `RaftSteps.StoreEntriesMerges` | src/cluster.rs:2081-2096 | for a log that agrees with the sender's up to the anchor and the base, and in which equal terms at an index mean equal entries (as `AnchorMatches` and `SameTermSameEntry` show of every reachable node), the loop leaves a log that already has the entries unchanged and any other log ending exactly with the last entry received |
| `RaftState.RaftState.HandleInstallSnapshot` | src/cluster.rs:2109-2145 | a snapshot beyond the commit index replaces log, base, snapshot, commit and applied index and leaves a reset pending |
| `RaftState.RaftState.HandleReply` | src/cluster.rs:2151-2222 | the leader's reaction to every reply, including those from other terms, and the follow-up messages |
| `RaftState.RaftState.AdvanceCommit` | src/cluster.rs:2224-2243 | the downward search finds the highest index of the current term held by a majority, and reports whether it moved |
| `RaftSteps.AdvanceIsCommit` | src/cluster.rs:2224-2243 | an index the leader commits is of its own term and stored by a majority of nodes |
| `RaftState.RaftState.Propose` | src/cluster.rs:2249-2261 | only a leader appends; a cluster of one commits at once |
| `RaftState.RaftState.Replicate` | src/cluster.rs:2271-2281 | one message per peer, in order, and the heartbeat count restarted |
| `RaftState.RaftState.ReplicateTo` | src/cluster.rs:2283-2319 | snapshot or append for a peer, by its next index |
| `RaftState.RaftState.ReplicateNow` | src/cluster.rs:2263-2269 | a leader replicates to all peers at once; anyone else sends nothing |
| `RaftState.RaftState.DrainApply` | src/cluster.rs:2324-2336 | a pending reset first, then every committed entry not yet applied, in order |
| `RaftState.RaftState.Compact` | src/cluster.rs:2342-2352 | applied entries are folded away and the base moves up; out-of-range requests change nothing |
| `RaftState.RaftState.NoteRevived` | src/cluster.rs:2363-2368 | a revived leader is a follower; the timer is reset |
| `RaftLedger.LogMatching` | src/cluster.rs:2065-2096 | two logs with the same term at an index are equal up to it |
| `RaftLedger.LeaderCompleteness` | src/cluster.rs:2009-2039 | whoever wins a later term was elected with every entry committed in an earlier one |
| `RaftLedger.CommittedPrefixesAgree` | src/cluster.rs:2224-2243 | any two prefixes counted as committed agree on their common part |
| `RaftActions.OneWinnerPerTerm` | src/cluster.rs:1827-1829 | two majorities of votes in one term elect the same node |
| `RaftSteps.TickSteps` | src/cluster.rs:1891-1939 | a tick is a protocol action: standing, winning, or none |
| `RaftSteps.VoteSteps` | src/cluster.rs:2009-2039 | handling a vote request is a protocol action: a newer term, a vote, or none |
| `RaftSteps.AppendSteps` | src/cluster.rs:2041-2107 | handling an append keeps the node consistent with the recorded history and its acknowledgement truthful |
| `RaftSteps.SnapshotSteps` | src/cluster.rs:2109-2145 | installing a snapshot that throws no matching suffix away keeps the node consistent with the recorded history |
| `RaftSteps.ReplySteps` | src/cluster.rs:2151-2222 | handling any reply, of any term, keeps the node consistent and its next messages truthful |
| `RaftSteps.ProposeSteps` | src/cluster.rs:2249-2261 | a proposal extends the leader's log by an entry of its term |
| `RaftSteps.DrainSteps` | src/cluster.rs:2324-2336 | draining brings the store to the fold of the whole committed prefix |
| `RaftSteps.CompactSteps` | src/cluster.rs:2342-2352 | folding applied entries into the node's own store keeps the snapshot equal to the fold below the base |
| `RaftNetwork.StepKeeps` | src/cluster.rs:1886-2369 | every step of every node, with requests and replies lost, duplicated and reordered and no snapshot throwing a matching suffix away, keeps the global invariant |
| `RaftNetwork.RunRecorded` | src/cluster.rs:1886-2369 | every run has a sound record of elections, votes, logs and acknowledgements behind each of its states |
| `FreeRuns.ElectionSafety` | src/cluster.rs:1910-1939 | in every run, whatever snapshots are delivered, at any two moments, two leaders of one term are the same node |
| `FreeRuns.TermsOnlyGrow` | src/cluster.rs:1876-1884 | in every run, whatever snapshots are delivered, terms never decrease |
| `RaftSafety.LogMatchingInRuns` | src/cluster.rs:2065-2096 | in every reachable state equal terms at an index mean equal entries up to it, and terms never decrease along a log |
| `RaftSafety.LeaderCompletenessInRuns` | src/cluster.rs:2224-2243 | whatever any node has committed at any moment, every leader of a later term holds unchanged |
| `RaftSafety.OneHistory` | src/cluster.rs:2324-2352 | one sequence of entries explains every commit index, committed entry, snapshot and store of every node at every moment of a run |
| `RaftSafety.DrainsHistory` | src/cluster.rs:2324-2336 | what a node drains is the history between its applied and commit index: no two nodes drain different commands for an index |
| `RaftSafety.ReplicasConverge` | src/cluster.rs:2324-2336 | replicas that have applied equally much hold equal stores, at any two moments |
| `RaftSafety.NeverBackwards` | src/cluster.rs:2098-2101 | terms, commit indexes and applied indexes never decrease |
| `RaftSafety.AdvertisedCommit` | src/cluster.rs:2287-2317 | every append ever sent advertises a commit index within the entries it covers |
| `RaftSafety.InstallDropsShared` | src/cluster.rs:2133-2141 | in every run, a snapshot in flight drops entries that follow a prefix its receiver shares with the recorded log of the sender's term if and only if the receiver has an entry of the snapshot's term at its index, beyond its commit index, and more entries after it |
| `SnapshotLoss.CommittedEntryLost` | src/cluster.rs:2133-2141 | a run of three nodes, with no message repeated or invented, in which an entry committed after its acknowledgement is lost to an overtaken snapshot and the leader of the next term has another entry at its index |
| `Uncompacted.UncompactedRunsUnrestricted` | src/cluster.rs:2283-2304 | in a run without compaction no snapshot is ever sent, so every request in flight may be delivered |
| `CatchUp.RejectedRound` | src/cluster.rs:2181-2200 | a rejection strictly lowers the follower's next index and never makes the next message unsafe |
| `CatchUp.AcceptedRound` | src/cluster.rs:2065-2107 | an append that is not rejected tells the leader the follower holds its whole log |
| `CatchUp.SnapshotRound` | src/cluster.rs:2203-2216 | a snapshot moves the next index just above it |
| `CatchUp.InstalledRounds` | src/cluster.rs:2109-2145 | a follower that installs the leader's snapshot holds exactly the leader's log after one more round, whatever it held before |
| `CatchUp.CatchUpInRuns` | src/cluster.rs:2181-2216 | from every reachable state, also when the next message is a snapshot that throws entries away, a leader and a follower of no higher term end, within one round more than the next index, agreeing on every index up to the leader's last |
| `ReplicaGroup.ReplicaGroup.constructor` | src/cluster.rs:2869-2897 | fresh replicas that know each other, empty stores, nobody failed |
| `ReplicaGroup.ReplicaGroup.Pos` | src/cluster.rs:2912-2917 | the position of a member id |
| `ReplicaGroup.ReplicaGroup.SetDown` | src/cluster.rs:2928-2934 | only a replica coming back is told it was revived |
| `ReplicaGroup.ReplicaGroup.Leader` | src/cluster.rs:2949-2954 | a running leader of the highest term, or none exactly when no running replica leads |
| `GroupSpec.LeaderOf` | src/cluster.rs:2949-2954 | no running leader has a higher term than the one chosen |
| `ReplicaGroup.ReplicaGroup.ReadableStore` | src/cluster.rs:2958-2964 | the leader's store if one leads, else a running replica's, and nothing only when all are down |
| `ReplicaGroup.ReplicaGroup.Carry` | src/cluster.rs:2978-2999 | carrying out drained actions in order |
| `ReplicaGroup.ReplicaGroup.SyncApply` | src/cluster.rs:2975-3001 | every replica, failed ones too, applies what is committed; then running ones with long logs compact |
| `ReplicaGroup.ReplicaGroup.MaybeCompact` | src/cluster.rs:3007-3022 | exactly the running replicas past the threshold fold their applied log into their own store |
| `ReplicaGroup.ReplicaGroup.Deliver` | src/cluster.rs:3028-3048 | the first-in-first-out queue loop, with its bound, followed by applying |
| `ReplicaGroup.ReplicaGroup.Exchange` | src/cluster.rs:3036-3045 | one message and its reply; links to and from failed replicas drop it |
| `ReplicaGroup.ReplicaGroup.Tick` | src/cluster.rs:3053-3060 | one replica's clock and everything that follows; a failed replica does not tick |
| `ReplicaGroup.ReplicaGroup.Elect` | src/cluster.rs:3065-3077 | ticking one replica until it leads, at most a thousand times |
| `ReplicaGroup.ReplicaGroup.MostUpToDate` | src/cluster.rs:3095-3105 | the running replica with the greatest last term, then last index, then lowest id |
| `GroupSpec.Freshest` | src/cluster.rs:3095-3105 | every running replica ranks at or below the one chosen |
| `ReplicaGroup.ReplicaGroup.EnsureLeader` | src/cluster.rs:3089-3109 | the present leader, or the elected most up-to-date replica, or a panic |
| `ReplicaGroup.ReplicaGroup.Propose` | src/cluster.rs:3114-3121 | append on the leader, replicate and deliver |
| `ReplicaGroup.ReplicaGroup.Settle` | src/cluster.rs:3127-3134 | tick the current leader so often, stopping when there is none |
| `GroupRuns.ExchangeRuns` | src/cluster.rs:3036-3045 | a queued message and its reply are a delivery and an answer of the cluster, also of a guarded run if no matching suffix is thrown away |
| `GroupRuns.GroupRunEmbeds` | src/cluster.rs:3028-3134 | every run of a group is part of a run of the cluster, state by state and in order; of a guarded run when no delivery throws a matching suffix away |
| `GroupSafety.GroupHistory` | src/cluster.rs:2975-3022 | in every run whose delivery loops start light, or without compaction in every run: before and after every call every replica's store is the fold of its committed prefix of one history, across elections, crashes, compaction and snapshot catch-up |
| `GroupSafety.GroupElections` | src/cluster.rs:2949-2954 | in every run of a group without exception, two replicas never lead one term, and terms never decrease |
| `GroupSafety.GroupCommits` | src/cluster.rs:2098-2101 | commit indexes never decrease over such runs |
| `GroupSafety.GuardedRun` | src/cluster.rs:3028-3134 | such a run of a group is part of a guarded run of the cluster, so the theorems on those hold of it |
| `GroupTracking.AnchoredIsShared` | src/cluster.rs:2060-2080 | an append passes the consistency check exactly when its anchor lies within what the follower shares with the leader |
| `GroupTracking.HarmlessSnapshot` | src/cluster.rs:2133-2141 | a snapshot of more than the shared part, or of no more than is committed, throws no matching suffix away |
| `GroupQueue.AnswerLines` | src/cluster.rs:2181-2219 | after every reply a leader's next index for a peer is beyond what they share, or a message already queued mends it ahead of any snapshot |
| `GroupHarmless.ExchangeKeeps` | src/cluster.rs:3032-3046 | handing over the head of the queue throws no matching suffix away and keeps what leaders know of their followers |
| `GroupBound.ExchangeCheaper` | src/cluster.rs:3032-3046 | every exchange lowers a measure of the deliveries the queue can still cause |
| `GroupBound.LightEnds` | src/cluster.rs:3028-3048 | a delivery loop that starts with few enough peers, kept entries and uncommitted entries empties its queue below the bound |
| `GroupCalls.BoundedIsHarmless` | src/cluster.rs:2975-3134 | in every run of elections, proposals, failures, revivals and compaction whose delivery loops start light, no loop is cut off and no snapshot throws a matching suffix away |
| `GroupSafety.UndisturbedIsHarmless` | src/cluster.rs:3007-3048 | no delivery throws a matching suffix away, in every run whose delivery loops start light and, without compaction, in every run |
| `GroupElection.CommittedWithin` | src/cluster.rs:3079-3088 | what one replica has committed lies within any log at least as up to date as its own |
| `GroupElection.FirstFlush` | src/cluster.rs:3028-3048 | after one whole election the candidate's term is the highest among running replicas |
| `GroupElection.SecondFlush` | src/cluster.rs:1910-1939 | standing above every running replica, the candidate collects all their votes, leads and is not deposed |
| `GroupElection.EnsureLeaderNeverFails` | src/cluster.rs:3089-3109 | in every group such a run reaches, with a majority running, at most 100,001 replicas and twice the longest timeout at most 999 ticks, a running leader is returned |
| `GroupMinority.CommitKnown` | src/cluster.rs:2224-2243 | a leader's log reaches as far as any replica of no higher term has committed |
| `GroupMinority.NotCommitted` | src/cluster.rs:2224-2243 | a leader that has heard of an index only from a minority does not commit it |
| `GroupMinority.NeverApplied` | src/cluster.rs:3111-3121 | a proposal is appended at the next index; while all replicas that have run since are no majority, no replica commits or applies that index anew, whatever is ticked, elected, proposed, failed or revived, in every run whose delivery loops start light |
| `GroupWrites.FlushSpreads` | src/cluster.rs:3028-3048 | a delivery loop of a leader above every running replica, if not cut off, ends with each of them known to hold the leader's last entry and told of its commit index |
| `GroupWrites.QuorumApplies` | src/cluster.rs:3111-3121 | with a majority running and no running replica above the leader's term, when the proposing call returns every running replica has applied the command as its last one, their stores are equal and show it |
| `GroupWrites.CommitsIffQuorum` | src/cluster.rs:3111-3121 | under a leader whose term no running replica exceeds, the proposing call commits the write if and only if a majority is running |
| `ConcurrentDb.OccState.Register` | src/concurrent.rs:262-264 | one more pin at a version |
| `ConcurrentDb.OccState.Deregister` | src/concurrent.rs:267-274 | one pin fewer; the last one removes the version |
| `ConcurrentDb.OccState.GcFloor` | src/concurrent.rs:279-281 | the oldest pin, or none |
| `ConcurrentDb.OccState.Gc` | src/concurrent.rs:286-289 | only write sets newer than the oldest pin stay |
| `ConcurrentDb.OccState.AnyNewerWrote` | src/concurrent.rs:757-769 | whether a commit after the start wrote one of the keys |
| `ConcurrentDb.VersionedStore.Record` | src/concurrent.rs:338-348 | one record appended to one key's chain |
| `ConcurrentDb.VersionedStore.RecordAll` | src/concurrent.rs:797-812 | one record per written key, carrying the net effect |
| `ConcurrentDb.VersionedStore.VisiblePresent` | src/concurrent.rs:353-358 | the latest record no newer than the version, if any |
| `ConcurrentDb.VersionedStore.MaterializeInto` | src/concurrent.rs:363-389 | whatever order the chains come in, the state built holds exactly the keys a point read sees |
| `ConcurrentDb.VersionedStore.Gc` | src/concurrent.rs:400-416 | trimming to the oldest pin and dropping chains that repeat the base |
| `Mvcc.CollectedResolves` | src/concurrent.rs:400-416 | collection cannot be observed by any reader at or above the floor, also when a lone record that agrees with the base is dropped |
| `Mvcc.RecordedResolves` | src/concurrent.rs:338-358 | a new version's records change nothing for older readers and show its effect from then on |
| `Mvcc.NetIsLast` | src/concurrent.rs:786-812 | applying operations one by one has, on each key, the effect of the last one for it |
| `ConcurrentDb.ConcurrentDb.constructor` | src/concurrent.rs:439-448 | version one, the content as base and snapshot |
| `ConcurrentDb.ConcurrentDb.WritePlain` | src/concurrent.rs:474-508 | a write outside transactions publishes the next version and marks it |
| `ConcurrentDb.ConcurrentDb.Publish` | src/concurrent.rs:510-516 | the writer's content becomes the snapshot of the next version |
| `ConcurrentDb.ConcurrentDb.Begin` | src/concurrent.rs:530-549 | a transaction pinned at the current version with its content as snapshot |
| `ConcurrentDb.ConcurrentDb.OpenView` | src/concurrent.rs:582-594 | a reader pinned at the current version |
| `ConcurrentDb.ConcurrentDb.OpenViewAt` | src/concurrent.rs:607-616 | a reader pinned at a given version |
| `ConcurrentDb.ConcurrentDb.Release` | src/concurrent.rs:837-846 | unpin, prune the history, collect the chains |
| `ConcurrentDb.Handle.Buffer` | src/concurrent.rs:678-687 | a write is buffered and its key noted |
| `ConcurrentDb.Handle.Contains` | src/concurrent.rs:709-725 | the snapshot or the latest state under the transaction's own writes |
| `ConcurrentDb.Handle.Read` | src/concurrent.rs:731-734 | the same answer, with the key in the read set |
| `ConcurrentDb.Handle.Judged` | src/concurrent.rs:745-772 | the verdict by level: plain write, write conflict, read conflict, or clear |
| `ConcurrentDb.Handle.Commit` | src/concurrent.rs:740-829 | a cleared transaction is applied, published, recorded and unpinned; a conflicting one only unpinned |
| `ConcurrentDb.Handle.Drop` | src/concurrent.rs:837-848 | dropping an open transaction unpins it; dropping a finished one does nothing |
| `ConcurrentDb.VersionView.Contains` | src/concurrent.rs:873-885 | what the chains show at the pinned version, else the base |
| `ConcurrentDb.VersionView.Materialize` | src/concurrent.rs:890-904 | the state a query is evaluated on agrees with point reads everywhere |
| `ConcurrentDb.VersionView.Drop` | src/concurrent.rs:906-917 | dropping a reader unpins it |
| `Transactions.StepKeeps` | src/concurrent.rs:485-917 | every operation by anyone keeps the invariant that ties history, pins, chains and transactions to everything ever committed |
| `Transactions.PrunedVerdict` | src/concurrent.rs:261-289 | validating against the collected history gives the verdict of the full history |
| `Transactions.RetainedIsNewer` | src/concurrent.rs:283-289 | after each collection every retained write set is newer than the oldest live pin |
| `Transactions.SnapshotIsolation` | src/concurrent.rs:740-772 | between start and commit of a repeatable-read or serializable transaction nobody wrote its keys and no plain write happened |
| `Transactions.SerializableReads` | src/concurrent.rs:709-734 | a committed serializable transaction's answers are those of the state just before its commit, next to other levels and plain writes |
| `Transactions.SerialRunIsSame` | src/concurrent.rs:731-734 | a transaction that decides by its tracked reads has only one complete run from a given state |
| `Transactions.SerialExecution` | src/concurrent.rs:740-829 | an all-serializable run equals running the committed transactions one by one in version order |
| `Transactions.SerialReplayIsRun` | src/concurrent.rs:709-829 | running the programs of an all-serializable run again one by one in version order is possible in exactly one way: every program asks, sees and writes what it did in the run, and the last state is the database |
| `Transactions.ViewsServe` | src/concurrent.rs:870-885 | every open reader sees exactly the base with the transactions committed up to its version |
| `Transactions.ViewsSeeTheirVersion` | src/concurrent.rs:316-358 | without plain writes that is the committed state of its version, after any later steps and collections |
| `Transactions.ViewsAreFrozen` | src/concurrent.rs:582-594 | a reader opened at the then-current version keeps seeing what the database held at that moment |
| `Transactions.PastOnlyGrows` | src/concurrent.rs:510-516 | what was committed once stays on record unchanged |
| `Sharding.ShardOf` | src/cluster.rs:165-169 | a subject's shard is one of the shards |
| `Ordered.SortDedupLists` | src/cluster.rs:172-176 | sorting and removing equal neighbours lists exactly the elements, in order, once each |
| `Sharding.Gathered` | src/cluster.rs:252-335 | merging the shards' answers gives the answer of the whole set, for any filter and projection |
| `Sharding.TotalIsWhole` | src/cluster.rs:337-340 | summed per-shard counts count every triple once |
| `Sharding.RebuiltIsIterAll` | src/cluster.rs:377-393 | predicates in order, pairs in order: the whole store in predicate-major order |
| `ShardedStore.ShardedStore.FromTriples` | src/cluster.rs:191-209 | every triple on the shard of its subject, together exactly the given triples |
| `ShardedStore.ShardedStore.Exists` | src/cluster.rs:246-250 | existence as one store over the same triples answers |
| `ShardedStore.ShardedStore.PoByS` | src/cluster.rs:252-260 | predicate-object pairs of a subject as one store over the same triples answers, order and duplicates included |
| `ShardedStore.ShardedStore.OBySp` | src/cluster.rs:262-268 | objects of a subject and predicate as one store over the same triples answers, order and duplicates included |
| `ShardedStore.ShardedStore.PBySo` | src/cluster.rs:270-276 | predicates between a subject and an object as one store over the same triples answers, order and duplicates included |
| `ShardedStore.ShardedStore.PsByO` | src/cluster.rs:278-286 | predicate-subject pairs of an object as one store over the same triples answers, order and duplicates included |
| `ShardedStore.ShardedStore.SByPo` | src/cluster.rs:288-294 | subjects of a predicate and object as one store over the same triples answers, order and duplicates included |
| `ShardedStore.ShardedStore.SoByP` | src/cluster.rs:296-303 | subject-object pairs of a predicate as one store over the same triples answers, order and duplicates included |
| `ShardedStore.ShardedStore.SubsByP` | src/cluster.rs:305-311 | subjects of a predicate as one store over the same triples answers, order and duplicates included |
| `ShardedStore.ShardedStore.ObjsByP` | src/cluster.rs:313-319 | objects of a predicate as one store over the same triples answers, order and duplicates included |
| `ShardedStore.ShardedStore.SubjectKeys` | src/cluster.rs:321-327 | all subjects as one store over the same triples answers, order and duplicates included |
| `ShardedStore.ShardedStore.ObjectKeys` | src/cluster.rs:329-335 | all objects as one store over the same triples answers, order and duplicates included |
| `ShardedStore.ShardedStore.TripleCount` | src/cluster.rs:337-340 | the number of triples of the whole |
| `ShardedStore.ShardedStore.DistinctSubjects` | src/cluster.rs:342-346 | the number of distinct subjects of the whole |
| `ShardedStore.ShardedStore.DistinctObjects` | src/cluster.rs:348-351 | the number of distinct objects of the whole |
| `ShardedStore.ShardedStore.NumPredicates` | src/cluster.rs:353-360 | the number of distinct predicates of the whole |
| `ShardedStore.ShardedStore.PredCard` | src/cluster.rs:362-365 | the number of triples of the whole with a predicate |
| `ShardedStore.ShardedStore.PredDistinctSubj` | src/cluster.rs:367-370 | the number of distinct subjects of a predicate in the whole |
| `ShardedStore.ShardedStore.PredDistinctObj` | src/cluster.rs:372-375 | the number of distinct objects of a predicate in the whole |
| `ShardedStore.ShardedStore.IterAll` | src/cluster.rs:377-393 | all triples in the order one store lists them |
| `Membership.ClusterConfig.FindOwner` | src/cluster.rs:1079-1090 | the last member with the greatest weight |
| `Membership.OwnerOfSet` | src/cluster.rs:1079-1090 | over ascending members the owner depends on the member set alone: greatest weight, then greatest id |
| `Membership.OwnersAreMembers` | src/cluster.rs:1146-1155 | every shard is owned by a member, the one the member set determines |
| `Membership.AddMovesOnlyToNew` | src/cluster.rs:1160-1168 | adding a node changes an owner only to that node |
| `Membership.RemoveMovesOnlyItsOwn` | src/cluster.rs:1172-1179 | removing a node changes only its own shards |
| `MembershipRuns.ConfigsConverge` | src/cluster.rs:1183-1189 | nodes that have applied equally much hold equal configurations, at any two moments of a run without compaction |
| `Membership.DrainConfigures` | src/cluster.rs:1183-1189 | draining takes a node from the configuration of its applied prefix to that of its committed prefix |
| `Membership.ClusterConfig.constructor` | src/cluster.rs:1095-1102 | no members, epoch zero, nothing assigned |
| `Membership.ClusterConfig.Reassign` | src/cluster.rs:1146-1155 | the whole assignment is the one the members determine |
| `Membership.ClusterConfig.Add` | src/cluster.rs:1160-1168 | a new member bumps the epoch and reassigns; a known one changes nothing |
| `Membership.ClusterConfig.Remove` | src/cluster.rs:1172-1179 | an evicted member bumps the epoch and reassigns; an unknown one changes nothing |
| `Membership.ClusterConfig.ApplyOp` | src/cluster.rs:1183-1189 | membership commands are applied, data commands ignored |
| `ShardCluster.ScanBucket` | src/cluster.rs:508-517 | exactly the triples of the shard, in order; none when there are no shards |
| `ShardCluster.PurgeBucket` | src/cluster.rs:521-530 | exactly those triples are removed and counted |
| `ShardCluster.ShardCluster.constructor` | src/cluster.rs:1214-1219 | no members and no data |
| `ShardCluster.ShardCluster.MigrateShard` | src/cluster.rs:1294-1312 | copy to the new owner, then purge from the old; skipped when the source is gone |
| `ShardCluster.ShardCluster.Rebalance` | src/cluster.rs:1276-1289 | every shard whose owner changed is moved |
| `ShardCluster.ShardCluster.AddNode` | src/cluster.rs:1246-1253 | the endpoint is registered first, a new member then receives its shards |
| `ShardCluster.ShardCluster.RemoveNode` | src/cluster.rs:1258-1272 | its shards go to their new owners, then its endpoint is dropped |
| `ShardCluster.ShardCluster.Insert` | src/cluster.rs:1315-1326 | routed to the shard's owner, or an error without a route |
| `ShardCluster.ShardCluster.InsertAll` | src/cluster.rs:1329-1337 | all triples land with their owners and the count is how many were new to the whole cluster; it fails, having changed nothing, exactly when there is something to insert and no shard or no member |
| `ShardCluster.AnswerTells` | src/cluster.rs:1315-1326 | a triple has no route exactly when there is no shard or no member, and then nothing changes; otherwise the union grows by it, and the answer says whether any node of the cluster held it |
| `ShardCluster.ShardCluster.TripleCount` | src/cluster.rs:1421-1423 | the summed counts are the size of the union |
| `ShardCluster.MoveConserves` | src/cluster.rs:1294-1312 | moving a shard loses and duplicates nothing and leaves every triple with its owner |
| `ShardCluster.JoinConserves` | src/cluster.rs:1246-1253 | a new member loses nothing whatever it brings, and everything is with its owner exactly when all it brings is its own |
| `ShardCluster.RejoinKeeps` | src/cluster.rs:1246-1251 | re-registering a member keeps all data exactly when the new endpoint holds what the old one held |
| `ShardCluster.LeaveConserves` | src/cluster.rs:1258-1272 | leaving conserves everything unless the last member goes, and then everything goes |
| `ShardCluster.RunConserves` | src/cluster.rs:1246-1326 | in every run of inserts, joins and leaves each triple is with exactly its owner, the union is what was accepted, and the counts add up |
| `Rpc.BigEndianRoundTrip` | src/rpc.rs:165-171 | a number below the width reads back from its big-endian bytes |
| `RpcCodec.Buffer.PutU32` | src/rpc.rs:165-167 | four big-endian bytes appended |
| `RpcCodec.Buffer.PutU64` | src/rpc.rs:169-171 | eight big-endian bytes appended |
| `RpcCodec.Buffer.PutI64` | src/rpc.rs:197-199 | two's complement |
| `RpcCodec.Buffer.PutText` | src/rpc.rs:191-194 | a length and the UTF-8 bytes |
| `RpcCodec.Buffer.PutIds` | src/rpc.rs:174-179 | a count and the ids |
| `RpcCodec.Buffer.PutPairs` | src/rpc.rs:182-188 | a count and the pairs |
| `RpcCodec.Buffer.PutOp` | src/rpc.rs:204-231 | a tag and the command's fields |
| `RpcCodec.Buffer.PutEntries` | src/rpc.rs:234-240 | a count and the log entries |
| `RpcCodec.Buffer.PutTriples` | src/rpc.rs:244-251 | a count and the triples |
| `RpcCodec.Reader.Take` | src/rpc.rs:266-276 | the next bytes and the cursor behind them, or an error; never past the end |
| `RpcCodec.Reader.TakeText` | src/rpc.rs:312-316 | text of the given length, or an error when it is cut short or not UTF-8 |
| `RpcCodec.Reader.TakeI64` | src/rpc.rs:318-320 | two's complement read back |
| `RpcCodec.Reader.TakeIds` | src/rpc.rs:294-301 | a counted list of ids from any bytes, or an error |
| `RpcCodec.Reader.TakePairs` | src/rpc.rs:303-310 | a counted list of pairs from any bytes, or an error |
| `RpcCodec.Reader.TakeOp` | src/rpc.rs:322-347 | a log command from any bytes, or an error on an unknown kind or a bad address |
| `RpcCodec.Reader.TakeEntries` | src/rpc.rs:349-358 | a counted list of log entries from any bytes, or an error |
| `RpcCodec.Reader.TakeTriples` | src/rpc.rs:360-367 | a counted list of triples from any bytes, or an error |
| `RpcCodec.EncodeRequest` | src/rpc.rs:475-593 | the tag and fields of every request |
| `RpcCodec.DecodeRequest` | src/rpc.rs:596-667 | the request any bytes begin with, or an error |
| `RpcCodec.EncodeResponse` | src/rpc.rs:744-835 | the tag and fields of every response |
| `RpcCodec.DecodeResponse` | src/rpc.rs:838-898 | the response any bytes begin with, or an error |
| `RpcMessages.RequestRoundTrip` | src/rpc.rs:475-667 | decoding a request's encoding followed by any bytes gives it back and consumes exactly the encoding |
| `RpcMessages.ResponseRoundTrip` | src/rpc.rs:744-898 | decoding a response's encoding followed by any bytes gives it back and consumes exactly the encoding |
| `RpcMessages.RequestsPrefixFree` | src/rpc.rs:475-593 | no request's encoding begins another's |
| `RpcCodec.WriteMessage` | src/rpc.rs:130-141 | a length and the payload, or an error when it exceeds the frame limit |
| `RpcCodec.ReadMessage` | src/rpc.rs:146-159 | the payload of the next frame, or an error |
| `RpcMessages.FramesInOrder` | src/rpc.rs:130-159 | messages written one after another are read back in order, each in full |
| `RpcMessages.FramesFit` | src/rpc.rs:130-136 | a stream of payloads is accepted exactly when each fits a frame |
| `SparqlJson.WriteString` | src/sparql_results.rs:195-211 | the quoted and escaped form of any string |
| `SparqlJson.WriteCell` | src/sparql_results.rs:165-192 | the object for a cell's term; unparsable text becomes a plain literal |
| `SparqlJson.WriteRow` | src/sparql_results.rs:144-158 | the bound cells of a row in order |
| `SparqlJson.WriteSelectJson` | src/sparql_results.rs:129-162 | the text of a table is the printed form of its JSON value |
| `SparqlJson.JsonParser.SkipWs` | src/http_client.rs:230-234 | past all white space |
| `SparqlJson.JsonParser.Text` | src/http_client.rs:295-330 | a string with all its escapes, or an error |
| `SparqlJson.JsonParser.Value` | src/http_client.rs:236-247 | a value at the cursor from any text, or an error |
| `SparqlJson.JsonParser.Object` | src/http_client.rs:249-272 | an object from any text, or an error |
| `SparqlJson.JsonParser.Array` | src/http_client.rs:274-293 | an array from any text, or an error |
| `SparqlJson.JsonParser.Number` | src/http_client.rs:332-345 | the longest run of number characters, if it is a number |
| `SparqlJson.JsonParser.Word` | src/http_client.rs:365-373 | a keyword is consumed exactly when it stands at the cursor |
| `SparqlJson.ParseText` | src/http_client.rs:168-180 | one value with white space around it and nothing else |
| `SparqlJson.ReadRow` | src/http_client.rs:113-121 | the fields of one row as variables and terms, in order |
| `SparqlJson.ParseSparqlJson` | src/http_client.rs:100-122 | the solutions of a results document, or an error |
| `Json.QuotedReads` | src/http_client.rs:295-330 | any string, control characters included, reads back from its quoted form |
| `Json.ParseRender` | src/http_client.rs:168-180 | parsing the printed form of a value gives the value if and only if each of its numbers is a text the reader takes for a number |
| `SparqlResults.CellReads` | src/http_client.rs:125-152 | the term read back from a written cell |
| `SparqlResults.ShownIsSame` | src/sparql_results.rs:170-187 | a cell's term reads back as it was if and only if it does not carry both a language and a datatype |
| `SparqlResults.ResultsRoundTrip` | src/sparql_results.rs:129-211 | reading a written table gives, row by row and in order, the bound variables with the terms read back from their cells |
| `SparqlResults.ResultsLossless` | src/sparql_results.rs:129-211 | reading a written table gives exactly the bound variables with the terms their cells stand for if and only if no cell's term carries both a language and a datatype |

## Left out

- RaftNode.ResetElection: the pseudo-random generator is an arbitrary stream of numbers; only the range of the timeout is stated.
- RaftSteps.StoreEntriesMerges: assumes the agreement up to the anchor that the consistency check gives, and that equal terms mean equal entries, as they do in every reachable state; for other logs the loop is only stated step by step.
- RaftSteps.SnapshotSteps: requires that the snapshot throws no matching suffix away, because without that the property is false (`SnapshotLoss.CommittedEntryLost`).
- RaftNetwork.StepKeeps: the same condition on the delivery of a snapshot, for the same reason.
- GroupSafety.GroupHistory: with compaction, of runs in which no delivery loop is heavy enough to be cut off at the driver's 100,000 deliveries; what such a cut loses is not modelled further.
- GroupSafety.GroupCommits: the same.
- GroupElection.EnsureLeaderNeverFails: the same, and groups of at most 100,001 replicas, so that the bound lets every vote request through.
- GroupMinority.NeverApplied: of runs whose delivery loops are not cut off at 100,000 deliveries, also without compaction, because a loop cut off may leave a deposed leader uninformed.
- GroupWrites.QuorumApplies: the same, because a loop cut off may leave an acknowledgement undelivered.
- GroupWrites.CommitsIffQuorum: the same.
- Unsigned 64-bit overflow of terms, indexes, versions and tick counts: numbers are unbounded, except on the wire.
- `u32` truncation of the shard count when a migration is requested from an endpoint: shard counts are unbounded.
- Persistence: a node that is down keeps its state, as the code's kill and revive do; a restart from disk is not modelled.
- TCP, threads, locks and timeouts of the shard and cluster nodes: requests and replies are delivery steps, operations under locks are atomic steps.
- Best-effort remote reads that turn an unreachable shard into an empty answer: endpoints are always reachable.
- The second and third copies of the merge in the networked, elastic and replicated stores: the same merge as `ShardedStore`.
- `ShardedRaftCluster`: routing over one replica group per shard; only its groups are modelled.
- The triple store, the database, the dictionary and SPARQL evaluation: a store is the set of its triples, a query is not modelled.
- An update that fails half way: a plain write either replaces the content or does not happen.
- `run_txn`: retrying a transaction adds nothing to what each attempt guarantees.
- Reads by SPARQL query inside a transaction: they are not tracked by the code, so nothing is claimed about decisions based on them.
- ConcurrentDb.ConcurrentDb.OpenViewAt: at a version below the oldest pin the records may be gone; in `Transactions` time travel goes to versions from the oldest pin on.
- MembershipRuns.ConfigsConverge: runs without compaction, because a snapshot carries triples only and a store reset leaves the configuration alone.
- Text of socket addresses and of terms: printing and parsing are parameters, and round trips assume an address parses back to itself.
- Values of JSON numbers: a number is kept as its text, and which texts are numbers is a parameter.
- Other result formats, format negotiation, HTTP servers and clients, users, sessions and command-line programs: input and output plumbing.
