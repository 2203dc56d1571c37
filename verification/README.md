# Mist, modelled and proved in Dafny

Mist keeps a copy of a guest's file tree in the host's memory and serves it over NFS.  A walk of the tree
and an ordered journal of changes build the copy; a content cache and a write-behind queue serve the data.
This project models that machinery and proves what it promises: over every run, every interleaving and
every input the code accepts.

`dafny verify dfyconfig.toml` checks the whole project.  Nothing is executed.

## How it is laid out

Each part has a model on values, which the theorems are about, and, where the program changes things in
place, a class or a method with loops that is proved to compute exactly that model.

| part | files |
|---|---|
| Directory tables: names in an arena, tombstones, compaction, stable cookies | `DirView`, `DirState` |
| The replica: nodes, dentries, link counts, collection, counters | `Replica`, `ShareReplica`, `Collect`, `ReplicaInvariants`, `ReplicaRuns` |
| The replica against a plain file system | `FileTree`, `Refinement`, `Attributes`, `Parents`, `Completeness` |
| A walk racing a changing guest, and the replay after it | `GuestHistory`, `GuestPaths`, `ConsistentCut`, `Seeding`, `Walker`, `WalkRuns`, `StaticWalk`, `StillAttributes`, `RacingRename` |
| Batches, staging, the swap, gaps, reseeds, and life after the seed | `Journal`, `Assembly`, `Assembler`, `LiveReplica`, `LiveAttributes`, `EndToEnd` |
| Writes: queueing, order, drains, chunk assembly, timestamps | `GuestFile`, `WriteBehind`, `WriteCalls`, `Stash`, `UniqueClock` |
| Reads and the content store | `CachedRead`, `Eviction`, `ContentStore`, `EvictionPromises` |
| NFS: directory pages and their bytes, the reply cache, state ids and delegations | `Nfs3ReadDir`, `Xdr`, `NfsSlots`, `NfsState`, `NfsPromises` |

The main results, in one line each:

- `EndToEnd.SeedServesGuestTree`: a snapshot begun, walked while the guest creates, hard-links and removes files,
  delivered in any interleaving with the journal, and completed, makes the host serve exactly the guest's tree.
- `EndToEnd.ServedFollowsGuest`: and whichever of the guest's batches then arrive, as long as the host's sequence
  check passes it goes on serving the guest's tree as of the last record applied.
- `Refinement.HistoryRefines`: applying the records of any legal history keeps the replica equal to the file
  system, with nothing leaked and nothing freed early.
- `ReplicaRuns.LinksAlwaysCover` and `ReplicaRuns.CountersAlwaysExact`: link counts and counters over every
  record stream, cyclic dentry graphs included.
- `StaticWalks.SnapshotRoundTrip` and `StaticWalks.StillWalkEnds`: every schedule of the parallel walk of a
  tree at rest, hard links included, ends and assembles to that tree.
- `Assemblies.JournalWindow` and `Assemblies.Quarantine`: what is applied to a served replica is one gap-free
  window of the guest's stream, and after a gap nothing reaches it until the newest snapshot completes.
- `LiveAttributes.LiveAttributesFollow`: while changes come in live, every object's attributes are the guest's last
  word about it in a record that is not the host's own echo.
- `NodeParents.ParentsFollow` and `StillAttributes.SnapshotTells`: over every legal history, and after the walk of a
  tree at rest, every directory but the root is listed in the parent it names; attributes are as the walk read them.
- `Completeness.CompleteOnlyIfListed`: whatever arrives, a directory is shown as complete only once its listing ended
  or its creation was told.
- `WriteCalls.WritesLandInOrder` and `WriteCalls.DrainIsBarrier`: over every interleaving, a file is what the calls
  wrote, in the order of the calls, and a drain returns only after the calls that meet its range.
- `CachedReads.ReadCache.Read`: a cached read is a plain read, and what is kept is not fetched again.
- `EvictionPromises.OldestGoFirst` and `EvictionPromises.HotGoOnlyIfForced`: what eviction gives up was used before
  what it keeps, and a chunk just used goes only if the rest does not suffice.
- `Stashes.ProducedIsFileChunk`: a chunk assembled from writes alone is that chunk of the guest's file.
- `Nfs3ReadDirs.ListsExactlyOnce` and `Xdrs.ReplyReadBack`: a whole NFS listing, whatever its limits and whatever
  happens meanwhile, and every reply read back from its bytes.
- `NfsSlots.ExactlyOnce` and `NfsSlots.RunsEachOnce`: requests run once, operation by operation.
- `NfsPromises.OpenFollowsCalls` and `NfsStates.DelegationsAccounted`: what an open allows is told by the calls since
  it began; delegations add up.

Some promises turned out to need a condition.  Each is stated with the exact one, most beside an input that breaks
the promise:

- A rename leaves link counts exact if and only if it does not leak (`RenameExactIff`): it leaks when the
  target directory is unknown (`RenamedAway`), or when the target name already holds the moved node
  (`RenamedOntoItself`).  The node then stays when no name is left.
- A rename replayed after a racing walk lands if and only if the walk saw the moved object under its old name, or
  not there but already under the new one (`RenameLandsIff`); `RenameOvertakesWalk` is a history in which the
  walk saw neither.
- The chunk tally in `covered_chunks` produces a chunk with a byte missing if and only if its holes are as many
  as its repeated bytes, and some (`ProducedWithHolesIff`).  It withholds a fully written chunk if and only if some
  byte of it was written twice (`WithheldThoughWrittenIff`).  Disjoint writes are always tallied right
  (`TallyIffWritten`); `OverlapMiscounts` gives writes for both failures.
- A drain, and so a COMMIT, reports a failed write if and only if something of the file was still in flight when the
  drain began and the failure was not reported yet (`DrainReportsIff`); `FailureUnreported` is a run in which a write
  fails and the COMMIT after it reports nothing.
- Granted delegations equal returned, revoked and held ones if and only if as many immediate revocations found their
  delegation already gone as delegations were forgotten at client resets (`DelegationsAccounted`).  The first never
  happens while there is a back channel (`AccountedWithChannel`); `PhantomRevocation` gives a run in which it does.
- Optimistic timestamps are distinct and in order if and only if no exchange after the first found its base or the
  counter at the last 64-bit number (`TimestampsUnique`), and one is after the clock if and only if its own exchange did
  not, and above its floor then, or if the floor is before the epoch (`IssueIff`).  `SameTimestampTwice` is a run, with one file dated past the
  range, in which a timestamp is issued twice.  (A build with overflow checks stops instead.)
- An immediate revocation takes the delegation it recalled if and only if that one was held all the while;
  otherwise it takes one granted later (`ImmediateTakes`, `LateGrantTaken`).  A timed one never does
  (`LateGrantSafe`).
- A retried compound gets the whole of the reply kept for it if and only if that reply's status was NFS4_OK
  (`SameReplyIff`); `FailureReplayedAsSuccess` gives one that failed.
- An NFS version 3 directory reply has neither an entry nor the end if and only if the next entry is reckoned too
  long for the client's limit (`EmptyReplyIff`).

Assumptions taken from the program's own setting: node keys are never reused; content hashes tell contents
apart; a version key stands for one content; sequence numbers stay below 64 bits; a directory has one name.
Clocks, random ids, scheduling, timer expiry, and whether a change was the host's own are inputs.  The
guest's kernel is assumed to read directories as POSIX says: an entry present from opening to closing is
read, once.

## Model

| member | source | states |
|---|---|---|
| `DirStates.DirState.constructor` | crates/mist-replica/src/lib.rs:109-120 | a new table is the empty directory, first cookie 3 |
| `DirStates.DirState.FindIdx` | crates/mist-replica/src/lib.rs:130-137 | finds a slot if and only if the name is live, and that slot carries the name's node, kind and cookie |
| `DirStates.DirState.Find` | crates/mist-replica/src/lib.rs:139-142 | answers as the plain map from name to (node, kind) |
| `DirStates.DirState.UpsertName` | crates/mist-replica/src/lib.rs:146-172 | the arena, vector and index after an upsert represent the map after it, cookie and generation included, and the link changes reported are right |
| `DirStates.DirState.InsertNew` | crates/mist-replica/src/lib.rs:174-195 | a new entry takes the next cookie and raises the generation; nothing else changes |
| `DirStates.DirState.Kill` | crates/mist-replica/src/lib.rs:198-211 | one name leaves the map; compaction, if it happens, is invisible |
| `DirStates.DirState.Compact` | crates/mist-replica/src/lib.rs:215-235 | no tombstones are left and the directory, cookies included, is unchanged |
| `DirStates.DirState.RemoveName` | crates/mist-replica/src/lib.rs:238-244 | the map without the name, and the node it pointed to, if any |
| `DirStates.DirState.ReadPage` | crates/mist-replica/src/lib.rs:919-952 | a page is the live entries after the cookie in cookie order, cut at max, end of file only if nothing is left |
| `DirStates.PartitionPoint` | crates/mist-replica/src/lib.rs:247-250 | finds where the cookies pass the given one |
| `DirStates.DirState.ViewFacts` | crates/mist-replica/src/lib.rs:198-235 | the table is well formed and its vector never holds more than max(2 * live, live + 15) slots |
| `DirViews.UpsertTwice` | crates/mist-replica/src/lib.rs:146-172 | a repeated upsert changes neither cookie nor generation and reports nothing |
| `DirViews.ApplyIs` | crates/mist-replica/src/lib.rs:146-244 | a change gives one name its node and kind, or takes one name away, and touches no other entry |
| `DirViews.DirgenCountsMoves` | crates/mist-replica/src/lib.rs:174-244 | over any changes the generation, served as the cookie verifier, rises by one for each that gives some name another meaning, and by nothing else |
| `DirViews.SameGeneration` | crates/mist-replica/src/lib.rs:919-952 | two readings with one generation read the same names for the same nodes under the same cookies |
| `DirViews.CookieMeansDentry` | crates/mist-replica/src/lib.rs:174-195 | a cookie means one name and one node for good |
| `DirViews.PageEndsIff` | crates/mist-replica/src/lib.rs:919-952 | a page is the last if and only if every live entry past the cookie is on it; any other has as many as asked for |
| `DirViews.PagingExactlyOnce` | crates/mist-replica/src/lib.rs:919-952 | whatever changes between calls, an entry that stays live is returned exactly once and cookies strictly increase |
| `DirViews.ReturnedWasLive` | crates/mist-replica/src/lib.rs:919-952 | every returned entry was live when its page was cut |
| `DirViews.ResumeKeepsInv` | crates/mist-replica/src/lib.rs:247-250 | each call with max at least 1 makes progress or ends |
| `ShareReplicas.ShareReplica.UpsertNode` | crates/mist-replica/src/lib.rs:457-503 | the node map and counters change as the value-level upsert |
| `ShareReplicas.ShareReplica.LinkDec` | crates/mist-replica/src/lib.rs:556-570 | dropping a link, with all the collection it causes, terminates and equals the value-level step |
| `ShareReplicas.ShareReplica.RemoveNode` | crates/mist-replica/src/lib.rs:574-592 | the same for removing a node and the links its entries held, in cookie order |
| `ShareReplicas.ShareReplica.ApplySnapDir` | crates/mist-replica/src/lib.rs:596-634 | one snapshot record, loops and link changes, equals the value-level step |
| `ShareReplicas.ShareReplica.ApplyRec` | crates/mist-replica/src/lib.rs:641-730 | one journal record of any kind equals the value-level step; only an overflow asks for a resync |
| `ShareReplicas.ShareReplica.DentrySet` | crates/mist-replica/src/lib.rs:749-764 | entry, counter and both link changes; an unknown parent drops the entry |
| `ShareReplicas.ShareReplica.DentryRelink` | crates/mist-replica/src/lib.rs:769-786 | the second half of a rename: the moved node brings its link and gets its new parent, what it displaces loses one |
| `ShareReplicas.ShareReplica.DentryRemove` | crates/mist-replica/src/lib.rs:788-800 | entry, counter and link |
| `ShareReplicas.ShareReplica.DentryTake` | crates/mist-replica/src/lib.rs:804-811 | the first half of a rename, link kept |
| `ShareReplicas.ShareReplica.DrainPending` | crates/mist-replica/src/lib.rs:862-879 | everything stashed for a node is applied in order |
| `ShareReplicas.ShareReplica.FinishSnapshot` | crates/mist-replica/src/lib.rs:882-895 | the recount is the true number of entries, and changes nothing if the counters were exact |
| `ShareReplicas.ShareReplica.BumpDirAttr` | crates/mist-replica/src/lib.rs:980-994 | a directory's times move forward one nanosecond |
| `ShareReplicas.ShareReplica.ReadDir` | crates/mist-replica/src/lib.rs:919-952 | the error cases in order, otherwise the page of the directory |
| `ShareReplicas.ShareReplica.ResolvePath` | crates/mist-replica/src/lib.rs:1036-1048 | a path without names of dots resolves as by lookups from the root, with the object's attributes; each error says where the path failed |
| `Collection.LinkDecCollects` | crates/mist-replica/src/lib.rs:556-592 | on any dentry graph, collection only removes nodes, never the root, keeps every table that stays, and keeps all three counters in step |
| `Collection.LinkDecBalances` | crates/mist-replica/src/lib.rs:556-592 | links held less dentries naming a node less links still owed is the same before and after collection |
| `ReplicaRuns.CountersAlwaysExact` | crates/mist-replica/src/lib.rs:539-592 | after any stream of records the counters are the true counts and the root, once there, is there |
| `ReplicaRuns.LinksAlwaysCover` | crates/mist-replica/src/lib.rs:548-592 | over any stream whose self-removals name unnamed nodes, links cover dentries, and equal them if no rename leaks |
| `ReplicaRuns.LinkedMeans` | crates/mist-replica/src/lib.rs:548-570 | covered links mean every listed name resolves |
| `ReplicaRuns.RecAccount` | crates/mist-replica/src/lib.rs:641-730 | the exact change every record makes to links less dentries |
| `ReplicaRuns.RenameExactIff` | crates/mist-replica/src/lib.rs:680-692 | a rename keeps counts exact if and only if it does not leak |
| `ReplicaRuns.RenamedAway` | crates/mist-replica/src/lib.rs:686-690 | a file renamed into an unknown directory stays, with one link and no name |
| `ReplicaRuns.RenamedOntoItself` | crates/mist-replica/src/lib.rs:769-786 | a file renamed onto another of its names stays when its last name is removed |
| `ReplicaRuns.SnapAccount` | crates/mist-replica/src/lib.rs:596-634 | a snapshot record keeps links less dentries for every node |
| `FileTrees.ApplyKeepsShape` | crates/mist-replica/src/lib.rs:1482-1718 | the plain file system stays a rooted acyclic tree of known objects under every legal call |
| `Refinement.StepRefines` | crates/mist-replica/src/lib.rs:641-811 | one call and its record keep replica and file system equal |
| `Refinement.HistoryRefines` | crates/mist-replica/src/lib.rs:1482-1718 | so does every legal history |
| `Refinement.RefinesPaths` | crates/mist-replica/src/lib.rs:1036-1048 | equal means every path resolves to the same object |
| `Refinement.RefinesNodes` | crates/mist-replica/src/lib.rs:548-592 | the replica's nodes are exactly the reachable ones, each with as many links as names |
| `Refinement.SeededRefines` | crates/mist-replica/src/lib.rs:596-634 | a freshly seeded root equals the file system that holds only a root |
| `Attributes.AttributesFollow` | crates/mist-replica/src/lib.rs:813-841 | after every legal history each object's attributes are what the guest last stated: a stat never changes the content version, a write changes size, time and version alone |
| `Attributes.StashedThenCreated` | crates/mist-replica/src/lib.rs:854-879 | any records about an object that come before it wait for it, in a stash that has room, and then say in order what they would have said after it |
| `Attributes.EarlyAsLate` | crates/mist-replica/src/lib.rs:693-717 | early or late, such records leave the object with the same attributes |
| `Attributes.RenamedParents` | crates/mist-replica/src/lib.rs:769-786 | a rename of a listed name into a known directory sets the parent of the moved node and changes no other parent and no attribute; any other rename changes none at all |
| `NodeParents.StepParents` | crates/mist-replica/src/lib.rs:641-811 | what each legal call does to the parent of each node that stays |
| `NodeParents.ParentsFollow` | crates/mist-replica/src/lib.rs:769-786 | after every legal history on a seeded replica, each directory but the root is listed in the parent it names |
| `NodeParents.SnapTells` | crates/mist-replica/src/lib.rs:596-634 | after any snapshot record: the attributes, content versions and parents of every node, those it names and the others |
| `Completeness.CompleteOnlyIfListed` | crates/mist-replica/src/lib.rs:596-730 | over any stream of records at all, a directory is complete only if it was, or the last piece of its listing or its creation is among them; never do more than 65536 objects have records waiting |
| `ConsistentCuts.CollectKeepsShown` | crates/mist-replica/src/lib.rs:556-592 | collection in the middle of a replay spares every directory that lasts to the end, and its names |
| `ConsistentCuts.ReplayCut` | crates/mist-hostd/src/session.rs:811-822 | replaying the journal step by step brings every lasting directory to the guest's final listing |
| `ConsistentCuts.CutPaths` | crates/mist-hostd/src/session.rs:784-835 | after the replay every path resolves as at the guest, to the same objects and kinds |
| `Seeding.LinkDecSpares` | crates/mist-replica/src/lib.rs:556-592 | collection never enters a set of nodes that nothing outside names |
| `Seeding.SnapSeeds` | crates/mist-replica/src/lib.rs:596-634 | a record read at any moment is right about what the journal will not touch |
| `Seeding.SeedCut` | crates/mist-replica/src/lib.rs:596-634 | so is the whole snapshot, in any order and with any repeats of its records |
| `Seeding.ConsistentCut` | crates/mist-hostd/src/session.rs:784-835 | records that cover what stays, and the journal, give exactly the guest's final tree |
| `GuestPaths.FoundAtFinalPath` | crates/mistd/src/linux/walker.rs:129-148 | where a lasting directory is found is its path for good, so opening by path opens the same directory |
| `Walkers.ScanDir` | crates/mistd/src/linux/walker.rs:129-268 | the loop cuts a listing into the records of `Pieces` and finds its subdirectories; a directory that cannot be opened gives one empty final record |
| `Walkers.PiecesWhole` | crates/mistd/src/linux/walker.rs:150-268 | the records carry every entry once and in order, all but the last are full, only the last ends the directory |
| `WalkRuns.ChildOk` | crates/mistd/src/linux/walker.rs:247-259 | a subdirectory read at any moment makes a sound job |
| `WalkRuns.WalkKeepsInv` | crates/mistd/src/linux/walker.rs:78-114 | every schedule of the pool keeps jobs, scans and records sound and loses no directory |
| `WalkRuns.RacingWalk` | crates/mist-hostd/src/session.rs:784-835 | every schedule, every history of creates, hard links and removes over a tree with any hard links, every arrival order: the replayed walk is the guest's final tree |
| `StaticWalks.StillWalkEnds` | crates/mistd/src/linux/walker.rs:78-114 | a walk of any tree at rest, hard-linked files included, takes at most two steps per directory, and when done has sent exactly one final record for each |
| `StaticWalks.NeverStuck` | crates/mistd/src/linux/walker.rs:78-114 | a walk that is not done has a step to take |
| `StaticWalks.SnapshotRoundTrip` | crates/mist-replica/src/lib.rs:596-634 | its records, in any order and any size, assemble to exactly that tree, with a link for each name of every object and every directory complete |
| `StillAttributes.SnapshotTells` | crates/mistd/src/linux/walker.rs:129-268 | walked by any schedule and assembled in any order, every object has the attributes the walk read and every directory but the root is listed in its parent |
| `RacingRenames.RenameLandsIff` | crates/mist-replica/src/lib.rs:680-692 | a replayed rename into a known directory, onto nothing or onto something a rename may replace, lands if and only if the walk saw the object under its old name, or nothing there and the object already under the new one |
| `RacingRenames.RenameOvertakesWalk` | crates/mist-replica/src/lib.rs:680-692 | a walk of honest listings and the replay of the one rename, after which the host never shows the file |
| `JournalBatches.NextBatch` | crates/mistd/src/linux/journal.rs:67-90 | one batch: never empty, at most 512 records, under 64 KiB before its last record |
| `JournalBatches.Batcher` | crates/mistd/src/linux/journal.rs:64-102 | for any arrivals and any linger times the batches are the stream, cut up and numbered from 1 |
| `JournalBatches.BatchesGenuine` | crates/mistd/src/linux/journal.rs:90-98 | every record of a batch is the stream's record of that number |
| `JournalBatches.SizedIsSmall` | crates/mistd/src/linux/journal.rs:67-90 | a batch has at most 512 records, and the names and entries of all between its first and last stay below 64 KiB |
| `Assemblers.Assembler.Begin` | crates/mist-hostd/src/session.rs:749-767 | the share's stage starts over and its sequence is forgotten; nothing else changes |
| `Assemblers.Assembler.OnPiece` | crates/mist-hostd/src/session.rs:769-782 | a piece of the newest snapshot goes into the stage, any other has no effect |
| `Assemblers.Assembler.FinishSeed` | crates/mist-hostd/src/session.rs:784-835 | count, replay in order, swap, next sequence number |
| `Assemblers.Assembler.OnJournal` | crates/mist-hostd/src/session.rs:837-979 | lost events restart every share; a staging share holds back; a live share applies in sequence or restarts |
| `Assemblers.ApplyLive` | crates/mist-hostd/src/session.rs:893-970 | one live record, in place, equals the value-level step; `LiveContent`, `LiveAttr` and `LiveMovesTimes` say what that is |
| `Assemblers.Deliver` | crates/mist-hostd/src/session.rs:769-782 | one event is one step of the protocol |
| `Assemblies.JournalWindow` | crates/mist-hostd/src/session.rs:866-887 | over every run of events, what was applied since the seed is one gap-free, repeat-free window of the stream, starting where the seed left off |
| `Assemblies.MissedMeansReseed` | crates/mist-hostd/src/session.rs:837-887 | a batch out of step with the known number, the all-shares sentinel or an overflow puts the share back to a fresh snapshot; but for an overflow nothing served changes |
| `Assemblies.NotInServiceIgnored` | crates/mist-hostd/src/session.rs:857-864 | a batch for a share that is neither staged nor live changes nothing |
| `Assemblies.StagedHoldsBack` | crates/mist-hostd/src/session.rs:849-856 | a share being staged keeps the batch after those it holds, and does nothing else |
| `Assemblies.Quarantine` | crates/mist-hostd/src/session.rs:849-856 | until its newest snapshot completes nothing reaches what a share serves |
| `Assemblies.StaleIgnored` | crates/mist-hostd/src/session.rs:769-791 | pieces and ends of older snapshots have no effect |
| `Assemblies.SeedServes` | crates/mist-hostd/src/session.rs:784-835 | an uninterrupted snapshot serves its pieces with everything buffered replayed on top |
| `LiveReplicas.BumpMovesOn` | crates/mist-replica/src/lib.rs:980-994 | a nudge moves one directory's times strictly forward, both alike, and changes nothing else |
| `LiveReplicas.LiveCut` | crates/mist-hostd/src/session.rs:893-970 | live records, with any of them taken for echoes, bring every lasting directory to the guest's listing |
| `LiveAttributes.LiveContent` | crates/mist-hostd/src/session.rs:899-930 | a content record sets size, time and version of a known node the host did not change itself, and nothing else; one the host did change is dropped |
| `LiveAttributes.LiveAttr` | crates/mist-hostd/src/session.rs:899-930 | an attribute record likewise, and never touches the content version |
| `LiveAttributes.LiveMovesTimes` | crates/mist-hostd/src/session.rs:934-969 | which directories each kind of record moves the times of, and by how much: those the change was in, unless it was the host's own |
| `LiveAttributes.LiveAttributesFollow` | crates/mist-hostd/src/session.rs:893-970 | over every legal history delivered live, each object has the attributes the guest last stated in records that are no echoes, and a directory the times moved on by every foreign change to its names |
| `LiveReplicas.LiveServes` | crates/mist-hostd/src/session.rs:866-970 | what a share serves while batches come in sequence is its records applied live, in order of arrival |
| `LiveReplicas.InSequence` | crates/mist-hostd/src/session.rs:866-887 | whichever genuine batches arrive, those a live share takes are the stream from where its seed left off |
| `EndToEnd.ServedFollowsGuest` | crates/mist-hostd/src/session.rs:837-979 | after the seed and any arrivals of the guest's batches that pass the sequence check, every path resolves as at the guest after the last record applied |
| `EndToEnd.SeedServesGuestTree` | crates/mist-hostd/src/session.rs:784-835 | from the guest's disk to what is served: the same tree |
| `WriteCalls.WritesLandInOrder` | crates/mist-hostd/src/surface.rs:728-769 | once every write asked for on a file is answered, none badly, the file is what it was with the calls' own bytes laid over it in the order of the calls, whatever order tasks and chunks ran in |
| `WriteBehinds.AllIn` | crates/mist-hostd/src/surface.rs:1325-1356 | chunks written in any order add up to the write |
| `WriteCalls.DrainIsBarrier` | crates/mist-hostd/src/surface.rs:181-204 | when a drain returns, every write accepted before it that meets its range has had every chunk answered |
| `WriteCalls.ClearIff` | crates/mist-hostd/src/surface.rs:190-202 | a drain waits for exactly the registered writes that meet its range |
| `WriteCalls.OverIsAnswered` | crates/mist-hostd/src/surface.rs:1325-1356 | a write that landed has had every one of its chunks answered |
| `WriteCalls.ErrorsAre` | crates/mist-hostd/src/surface.rs:770-774 | an error is noted for a file if and only if a write of it failed and no drain has reported that since |
| `WriteCalls.DrainReportsIff` | crates/mist-hostd/src/surface.rs:181-204 | a drain reports a failure if and only if something of the file was in flight when it began and a failure was not reported yet |
| `WriteCalls.FailureUnreported` | crates/mist-hostd/src/surface.rs:829-834 | a run in which a write fails, its batch ends, and the drain of a COMMIT reports nothing |
| `WriteBehinds.SlotsBound` | crates/mist-hostd/src/surface.rs:722-727 | never more than 96 batches in flight |
| `WriteBehinds.TakenIff` | crates/mist-hostd/src/surface.rs:722-727 | a write is taken if and only if it has bytes and fewer than 96 batches have not ended |
| `WriteBehinds.OldestNeverWaits` | crates/mist-hostd/src/surface.rs:751-764 | the oldest unfinished batch of a file never waits on the chain, and some task can always move |
| `Stashes.CoveredChunks` | crates/mist-hostd/src/surface.rs:912-949 | exactly the chunks that tally, in order, with the bytes of the writes laid over each other |
| `Stashes.TallyIffWritten` | crates/mist-hostd/src/surface.rs:933-944 | for disjoint writes a chunk tallies if and only if all its bytes were written |
| `Stashes.CoveredBalance` | crates/mist-hostd/src/surface.rs:933-944 | the tally of a chunk and its holes are its length and its repeats, counted byte by byte from the writes |
| `Stashes.ProducedWithHolesIff` | crates/mist-hostd/src/surface.rs:912-949 | for any writes, a chunk is produced with a byte missing if and only if holes and repeats are as many, and some |
| `Stashes.WithheldThoughWrittenIff` | crates/mist-hostd/src/surface.rs:912-949 | for any writes, a fully written chunk is withheld if and only if a byte of it was written twice |
| `Stashes.OverlapMiscounts` | crates/mist-hostd/src/surface.rs:933-944 | writes for which a chunk with a hole is produced, and writes for which a whole one is withheld |
| `Stashes.ProducedIsFileChunk` | crates/mist-hostd/src/surface.rs:912-949 | a chunk fully written is, byte for byte, that chunk of the guest's file after the writes, whatever the file was before |
| `UniqueClocks.IssueIff` | crates/mist-hostd/src/surface.rs:976-997 | an exchange moves the counter on if and only if base and counter are below the last 64-bit number; the time issued is then above its floor, after the clock and the counter, and the first such; otherwise it is above its floor only if that is before the epoch |
| `UniqueClocks.TimestampsUnique` | crates/mist-hostd/src/surface.rs:969-997 | under every interleaving the timestamps are distinct and in order if and only if no exchange after the first wraps around |
| `UniqueClocks.FloorsKept` | crates/mist-hostd/src/surface.rs:976-997 | while none wraps around, each timestamp is above its own floor and after the clock as its call read it |
| `UniqueClocks.CounterGrows` | crates/mist-hostd/src/surface.rs:980-992 | while none wraps around, the counter never goes back and moves only with an issue |
| `UniqueClocks.FloorIs` | crates/mist-hostd/src/surface.rs:976-980 | a floor is read for what it is, as far as 64 bits of nanoseconds reach, and past that as the last number |
| `UniqueClocks.SomeCallerGoesOn` | crates/mist-hostd/src/surface.rs:980-992 | a caller that looked at the counter can exchange until another exchange goes through |
| `UniqueClocks.SameTimestampTwice` | crates/mist-hostd/src/surface.rs:976-992 | a run in which one wraps around and a timestamp is issued again |
| `CachedReads.ReadCache.ChunkRead` | crates/mist-hostd/src/surface.rs:1108-1179 | a piece of a chunk is the file's bytes, kept, raced or fetched, and every manifest stays right; a kept chunk is not asked for, and a fetched one is kept until it is evicted |
| `CachedReads.ReadCache.Read` | crates/mist-hostd/src/surface.rs:411-492 | data and end of file are the guest's own, for every offset and count, a count of 0 included; if every chunk met is kept the guest is not asked, and afterwards each is kept until evicted |
| `CachedReads.ReadCache.ReadInto` | crates/mist-hostd/src/surface.rs:344-409 | the fused path appends the same bytes or leaves the reply alone, never asks the guest, and serves whenever its one chunk is kept and found at the first look |
| `CachedReads.ReadCache.Manifest` | crates/mist-hostd/src/surface.rs:1087-1102 | the manifest remembered, or else the one on disk, remembered from then on, at most 256 of them |
| `CachedReads.GuestRead` | crates/mistd/src/linux/rpc.rs:140-168 | the file's bytes, as many as asked for and there are, and end of file exactly when the range reaches the end |
| `Evictions.ChooseVictims` | crates/mist-cas/src/lib.rs:776-805 | the victims are the shortest oldest-first prefix that reaches the target, or its unprotected part when that stays within the hard limit |
| `Evictions.ProtectedOnlyIfForced` | crates/mist-cas/src/lib.rs:788-805 | a protected chunk goes only if giving up every other leaves more than the hard limit |
| `ContentStores.ContentStore.Evict` | crates/mist-cas/src/lib.rs:752-837 | above its target the store gives up what the eviction rule chooses from its rows in order of last use; the books stay exact and the limit holds |
| `ContentStores.ContentStore.Touch` | crates/mist-cas/src/lib.rs:702-728 | a read is a use now; the stored time follows only if the last use known is an hour old or unknown |
| `EvictionPromises.OldestGoFirst` | crates/mist-cas/src/lib.rs:762-805 | every use of a chunk given up is no later than some use of each chunk kept |
| `EvictionPromises.HotGoOnlyIfForced` | crates/mist-cas/src/lib.rs:776-805 | a chunk used less than 600 seconds ago goes only if such chunks together are more than the hard limit |
| `EvictionPromises.EvictionReaches` | crates/mist-cas/src/lib.rs:752-837 | within its limit the store keeps everything; otherwise the target is reached, or the hard limit with nothing left but chunks just used |
| `EvictionPromises.NoneNeedlessly` | crates/mist-cas/src/lib.rs:776-805 | with the last chunk given up kept instead, the target would not be reached |
| `EvictionPromises.KeepingIsUse` | crates/mist-cas/src/lib.rs:388-432 | a chunk kept or kept again counts as used now, and no other chunk's uses change |
| `ContentStores.FileReplaced` | crates/mist-cas/src/lib.rs:233-252 | a version takes the place of every other version of its file and of nothing else |
| `ContentStores.ContentStore.IngestChunk` | crates/mist-cas/src/lib.rs:388-432 | the chunk is recorded under its version, older versions of the file are gone, other files untouched; above the limit the eviction rule applies |
| `ContentStores.ContentStore.IngestChunks` | crates/mist-cas/src/lib.rs:463-532 | the version's manifest is the given chunks, stably sorted by offset, every chunk has its row, and above the limit the eviction rule applies |
| `ContentStores.ContentStore.PutBlob` | crates/mist-cas/src/lib.rs:569-583 | the chunk is kept, manifests untouched; above the limit the eviction rule applies |
| `ContentStores.ContentStore.DropCorrupt` | crates/mist-cas/src/lib.rs:730-746 | one chunk is forgotten and the books follow |
| `ContentStores.ContentStore.PutManifest` | crates/mist-cas/src/lib.rs:233-252 | one version of the file is left, the new one, as it was given |
| `ContentStores.ContentStore.RebindManifest` | crates/mist-cas/src/lib.rs:299-332 | a manifest moves to its new key, or nothing changes |
| `ContentStores.SortByOffset` | crates/mist-cas/src/lib.rs:515-517 | a stable sort: in order, and the chunks at each offset in the order given |
| `ContentStores.SortedLists` | crates/mist-cas/src/lib.rs:515-517 | so the same chunks are listed, and distinct offsets make a manifest in order |
| `ContentStores.Merge` | crates/mist-cas/src/lib.rs:274-278 | binary search and insert: the manifest stays in order and gains exactly this chunk |
| `Nfs3ReadDirs.EncodePage` | crates/mist-nfs/src/nfs3.rs:772-797 | the entries up to the first that is reckoned not to fit, end of file only when nothing was cut, and a reply with an entry within the client's limit |
| `Nfs3ReadDirs.ReckoningCovers` | crates/mist-nfs/src/nfs3.rs:758-761 | the per-entry reckoning always covers the entry and the list end after it |
| `Nfs3ReadDirs.CutPageIsPage` | crates/mist-nfs/src/nfs3.rs:772-797 | every reply is a page of the replica, a cut one for as many entries as fitted |
| `Nfs3ReadDirs.EmptyReplyIff` | crates/mist-nfs/src/nfs3.rs:776-784 | a reply has no entry and no end if and only if there is a next entry and it is reckoned too long; any other moves the cookie on or ends |
| `Nfs3ReadDirs.ListsExactlyOnce` | crates/mist-nfs/src/nfs3.rs:735-797 | over a whole listing with any limits and any changes between its calls, cookies only go up and every entry that stays is returned once |
| `Nfs3ReadDirs.MaxEntriesIs` | crates/mist-nfs/src/nfs3.rs:758-761 | as many entries are asked for as are reckoned to fit after 128 bytes, at least one and at most 4096 |
| `Xdrs.ReadsOpaque` | crates/mist-nfs/src/xdr.rs:84-102 | what is written as an opaque, padding included, is read back as it was |
| `Xdrs.ListRoundTrip` | crates/mist-nfs/src/nfs3.rs:776-797 | a list of entries in bytes is read back as exactly those entries and whether they are all |
| `Xdrs.ListLength` | crates/mist-nfs/src/nfs3.rs:776-797 | the size the limit is checked against is the number of bytes written |
| `Xdrs.ReplyReadBack` | crates/mist-nfs/src/nfs3.rs:772-797 | a reply is as long as reckoned, and a client reads from it the entries that fitted and the right end flag |
| `NfsSlots.NfsServer.Evaluate` | crates/mist-nfs/src/nfs41/mod.rs:425-480 | the loop over operations, in place, equals the value-level evaluation; `RunsEachOnce` says what that is |
| `NfsSlots.NfsServer.Serve` | crates/mist-nfs/src/nfs41/mod.rs:370-597 | one compound, slot bookkeeping included, is one step of the model |
| `NfsSlots.ExactlyOnce` | crates/mist-nfs/src/nfs41/mod.rs:370-597 | the next number runs, the last number replays without evaluating anything, any other is refused and changes nothing; no other slot is touched |
| `NfsSlots.EvalIs` | crates/mist-nfs/src/nfs41/mod.rs:425-480 | evaluation from any operation on: codes, count and words, up to the first operation that cannot go on |
| `NfsSlots.RunsEachOnce` | crates/mist-nfs/src/nfs41/mod.rs:425-480 | a compound that is run evaluates its operations once each, in order, up to the first that fails, cannot be read or is a second SEQUENCE; count and body are exactly the answers of those |
| `NfsSlots.RefusedOutright` | crates/mist-nfs/src/nfs41/mod.rs:370-424 | wrong minor version, too many operations, an unreadable SEQUENCE, an unknown session or slot: the error of RFC 5661, and nothing evaluated or changed |
| `NfsSlots.RunsUnsequenced` | crates/mist-nfs/src/nfs41/mod.rs:425-480 | a compound without a SEQUENCE evaluates likewise and touches no slot |
| `NfsSlots.FirstReply` | crates/mist-nfs/src/nfs41/mod.rs:425-480 | the reply of a compound that is run is well if and only if every operation can be read and answers well |
| `NfsSlots.SameReplyIff` | crates/mist-nfs/src/nfs41/mod.rs:455-461 | a retry of a kept reply gets the same result array, and the same status if and only if that was NFS4_OK |
| `NfsSlots.FailureReplayedAsSuccess` | crates/mist-nfs/src/nfs41/mod.rs:455-461 | a compound that failed and is replayed under NFS4_OK |
| `NfsSlots.ConsecutiveAlways` | crates/mist-nfs/src/nfs41/mod.rs:484-500 | over every sequence of requests the compounds run on a slot are numbered 1, 2, 3 and on, mod 2^32 |
| `NfsStates.ServerState.NewOther` | crates/mist-nfs/src/nfs41/state.rs:175-182 | a state id carries the next number and this boot |
| `NfsStates.ServerState.OpenFile` | crates/mist-nfs/src/nfs41/mod.rs:1535-1560 | an owner's second open of a file bumps the one it has; otherwise a new one is minted |
| `NfsStates.ServerState.Downgrade` | crates/mist-nfs/src/nfs41/mod.rs:918-951 | access replaced and the id bumped; an unknown id is bad and changes nothing |
| `NfsStates.ServerState.Close` | crates/mist-nfs/src/nfs41/mod.rs:899-917 | the open goes; an unknown id is bad and changes nothing |
| `NfsStates.ServerState.FreeStateId` | crates/mist-nfs/src/nfs41/mod.rs:1246-1253 | an open or a lock is forgotten |
| `NfsStates.ServerState.NewLock` | crates/mist-nfs/src/nfs41/mod.rs:1254-1277 | a lock under an open gets a new id for that open's file; without the open nothing changes |
| `NfsStates.ServerState.MaybeGrant` | crates/mist-nfs/src/nfs41/mod.rs:1596-1627 | granted exactly for a read-only open of an existing file with no delegation and room under the cap |
| `NfsStates.ServerState.DelegReturn` | crates/mist-nfs/src/nfs41/mod.rs:1629-1662 | the delegation with this id goes; an unknown id is stale or bad and changes nothing |
| `NfsStates.ServerState.RecallNode` | crates/mist-nfs/src/nfs41/mod.rs:1666-1694 | one recall per delegation |
| `NfsStates.ServerState.Due` | crates/mist-nfs/src/nfs41/mod.rs:1680-1777 | a recall that comes due takes what its kind takes |
| `NfsStates.ServerState.Reset` | crates/mist-nfs/src/nfs41/state.rs:163-172 | a client reset clears opens and delegations, and locks if the client is destroyed |
| `NfsStates.StateIdsDistinct` | crates/mist-nfs/src/nfs41/state.rs:175-182 | ids minted for opens, locks and delegations are pairwise distinct and never taken for stale |
| `NfsStates.OneUse` | crates/mist-nfs/src/nfs41/mod.rs:1800-1811 | an id in force is an open, a lock or a delegation, never two of them |
| `NfsStates.OneOpenPerOwner` | crates/mist-nfs/src/nfs41/mod.rs:1535-1560 | an owner has a file open at most once |
| `NfsPromises.OpenFollowsCalls` | crates/mist-nfs/src/nfs41/mod.rs:899-951 | over every run an open is in force exactly until it is closed, freed or its client forgotten; its sequence number counts its owner's OPENs and its downgrades; it allows what was asked for since the last downgrade |
| `NfsPromises.LockFollowsCalls` | crates/mist-nfs/src/nfs41/mod.rs:1246-1277 | a lock is of its open's file and stays exactly until it is freed or its client destroyed |
| `NfsPromises.CountsFollowCalls` | crates/mist-nfs/src/nfs41/mod.rs:1596-1694 | the three counters count delegations granted, returned and revoked |
| `NfsPromises.NeverTooMany` | crates/mist-nfs/src/nfs41/mod.rs:1596-1627 | at no moment are there more than 16384 delegations |
| `NfsPromises.RecalledOnce` | crates/mist-nfs/src/nfs41/mod.rs:1666-1694 | a delegation is recalled at most once |
| `NfsPromises.RecalledGoes` | crates/mist-nfs/src/nfs41/mod.rs:1680-1777 | a delegation recalled and still held has its revocation on the way, unless its recall could not be sent |
| `NfsPromises.StaleIff` | crates/mist-nfs/src/nfs41/mod.rs:1783-1787 | an id is stale if and only if another boot minted it; the special ids never are |
| `NfsStates.LateGrantSafe` | crates/mist-nfs/src/nfs41/mod.rs:1764-1777 | a timed revocation never takes a delegation granted after its recall |
| `NfsStates.ImmediateTakes` | crates/mist-nfs/src/nfs41/mod.rs:1680-1689 | an immediate revocation takes what it recalled if and only if that was held all the while, and otherwise one granted later if there is one |
| `NfsStates.LateGrantTaken` | crates/mist-nfs/src/nfs41/mod.rs:1680-1689 | a run in which it takes one granted later |
| `NfsStates.Ledger` | crates/mist-nfs/src/nfs41/mod.rs:1596-1694 | over every run, granted and vain revocations equal returned, revoked, held and forgotten at resets |
| `NfsStates.DelegationsAccounted` | crates/mist-nfs/src/nfs41/mod.rs:1596-1694 | over every run, granted equals returned, revoked and held if and only if vain revocations are as many as delegations forgotten at resets; while none is forgotten, if and only if no immediate revocation found its delegation gone |
| `NfsStates.AccountedWithChannel` | crates/mist-nfs/src/nfs41/mod.rs:1677-1694 | with a back channel at every recall the counts always add up, but for what resets forget |
| `NfsStates.PhantomRevocation` | crates/mist-nfs/src/nfs41/mod.rs:1680-1689 | a run in which nothing is forgotten and they do not |

## Left out

- Renames while a walk is racing are in none of the theorems about the racing walk: a replayed rename whose source was
  never walked is dropped (crates/mist-replica/src/lib.rs:688-690).  `RenameLandsIff` says when one replayed rename is
  right, and `HistoryRefines` covers renames on a replica that is up to date.
- RacingWalk: name, key and kind of an entry are read at one moment.
- ScanDir: takes the entries the kernel returned.  An entry whose read fails is lost until the next change or snapshot;
  such failures and their count are not modelled.
- ServedFollowsGuest: the batches held back during a snapshot are not checked by the host, so that they are the
  guest's in order is an assumption; so is the first batch after a snapshot that held none back.
- StashedThenCreated: the stash is thrown away whole when it is full (crates/mist-replica/src/lib.rs:854-860), so it
  speaks of a stash with room.
- Overflow records inside the buffer of a seed: the replay ignores them (crates/mist-hostd/src/session.rs:811-815).
- Interleavings inside one record, one event, one enqueue or one compound: each is one step.
- The replica's side tables, the name grammar, shards and locks, and the 32-bit width of arena offsets;
  `ShareReplica` holds its directory tables by value, and `DirState` shows their representation separately.
- UpsertNode: symlink targets and device numbers are not kept.
- RemoveNode: nor are they dropped.
- FinishSnapshot: that the share is then live is in `Assemblers.Assembler.FinishSeed`.
- Assembler: staged and served replicas are put back by value after each event, so that sharing of a replica
  with readers during an event is not modelled.
- OnJournal: which nodes the host changed itself is one set for a batch, where the program asks again at each record;
  `LiveCut` is proved for any set at each record.
- Batcher: the linger clock is a free choice at each record.
- WriteBehind batch ids are not 32 bits wide: a batch is known by its place in the order of arrival.  Synchronous
  writes, truncation, COMMIT durability and the idle reaper are not modelled; the reaper can drop a noted failure too.
- StaleIff: a boot is known by the three bytes of it that an id carries.
- ParentsFollow: speaks of directories.  A file with several names keeps the directory last told as its parent, even
  when that name is removed; `StepParents` says how.
- ReplyReadBack: attributes and handles are bytes of the right length; their own layout is not modelled.
- Read: follows the release build, in which a read of nothing at offset 0 wraps around to no chunk; a build with overflow
  checks stops there.
- Cached reads are of one version: a file that changes during a read is a different key.
- Eviction's target is taken as an integer at most the limit, not computed in floating point.
- Creating, binding and destroying clients and sessions beyond what resets state; which locks are held on what range;
  all other NFS operations; attribute and name encodings.
- Not modelled: the handle codec, frame headers, hex and base64, discovery, configuration, the command line and the
  Swift app.
