# A verified model of HTTPDirFS's cache and directory tree

HTTPDirFS mounts an HTTP directory listing as a file system. This project models, in Dafny 4.11, the
parts of it that are hard to get right and proves what they promise:

- **The segment cache** (`src/cache.c`, `src/link.c`, `src/memcache.c`) as a step machine. Any number of
  FUSE readers, background downloads and closing threads share a block bitmap, a sparse data file, a
  list of reference-counted download trackers, a waiter count, a counting semaphore of background slots
  and a shutdown flag. One lock-protected section is one step; every thread carries its program counter.
  `CacheState` is the machine, `CacheInv` its invariant, `CachePromises` what it promises in every
  reachable state (from `CacheRuns`, `CacheProgress`, `CacheTheorems` and `CacheEnding`). `Handshake` and
  `HandshakeRace` are the shutdown with sleepers left, and the race for `dl_lock` before it.
  `CacheOutcome` says what a read reports, `CacheStored` that downloads are kept, `CacheAhead` that
  background downloads and prefetching happen.
  `CacheClosing`, `CacheSettle`, `CacheFinish` and `CacheEnding` build runs: closing an unused cache, and
  bringing every thread of any reachable state to its end. The modules in between (`CacheSteps`,
  `CacheTable`, `CacheMem`, `CachePieces`, `CacheKeep`, `CacheOther`, `CacheClose`, `CacheFaults`) show
  that each kind of step keeps the invariant and touches nothing freed.
- **The files of a cache**: the metadata codec (`MetaCodec`), `Cache_open`'s repair loop (`CacheFiles`)
  and whole histories of sessions with a changing remote file (`CacheHistory`), which use the theorem
  about one session of the step machine.
- **The directory tree** (`LinkTree`, `LinkTreeProofs`, `LinkTreeTheorems`, `LinkTreeOutcomes`): tables
  loaded during lookups with `link_lock` released, raced for, pinned, marked and freed upwards; what
  lookups, directory handles and the caches of links come to.
- **The name set** (`LinkNames`, `LinkHashSet`): open addressing with linear probing under an equality
  that is not transitive.
- **Sequential parts**, as classes and methods with the source's loops: `Cache_read`'s loop in 64-bit
  arithmetic (`ReadLoop`), the receive buffer (`ReceiveBuffer`), the tracker list as linked nodes
  (`DownloadList`), the directory listing file (`LinkTableFile`).
- **Low-level support**: the macOS semaphore (`MacSemaphore`) and the debug allocation tracker
  (`AllocTracker`).

`dafny verify dfyconfig.toml` checks everything.

## How to read the step machine

A state holds the bitmap and data file (`file`), trackers and transfer structures (`mem`), the handle
count and the phase of closing (`life`), the locks (`lk`), `waiters`, the semaphore value, each thread's
record (`thr`), the sleepers that have been woken (`sig`) and a `fault` flag. `Enabled` says which steps
each thread, the network and FUSE may take, `Apply` what a step does, and `Bad` what would be a fault:
touching a freed tracker, a finished transfer structure, the freed bitmap or a destroyed lock.

What the model assumes:

- Every byte handed to the write callback is the next byte of the requested range (inclusive byte
  ranges, section 14.1.2 of RFC 9110). The early copy in `src/cache.c` happens before the HTTP status is
  looked at, so it relies on this. The download size libcurl reports is the number of bytes delivered.
- A transfer may be cut short, retried or declared failed at any point. Reads and writes of the data
  file may fail or be short.
- The remote file does not change while the cache is open. Between sessions a changed content shows in
  a changed time or length.
- A handle is released only when no read on it is running (FUSE's discipline), except in `Handshake` and `HandshakeRace`.
- Condition variables may wake up spuriously; a woken thread contends for the lock again.
- The program's fatal exits end the run: failing to allocate, to create a thread or to operate a lock, and
  a server that turns out not to support ranges.

Where the code and its comments disagree, the code is followed. The comment above `Cache_bgdl` says a
following block is fetched when the second half of a block is read; the code tries to fetch it after
every piece that was served. The header says `LinkHashSet_add` adds a name that is not already
present; because the equality is not transitive, what is present depends on the order of the names, and
`FirstWins` and `KeptOk` say exactly what is kept.

## Results that are conditions

- `Cache_open` does not repair every disk state: a remote file longer than `INT64_MAX` less one block is
  created and rejected twice (`TooLongToCache`). `OpenSucceedsIff` gives the exact condition.
- `Cache_free` releases the bitmap before it takes `dl_lock` and sets `shutting_down`, so readers that are
  still asleep race it for the lock. From there no run goes wrong if and only if every sleeper's tracker
  is listed and points at no transfer (`SafeIffAllListed`): a sleeper whose tracker has left the list may
  win the lock, leave the wait loop and look at the released bitmap (`UnlistedGoesWrong`). A listed tracker
  has a running owner, so with only sleepers left the race is harmless if and only if there are none
  (`SafeIffNobodySleeps`). FUSE releases a handle only after its reads, and then there are none
  (`CacheClose.Alone`). Once the section that sets the flag has run the handshake itself is sound for any
  number of sleepers (`ShutDownHandshake`).

## Model

| member | source | states |
|---|---|---|
| CachePromises.ReadsArePlain | src/cache.c:1415-1672 | in every interleaving from every reachable state, a read that returns n >= 0 has delivered the remote bytes [offset, offset+n), never more than a plain read, and exactly a plain read's length when none of its failures is met |
| CachePromises.ReadsReport | src/cache.c:1533-1672 | a finished read returns -ENOENT if and only if its own transfer was given up, -EIO if and only if the data file could not be read for it, a short count if and only if the data file was short, and otherwise every byte of a plain read |
| CachePromises.PlainLengthIs | src/cache.c:1627-1652 | a plain read returns exactly the bytes that are asked for and exist |
| CachePromises.NothingGoesWrong | src/cache.c:1181-1230 | no step of a reachable state touches a freed tracker, transfer structure or bitmap or destroys a lock in use |
| CachePromises.NeverStuck | src/cache.c:1389-1395 | while a reader, a background thread or a closer is unfinished, some step other than a new call or a spurious wake-up is enabled, whatever locks are held and whoever sleeps |
| CachePromises.CanAlwaysFinish | src/cache.c:1181-1672 | from every reachable state some run without further FUSE calls, in which neither disk nor network fails, brings every reader, background thread and closer to its end |
| CachePromises.ReadCanComplete | src/cache.c:1627-1672 | a read called in any reachable state can complete, and can return exactly what a plain read would |
| CachePromises.SingleFlight | src/cache.c:1499-1524 | two threads never download the same block; a block being downloaded is unmarked and tracked, and no block has two listed trackers |
| CachePromises.TrackersAddedRightly | src/cache.c:1491-1524 | a step that lists a tracker holds w_lock and dl_lock, for a block that is unmarked and has no listed tracker |
| CachePromises.MarkedOnce | src/cache.c:1306-1320 | over any run a marked block stays marked and is never written again |
| CachePromises.StoredOnce | src/cache.c:1561-1563 | the bitmap is the one found at opening plus the blocks stored since, none of them twice, and a marked block's bytes are the remote's |
| CachePromises.StoresMark | src/cache.c:1544-1563 | writing a whole block with every byte accepted leaves the block marked and the remote's bytes in the data file, by a reader or in the background |
| CachePromises.DownloadsAreKept | src/cache.c:1283-1331 | over any run a download that is not given up and whose block is written whole is over only when the block is marked, for good and in the saved bitmap |
| CachePromises.LaunchesDownload | src/cache.c:1340-1376 | a new background thread starts with the download of its block: the following block for a prefetch, else the block of the piece |
| CachePromises.FetchesAhead | src/cache.c:1603-1625 | a reader that is done with a piece has not passed over the following block: since it began the piece there was a time at which no slot was free, that block was marked, or another thread, perhaps one it created, owned its tracker |
| CachePromises.LaunchesFirst | src/cache.c:1486-1512 | a reader downloads or waits only after a time at which no slot was free or another thread, perhaps one it created, owned the block's tracker |
| CacheAhead.TrackedIsJoined | src/cache.c:1439-1463 | a reader that finds its block's tracker listed becomes its waiter, or copies its whole piece early |
| CacheAhead.TrackedIsNotStarted | src/cache.c:1499-1523 | a reader about to launch or start a download that finds the block's tracker gives back its slot, or lets go of w_lock and starts over, and adds nothing |
| CachePromises.NoLostWakeUp | src/cache.c:1449-1464 | a sleeper not yet woken waits on a listed tracker, in a cache not shutting down, for bytes that have not arrived |
| CachePromises.TrackerLedger | src/cache.c:654-697 | a tracker's reference count is its listing plus its sleeping waiters plus its attached transfers, and it is allocated exactly while one of these exists |
| CachePromises.EarlyCopyIsSafe | src/cache.c:1450-1462 | the transfer structure a waiter looks into is live and holds a prefix of the waiter's block |
| CachePromises.CountsAreRight | src/cache.c:704-732 | waiters is the number of sleeping readers and registered downloads; semaphore value, slots in use and slots taken by the closer add up to num_bg_workers |
| CachePromises.QuiescentClose | src/cache.c:1205-1211 | once the last close has taken every slot, no later step changes the bitmap or the data file |
| CachePromises.LastCloseDestroys | src/cache.c:1181-1230 | when every handle has been released and every thread has ended, the bitmap has been saved and released, no tracker is left and the cache is destroyed |
| CacheRuns.ReadIsPlain | src/cache.c:1645-1672 | what a finished call delivered, in any run from a state that satisfies the invariant: remote bytes only, and all of them without a failure |
| CacheOutcome.ReadReports | src/cache.c:1533-1672 | the four outcomes of a call, each tied by an equivalence to what happened in the run |
| CacheOutcome.UnusableIsReported | src/cache.c:1533-1575 | a download that failed or is not the whole block makes the read fail, with the download's error or -EIO, and is not stored |
| CacheOutcome.UsableIsAnswered | src/cache.c:1576-1601 | a whole block downloaded is answered with the piece cut out of it, or with nothing if the piece would leave the block |
| CacheOutcome.LostGoesHome | src/cache.c:1533-1541 | a reader whose transfer has been given up returns without looking at the following block |
| CacheOutcome.BgGivesUp | src/cache.c:1291-1304 | over any run a background thread whose transfer has been given up does not try again: it removes its tracker, gives back its slot and ends |
| CacheRuns.CallKept | src/cache.c:1627-1672 | no step of any thread changes another call's handle, offset or length, or a result already returned; without a failure the call stays clean |
| CacheRuns.ReachableOk | src/cache.c:1033-1230 | the whole invariant holds, and nothing has gone wrong, in every state reachable from a coherent opening |
| CacheProgress.LocksMove | src/cache.c:1389-1395 | whoever holds dl_lock or runs the network can itself take a step; whoever holds w_lock or is in the write callback can once dl_lock is free |
| CacheProgress.SleeperHasOwner | src/cache.c:1449-1464 | a sleeper that has not been woken waits for a block whose tracker another thread still owns |
| CacheProgress.CloserRuns | src/cache.c:1181-1230 | with the other locks free the thread that holds cf_lock can itself take a step, or waits for a slot whose holder can |
| CacheTheorems.WritesUnmarked | src/cache.c:1547-1584 | a step writes at most one block, one that is unmarked and that the writing thread alone is downloading; all other bytes and marks stay |
| CacheTheorems.Session | src/cache.c:1205-1230 | after any session that ends, the saved bitmap and the data file agree with the remote file, and no earlier mark is lost |
| CacheClosing.CanBeClosed | src/cache.c:1181-1230 | from every opening some run closes and destroys the cache |
| CacheEnding.CanFinish | src/cache.c:1181-1672 | from every state of the invariant a run without FUSE calls and without failures ends every thread, and no thread disappears |
| CacheEnding.AllClosed | src/cache.c:1181-1230 | with no reader and no background thread left, the closers take the remaining slots, save, free and destroy, and all return |
| CacheFinish.ReadsOn | src/cache.c:1415-1672 | with all others at rest a reader runs through checks, launches, waits, downloads and prefetches to the end of its call, and nobody else moves |
| CacheSettle.ComeToRest | src/cache.c:1283-1413 | from any state in which dl_lock and transfer_lock are free, all downloads and tracker owners come to rest, and threads at rest do not move |
| CacheFaults.NoFault | src/cache.c:739-780 | no step of a reachable state touches freed memory or destroys a lock that is in use |
| CacheFaults.StepKeeps | src/cache.c:1283-1625 | every step of every thread keeps the invariant |
| CacheFaults.InitOk | src/cache.c:715-734 | a freshly opened cache satisfies the invariant |
| CacheOther.ReadStep | src/cache.c:1415-1625 | every section of Cache_read_segment keeps the invariant |
| CacheOther.DownStep | src/link.c:1860-1942 | every section of a download, with its retries, keeps the invariant |
| CacheOther.NetStep | src/network.c:193-228 | running the network, delivering bytes and ending transfers keeps the invariant |
| CacheOther.KeepSpawn | src/cache.c:1340-1376 | the new background thread takes over its launcher's slot, tracker and place in waiters, and the invariant is kept |
| CacheClose.EnvStep | src/fuse_local.c:62-70 | opening a handle, starting a read, releasing a handle and a spurious wake-up keep the invariant |
| CacheClose.CloseStep | src/cache.c:1181-1230 | every section of Cache_close and Cache_free keeps the invariant |
| CacheClose.Alone | src/cache.c:1196-1207 | with every slot taken no tracker is allocated, nobody waits and no other lock is held |
| CacheKeep.NotSavedYet | src/cache.c:1205-1211 | while a reader or background thread runs, nothing has been saved, freed or shut down |
| CacheKeep.StoreCoherent | src/cache.c:565-606 | writing all or part of a downloaded block keeps marked blocks equal to the remote |
| CacheKeep.StoreMisses | src/cache.c:1306-1313 | marking a block contradicts nothing any other thread has concluded from the bitmap |
| CacheKeep.KeepFind | src/cache.c:1439-1474 | joining the waiters of a tracker, or copying early, keeps the invariant |
| CacheKeep.KeepWake | src/cache.c:1449-1476 | a woken waiter copies, sleeps on or leaves, keeping the invariant |
| CacheKeep.KeepAdd | src/cache.c:1491-1524 | the three places that add a tracker hold both locks and do so for an unmarked, untracked block, and the invariant is kept |
| CacheKeep.KeepDetach | src/link.c:1839-1858 | ending a transfer removes its structure and leaves no listed tracker pointing at it |
| CacheKeep.KeepAttach | src/link.c:1888-1898 | starting a transfer attaches it to the listed tracker of the thread's own block, with one more reference, and wakes the tracker's waiters |
| CacheMem.RemoveMem | src/cache.c:684-697 | removing a tracker wakes its waiters and keeps ledger, owners and wake-ups |
| CacheMem.FeedMem | src/memcache.c:48-64 | delivering bytes, or ending a transfer, keeps ledger and wake-ups |
| CacheMem.HandoverMem | src/cache.c:1357-1376 | ownership of a tracker moves from the launcher to the new thread |
| CacheTable.FindSpec | src/cache.c:636-646 | the search finds a listed tracker of the block if there is one |
| CacheTable.RemoveSpec | src/cache.c:666-697 | removal takes out exactly the block's tracker, and frees it exactly when its last reference goes |
| CacheTable.AddSpec | src/cache.c:654-664 | adding tracks exactly one more block |
| CachePieces.FromDisk | src/cache.c:490-553 | a piece served from a coherent data file is a prefix of the remote's bytes, and all of it unless the read was short |
| CachePieces.CopyIsPiece | src/cache.c:1450-1456 | the bytes copied out of a transfer are the piece asked for |
| CachePieces.FromDownload | src/cache.c:1547-1601 | a whole download is always usable, and the answer made from it is the piece |
| CachePieces.NextPiece | src/cache.c:1645-1671 | appending an answer keeps the delivered bytes a prefix of the request |
| Handshake.ShutDownHandshake | src/cache.c:739-780 | once the section that sets shutting_down has dl_lock, for any number of sleepers and any run: nothing freed is touched, waiters counts the sleepers, the cache is destroyed only at zero, and a sleeper still sleeps or has returned -EIO |
| Handshake.ShutDownBegins | src/cache.c:749-764 | once the closer has dl_lock, freeing the list wakes every sleeper and leaves each tracker to its waiters |
| Handshake.HandshakeStep | src/cache.c:1466-1474 | each step keeps the handshake going, touches nothing freed and lets a reader leave only with -EIO |
| Handshake.HandshakeProgress | src/cache.c:764-767 | the handshake never gets stuck before the cache is destroyed |
| HandshakeRace.SafeIffAllListed | src/cache.c:744-752 | from the release of the bitmap on, with dl_lock free, no run goes wrong if and only if every sleeper's tracker is listed and points at no transfer |
| HandshakeRace.SafeIffNobodySleeps | src/cache.c:744-752 | since a listed tracker has a running owner, with only sleepers left the race is safe if and only if nobody sleeps |
| HandshakeRace.SafeHandshake | src/cache.c:744-780 | with every tracker listed, whoever wins the race, sleepers still sleep or have returned -EIO, the bitmap and data file are untouched and the cache is destroyed only at zero waiters |
| HandshakeRace.UnlistedGoesWrong | src/cache.c:1464-1484 | a woken sleeper whose tracker has left the list can win dl_lock, leave the wait loop and look at the released bitmap |
| HandshakeRace.DanglingGoesWrong | src/cache.c:1449-1456 | a woken sleeper whose tracker points at a transfer that is over follows the pointer |
| MetaCodec.RoundUp | src/cache.c:311-317 | the rounding by quotient and remainder is division rounded up |
| MetaCodec.SegmentsCount | src/cache.c:979-988 | the block count covers every byte of the file and counts no block past its end; only a file of at least INT_MAX whole blocks is covered in part |
| MetaCodec.MetaLayout | src/cache.c:411-415 | a written file holds time, length, block size and block count at bytes 0, 8, 16 and 20, least significant byte first, and the mark of block b at 28 + b |
| MetaCodec.Cache.MetaRead | src/cache.c:241-356 | accepts exactly the files that describe this version with the right block count and all marks, one for each block of the file; otherwise EIO for a short header, EBADMSG for the rest |
| MetaCodec.Cache.MetaWrite | src/cache.c:364-426 | writes exactly the valid caches, over the start of the file |
| MetaCodec.MetaRoundTrip | src/cache.c:241-426 | reading back what was written restores block size, block count and every mark |
| MetaCodec.PrefixRejected | src/cache.c:268-356 | every strict prefix of a written file is rejected |
| MetaCodec.AcceptedReencodes | src/cache.c:289-356 | anything accepted is written back as the same leading bytes |
| CacheFiles.CacheDir.Exist | src/cache.c:791-827 | a missing or empty file counts as absent and its partner is deleted |
| CacheFiles.CacheDir.Create | src/cache.c:938-1031 | writes an all-empty bitmap with a mark for each block of the file and a zero-filled data file |
| CacheFiles.CacheDir.Open | src/cache.c:1084-1179 | the two-attempt loop does what the specification of opening says, from any disk state, and what it opens has a mark for each block of the file |
| CacheFiles.OpenSucceedsIff | src/cache.c:1084-1179 | opening succeeds exactly when the files are complete or length <= INT64_MAX - blksz, and then yields a bitmap that passed every check |
| CacheFiles.TooLongToCache | src/cache.c:289-292 | a length within one block of INT64_MAX cannot be opened |
| CacheFiles.FreshAccepted | src/cache.c:979-988 | a fresh cache reads back exactly when length <= INT64_MAX - blksz |
| CacheFiles.OpenIsStable | src/cache.c:1087-1169 | opening again, with any configured block size, finds what opening left |
| CacheFiles.ChangedStartsOver | src/cache.c:295-308 | a changed time or length restarts from an all-empty bitmap of the configured block size |
| CacheHistory.OpenedCoherent | src/cache.c:1087-1169 | whatever opening succeeds with agrees with the current remote file |
| CacheHistory.SessionKeeps | src/cache.c:1181-1211 | a session keeps the files in agreement with every version of the remote file |
| CacheHistory.HistoryCoherent | src/cache.c:241-426 | after any history of sessions a marked block's bytes in the data file are the remote's |
| CacheHistory.NextSession | src/cache.c:1033-1179 | the next session starts in the invariant of the step machine |
| CacheHistory.ReopenKeeps | src/cache.c:285-292 | reopening keeps the block size on disk, whatever is configured, and every mark |
| CacheHistory.ReopenFindsSaved | src/cache.c:241-426 | reopening the same version finds exactly the bitmap and the data file the last session ended with |
| CacheHistory.BlocksHaveMarks | src/cache.c:311-317 | in an open cache every byte's block has a mark, unless the file has INT_MAX whole blocks or more, and no mark is past the file's end |
| LinkTreeTheorems.TreeLedger | src/link.c:1108-1168 | after any run each live table's reference count is its claims plus its child tables; the root is live and unmarked; loaded links lead to live tables; an unreferenced live table is not marked |
| LinkTreeTheorems.LookupIsFullWalk | src/link.c:1562-1699 | when a lookup has answered, the answer is the entry at which a walk of the full remote tree ends, or nothing if it finds nothing, whatever was loaded, raced for or evicted |
| LinkTreeOutcomes.LookupAnswers | src/link.c:1562-1699 | a lookup keeps its path and ends with such an answer, after at most as many fetches as the path has characters, unless its fetch fails or its answer is released |
| LinkTreeOutcomes.BeginAnswers | src/link.c:1677-1699 | path_to_Link begins with an answer or with the rest of the path still to look up, never with nothing in hand |
| LinkTreeOutcomes.FetchAnswers | src/link.c:1617-1671 | each successful fetch brings the lookup nearer its end |
| LinkTreeOutcomes.LookupCanComplete | src/link.c:1562-1699 | from any state of the tree a lookup whose directories all have listings can complete by its own fetches, and then has found exactly what the full walk finds |
| LinkTreeOutcomes.HandleIsDirectory | src/link.c:1482-1556 | over whole runs a handle opened through the link found for a path is, while it is open, on a live table of the directory at which the full walk of the path ends |
| LinkTreeOutcomes.OpenHandsOut | src/link.c:1499-1548 | opening a link hands out its directory's table, loaded or just fetched, and goes on to fetch exactly when none is loaded |
| LinkTreeOutcomes.RootHandle | src/link.c:1488-1491 | over whole runs a handle on / is on the table of the mounted directory |
| LinkTreeOutcomes.CacheBegins | src/cache.c:715-722 | the first open of a link makes a cache with one user, and after any run in which it stays in use the cache has one user for each open not yet closed |
| LinkTreeOutcomes.CacheCounts | src/cache.c:1045-1053 | the cache of a link stays one open cache, with its count of users, while it has been opened more often than closed |
| LinkTreeOutcomes.CacheStep | src/cache.c:1181-1196 | each open adds a user, each close removes one, and the last close leaves only the link |
| LinkTreeTheorems.CanonicalLookup | src/link.c:1569-1590 | on a canonical path the string recursion is the walk component by component |
| LinkTreeTheorems.TrailingSlash | src/link.c:1575-1585 | one trailing slash makes no difference to a lookup |
| LinkTreeTheorems.NamesAgree | src/link.c:1595-1602 | names are compared up to the end of both, or in the first NAME_MAX characters |
| LinkTreeTheorems.SplitJoined | src/link.c:1569-1611 | one level of the recursion takes exactly the first component |
| LinkTreeProofs.TreeStep | src/link.c:1481-1699 | every step keeps the ledger and the shape of the tree, and none goes wrong |
| LinkTreeProofs.NoTreeFault | src/link.c:1129-1168 | no step follows a pointer to a freed table or frees one that is still needed |
| LinkTreeProofs.FreedIsUnneeded | src/link.c:1135-1149 | a table is freed only when no claim, no child and no loaded link refers to it, and never the root |
| LinkTreeProofs.UnrefKeeps | src/link.c:1129-1152 | dropping a claim, freeing upwards, keeps the ledger |
| LinkTreeProofs.FetchedKeeps | src/link.c:1617-1671 | a fetched table becomes the link's table or, if another thread was faster, is dropped; the lookup goes on and the invariant is kept |
| LinkTreeProofs.OpenFetchedKeeps | src/link.c:1507-1556 | opening a directory after a fetch attaches or drops the fetched table and hands out a live, unmarked one |
| LinkTreeProofs.MarkKeeps | src/fuse_local.c:194-204 | releasing a directory marks its table exactly when it is not the root |
| LinkTreeProofs.DescendIsWalk | src/link.c:1562-1676 | over loaded tables the locked walk goes where the full walk goes |
| LinkTree.FindEntry | src/link.c:1595-1602 | the first link agreeing in the first NAME_MAX characters |
| LinkNames.NamesEqualMeans | src/link.c:465-499 | names are equal when they are non-empty and differ at most by one trailing slash |
| LinkNames.NamesEqualSymmetric | src/link.c:465-499 | the equality is symmetric |
| LinkNames.NotTransitive | src/link.c:465-499 | the equality is not transitive |
| LinkNames.EqualNamesHashAlike | src/link.c:507-523 | equal names have the same hash |
| LinkNames.HashString | src/link.c:507-523 | the hashing loop computes the 32-bit hash of the name without its trailing slashes |
| LinkNames.KnownHashes | src/link.c:507-523 | the hash of two known names, one of them with trailing slashes |
| LinkNames.MaskIsMod | src/link.c:571-579 | masking with a power of two less one is the remainder |
| LinkHashSets.LinkHashSet.constructor | src/link.c:525-540 | the capacity is the smallest power of two that is large enough, at most 2^30 |
| LinkHashSets.LinkHashSet.Resize | src/link.c:542-566 | doubling keeps the kept names, and stops the program exactly above INT_MAX/2 |
| LinkHashSets.LinkHashSet.Rehash | src/link.c:555-562 | putting a name back keeps every name reachable by its probe |
| LinkHashSets.LinkHashSet.Probe | src/link.c:576-584 | the probe ends, and finds an equal name exactly when one is kept |
| LinkHashSets.LinkHashSet.Add | src/link.c:568-588 | adds a name exactly when no kept name is equal to it |
| LinkHashSets.AddAll | src/link.c:917-963 | over any sequence of names the set lets through what a linear scan keeps |
| LinkHashSets.FirstWinsMeans | src/link.c:930-935 | no two kept names are equal, and a dropped name is equal to a kept one |
| LinkHashSets.ProbeComplete | src/link.c:578-583 | a probe that stopped at an empty slot has met every equal name |
| ReadLoop.CutTiles | src/cache.c:1656-1671 | the pieces are non-empty, follow each other without gap and never leave a block |
| ReadLoop.CutIsPieceEnd | src/cache.c:1656-1662 | the loop's pieces are the pieces of the step machine |
| ReadLoop.GatherIsPlain | src/cache.c:1654-1672 | if each answer is a prefix of its piece, so is the whole read |
| ReadLoop.GatherStops | src/cache.c:1654-1672 | the loop stops at the first piece not answered in full, with its error, or with everything before it and what came of it |
| ReadLoop.PieceStop | src/cache.c:1596-1598 | with the metadata guard no block end or next-block offset overflows off_t |
| ReadLoop.CacheRead | src/cache.c:1627-1672 | the loop terminates, fills the buffer with the answers of consecutive pieces and stops at an error or a short answer |
| ReceiveBuffers.ReceiveBuffer.Receive | src/memcache.c:36-67 | appends the chunk and a terminator, or stops the program exactly when that would not fit into size_t |
| ReceiveBuffers.Guard | src/memcache.c:43-45 | the guard by division is the guard by multiplication |
| ReceiveBuffers.ReceiveAll | src/memcache.c:36-67 | the buffer is the concatenation of its chunks |
| DownloadLists.DownloadList.Find | src/cache.c:636-646 | returns the first node of the block |
| DownloadLists.DownloadList.Add | src/cache.c:654-664 | puts a new node with one reference first |
| DownloadLists.DownloadList.Remove | src/cache.c:684-697 | takes out the first node of the block, marks it, drops one reference and tells whether that was the last; nothing else changes |
| DownloadLists.SameSearch | src/cache.c:636-646 | the list of nodes and the step machine's list find the same tracker |
| LinkTableFile.DiskSave | src/link.c:1348-1390 | writes header and entries in order |
| LinkTableFile.DiskOpen | src/link.c:1392-1479 | reads exactly the files whose header announces at least one entry and no more than fit |
| LinkTableFile.SaveThenOpen | src/link.c:1348-1479 | opening what was saved restores every entry, in order |
| LinkTableFile.SavedLayout | src/link.c:1362-1376 | a saved table holds its size at byte 0 and its index time at 4, and each link's name, URL, type, length and time at their places in its slot |
| LinkTableFile.PrefixIsRejected | src/link.c:1405-1445 | every strict prefix of a saved file is rejected |
| MacSemaphore.SemRefines | src/util.c:206-291 | a post adds one unit, a wait or resumed waiter takes one exactly when one is there and otherwise sleeps, sem_trywait takes one or answers -1, and a spurious wake-up changes nothing |
| MacSemaphore.SemStep | src/util.c:206-291 | sleepers present means the count is at most the signalled waiters that have not run |
| MacSemaphore.SemaphoreWorks | src/util.c:206-291 | over any run no unit is taken that was not supplied and no wake-up is lost |
| AllocTracker.MemTable.Insert | src/util.c:495-499 | a new address becomes tracked, all others stay so, and its node is first in the chain of its hash |
| AllocTracker.MemTable.Unlink | src/util.c:699-713 | afterwards the address is not tracked and all others are as before; the answer tells whether it was |
| AllocTracker.WalkChain | src/util.c:699-713 | the walk along one chain finds the address exactly when it is there, and takes out its first node |
| AllocTracker.MemTable.LeakCount | src/util.c:750-758 | the two loops count exactly the tracked addresses |
| AllocTracker.TrackerStep | src/util.c:473-727 | in every interleaving an address has at most one node, in the chain of its hash, and every live address is held once |
| AllocTracker.TrackedCount | src/util.c:750-758 | the table has as many nodes as there are tracked addresses |
| AllocTracker.ChainsInTurn | src/util.c:71-75 | addresses of the first 64 KiB, eight at a time, fall into the chains one after the other |
| AllocTracker.TrackerCounts | src/util.c:564-727 | when no wrapper is at work the leak count is the number of live allocations |
| AllocTracker.LeaksAreHeld | src/util.c:473-760 | when no wrapper is at work, the live addresses, the tracked ones and those the program holds by its own calls of allocation, reallocation and release are the same, and the leak count is their number |

## Left out

- libcurl, Gumbo, expat, OpenSSL, uuid and FUSE: the network is an environment that delivers the bytes of a range in chunks and may end a transfer at any point; FUSE is its open, read and release discipline.
- Sonic and single-file modes, ID3 tables (attached without a parent), cache keys and percent-decoding: one abstract key per link, NORMAL mode only.
- Parsing of options, configuration and HTML, URL origins, file-name sanitising, logging, hex and MD5 helpers: plumbing.
- Termination against a server that fails for ever: a download retries without bound, so safety, absence of stuck states and the existence of completing runs are proved, not completion of every run.
- Crashes: metadata is flushed before data on close, so nothing is claimed for a crash in that window.
- Failing file operations in Cache_open, Cache_create and LinkTable_disk_save, and the path of Cache_create that goes on after freeing the cache when the metadata file cannot be opened.
- Counters (references, waiters, handles, the semaphore) are unbounded integers; sizes, offsets, hashes and capacities have their machine widths where they can overflow.
- The table of a directory read from disk instead of fetched, its expiry, and filling in file sizes: a fetch yields the listing of the URL.
- The release of ts.data with plain free in Link_download_full, which bypasses the allocation tracker.
- CacheState: the step machine is on values, not on a class, because its steps interleave; the tracker list, the metadata, the files and the read loop are also given as classes and methods in the source's form.
- LinkTree: likewise on values; a table's links, counts and parent are fields of a record in a map from table identities.
- A transfer that fails before its first header byte: `strcasestr` at src/link.c:1799 is then given a null pointer, and the program ends there; the model goes on as after any failed transfer.
