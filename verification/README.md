# Proofs about the stateful core of rivulet-engine

This project models the parts of rivulet-engine that keep state under locks and
atomics, and proves what they promise over every run: the in-RAM piece store,
archive sessions and their growing files, the transcode semaphore, the
handle-less archive reader, HLS sessions and their timeline, the FTP session pool
and its leases, the janitor's memo, boundary piece priorities, and the segment
cache index.

Every protocol is a state machine whose steps are the critical sections and
single atomic operations of the code, in any order and by any number of threads;
`Run` and `After` follow a sequence of steps. The code itself is modelled beside
it: classes whose methods update the same fields in place, with the same branches
and loops, and whose contracts tie the new state to the step they stand for.
What a step does is in turn tied to the operations of the run: pins, calls, readers
and slots are counted from the steps that take and return them, recency and the
bytes read from the operations that used and wrote a piece, and an answer from what
was asked.

| file | part of the system |
|---|---|
| `LruHeap`, `PieceStore`, `PieceOps`, `PieceHistory`, `MemStorage` | the bounded piece store: its heap, its simple form, every interleaving, what the state says of the past, the code |
| `ArchiveSessions`, `ArchiveCaps`, `ArchiveBuilds`, `ArchiveFlight` | pinning and destroying sessions, the two caps, keyed creates, extraction and the growing-file reader |
| `SlotSem` | the resizable FIFO semaphore |
| `FileAt` | the read-ahead reader that keeps no handle |
| `HlsLifecycle`, `HlsTimeline`, `HlsNames` | who removes a session directory; playlists, names and encoded intervals |
| `FtpPool`, `FtpLease` | the idle pool; leases, hooks and ownership |
| `JanitorScan`, `Boundary` | skipping cache walks; piece priorities |
| `SegIndex` | the segment cache index |
| `Sums`, `Recency`, `Collections`, `Bytes`, `Numbers`, `Wrappers` | sums over maps, ordering by last use, small helpers |

Three properties one might expect do not hold of the code in every case. The
models keep the code and say exactly when they hold.

- The exit of `HLSFile` tests a count that may be stale. A call that enters after
  the last exit has brought `inFlight` to 0, but before that exit loads `deleted`,
  can lose its directory to a deletion in between, although the comments at
  internal/media/hls.go:1010-1013 and 1985-1995 rule it out
  (`HlsLifecycle.HarmAfterOvertaking`, `OvertakingIsReachable`). A removal can
  come under a call in flight exactly when such an overtaking has happened
  (`HarmExactlyWhenExposed`, `OvertakingExposes`, `PatientRunsAreSafe`).
- The head and tail windows of `primeBoundaryRange` count pieces from the ends of
  the piece range, not of the file, so a file that does not start or end with a
  piece may get fewer bytes than asked for, against the comment at
  internal/engine/engine.go:2210-2211 (`Boundary.WindowsCanFallShort`,
  `HeadCovers`, `TailCovers`).
- The client-level `Close` of the piece store sets the count of used bytes to 0
  after visiting the LRU only, relying on its callers: the accounting survives
  exactly when no incomplete piece is resident and none is reserved
  (`PieceOps.CloseNeedsClosedTorrents`). Closing every torrent first leaves no
  piece resident but drops no reservation, so it is enough exactly when no first
  writer is between reserving a piece and installing its buffer
  (`ClosedTorrentsSuffice`); such a writer can be there from every initial store
  (`ReservationOutlivesClose`).

## Model

| member | source | states |
|---|---|---|
| LruHeap.TopIsLeast | internal/engine/memstorage.go:338-360 | the top of an ordered heap has the least key of all entries, whatever the heap's shape |
| LruHeap.FixRestores | internal/engine/memstorage.go:340-360 | repairing one position whose key changed either way restores heap order |
| LruHeap.PushOrders | internal/engine/memstorage.go:346-350 | pushing keeps the order and adds exactly the new entry |
| LruHeap.PopOrders | internal/engine/memstorage.go:352-360 | popping moves the minimum to the end, keeps the order of the rest and loses no entry |
| LruHeap.RemoveOrders | internal/engine/memstorage.go:352-360 | removing any position keeps the order of the rest and loses no other entry |
| LruHeap.Heap.Fix | internal/engine/memstorage.go:311-322 | in place: one piece gets another key; order, positions and the other entries are kept |
| LruHeap.Heap.Remove | internal/engine/memstorage.go:244-249 | in place: takes out the piece at a position wherever it is; order, positions and the other entries are kept |
| MemStorage.MemStorage.TopIsOldest | internal/engine/memstorage.go:303-310 | a top whose own key is current is the least recently used piece although every other key may be stale |
| MemStorage.MemStorage.PopOldestLocked | internal/engine/memstorage.go:311-322 | terminates (fewer stale keys each turn) and returns what a scan of the whole heap for the oldest stamp finds; none only from an empty heap; the heap stays valid |
| MemStorage.MemStorage.EvictLocked | internal/engine/memstorage.go:277-301 | the heap-driven eviction leaves exactly the state of the repeated full scan, never touching the kept piece |
| PieceStore.VictimsSuffice | internal/engine/memstorage.go:277-301 | the scan frees as many bytes as are over budget, or every candidate |
| PieceStore.VictimsAreOldest | internal/engine/memstorage.go:277-301 | every victim was used no later than every surviving candidate |
| PieceStore.VictimsAreNeeded | internal/engine/memstorage.go:277-301 | without its newest victim the scan would not have freed enough |
| PieceStore.EvictedMakesRoom | internal/engine/memstorage.go:282-301 | after a pass the bytes needed fit the budget, or no complete piece but the kept one is left |
| PieceOps.StepKeepsInv | internal/engine/memstorage.go:241-301 | every critical section keeps: used is the length of resident and reserved pieces, the LRU is exactly the complete pieces, no buffer has two owners, and used is within capacity or at most one complete piece is resident |
| PieceOps.EveryRunIsSafe | internal/engine/memstorage.go:221-301 | that invariant and the faithfulness of the bytes hold after every prefix of every interleaving of critical sections |
| PieceOps.OnlyCompleteIsEvicted | internal/engine/memstorage.go:277-301 | a step frees only complete pieces, never the one just completed, except a torrent's own on its close |
| PieceOps.OnlyReserveGrows | internal/engine/memstorage.go:267-275 | no step but a reservation raises the bytes accounted |
| PieceOps.WrittenFaithful | internal/engine/memstorage.go:473-484 | a chunk write leaves every byte of every resident piece as last written, in its own and in other pieces |
| PieceOps.ReadsLatest | internal/engine/memstorage.go:492-532 | ReadAt of a fully written resident piece returns the latest written byte at every offset, EOF exactly when the request runs past the piece |
| PieceOps.StreamsLatest | internal/engine/memstorage.go:578-603 | WriteTo of a piece that stays resident and fully written returns at every offset what was last written there when its chunk was copied, though the store changes between chunks |
| PieceOps.NeverSilentlyEmpty | internal/engine/memstorage.go:492-532 | zero bytes without an error come back exactly for an empty request inside a resident piece |
| PieceOps.CloseNeedsClosedTorrents | internal/engine/memstorage.go:219-239 | after the client-level Close the accounting is right if and only if nothing incomplete was resident or reserved |
| PieceOps.ClosedTorrentsSuffice | internal/engine/memstorage.go:388-398 | after every torrent was closed no piece is resident, and the client-level Close keeps the accounting right if and only if no reservation is pending |
| PieceOps.ReservationOutlivesClose | internal/engine/memstorage.go:441-469 | from every initial store creating a piece, reserving it and closing its torrent leads to a state in which the client-level Close loses the accounting, as its first writer has not installed the buffer |
| PieceHistory.RecencyIsOrderOfUse | internal/engine/memstorage.go:324-331 | over every interleaving the stamps of complete pieces stand in the order in which the operations last used them, by a read that served bytes or by completing |
| PieceHistory.EvictionFollowsUse | internal/engine/memstorage.go:277-322 | over every interleaving what an eviction takes was used before every complete piece that it leaves, the one just completed aside |
| PieceHistory.EvictsNoMore | internal/engine/memstorage.go:282-301 | without the newest of what a step evicts its bytes would not fit the budget |
| PieceHistory.NewestGoesLast | internal/engine/memstorage.go:277-301 | a piece used after every other complete one is evicted only with all of them, and only if their bytes were not enough |
| PieceHistory.ReadsWhatWasWritten | internal/engine/memstorage.go:473-532 | over every interleaving a read returns at each offset what the last write to cover it wrote there since the piece was given its buffer |
| PieceHistory.WhyReadsFail | internal/engine/memstorage.go:492-532 | a read fails exactly for a negative offset, with EOF when it runs past a resident piece, and as evicted when the piece is not resident |
| PieceHistory.CompleteIsMarked | internal/engine/memstorage.go:607-662 | over every interleaving a piece is complete if and only if it was marked complete and neither taken back nor dropped since |
| PieceHistory.ClosingFrees | internal/engine/memstorage.go:388-398 | closing a torrent frees every piece of it and no other, and hands its buffers back |
| MemStorage.MemStorage.Reserve | internal/engine/memstorage.go:267-275 | in place: the reservation step |
| MemStorage.MemStorage.MarkComplete | internal/engine/memstorage.go:607-633 | in place: the completion step, or the eviction error with the state unchanged |
| MemStorage.MemStorage.CloseTorrent | internal/engine/memstorage.go:388-398 | in place: frees exactly the created pieces of the torrent |
| MemStorage.MemStorage.WriteAt | internal/engine/memstorage.go:445-484 | in place: the three outcomes of a write and the whole state after the reservation, the buffer and the copy; the bytes are in the buffer from the offset on |
| MemStorage.MemStorage.ReadAt | internal/engine/memstorage.go:492-532 | in place: bytes and error are those of the read function on the state found; a read that serves bytes leaves its piece with the newest stamp, above every other complete piece, and moves no other stamp |
| MemStorage.MemStorage.Completion | internal/engine/memstorage.go:655-662 | a piece reports complete exactly while it is in the LRU |
| ArchiveSessions.StepKeeps | internal/api/archive.go:364-506 | every critical section keeps: at most one destruction per session, of an unpinned session out of the map; a retired session waits for its readers |
| ArchiveSessions.EveryRunDestroysOnce | internal/api/archive.go:364-506 | over every interleaving of create, acquire, release, replace and evict each session is destroyed at most once, unpinned and unreachable, and when nothing is pending exactly the unregistered unpinned ones have been |
| ArchiveSessions.WhenDestructionBegins | internal/api/archive.go:2101-2119 | a destruction begins in exactly three ways: evicting an idle session, replacing an idle one, and the last release of a retired one |
| ArchiveSessions.NeverBack | internal/api/archive.go:478-506 | once its destruction has begun a session is never found or pinned again, in any continuation |
| ArchiveSessions.NobodyReadsADestroyedSession | internal/api/archive.go:478-506 | over every interleaving the pins of a session are the acquires that found it less the releases, and while there is one it is neither being destroyed nor has been |
| ArchiveSessions.WhoIsFound | internal/api/archive.go:2099-2113 | the session found under a key is the last one registered, unless it was evicted |
| ArchiveSessions.Registry.Register | internal/api/archive.go:2101-2113 | in place: the new session is in the map and the displaced one destroyed now, retired or let go |
| ArchiveSessions.Registry.ReleaseFirst | internal/api/archive.go:495-500 | in place: the unpin, and whether it was the last of a retired session |
| ArchiveSessions.Registry.EvictExpired | internal/api/archive.go:243-265 | in place: exactly the idle expired sessions leave the map, one evict step each |
| ArchiveCaps.VictimsSuffice | internal/api/archive.go:434-454 | the loop meets the session cap or takes every candidate, and meets the byte cap if taking all candidates would |
| ArchiveCaps.VictimsHelp | internal/api/archive.go:434-454 | each victim was taken while a cap it reduces was exceeded by what the ones before it left |
| ArchiveCaps.CapsHold | internal/api/archive.go:400-454 | afterwards the bytes are within their cap whenever dropping every idle session could do it, and the count within its cap or all that is left is kept or in use |
| ArchiveCaps.BytesFit | internal/api/archive.go:400-454 | whenever the bytes of what must stay fit the byte cap, the bytes of what is left fit it |
| ArchiveCaps.VictimsAreNeeded | internal/api/archive.go:405-410 | over the sessions found by the scan, every victim helped an exceeded cap; none is taken for a byte cap that cannot be met |
| ArchiveCaps.VictimsAreOldest | internal/api/archive.go:431-446 | an idle session used before a victim stays only if it holds no bytes and the victim does |
| ArchiveCaps.Scan | internal/api/archive.go:422-428 | the candidates are exactly the idle sessions other than the kept one, and the sums are theirs and everybody's |
| ArchiveCaps.EnforceCaps | internal/api/archive.go:411-455 | in place, on the session registry: exactly the victims leave the map to be destroyed, from a candidate list in last-access order |
| ArchiveCaps.EnforcingIsEvicting | internal/api/archive.go:411-455 | enforcing the caps is a run of evict steps of the session machine over exactly the victims, so what holds of every interleaving there covers it |
| ArchiveCaps.KeptSurvives | internal/api/archive.go:411-430 | the session to keep and those in use stay as they are, and so does everybody but the victims |
| Recency.SortByLast | internal/api/archive.go:431 | the sorted list has the same distinct keys in order of last use |
| ArchiveBuilds.OneBuildAtATime | internal/api/archive.go:2018-2037 | two builds of the same key and payload are never both unregistered |
| ArchiveBuilds.NoGap | internal/api/archive.go:2080-2125 | a build leaves the table in the very step that registers its reusable session, or after it failed |
| ArchiveBuilds.NoDuplicateBuild | internal/api/archive.go:2018-2037 | a create starts a build only if every earlier build of that payload failed or its session is replaced, evicted, marked or expired |
| ArchiveBuilds.NobodyIsStranded | internal/api/archive.go:2077-2092 | a flight that is not done has its leader, whose next step is enabled |
| ArchiveBuilds.SharersAgree | internal/api/archive.go:1986-2016 | over every interleaving all who shared a flight answer the same, which is what its build came to |
| ArchiveBuilds.RetriesAreBounded | internal/api/archive.go:1990-2004 | each retry of a create has marked a further session unusable, and the next one it pins is not among them |
| ArchiveBuilds.AnsweredWithOwnPayload | internal/api/archive.go:2042-2054 | in every continuation a create is answered, by a reused session or by any build, with a session of its own key and payload |
| ArchiveBuilds.WhatACreateDoes | internal/api/archive.go:2024-2054 | a create pins the live session if and only if that is of its payload, unmarked and unexpired; else it joins the build of its payload or starts it |
| ArchiveBuilds.OnlyVerifiedIsReused | internal/api/archive.go:1992-2004 | a reused session is the answer only right after its source was found unchanged |
| ArchiveBuilds.AnswersArrive | internal/api/archive.go:1986-2016 | an unchanged session, the end of a build and the end of a wait answer the create with that session or outcome |
| ArchiveBuilds.WhoMarks | internal/api/archive.go:1996-2000 | a session is marked exactly by failing and by the create that finds it stale, which asks again |
| ArchiveBuilds.MarkedIsNeverReused | internal/api/archive.go:2056-2060 | in no continuation does a create pin a marked session |
| ArchiveBuilds.WhoIsLive | internal/api/archive.go:2099-2113 | the live session of a key changes exactly by a registration under it and by eviction |
| ArchiveBuilds.WhatAFlightComesTo | internal/api/archive.go:2080-2125 | the outcome of a flight is the session its leader registers, or its leader's error |
| ArchiveBuilds.Creates.ReuseOrLead | internal/api/archive.go:2024-2037 | in place: reuse, join or lead, decided in one section; reuse exactly of a live session of the payload asked for, unmarked and unexpired |
| ArchiveBuilds.Creates.Finish | internal/api/archive.go:2085-2091 | in place: the table entry goes if it is still this flight, and the result is what waiters will read |
| ArchiveFlight.StepKeeps | internal/api/archive.go:1107-1242 | every step keeps: published bytes are a prefix of the entry within its declared size, the file of a failed extraction goes once and unread, and nobody sleeps past what is published |
| ArchiveFlight.ReadsAreTrue | internal/api/archive.go:1453-1476 | over every interleaving each chunk read holds the entry's bytes at its offset, within what is published, and one holding the last byte only after the extraction finished without error |
| ArchiveFlight.NoForgottenSleeper | internal/api/archive.go:1184-1233 | a reader that cannot be woken has nothing to read yet and the flight is running |
| ArchiveFlight.RemovedWhenUnread | internal/api/archive.go:1150-1182 | the file of a failed extraction has been removed exactly when nobody has it open, by a drop, a release or a close, and cannot be opened afterwards |
| ArchiveFlight.OverlongFails | internal/api/archive.go:1375-1424 | an entry longer than declared never finishes well and its excess is never published |
| ArchiveFlight.SeeksAgree | internal/api/archive.go:1478-1495 | a seek from the position or the end is the one from the start to that place; before the start it moves nothing |
| ArchiveFlight.ReadsFollowASeek | internal/api/archive.go:1453-1495 | after a seek, and until the next, the reads return the entry from there on without gap or overlap, whatever happens meanwhile |
| ArchiveFlight.LookServes | internal/api/archive.go:1453-1476 | published bytes are served as far as buffer, entry and publication allow, and the last one only after the end |
| ArchiveFlight.PublishedIsReadable | internal/api/archive.go:1453-1476 | a reader between calls or woken returns published bytes of a flight that has not failed by its own steps alone |
| ArchiveFlight.ErrorIsTheCopys | internal/api/archive.go:1343-1375 | over every interleaving the error readers are given is the one the copy failed with, and a failed copy never ends without it |
| ArchiveFlight.ReadersAreCounted | internal/api/archive.go:1142-1165 | over every interleaving the registered readers are those let in less those that left, and the file stays while there is one |
| ArchiveFlight.ExtractFlight.ReleaseReader | internal/api/archive.go:1154-1165 | in place: the last reader out of a dropped flight removes the file |
| ArchiveFlight.ProgressReader.LookAt | internal/api/archive.go:1212-1231 | in place: what waitFor and Read make of the flight found under its lock |
| ArchiveFlight.ProgressReader.Seek | internal/api/archive.go:1478-1495 | in place: the new position, unchanged when it would be negative |
| SlotSem.Semaphore.GrantLocked | internal/media/slotsem.go:36-48 | in place: serves the oldest waiters, as many as the limit and the queue allow |
| SlotSem.Semaphore.Cancel | internal/media/slotsem.go:70-85 | in place: a cancelled waiter hands a slot it was given to the next, or leaves the queue |
| SlotSem.StepKeeps | internal/media/slotsem.go:37-111 | every step keeps: held is the number of slots given and not returned, and slots went to earlier arrivals than everybody queued |
| SlotSem.EveryRunIsFair | internal/media/slotsem.go:37-111 | over every interleaving of acquire, tick, cancel and release, and every limit, held counts the slots out and grants follow the order of arrival |
| SlotSem.NeverAboveLimit | internal/media/slotsem.go:52-94 | no step raises held above the limit it read |
| SlotSem.NoWaiterForgotten | internal/media/slotsem.go:96-111 | under a constant limit nobody is left queued beside a free slot unless a release is between its two sections |
| SlotSem.SteadyLimit | internal/media/slotsem.go:96-111 | the same over whole runs, with held within the limit throughout |
| SlotSem.EverySlotHasItsCall | internal/media/slotsem.go:50-111 | over every interleaving the slots taken are those of calls given one and neither cancelled nor released, and the queue is the calls given none and not cancelled, in order of arrival |
| SlotSem.CancelLeaves | internal/media/slotsem.go:70-85 | a cancelled call is gone from the queue and the slots, and the others keep their order |
| SlotSem.CancelledIsNeverServed | internal/media/slotsem.go:70-85 | in no continuation is a cancelled call given a slot |
| FileAt.Cache.Refilled | internal/archive/fileat.go:117-140 | the new block starts at the position, holds what is needed, stays inside the file and fits its buffer |
| FileAt.Reader.Reslice | internal/archive/fileat.go:117-134 | in place: block size and buffer of a refill; the reslice is within the capacity |
| FileAt.Reader.ReadLocked | internal/archive/fileat.go:90-111 | in place: the loop delivers, caches and opens exactly what the closed form says, and if the file of that size and time never holds other bytes then neither the caller nor the block gets any |
| FileAt.Reader.ReadAt | internal/archive/fileat.go:75-112 | in place: the same with the argument checks; the bytes delivered are the file's at the offset |
| FileAt.IsDirectRead | internal/archive/fileat.go:73-112 | on an unchanged file the count and the error are those of a direct read, whatever is cached: EOF exactly when short |
| FileAt.WhenDirectRead | internal/archive/fileat.go:73-112 | in general it is a direct read if and only if the block has what is wanted or its one open succeeds; otherwise the cached prefix comes with that error |
| FileAt.WhyReadsFail | internal/archive/fileat.go:142-165 | which opens fail a read and with what error: a changed file, and a file that ends too early is not at its end |
| FileAt.EndOfFileIsTheEnd | internal/archive/fileat.go:73-112 | EOF is reported if and only if all bytes up to the recorded end were delivered and more were asked for, or opening the path reported it |
| FileAt.ScanProgress | internal/archive/fileat.go:114-139 | after k opens of a sequential scan the block is at least the k-th of the doubling sizes, and all before it were read |
| FileAt.FewOpens | internal/archive/fileat.go:22-29 | a scan of S bytes in reads under 256 KiB, from any cache, opens the file at most 7 + S / 256 KiB times |
| HlsLifecycle.InvKept | internal/media/hls.go:989-1019 | every step keeps: one removal per session, a session is registered, draining or done, and somebody owes every deleted session its removal |
| HlsLifecycle.EveryRemovalHappensOnce | internal/media/hls.go:1975-2051 | over every interleaving a directory is removed at most once, the id drains exactly until then, and when no thread has anything to do every deleted session has been removed |
| HlsLifecycle.IdsAreReusedSafely | internal/media/hls.go:718-746 | an id is given to a new session only when all removals under it are done, so a removal never hits another session's directory |
| HlsLifecycle.CallsAreCounted | internal/media/hls.go:989-1019 | over every interleaving inFlight is the calls that entered the session less those that left |
| HlsLifecycle.WhoIsRegistered | internal/media/hls.go:718-746 | a session starts if and only if its id has none, none is draining and the limit is not reached, and is registered until it is deleted or evicted |
| HlsLifecycle.LimitHolds | internal/media/hls.go:730-746 | over every interleaving no more sessions are registered than the largest limit given |
| HlsLifecycle.DeletedIsNeverEntered | internal/media/hls.go:1982-2034 | in no continuation does a call enter a deleted session |
| HlsLifecycle.HarmExactlyWhenExposed | internal/media/hls.go:1014-1019 | without further calls for the id, a directory can be removed under a call in flight if and only if a call is in flight beside a thread on its way to remove |
| HlsLifecycle.OvertakingExposes | internal/media/hls.go:990-998 | entering exposes the session if and only if the last exit has reached 0 and not yet looked at deleted |
| HlsLifecycle.PatientRunsAreSafe | internal/media/hls.go:1014-1019 | a run in which no call overtakes a last exit removes no directory under a call in flight |
| HlsLifecycle.OvertakingIsReachable | internal/media/hls.go:989-1019 | four steps from the start lead to an overtaken session |
| HlsLifecycle.HarmAfterOvertaking | internal/media/hls.go:2008-2034 | five more remove its directory while the second call is in it |
| HlsLifecycle.Manager.StartHLS | internal/media/hls.go:718-746 | in place: a new session, the existing one, or a refusal while the id is draining or the limit is reached |
| HlsLifecycle.Manager.EvictIdle | internal/media/hls.go:2111-2162 | in place: exactly the expired sessions with no call in flight are retired |
| HlsLifecycle.Manager.ClaimRemoval | internal/media/hls.go:2039-2042 | in place: the compare-and-swap that lets one thread remove |
| HlsTimeline.WritePlaylist | internal/media/hls.go:1160-1208 | the playlist lists one entry per segment, or fails exactly when the duration is unknown |
| HlsTimeline.ListedIsEncoded | internal/media/hls.go:1511-1518 | the listed length of a segment is the one transcodeSegment encodes, in (0, 4], and rounds to at most the target duration as section 4.3.3.1 of RFC 8216 requires |
| HlsTimeline.SegmentsTile | internal/media/hls.go:1511-1518 | each segment ends where the next starts, and the last with the media |
| HlsTimeline.EveryInstantOnce | internal/media/hls.go:1511-1518 | every instant of the media is in exactly one listed segment |
| HlsTimeline.LengthsSumUp | internal/media/hls.go:1187-1200 | the EXTINF values add up to the duration, and what is printed to three digits adds up to the duration rounded once |
| HlsNames.VideoNames | internal/media/hls.go:1102-1121 | which muxed or video segment names are accepted and which error the others get |
| HlsNames.AudioNames | internal/media/hls.go:1123-1150 | the same for audio segments: track and index are read back from the printed name |
| HlsNames.ListedNamesRoundTrip | internal/media/hls.go:1102-1150 | every printed URI is accepted as its own track and index, and index n is accepted if and only if n < ceil(d/4), for every duration up to 2^20 seconds |
| HlsNames.AcceptedIsListed | internal/media/hls.go:1102-1150 | whatever name is accepted, one of the listed URIs means the same segment |
| HlsNames.PlaylistNames | internal/media/hls.go:1035-1098 | which playlist and subtitle names are accepted and which error the others get |
| HlsNames.AcceptedPlaylists | internal/media/hls.go:1035-1098 | whatever name is accepted as a playlist or subtitle, the printed name of that track means the same |
| HlsNames.WhichNamesMeanSegments | internal/media/hls.go:1100-1150 | a name is taken for a segment's if and only if it ends in .ts and starts with seg, or with a and has seg after it |
| FtpPool.NewestOrNone | internal/ftpstream/pool.go:313-340 | Get returns the key's newest session if it has not expired, discarding nothing; otherwise all of the key's sessions have expired and go |
| FtpPool.PutKeeps | internal/ftpstream/pool.go:342-391 | a Put that drops the right victim keeps the count, both caps and the order |
| FtpPool.EveryRunIsBounded | internal/ftpstream/pool.go:313-417 | after any sequence of operations, whatever times Get and the janitor bring, the count is the number parked, at most 8 in all and 2 per key, no list is empty and each is in parking order |
| FtpPool.ParkedComesBack | internal/ftpstream/pool.go:313-391 | a session parked and asked for again in time comes back, and the pool is as the Put found it less what it dropped |
| FtpPool.Sessions.Get | internal/ftpstream/pool.go:313-340 | in place: the pop loop, whatever time was read before the lock, and the pool's invariant; what is returned was parked less than the time to live ago and what is discarded no less |
| FtpPool.Sessions.Put | internal/ftpstream/pool.go:346-391 | in place: at most one session makes room, the oldest of a full key or of a full pool |
| FtpPool.Sessions.Evict | internal/ftpstream/pool.go:394-417 | in place: exactly the sessions parked the time to live ago or earlier go |
| FtpLease.StepKeeps | internal/ftpstream/ftpstream.go:352-422 | every step keeps: a session is with one request, parked alive, or gone, and each lease has one winner |
| FtpLease.ReleasedExactlyOnce | internal/ftpstream/ftpstream.go:279-292 | over every interleaving a request that is over released its session exactly once, one that is not still has it, and parked sessions are alive, unbound, owed no reply and not known to be closing |
| FtpLease.StreamParksCleanSession | internal/ftpstream/ftpstream.go:279-292 | a finished stream's session is parked if and only if no reply is owed on it, nothing read says it is no good and it is open; else it is discarded |
| FtpLease.RefusalParksCleanSession | internal/ftpstream/ftpstream.go:366-403 | after a failed RETR, with the hook not begun, the session is parked if and only if the same holds and any reply was a refusal |
| FtpLease.StaleIsRetried | internal/ftpstream/ftpstream.go:335-345 | a call on a pooled session goes on to dial if and only if its RETR failed in a way that discarded the session |
| FtpLease.CancelledNeverStreams | internal/ftpstream/ftpstream.go:406-421 | in no continuation does a call cancelled before its transfer began get a stream |
| FtpLease.CancelAborts | internal/ftpstream/pool.go:165-175 | a cancelled call that is still opening loses its control connection to the hook |
| FtpLease.WhoClosesControl | internal/ftpstream/pool.go:153-175 | a control connection is closed only by the request that has the session or by the pool: an old hook never closes a parked session's |
| FtpLease.OneWinner | internal/ftpstream/pool.go:177-183 | a lease leaves the opening phase once, by beginTransfer or by the hook, and never changes again |
| FtpLease.RetriesOnce | internal/ftpstream/ftpstream.go:335-345 | a call dials again only after discarding its stale session, and in no continuation is it or its second attempt retried again |
| FtpLease.Transfers.BeginTransfer | internal/ftpstream/ftpstream.go:411-421 | in place: the swap after a RETR that worked |
| FtpLease.Transfers.Judge | internal/ftpstream/ftpstream.go:284-289 | in place: the verdict of Close is to park if and only if no reply is owed, nothing read says the session is no good and it is open |
| FtpLease.Transfers.Finish | internal/ftpstream/ftpstream.go:356-370 | in place: park or discard, as the end of the open or the stream decides |
| JanitorScan.StepKeeps | internal/engine/engine.go:1071-1100 | every step keeps: a memoised reading is exact as long as its engine's counter stands still |
| JanitorScan.QuietTicksNeedNoWalk | internal/engine/engine.go:1125-1163 | for every sequence of ticks, downloads and engines coming and going, when cacheQuiet holds a walk taken now would measure exactly the memoised total, within budget |
| JanitorScan.WhenMemoised | internal/engine/engine.go:1078-1096 | a walk leaves a memo if and only if the cache was within budget and the counters are those of the walk before |
| JanitorScan.StillCacheGoesQuiet | internal/engine/engine.go:1125-1163 | two walks of a cache that has settled within budget make the ticks after them quiet, exactly until the memo has aged |
| JanitorScan.DiskScan.Observe | internal/engine/engine.go:1078-1096 | in place: memoise only a reading within budget whose counters are those of the walk before |
| JanitorScan.DiskScan.EvictTick | internal/engine/engine.go:1125-1134 | a tick goes without a walk exactly for a positive budget in the quiet condition |
| JanitorScan.DiskScan.CacheQuiet | internal/engine/engine.go:1141-1163 | the loop decides exactly the quiet condition |
| Boundary.PiecesForBytes | internal/engine/engine.go:2172-2185 | the least number of pieces, at least one, that the bytes fill |
| Boundary.PrimeRange | internal/engine/engine.go:2187-2207 | both windows stay inside the file's pieces |
| Boundary.HeadCovers | internal/engine/engine.go:2187-2200 | the head window holds the bytes asked for if and only if it reaches the end of the file or the start of the first piece leaves room |
| Boundary.TailCovers | internal/engine/engine.go:2201-2206 | the same for the tail |
| Boundary.AlignedIsCovered | internal/engine/engine.go:2187-2207 | a file made of whole pieces is always covered |
| Boundary.WindowsCanFallShort | internal/engine/engine.go:2187-2207 | a 54 MiB file starting 13 MiB into a 16 MiB piece gets 3 of its first 4 MiB and 3 of its last 8 |
| Boundary.SpansAreInside | internal/engine/engine.go:1796-1805 | boundary and prefetch spans lie within the file |
| Boundary.SpansAreTheEnds | internal/engine/engine.go:1796-1805 | the spans hold exactly the first and last pieces of the file, as many as the windows or the prefetch take |
| Boundary.NothingIsLeftBehind | internal/engine/engine.go:2340-2387 | after any sequence of primings, prefetches and demotions a piece with a priority is at an end of a file that still holds one, or of the next video after it |
| Boundary.DemotingAllResetsAll | internal/engine/engine.go:2340-2387 | demoting every file something was raised for resets every piece |
| Boundary.Priorities.RaiseBoundary | internal/engine/engine.go:2317-2334 | in place: pieces in the spans are at least at the priority, none is lowered, and the torrent was told what bprio records |
| Boundary.Priorities.ReleasePieces | internal/engine/engine.go:2389-2399 | in place: the pieces are reset and forgotten, and the mirror is kept |
| Boundary.PiecesToRelease | internal/engine/engine.go:2284-2313 | exactly the demoted pieces that are not protected, ascending, each once |
| Boundary.ReleaseBoundary | internal/engine/engine.go:2336-2387 | in place: exactly the pieces of demoted files that no kept file needs go back to none |
| Boundary.PrioritiesAreHighestWanted | internal/engine/engine.go:2317-2399 | after any sequence of raises and releases a piece is at the highest priority asked for since its last release |
| SegIndex.ListedVideoIsCached | internal/media/segindex.go:52-59 | every muxed or video segment the playlists list is counted once on disk |
| SegIndex.ListedAudioIsCached | internal/media/segindex.go:52-59 | the same for the segments of every audio track |
| SegIndex.CountedMeansSegment | internal/media/segindex.go:52-59 | a file is counted if and only if its name is taken for a segment's when requested, and it is no work file |
| SegIndex.WorkFilesDoNotCount | internal/media/segindex.go:52-59 | no name with .tmp in it is counted |
| SegIndex.ScannedIsCounted | internal/media/segindex.go:61-83 | the index of a directory holds exactly the counted files with their sizes and times |
| SegIndex.SegmentIndex.LoadLocked | internal/media/segindex.go:61-83 | in place: the directory is taken once and the total is its sum |
| SegIndex.SegmentIndex.NoteSegment | internal/media/segindex.go:85-94 | in place: one entry is replaced and the total stays the sum |
| SegIndex.LeftAccounts | internal/media/segindex.go:138-154 | the eviction loop keeps the total exact and ends within the limit or with every candidate left locked or not removable |
| SegIndex.LeftInOrder | internal/media/segindex.go:137-154 | a segment goes only after every removable candidate before it |
| SegIndex.NoneTooMany | internal/media/segindex.go:138-141 | if anything went, without one of those the limit would not be met |
| SegIndex.EvictionIsFair | internal/media/segindex.go:113-155 | afterwards the total is the sum, and within the limit unless all that is left is kept, in grace, locked or not removable; what went was none of these |
| SegIndex.OldestGoFirst | internal/media/segindex.go:113-155 | a segment that could have gone stays only if it was used no earlier than those that went |
| SegIndex.SegmentIndex.EvictSegments | internal/media/segindex.go:122-155 | in place: the state after the loop over the sorted candidates |

## Left out

- MemStorage.MemStorage.WriteTo: the writer takes every chunk and the store stands still during the call; what happens when the piece changes between chunks is `PieceOps.StreamsLatest`. Short writes and writer errors are not modelled.
- MemStorage.MemStorage.LockResident: runs its three critical sections in one go; their interleavings are the Reserve and Install steps of PieceOps.
- JanitorScan.QuietTicksNeedNoWalk: what evict does when the walk finds too much (which engines it purges) is not modelled; while cacheQuiet holds it never gets there.
- FtpLease.ReleasedExactlyOnce: SIZE answers, deadlines, the reading of the final reply and QUIT are reduced to the outcome the code branches on.
- ArchiveFlight.ReadsAreTrue: the archive decoder is taken to report the end of an entry only after yielding all of it, which is where its CRC and size checks sit; reading in place and its verification (internal/api/archive.go:1505-1760) are not modelled.
- FtpLease.StreamParksCleanSession: 530 or 532 as the last reply of a transfer ends it like any other reply, as in the code; only as the answer to RETR do they say that the login is gone.
- PieceHistory.RecencyIsOrderOfUse: takes stamp as one step, although it loads and stores separately.
- HlsTimeline.LengthsSumUp: durations are exact numbers; the divisions and subtractions concerned do not round in float64, and the largest duration is 2^20 seconds.
- HlsNames.ListedNamesRoundTrip: names are taken after filepath.Base, and the session directory as one that contains them.
- memPiece fields are kept as maps from pieces to values instead of one object per piece; archive, HLS and FTP sessions likewise are records in a sequence that the methods reassign.
- Locks, channels and goroutines: a critical section or atomic access is one step; a clock reading is a parameter. stamp is one step although it loads and stores separately.
- waitRefetch and the refetch hook: throttling of a retry loop in a foreign library, with no effect on the state.
- 64-bit overflow of byte counts and clocks: sizes and times are unbounded integers.
- File, network and process I/O, ffmpeg, the torrent client, HTTP handlers and settings: calls the modelled code makes appear as outcomes chosen by the environment.
- The NZB sessions of internal/api/nzb.go: they repeat the archive session protocol under one lock.
- The archive sweep of stale temp files, persisted HLS sessions, probe caches, the SIZE and preflight caches of the FTP code, and segmentCacheBytes: single-branch rules that would only add easy members.
