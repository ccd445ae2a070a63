# Verification of xv6 for RISC-V

A Dafny 4.11 model of the parts of xv6 whose correctness is not visible from one function: the
write-ahead log over the buffer cache, the inode layer, page tables and the page allocator,
scheduling and sleeping, pipes, the disk's virtqueue, and three user programs with real algorithms
(the K&R allocator, the shell parser and the matcher of `grep`).

Code that changes memory is a class, an array or a loop, proved against a specification; what the
specification promises is proved in lemmas beside it. Concurrency is a step relation at the
granularity of critical sections, and the theorems are about every run from the initial state.

## Components

- `Blocks.dfy`, `Log.dfy`: the log on disk and the code that drives it. A disk is a sequence of blocks and
  each block write is atomic; a commit or a recovery is the sequence of its writes, and a crash is a
  prefix. The main theorem is crash atomicity with any number of crashes during recovery.
- `BufferCache.dfy`: the LRU list of kernel/bio.c as arrays of links. Time stamps stand for the order of
  use, so that "least recently used" is a statement about the state and not about the list walk.
- `LogProtocol.dfy`: all processes, the cache and the commit together, interleaved. Every crash point of every
  run recovers to the last commit point, which lies between operations; what clients read and what survives
  are both stated against a replay of their own changes over the disk at boot.
- `Recovery.dfy`: recovery at boot through the cache, reference counts included, and what becomes of a process that
  uses a block which recovery installed.
- `LogAdmission.dfy`: the log space that `begin_op` reserves, and how far it protects from the panic of
  `log_write`.
- `Inodes.dfy`: bitmap, block map, truncation, reading and writing. Every block has at most one owner, so
  a file is a byte sequence that only writes to that file change. The blocks given to `log_write` are kept
  beside the state; they cover every change and are few enough for the log.
- `PageTable.dfy`: three-level trees and the free list. The use of every physical page is a function, so pages
  are conserved by construction, and a failed `fork` or `exec` is shown to restore that function exactly.
  User memory is a map from addresses to bytes for `copyin` and `copyout`.
- `UserAllocator.dfy`: the free list of user/umalloc.c over raw headers. Units are owned by blocks, which gives
  disjointness and conservation.
- `Scheduler.dfy`, `Wakeup.dfy`, `SleepLocks.dfy`, `WaitExit.dfy`: four views of kernel/proc.c. The first has CPUs and
  `swtch`; the others take the scheduler as given. `Wakeup` is the law of `sleep` and `wakeup` for any lock and any
  conditions; the log, pipes and sleep locks are shown to obey it.
- `Pipe.dfy`: the ring with 32-bit counters and its sleepers.
- `Virtqueue.dfy`: descriptors and rings, with a device that completes requests in any order.
- `Grep.dfy`: the matcher against the language of the pattern, and the line loop for every split of the input.
- `Shell.dfy`: the parsing functions on tokens, the character-level parser that follows them, and `nulterminate`.
- `ShellGrammar.dfy`: the grammar as a type of derivations, and that the parser accepts exactly these.
- `Options.dfy`, `Sets.dfy`: an option type, and the size of subsets.

## Where the obvious statement is false

- Recovery unpins buffers that nobody pinned. `Recovery.CountsAfterRecovery` says that the counts are balanced exactly
  if the log was empty, and `Recovery.BootAndLose` is the run in which a buffer in use is recycled otherwise. The runs of
  `LogProtocol` begin in exactly the other case (`Recovery.RunsBegin`).
- mkfs makes the log one block short. `LogAdmission.SmallOperationsFit` and `NineAppendsCanPanic` give the exact limit.
- `writei` returns n after a failed copy: `Inodes.ReportedIsWritten` says when that is the truth, and
  `FailedCopyIsReported` is a call after which it is not.
- Fresh buffers all carry device 0 and block 0, so cache uniqueness is for other devices.
- A killed writer can leave a reader asleep beside a full pipe: `Pipe.Pipe.Write` says exactly when, by the arguments
  and the state at the call, and `KilledWriterStrandsReader` is such a run.
- init may sleep in `wait` beside a zombie child: `WaitExit.InitMayMissChild`. No other process can, nor can init miss
  a child that was not given to it by `reparent`.
- `malloc` passes a 64-bit product to `sbrk(int)`: `UserAllocator.SbrkArgumentExact` gives the exact limit.
- `grep` prints the matching lines exactly if every line fits in its buffer (`Grep.PrintedExactly`); a line of 1023 bytes
  or more, not counting its newline, ends the output (`LongLineEndsOutput`), and so does a NUL (`Grep.Buffer.Run`).

## Model

| member | source | states |
|---|---|---|
| `Blocks.DecodeEncode` | kernel/log.c:84-113 | The header that `write_head` stores is the header that `read_head` loads, for every list of at most LOGSIZE blocks. |
| `Blocks.RecoveryCompletes` | kernel/log.c:67-82 | A whole recovery leaves an empty header, and every home block holds its slot if the header named it and its old contents otherwise. |
| `Blocks.RecoveryRestarts` | kernel/log.c:115-122 | Recovery cut after any number of its writes leaves a disk that still recovers to the same home blocks. |
| `Blocks.RecoveryIsRobust` | kernel/log.c:115-122 | Any number of recoveries that crash at arbitrary points, and then one that completes, give the same home blocks as one recovery. |
| `Blocks.CommitHome` | kernel/log.c:192-202 | After any prefix of the writes of a commit, a home block is new exactly if its own install write is in the prefix. |
| `Blocks.CommitHeader` | kernel/log.c:192-202 | After any prefix of the writes of a commit the header names the transaction exactly between the two header writes. |
| `Blocks.CommitIsAtomic` | kernel/log.c:177-202 | Crash atomicity: for every transaction, every cut of the commit and every series of crashed recoveries, the home blocks end all old or all new, and new exactly if the first header write reached the disk. |
| `Log.Log.LogWrite` | kernel/log.c:213-234 | Panics exactly in the two documented cases; otherwise the block is in the list once, old entries keep their places, and only listed blocks may differ from the disk. |
| `Log.Log.Update` | kernel/log.c:204-234 | The documented client pattern (read, change, log) makes `bread` deliver the new contents, with nothing written to disk. |
| `Log.Log.WriteLog` | kernel/log.c:176-190 | Writes to the slots, in order, what `bread` delivers for the listed blocks, and nothing else. |
| `Log.Log.InstallTrans` | kernel/log.c:67-82 | Writes to the home blocks, in order, what the slots hold, and nothing else. |
| `Log.Log.HeadBlock` | kernel/log.c:101-113 | The loop that fills the header produces the encoded list. |
| `Log.Log.WriteHead` | kernel/log.c:98-113 | One write: the encoded list into the header block. |
| `Log.Log.ReadHead` | kernel/log.c:84-96 | Loads the list that the header block encodes. |
| `Log.Log.Commit` | kernel/log.c:192-202 | The sequence of disk writes is the sequence that `Blocks.CommitIsAtomic` is about; afterwards disk and cache agree and no home block has changed its visible contents. |
| `Log.Log.RecoverFromLog` | kernel/log.c:115-122 | Performs the recovery that `Blocks.RecoveryIsRobust` is about and leaves an empty log. |
| `Log.Log.EndOp` | kernel/log.c:143-174 | Commits exactly when the last operation ends; otherwise the disk is untouched; panics exactly if a commit runs. |
| `Log.CommitSyncs` | kernel/log.c:192-202 | If only listed blocks differ from the disk, a commit makes the disk equal to what the cache shows. |
| `LogAdmission.NextKeeps` | kernel/log.c:125-174 | Every step keeps the reservation invariant. |
| `LogAdmission.StepsObeyRule` | kernel/log.c:125-174 | Whenever a step of `begin_op`, `log_write` or `end_op` ends the condition that `begin_op` sleeps on, it calls `wakeup`, as the law of `Wakeup` demands, and a process sleeps only while the condition holds. |
| `LogAdmission.AdmissionIsSafe` | kernel/log.c:124-202 | In every run: logged plus reserved blocks fit the log, no commit runs beside an operation, a sleeper would not be admitted, and an idle log is empty and has no sleepers. |
| `LogAdmission.SmallOperationsFit` | kernel/log.c:213-221 | An operation that has appended at most MAXOPBLOCKS - 2 blocks never meets the "too big a transaction" panic, even with the log size of mkfs. |
| `LogAdmission.NineAppendsCanPanic` | mkfs/mkfs.c:23-25 | The bound is sharp: a complete run in which an operation with nine appends meets the panic, since mkfs makes the log one block short. |
| `BufferCache.Bcache.constructor` | kernel/bio.c:36-53 | The list holds all buffers, linked both ways in order of use, each with device 0 and block 0. |
| `BufferCache.Bcache.Lookup` | kernel/bio.c:65-73 | The forward scan finds a buffer of the block if there is one, and only then. |
| `BufferCache.Bcache.FindVictim` | kernel/bio.c:75-88 | The backward scan finds the least recently used buffer with reference count 0, if there is one. |
| `BufferCache.Bcache.Bget` | kernel/bio.c:58-89 | A hit counts one reference more and changes nothing else; a miss recycles the least recently used unreferenced buffer; no such buffer means the panic. |
| `BufferCache.Bcache.Brelse` | kernel/bio.c:114-137 | Panics exactly without the lock; otherwise drops a reference and, at 0, makes the buffer the most recently used; the list stays well formed. |
| `BufferCache.Bcache.MoveToFront` | kernel/bio.c:128-133 | Unlinking and relinking at the head keeps a well-formed circular list of all buffers and makes this one the most recently used. |
| `BufferCache.UnlinkOk` | kernel/bio.c:128-129 | Taking a buffer out of the list keeps the other buffers linked both ways and in order of use. |
| `BufferCache.PushOk` | kernel/bio.c:130-133 | Putting a buffer behind the head keeps the list linked both ways and in order of use. |
| `BufferCache.GotUnique` | kernel/bio.c:58-89 | At most one buffer holds each block of a device other than 0: `bget` keeps this, and it is part of what every call on the cache keeps. |
| `Recovery.Bread` | kernel/bio.c:91-103 | For one process: the buffer obtained is locked, valid and shows the disk, its count goes up by one modulo 2^32, all others stay; `bget` panics exactly if the block has no reference and all buffers have one. |
| `Recovery.BusyCount` | kernel/bio.c:75-88 | Every buffer is referenced exactly if as many blocks are referenced as there are buffers. |
| `Recovery.InstallBlock` | kernel/log.c:73-81 | A turn of `install_trans` at boot copies one slot home and leaves the count of the home block one below zero; it panics exactly in turn NBUF - 1. |
| `Recovery.RecoverFromLog` | kernel/log.c:115-122 | Through the cache: panics exactly if the header lists NBUF blocks, which the log of mkfs has no room for; otherwise the disk is the recovered disk of `Blocks` and every buffer shows it. |
| `Recovery.CountsAfterRecovery` | kernel/log.c:68-82 | After recovery the counts of the listed blocks are 2^32 - 1 and all others 0: they are balanced exactly if the log was empty. |
| `Recovery.Boot` | kernel/fs.c:39-47 | The same from `binit` and `fsinit` on, for every disk with a well-formed log. |
| `Recovery.RunsBegin` | kernel/log.c:53-65 | What recovery leaves is a state in which the runs of `LogProtocol` may begin exactly if the log was empty. |
| `Recovery.RecycleInUse` | kernel/bio.c:75-88 | While a process holds a buffer with count 0, another that reads NBUF uncached blocks one after the other is handed that buffer. |
| `Recovery.LoseBuffer` | kernel/log.c:68-82 | In every state that recovery leaves, for every block it installed: the next process to read and hold that block can lose its buffer to another. |
| `Recovery.BootAndLose` | kernel/log.c:53-82 | The complete run, for every disk with a transaction to recover. |
| `LogProtocol.NextKeeps` | kernel/log.c:125-234 | Every step of any interleaving of operations, cache traffic and commit keeps the invariant of cache, log and disk. |
| `LogProtocol.GetKeeps` | kernel/bio.c:58-103 | `bget` never recycles a pinned or used buffer, so no logged contents are lost. |
| `LogProtocol.LogWriteKeeps` | kernel/log.c:213-234 | Logging a changed block, with or without absorption, keeps reference counts equal to users plus pins. |
| `LogProtocol.WriteHeadKeeps` | kernel/log.c:192-197 | The first header write moves the commit point from the old contents to the new. |
| `LogProtocol.CopyHomeKeeps` | kernel/log.c:67-82 | Installing a block keeps the disk recoverable to the commit point. |
| `LogProtocol.UnpinKeeps` | kernel/log.c:73-81 | Dropping the pin of an installed block keeps reference counts and disk in order. |
| `LogProtocol.EveryCrashRecovers` | kernel/log.c:115-202 | Wherever a run stops and however often recovery crashes, the recovered home blocks are those of the last commit point. |
| `LogProtocol.CommittedAtBoundary` | kernel/log.c:143-174 | In every run the commit point is the replay of the changes that clients had made at a moment with no operation running. |
| `LogProtocol.CrashShowsBoundary` | kernel/log.c:115-202 | Both together: after any crash and any crashed recoveries the home blocks are the replay of the client changes up to a moment with no operation running. |
| `LogProtocol.LogicalIsReplay` | kernel/log.c:204-234 | The history kept in the state is, on home blocks, the replay of the run over the disk at boot. |
| `LogProtocol.CommitMakesDurable` | kernel/log.c:192-202 | In every run, when a commit is over, the home blocks on disk and the commit point are the replay of all client changes so far. |
| `LogProtocol.WriteAhead` | kernel/log.c:177-202 | In every run, whenever a home block on disk changes, the header on disk already names it and its slot on disk already holds the new contents. |
| `LogProtocol.BreadDelivers` | kernel/bio.c:91-103 | In every run a client that holds a valid buffer sees the replay of the client changes over the disk at boot, wherever the current contents are. |
| `LogProtocol.OnlyInstallWritesHome` | kernel/log.c:67-82 | No step but the install loop writes a home block. |
| `Inodes.WordSetWord` | kernel/fs.c:394-399 | Storing a block number in an indirect block is read back, and the other entries stay. |
| `Inodes.FileSystem.constructor` | mkfs/mkfs.c:108-111 | An empty disk satisfies the invariant of the inode layer, and all its files are empty. |
| `Inodes.FileSystem.Balloc` | kernel/fs.c:64-86 | Marks and zeroes the first free block and logs its bitmap block and itself; gives up exactly if all are in use. |
| `Inodes.BindsOwned` | kernel/fs.c:383-401 | Entering a fresh block in a free slot keeps every block owned by at most one slot of one inode. |
| `Inodes.FreeSlot` | kernel/fs.c:415-433 | A slot not freed yet holds nothing or a block that is still marked: freeing the slots of an inode in any order never meets a free block. |
| `Inodes.StoredOwned` | kernel/fs.c:493-502 | Writing file data cannot touch an indirect block or a block of another file. |
| `Inodes.FileSystem.Bmap` | kernel/fs.c:377-405 | Returns the block of the slot, allocating at most data and indirect block; existing slots and all file bytes stay; every changed block is logged, and only these and bitmap blocks are; it panics only out of range or with a full disk. |
| `Inodes.FileSystem.BmapIndirect` | kernel/fs.c:390-401 | The indirect half of the same. |
| `Inodes.FileSystem.Itrunc` | kernel/fs.c:407-437 | Frees exactly the blocks of this inode, never hits "freeing free block", and leaves an empty inode. |
| `Inodes.TruncatesOwned` | kernel/fs.c:409-437 | After truncation every block is still owned at most once and owned blocks are marked. |
| `Inodes.TruncatesFiles` | kernel/fs.c:409-437 | Truncation empties this file and leaves every other file as it was. |
| `Inodes.FileSystem.Readi` | kernel/fs.c:451-476 | For memory that takes `limit` bytes: delivers exactly the first `limit` bytes of the slice clamped to the size, and returns the part of them in blocks copied whole; never allocates and never panics. |
| `Inodes.FileSystem.Writei` | kernel/fs.c:478-514 | Fails exactly for an offset beyond the size or an end beyond MAXFILE; otherwise returns n, the file holds every readable byte, the size grows over the blocks copied whole, all other files stay; all changes are logged but those in the one block where the copy failed; overwriting never runs out of blocks. |
| `Inodes.ReportedIsWritten` | kernel/fs.c:493-514 | `writei` has written what it reports, for every content, exactly if all n bytes can be read. |
| `Inodes.FailedCopyIsReported` | kernel/fs.c:495-514 | A file system on which `writei` of 7, 8 with one readable byte returns 2 and the file then reads 7, 0. |
| `Inodes.WroteFiles` | kernel/fs.c:482-514 | What the loop of `writei` stored, together with the new size, is the splice of the file, cut at that size. |
| `Inodes.WrittenTwice` | kernel/file.c:157-174 | Splicing in two adjacent chunks is splicing in their concatenation. |
| `Inodes.FileSystem.FileWrite` | kernel/file.c:148-175 | With any number of readable bytes: the chunks together write what one splice would, cut where the copy fails; the loop stops exactly where `writei` refuses; the result is n exactly if it never does; every transaction logs at most 6 blocks and the bitmap blocks of the disk. |
| `Inodes.ArrivedNext` | kernel/file.c:157-174 | Writing in chunks gives the same file as writing at once, also when a later copy fails. |
| `Inodes.ChunkLogsFewBlocks` | kernel/file.c:149-155 | The blocks that `writei` gives to `log_write` for one chunk are at most four data blocks, the indirect block, the inode block and the bitmap blocks of the disk. |
| `Inodes.ChunkFitsLog` | kernel/file.c:149-155 | So on a disk of at most two bitmap blocks no `log_write` of a chunk meets the "too big a transaction" panic, in any run of the log of mkfs and whatever other operations do. |
| `PageTable.PteRoundTrip` | kernel/riscv.h:335-340 | Page-aligned addresses and ten flag bits survive the packing into an entry. |
| `PageTable.SetLeafPte` | kernel/vm.c:71-89 | Different page numbers below MAXVA have different entries: storing one changes that one only, in every tree. |
| `PageTable.LinkOk` | kernel/vm.c:79-85 | A new table keeps the tree shape and every mapping. |
| `PageTable.MapUserOk` | kernel/vm.c:148-168 | Mapping a page makes it user memory of that one address and keeps all pages accounted for. |
| `PageTable.UnmapUserOk` | kernel/vm.c:173-195 | Unmapping a page takes exactly that page out of use. |
| `PageTable.Vm.constructor` | kernel/kalloc.c:26-41 | `kinit` puts every page of the range on the free list, once. |
| `PageTable.Vm.Kalloc` | kernel/kalloc.c:65-82 | Takes the first page of the free list, or finds it empty. |
| `PageTable.Vm.Kfree` | kernel/kalloc.c:43-62 | Puts a page that the kernel holds at the front of the free list. |
| `PageTable.Vm.Walk` | kernel/vm.c:71-89 | Finds the entry of the address; without allocation changes nothing; with it, adds missing tables and changes no mapping. |
| `PageTable.Vm.Walkaddr` | kernel/vm.c:91-112 | The page of a valid user mapping below MAXVA, and 0 in all other cases. |
| `PageTable.Vm.Mappages` | kernel/vm.c:144-168 | Maps the range page by page; stops only out of memory or at a page already mapped; other mappings of every tree stay. |
| `PageTable.Vm.Uvmunmap` | kernel/vm.c:170-195 | Removes the mappings of the range and frees their pages up to the first page that is not mapped as a leaf, and panics exactly if there is one; other mappings stay. |
| `PageTable.Vm.Uvmcreate` | kernel/vm.c:197-208 | A new empty tree, or no change. |
| `PageTable.Vm.Uvmalloc` | kernel/vm.c:226-252 | User memory grows by zeroed pages from the free list; or 0 is returned, every mapping is as before and every page taken for it is free again but for table pages; for an image larger than memory it returns 0 before it reaches the trap frame. |
| `PageTable.MappedFitsMemory` | kernel/vm.c:226-252 | A tree that is mapped from page 0 up to n takes more than n pages of memory, so an image cannot reach the trap frame of a machine with fewer pages. |
| `PageTable.Vm.Uvmdealloc` | kernel/vm.c:254-270 | User memory shrinks to the new size, its pages become free, and nothing else moves; panics exactly if a page of the range is not mapped. |
| `PageTable.Vm.Freewalk` | kernel/vm.c:272-290 | Frees every table below and the table itself, each exactly once; with all leaves removed it never panics. |
| `PageTable.Vm.Uvmfree` | kernel/vm.c:292-300 | All pages and tables of the tree become free and nothing else moves. |
| `PageTable.Vm.Uvmcopy` | kernel/vm.c:302-336 | The new tree gets pages of its own with the same contents and permissions; or every mapping is as before. |
| `PageTable.GrewUndone` | kernel/vm.c:241-247 | Unmapping the pages just added restores every mapping and every use of a page. |
| `PageTable.Vm.Uvmclear` | kernel/vm.c:338-349 | Clears the user bit of one mapping and changes no page and no other mapping. |
| `PageTable.Vm.Copyout` | kernel/vm.c:351-374 | Stores the bytes up to the first page the user cannot reach; no other byte of any process changes; succeeds exactly if all are stored. |
| `PageTable.Vm.Copyin` | kernel/vm.c:376-399 | Reads the bytes up to the first page the user cannot reach; succeeds exactly if all are read. |
| `PageTable.Vm.Copyinstr` | kernel/vm.c:401-442 | On success user memory holds the result followed by a NUL within the limit; failure means the limit or a page the user cannot reach. |
| `PageTable.CopyRoundTrip` | kernel/vm.c:351-399 | What `copyout` stored, `copyin` reads back. |
| `PageTable.LocalGone` | kernel/vm.c:197-300 | A tree that was built and is gone again leaves every page with its old use and every mapping as it was. |
| `PageTable.Vm.ProcPagetable` | kernel/proc.c:155-186 | A tree with exactly trampoline and trap frame mapped, or every page is back in its old use. |
| `PageTable.Vm.ProcFreepagetable` | kernel/proc.c:188-196 | Every page of the process image and every table becomes free and nothing else moves. |
| `PageTable.Vm.Allocproc` | kernel/proc.c:88-131 | A trap frame and a tree, or every page is back in its old use. |
| `PageTable.Vm.Freeproc` | kernel/proc.c:133-153 | The trap frame, the image and the tables become free and nothing else moves. |
| `PageTable.Vm.Fork` | kernel/proc.c:256-275 | The child has the pages of the parent with equal contents and permissions in frames of its own; a failed fork returns every page it took. |
| `PageTable.ForkUndone` | kernel/proc.c:88-153 | Creating a process and freeing it restores the use of every page and every mapping. |
| `PageTable.Vm.Exec` | kernel/exec.c:38-128 | For every list of segments, on a machine with fewer pages than user addresses: a failed exec returns every page it took and keeps the old image; a successful one releases exactly the pages of the old image; it never panics. |
| `PageTable.Vm.GrowImage` | kernel/exec.c:49-53 | However large a segment is, the image grows to its end or every page taken for it is free again. |
| `PageTable.Vm.LoadSeg` | kernel/exec.c:131-157 | Succeeds exactly if the file holds all bytes of the segment; "address should exist" is out of reach once the image has grown. |
| `PageTable.Vm.LoadSegments` | kernel/exec.c:40-60 | No list of segments makes `loadseg` panic. |
| `PageTable.Vm.AddStack` | kernel/exec.c:67-76 | The page below the stack is not reachable for the user and the stack page is. |
| `UserAllocator.Units` | user/umalloc.c:69 | Enough whole headers for the request and its header, and not one more. |
| `UserAllocator.SbrkArgumentExact` | user/umalloc.c:46-57 | The product passed to `sbrk(int)` is what was meant exactly if the request is at most 2^31 - 32 bytes. |
| `UserAllocator.Heap.FindBefore` | user/umalloc.c:30-32 | The search of `free` ends at the free block after which the address belongs. |
| `UserAllocator.Heap.Relink` | user/umalloc.c:33-42 | The header updates are insertion followed by merging on both sides. |
| `UserAllocator.Heap.Free` | user/umalloc.c:24-44 | The block is no longer live, its units are in free blocks, no other live block and no total changes, and the list stays circular, ordered and coalesced. |
| `UserAllocator.Heap.Morecore` | user/umalloc.c:46-61 | On success the chunk from `sbrk` is added to the units and some free block is large enough; on failure nothing changes. |
| `UserAllocator.Heap.Initialise` | user/umalloc.c:70-73 | An empty circular list. |
| `UserAllocator.Heap.Take` | user/umalloc.c:75-84 | A whole block, or the tail of one, becomes a live block that was not live before. |
| `UserAllocator.Heap.Malloc` | user/umalloc.c:63-90 | A new live block of the units asked for, others untouched; a null result means that no free block is large enough and `sbrk` failed; the search ends. |
| `UserAllocator.BlocksDisjoint` | user/umalloc.c:24-90 | No unit lies in two blocks, live or free. |
| `UserAllocator.RingReachesAll` | user/umalloc.c:30-42 | Following the links from the base reaches every free block. |
| `UserAllocator.RightPhase` | user/umalloc.c:33-37 | After insertion and the merge to the right only the left neighbour can still touch the freed block. |
| `UserAllocator.LeftPhase` | user/umalloc.c:38-42 | The merge to the left leaves no two free blocks touching. |
| `UserAllocator.FreedOk` | user/umalloc.c:24-44 | Freeing a live block keeps the whole heap invariant. |
| `UserAllocator.TakenOk` | user/umalloc.c:74-84 | Taking a block keeps the whole heap invariant. |
| `UserAllocator.GrownOk` | user/umalloc.c:54-59 | A chunk from `sbrk` above the old break keeps the whole heap invariant. |
| `UserAllocator.ScanAdvances` | user/umalloc.c:74-89 | The search of `malloc` passes every free block before it comes back, which bounds it. |
| `Scheduler.SchedulerKeeps` | kernel/proc.c:456-491 | The steps of `scheduler` keep the invariant of CPUs, processes and process locks. |
| `Scheduler.ThreadKeeps` | kernel/proc.c:500-584 | So do the steps of `sched`, `yield`, `sleep`, `exit` and `forkret` around `swtch`. |
| `Scheduler.OtherKeeps` | kernel/proc.c:588-636 | So do acquires, releases and state changes on the locks of other processes. |
| `Scheduler.OneCpu` | kernel/proc.c:456-550 | In every run a process is `c->proc` of at most one CPU, RUNNING exactly if one CPU is in its thread, and no two CPUs share a kernel stack. |
| `Scheduler.NoLockPanic` | kernel/proc.c:470-518 | In every run each release around `swtch` is by the holder, `sched` finds its lock held and its state changed, and no zombie is resumed. |
| `Scheduler.OthersAreOffCpu` | kernel/proc.c:588-612 | Whoever wakes, creates or frees a process finds it off every CPU. |
| `Scheduler.EachAcquireReleasedOnce` | kernel/proc.c:466-529 | Over every run the acquires of a process lock less its releases are 1 while it is held and 0 otherwise, on whichever side of `swtch` they happen. |
| `Scheduler.ThreadReleases` | kernel/proc.c:466-529 | In every run, after the scheduler of a CPU switches to a process, the next release of the process lock is by its thread on that CPU, with no acquire of it in between; only a thread resumed in `wait` may switch away again with it. |
| `Scheduler.SchedulerReleases` | kernel/proc.c:481-518 | In every run, after a thread switches away, the next release of its lock is by the scheduler of that CPU, with no acquire of it in between. |
| `Wakeup.SleepKeeps` | kernel/proc.c:552-584 | For any lock, channels and conditions: the steps of `sleep` keep the invariant that a process committed to sleep has its condition or a wakeup on its way. |
| `Wakeup.ScanKeeps` | kernel/proc.c:586-600 | So does each step of the non-atomic scan of `wakeup`. |
| `Wakeup.ChangeKeeps` | kernel/proc.c:552-600 | So does any change of the data under the lock, which then owes a wakeup to every channel whose condition it ended. |
| `Wakeup.SleeperImpliesBlocked` | kernel/proc.c:552-600 | In every reachable state with the lock free, whoever sleeps on a channel has its condition. |
| `Wakeup.ScanReachesAll` | kernel/proc.c:586-600 | When the scan of any wakeup begun under the lock ends, nobody is asleep on its channel or on the way to sleep, whether or not the condition has ended. |
| `Wakeup.ObeyingOwesNothing` | kernel/proc.c:552-600 | A critical section that wakes every channel whose condition it ends, as those of the log and of pipes do, owes no other wakeup when it leaves the lock. |
| `SleepLocks.StepsAreAllowed` | kernel/sleeplock.c:21-41 | The steps of `acquiresleep` and `releasesleep` are steps that the law of `Wakeup` allows. |
| `SleepLocks.NextKeeps` | kernel/sleeplock.c:21-41 | Every such step keeps who holds the lock and what each process is about to do. |
| `SleepLocks.SleeperImpliesLocked` | kernel/sleeplock.c:21-41 | No lost wakeup: in every reachable state with the spin lock free, a sleep lock that somebody sleeps on is held. |
| `SleepLocks.NeverStopped` | kernel/sleeplock.c:21-41 | In every reachable state no guard of that law ever holds up a process inside `acquiresleep` or `releasesleep`. |
| `SleepLocks.OnlyHolderReleases` | kernel/sleeplock.c:33-41 | No step of another process takes a sleep lock from its holder. |
| `WaitExit.DieKeeps` | kernel/proc.c:376-393 | Becoming a zombie under both locks, after waking the noted parent, keeps the invariant of `wait`. |
| `WaitExit.AdoptKeeps` | kernel/proc.c:303-327 | Giving a child to init keeps the invariant. |
| `WaitExit.ScanKeeps` | kernel/proc.c:403-437 | A step of the scan of `wait`, which reads `parent` without a lock, keeps the invariant. |
| `WaitExit.ReapKeeps` | kernel/proc.c:420-432 | Freeing a zombie child keeps the invariant. |
| `WaitExit.WaitMissesNoChild` | kernel/proc.c:332-447 | In every reachable state a process that sleeps in `wait` beside a zombie child is init, and the child was given to it by `reparent`. |
| `WaitExit.InitMayMissChild` | kernel/proc.c:354-371 | For init this is false: a run from the start in which init sleeps in `wait` beside a zombie child. |
| `WaitExit.ParentsAreLive` | kernel/proc.c:303-327 | The parent of a process is never an unused slot or a zombie. |
| `Pipe.FullTest` | kernel/pipe.c:85 | The test for a full pipe is exact although both counters wrap around at 2^32. |
| `Pipe.EmptyTest` | kernel/pipe.c:110 | So is the test for an empty pipe. |
| `Pipe.Slot` | kernel/pipe.c:95 | The place of a byte in the ring depends on its number only, since 512 divides 2^32. |
| `Pipe.RingPut` | kernel/pipe.c:95 | A byte put into a ring that is not full overwrites nothing that is still to be read. |
| `Pipe.Pipe.Write` | kernel/pipe.c:76-100 | The bytes are appended in order up to a full pipe or a failed copy; it sleeps or fails exactly if it meets a full pipe; whether a reader is left asleep beside data is decided by what the caller can see before the call; otherwise it obeys the law of `Wakeup`. |
| `Pipe.Pipe.Read` | kernel/pipe.c:102-127 | The bytes returned are the next ones written; it sleeps exactly on an empty pipe that is still open; writers are woken as the law of `Wakeup` demands. |
| `Pipe.Pipe.Close` | kernel/pipe.c:58-74 | Closing an end wakes the sleepers of the other end, so nobody sleeps for what cannot come. |
| `Pipe.Pipe.constructor` | kernel/pipe.c:22-38 | A new pipe is empty, open at both ends and has no sleepers. |
| `Pipe.KilledWriterStrandsReader` | kernel/pipe.c:85-92 | The exception: a killed writer leaves a reader asleep beside a full pipe. |
| `Virtqueue.Disk.constructor` | kernel/virtio_disk.c:109-110 | All descriptors free, no request in flight. |
| `Virtqueue.Disk.AllocDesc` | kernel/virtio_disk.c:115-126 | Takes a free descriptor, or there is none. |
| `Virtqueue.Disk.Alloc3Desc` | kernel/virtio_disk.c:154-166 | Three different free descriptors, or the free ones are as before and fewer than three; never panics. |
| `Virtqueue.Disk.FreeChain` | kernel/virtio_disk.c:141-152 | Frees exactly the three descriptors of the chain and never panics. |
| `Virtqueue.Disk.Submit` | kernel/virtio_disk.c:168-238 | A new request on descriptors of its own; without three free ones two requests are in flight. |
| `Virtqueue.Disk.Intr` | kernel/virtio_disk.c:251-270 | Exactly the requests that the device completed release their buffers. |
| `Virtqueue.Disk.Finish` | kernel/virtio_disk.c:240-249 | Frees the chain of the request without a panic. |
| `Virtqueue.Disk.DeviceTakes` | kernel/virtio_disk.c:230-236 | The device reads the heads from the avail ring in the order in which they were announced. |
| `Virtqueue.AtMostTwo` | kernel/virtio_disk.c:154-182 | Free descriptors and chains of three add up to 8, so at most two requests are in flight, and two exactly if fewer than three descriptors are free. |
| `Virtqueue.UsedTestExact` | kernel/virtio_disk.c:256 | The test for new used entries, made modulo 8, is exact. |
| `Virtqueue.SubmittedOk` | kernel/virtio_disk.c:178-236 | A new request keeps chains disjoint and both rings in order. |
| `Virtqueue.HandledOk` | kernel/virtio_disk.c:256-266 | The entry that the handler reads is the head of a completed request. |
| `Virtqueue.FreedOk` | kernel/virtio_disk.c:245-246 | Freeing a chain keeps the others disjoint and both rings in order. |
| `Grep.MatchHere` | user/grep.c:82-94 | True exactly if a prefix of the text, all of it for a final `$`, can be cut into one piece per item of the pattern. |
| `Grep.MatchStar` | user/grep.c:96-104 | True exactly if some run of matching characters is followed by a match of the rest. |
| `Grep.Match` | user/grep.c:70-80 | True exactly if some substring is in the language of the pattern, at the start for `^` and up to the end for `$`. |
| `Grep.ItemHere` | user/grep.c:82-94 | Matching a pattern is matching its first item on a prefix and the rest behind it. |
| `Grep.Buffer.Run` | user/grep.c:10-34 | The output is a function of the input up to its first NUL, whatever sizes `read` returns. |
| `Grep.Buffer.ScanLines` | user/grep.c:21-28 | The inner loop prints the matching lines that end in the buffer, and before a NUL, and leaves the unfinished one. |
| `Grep.Buffer.Strchr` | user/grep.c:21 | The first newline before the first NUL, if there is one. |
| `Grep.PrintedExactly` | user/grep.c:10-34 | For every pattern the output is the matching terminated lines in order, exactly if every terminated line with its newline fits in 1023 bytes. |
| `Grep.LongLineEndsOutput` | user/grep.c:17-33 | A line that does not fit ends the output, whatever follows it. |
| `Grep.LinesInverse` | user/grep.c:21-28 | Lines are cut at newlines only: joined again, with the unterminated end, they are the input. |
| `Shell.Parser.GetToken` | user/sh.c:265-308 | Returns the next token of the text with its place and moves behind it. |
| `Shell.Parser.Peek` | user/sh.c:310-320 | True exactly if the next token starts with one of the characters; the tokens left stay the same. |
| `Shell.Parser.Parseredirs` | user/sh.c:374-397 | Finds the redirections that the grammar finds, or fails where it fails. |
| `Shell.Parser.Parseargs` | user/sh.c:427-445 | The argument loop follows the grammar, with the limit of MAXARGS. |
| `Shell.Parser.Parseexec` | user/sh.c:415-446 | Follows the grammar. |
| `Shell.Parser.Parseblock` | user/sh.c:399-413 | Follows the grammar. |
| `Shell.Parser.Parsepipe` | user/sh.c:361-372 | Follows the grammar. |
| `Shell.Parser.Parseline` | user/sh.c:344-359 | Follows the grammar. |
| `Shell.Parser.Parsecmd` | user/sh.c:327-340 | Accepts what the grammar accepts of the tokens of the text, with the same tree, and refuses leftovers. |
| `Shell.Nulterminate` | user/sh.c:448-493 | Puts a NUL at the end of every word of the tree and changes nothing else. |
| `Shell.ParseInPlace` | user/sh.c:327-342 | For every line: if it is accepted, each argument and file name, read as a C string afterwards, is exactly its token. |
| `Shell.EachWordReadsItsToken` | user/sh.c:448-493 | No terminating byte falls inside another word of the tree. |
| `Shell.PrintParses` | user/sh.c:344-446 | The grammar inverts the fully parenthesised printing of every tree with at most 9 arguments per command. |
| `Shell.LexRender` | user/sh.c:265-308 | Tokens written out with spaces are lexed back. |
| `Shell.ParseInvertsPrint` | user/sh.c:327-446 | The fully parenthesised text of every tree with legal words and at most 9 arguments per command parses to that tree. |
| `Shell.ParseKeepsWords` | user/sh.c:344-446 | Every word of an accepted line is in its tree, exactly as often. |
| `ShellGrammar.ParsesExactly` | user/sh.c:327-446 | Against a grammar without a parser: a token list is accepted with a tree exactly if it has a derivation with that tree and at most 9 arguments per command. |
| `ShellGrammar.LineComplete` | user/sh.c:344-359 | Every derivation of a line, followed by the end or a closing parenthesis, is parsed to its own tree, which makes the grammar unambiguous. |
| `ShellGrammar.LineSound` | user/sh.c:344-359 | Every line that is parsed has a derivation with these tokens and this tree. |
| `Shell.LineMaps` | user/sh.c:344-446 | The tree depends on words only through their places: parsing commutes with every renaming of words. |

## Left out

- Directories and path names (`dirlookup`, `dirlink`, `skipelem`, `namex`), the inode cache, inode allocation and link counts.
- Device registers, boot, traps, assembly and the kernel page table of vm.c.
- Memory ordering in spinlock.c: locks are atomic and memory is sequentially consistent.
- System-call plumbing, console, printf and string helpers; memmove, memset and strchr are taken by what they do.
- Small user programs, and mkfs beyond its layout constants.
- Fairness and liveness beyond the stated wakeup properties.
- Reading of ELF headers and pushing of arguments in `exec`: their outcomes are parameters of `PageTable.Vm.Exec`.
- Files, working directory, registers and process identifiers in `fork` and `exit`.
- Inodes.FileSystem.Balloc: the bitmap is a sequence of flags; packing eight of them into a byte is not modelled.
- PageTable.Vm.Uvmalloc: sizes beyond the trap frame are for images mapped from page 0 up, which is how `growproc` and `exec` call it.
- PageTable.Vm.Exec: on a machine with at most as many pages as user addresses below the trap frame; program headers of other types than loadable segments are skipped by the code and not listed.
- PageTable.Vm.LoadSeg: the bytes read into the pages are not modelled.
- PageTable.Vm.Uvmdealloc: the old size reaches at most to the trap frame.
- PageTable.Vm.Kfree: a page is a number of the allocator's range, so the panic for other addresses cannot arise; the junk fill is not modelled.
- UserAllocator.Heap.Malloc: requests up to the limit of `SbrkArgumentExact`; beyond it `sbrk` is asked for something else.
- PageTable.Vm.Copyout: addresses do not wrap around at 2^64.
- Log.Log.Commit: the methods of this class are those of one process; interleavings are the subject of `LogProtocol`.
- Virtqueue.Disk.Intr: the device always reports success, so the panic on a status byte is not modelled.
- Virtqueue.Disk.Submit: the request header and the lengths and directions of descriptors are not modelled.
- Grep.Buffer.Run: failing reads are not modelled.
- Shell.Parser.Parseexec: the code wraps redirections at once and fills in arguments through a pointer; the model collects both and builds the same tree at the end.
- Pipe.Pipe.Write: a `wakeup` is one step here, and in `LogAdmission`; that its scan loses nobody is `Wakeup.ScanReachesAll`.
- LogProtocol.EveryCrashRecovers: runs begin with an empty log; after a recovery that installed something the counts are wrong (`Recovery.RunsBegin`).
- PageTable.Vm.Uvmunmap: whether pages are freed follows from their address, since every caller frees below the trap frame and not above.
- PageTable.Vm.Mappages: works on page numbers; the rounding of addresses to pages is not modelled.
- Scheduler.OneCpu: that a thread holds only its own lock when it calls `sched` is a rule for callers, part of the step and not proved of each caller.
- SleepLocks.SleeperImpliesLocked: a caller of `releasesleep` holds the lock, as all callers make sure.
