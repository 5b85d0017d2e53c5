# Verified model of four xv6 components

The repository holds several variants of the xv6 teaching kernel. This project models, in Dafny, the four parts of it
whose correctness is least visible from reading one function at a time, and proves what each is for.

* **The journaled file system of project3** (`log.c`, `bio.c`, `fs.c`, `file.c`). The group-commit redo log is a state
  machine (`Journal`) in which every disk write of commit and recovery is one step, concurrent operations interleave, and
  a crash may fall between any two writes; `LogManager.Log` is the same code in place, proved to perform those steps.
  `BufferCache.Cache` is the LRU buffer list with its links and flags. `FileSystem.FileSys` is the bitmap allocator, the
  direct/single/double/triple-indirect block map, truncation, `readi` and `writei` over the blocks that `bread` shows;
  `FileIO` splits long writes into transactions. `JournalRuns` tells what a disk recovers to by the history of the whole
  run; `LogCapacity`, `FirstFit` and `TransactionSize` say how much of the log operations can use and do use, and `BufferRoom`
  what that leaves of the cache. `FileCommit` puts log and file system together: what file operations did reaches the disk
  group by group, whole or not at all, and never overflows the log. `FileCrash` follows a long write through a crash and
  recovery to the file system that boots. `DiskFormat` tells the disk in bytes, apart from the functions the code is modelled
  with: where each area is, and what the header, the bitmap, the inode records and the index blocks say.
* **The combined MLFQ and stride scheduler of Reference_code** (`proc.c`, `trap.c`). `Sched` is the state machine for one
  CPU; `SchedEffects` and `SchedLaws` say in relations between the states before and after, with the kernel's own numbers,
  what each routine does, and that this is exactly the state machine's step. `SchedSafety` has the queue, ticket and
  accounting invariants over all runs, `SchedShare` the bound on how far any two clients' service can drift apart,
  `SchedOverflow` tells a panic of `enqueue` before the call, and `SchedKernel.Kernel` is the routines in place, with the
  circular queues as arrays.
* **The K&R heap of Reference_code** (`umalloc.c`): `Heap.Allocator`, with the header fields as memory and the circular
  address-ordered list as what they encode.
* **User address spaces of Reference_code** (`vm.c`, `kalloc.c`): `PageTables` says what a two-level page table maps and
  which frames it owns, `Translation` what the processor makes of both levels together: address, write and user access at
  every virtual address; `AddressSpaces.Machine` is the page allocator and the building, growing, copying and tearing down
  of address spaces, with every out-of-memory path.

Where a panic of the source can be reached, the method reports it in a result (`ok`, `panic`) and the contract says
when.

## What the proofs found

* `log_write` accepts `log.size - 1 = 119` blocks, one fewer than the `LOGSIZE = 120` that `begin_op` reserves. If all
  blocks of an operation count alike, a budget of 39 is safe in every run and the documented 40 is not
  (`LogReservation.SafeBudget`).
* `filewrite` sizes its chunks to stay within MAXOPBLOCKS, with one bitmap block for each data block but only one index
  block. A chunk can exceed it. How many blocks one logs is known before the call, exactly, from the file's size, the offset,
  the length and the bitmap: the file blocks touched, the index blocks that get a new pointer, the inode's block if the file
  grows, and the bitmap blocks of the first free blocks, as many as there are empty places on the way to the file blocks
  (`TransactionSize.TxSize`, `TransactionSize.TxIsExact`). It is within MAXOPBLOCKS if and only if that number is. An
  overwrite always is (`TransactionSize.OverwriteSize`), and so is a chunk whose new blocks lie in at most fifteen bitmap
  blocks (`TransactionSize.FewMapsFit`). A chunk that is not: after nineteen one-block files have been laid between the blocks
  of a growing file and removed again, the next chunk of a file of 130 blocks logs 41 blocks or more
  (`FragmentedDisk.OversizedFromEmpty`, `FragmentedDisk.ChunkTooBig`).
* Even so `log_write` never panics on account of file writes and removals: bitmap blocks are shared between operations and
  there are only 25, so any operations that log at most 26 other blocks each are safe in every run, and 27 is too many
  (`LogCapacity.SafeOthers`, `FileCommit.FileOperationsFit`). They pin at most 115 of the 120 buffers, which leaves `bget` a
  buffer as long as at most four others are referenced (`BufferRoom.FourMoreFit`).
* A circular queue of 64 slots holds 63 entries, so the scheduler's `enqueue` panics exactly when a routine would leave all
  64 processes runnable at one MLFQ level (`SchedSafety.OverflowExactly`), which can be told from the queue lengths before the
  call, and only ticks, yields, wakeups and kills can do it (`SchedOverflow.OverflowsExactly`); a bound on the MLFQ processes rules that out in
  every run if and only if it is below 64 (`SchedSafety.SafePopulation`).
* A process that asks for a CPU share twice leaks its first share: the ticket total is exact if and only if nobody does
  (`SchedSafety.ExactTickets`).
* `malloc` rounds up in 32-bit arithmetic; the block is large enough exactly when the request is at most 2^32 - 8 bytes
  (`Heap.RequestFits`). When the heap has to grow the limit is 2^31 - 16: beyond it the count reaches `sbrk` as a negative
  int or as 0, `sbrk` reports success and adds nothing (`Heap.GrowthIsWhole`, `Heap.NothingAdded`, `Heap.TwoGigabytes`).
* A failed `allocuvm` restores the mapping exactly, but it may keep page tables it made, until `freevm`. It keeps none if and
  only if no more frames were free than the pages to map before the first that had no table, and one
  (`AddressSpaces.Machine.AllocUvm`).
* Comments in `param.h` still speak of a 30-block log and 30 buffers; the constants are 120, and the model follows them.

## Model

| member | source | states |
|---|---|---|
| Blocks.WordAfterSet | project3/xv6-public/fs.c:452-466 | A 32-bit little-endian word stored in a block reads back; no other word of the block changes. |
| Blocks.BitAfterSet | project3/xv6-public/fs.c:59-100 | Setting or clearing one bitmap bit changes that bit alone. |
| Blocks.WordIsFour | project3/xv6-public/fs.c:452-466 | A word is four bytes in a row, low byte first. |
| Blocks.BitIsDigit | project3/xv6-public/fs.c:59-100 | A bitmap bit is the binary digit i % 8 of byte i / 8. |
| Journal.HeaderRoundTrip | project3/xv6-public/log.c:121-149 | The log header read back is the list written, whatever stale words the header block held before. |
| Journal.HeaderBytes | project3/xv6-public/log.c:32-37 | The list read from a header block is the one its bytes say: a count, then that many block numbers, four bytes each. |
| Journal.HeaderWritten | project3/xv6-public/log.c:137-149 | The bytes write_head leaves say the list, whatever was there before. |
| JournalSafety.StepKeepsInv | project3/xv6-public/log.c:104-270 | The journal invariant holds after every step: begin, read, eviction, log_write, end, each single disk write of commit and recovery, and crash. |
| JournalSafety.HeaderWriteCommits | project3/xv6-public/log.c:137-149 | Writing the header is the commit point: what recovery would restore jumps from the last group to what file system code sees now. |
| JournalSafety.InstallKeepsRecovered | project3/xv6-public/log.c:104-118 | Copying a logged block home does not change what recovery would restore. |
| JournalSafety.CrashSafety | project3/xv6-public/log.c:104-239 | In every state of every run the disk recovers to exactly the last committed group; before the commit point no home block has moved. |
| JournalSafety.HistoriesRecover | project3/xv6-public/log.c:213-239 | Through a commit, each intermediate disk recovers to the old group or to the new one, all blocks alike. |
| JournalSafety.RecoveryRestores | project3/xv6-public/log.c:151-158 | Recovery interrupted by any number of further crashes keeps what is to be restored, and once complete every home block holds it. |
| JournalSafety.GroupEffect | project3/xv6-public/log.c:250-270 | Between commits, what file system code sees is the last group overlaid with every write logged since, by whichever operation. |
| JournalSafety.CommitPublishesGroup | project3/xv6-public/log.c:181-239 | From a given start of a group, the header write moves the recovered disk from the last group to exactly the effect of the writes of the operations in between, with none outstanding. |
| JournalRuns.GroupStart | project3/xv6-public/log.c:161-210 | Every moment before a commit point belongs to a group with a start: an idle state without operations, first in the run or just after an installation, with only idle and logging states since. |
| JournalRuns.EveryCommitPublishes | project3/xv6-public/log.c:181-239 | Every commit point of every run publishes a whole group: up to it the disk recovers to the blocks as the group found them, after it to those with every write logged since, and no operation is under way. |
| JournalRuns.RunBalanced | project3/xv6-public/log.c:104-270 | Over whole runs: folding log writes, commit points and crashes alone gives, at every moment, what the disk recovers to and what file system code sees. |
| LogReservation.Reservation | project3/xv6-public/log.c:161-177 | With budgets of MAXOPBLOCKS, list plus unspent reservations never exceeds LOGSIZE, the list has no duplicates, and committing implies no operation outstanding. |
| LogReservation.RunReserved | project3/xv6-public/log.c:161-210 | Over every run, whatever slack operations leave in their budgets remains free in the log. |
| LogReservation.NoPanic | project3/xv6-public/log.c:250-270 | If operations log at most 39 distinct blocks, log_write never panics, in any run. |
| LogReservation.FullBudgetPanics | project3/xv6-public/log.c:250-270 | A run in which three operations within a budget of 40 reach log_write's panic. |
| LogReservation.SafeBudget | project3/xv6-public/log.c:161-177 | A budget is safe in every run if and only if it is at most 39, one below MAXOPBLOCKS. |
| LogCapacity.RunRoom | project3/xv6-public/log.c:161-270 | Over every run, the listed blocks that are not bitmap blocks and what operations may still log of such come to at most 40 and two budgets. |
| LogCapacity.RoomNeverPanics | project3/xv6-public/log.c:250-270 | If operations log at most c <= 26 blocks besides bitmap blocks, the list never exceeds 65 + 2c blocks and log_write never panics, in any run. |
| LogCapacity.OneMorePanics | project3/xv6-public/log.c:250-270 | A run of four operations with at most 27 such blocks each that reaches the panic. |
| LogCapacity.SafeOthers | project3/xv6-public/log.c:161-177 | Such a budget is safe in every run if and only if it is at most 26. |
| LogManager.Log.BuildHeader | project3/xv6-public/log.c:137-149 | The loop of write_head builds a block whose bytes say the list: its length, then the block numbers. |
| LogManager.Log.WriteLog | project3/xv6-public/log.c:213-226 | write_log copies every listed block to its log slot, one disk write at a time, each a step of the run. |
| LogManager.Log.InstallTrans | project3/xv6-public/log.c:104-118 | install_trans brings every listed home block to its logged contents. |
| LogManager.Log.Commit | project3/xv6-public/log.c:228-239 | commit publishes exactly what file system code saw, empties the log, and leaves only all-or-nothing disks on the way. |
| LogManager.Log.RecoverFromLog | project3/xv6-public/log.c:121-158 | From any crashed disk, recovery ends with every home block as in the last committed group, crashing safely on the way. |
| LogManager.Log.BeginOp | project3/xv6-public/log.c:161-177 | An operation is admitted exactly when no commit runs and its whole reservation fits. |
| LogManager.Log.LogWrite | project3/xv6-public/log.c:250-270 | log_write absorbs repeats, pins the buffer, shows the new contents, and panics exactly when the log is full or no operation is outstanding. |
| LogManager.Log.EndOp | project3/xv6-public/log.c:181-210 | The last operation to end commits the group; an earlier one writes nothing to the disk. |
| LogManager.Log.PowerFail | project3/xv6-public/log.c:104-158 | A crash loses memory and nothing on the disk. |
| BufferCache.UnlinkRing | project3/xv6-public/bio.c:199-206 | Unlinking a buffer leaves the doubly linked ring of the others. |
| BufferCache.PushRing | project3/xv6-public/bio.c:55-64 | Linking a buffer in after the head puts it first in the ring. |
| BufferCache.RecycleUnseen | project3/xv6-public/bio.c:128-143 | Recycling a clean unreferenced buffer changes what readers see of no block. |
| BufferCache.UpdateSeen | project3/xv6-public/bio.c:151-184 | Filling, changing or writing out a buffer shows its data for its own block and changes no other. |
| BufferCache.Cache.constructor | project3/xv6-public/bio.c:41-64 | binit links all buffers, each once. |
| BufferCache.Cache.Bget | project3/xv6-public/bio.c:70-148 | The cached buffer, else the free one released longest ago; panics exactly when the block is not cached and every buffer is referenced or dirty; readers see no change. |
| BufferCache.Cache.Iderw | project3/xv6-public/memide.c:38-60 | Writes a dirty buffer or reads an invalid one, and panics exactly on the four listed errors. |
| BufferCache.Cache.Bread | project3/xv6-public/bio.c:151-169 | bread returns the locked buffer holding the block's content as a flat map of blocks would have it, and changes that map nowhere. |
| BufferCache.Cache.Bwrite | project3/xv6-public/bio.c:173-184 | The disk gets the buffer's data, the buffer is clean, readers see what they saw. |
| BufferCache.Cache.Brelse | project3/xv6-public/bio.c:188-214 | The last release moves the buffer to the front, so the list stays in order of last final release; panics exactly when the lock is not held. Buffers and disk agree afterwards exactly when a changed buffer was written or marked dirty first. |
| FileTree.LookupWhere | project3/xv6-public/fs.c:390-501 | Every mapped file block is an owned leaf whose chain of owners leads back to that file and block number. |
| FileTree.LookupInjective | project3/xv6-public/fs.c:390-501 | Distinct file blocks, of one file or several, are distinct disk blocks. |
| DiskFormat.AreasTile | project3/xv6-public/mkfs.c:28-108 | The areas follow one another without gaps: log from block 2, inodes from 122, bitmap from 148, data from 173; every inode and every bit has its place in its area. |
| DiskFormat.RecoveredBytes | project3/xv6-public/log.c:104-158 | What recovery restores, in bytes: a block comes from block 3 + i if it is the i-th that the header in block 2 lists, and is left alone if none is. |
| DiskFormat.UsedIsBit | project3/xv6-public/fs.h:66-71 | A block is in use if and only if bit b % 8 of byte b % 4096 / 8 of block 148 + b / 4096 is set. |
| DiskFormat.LookupIsLocated | project3/xv6-public/fs.c:390-501 | Where a file block is, told on the bytes of the index blocks for all 2113674 of them: ten pointers in the inode, then one, two and three levels of 128 each. |
| DiskFormat.ContentBytes | project3/xv6-public/fs.c:613-638 | A file's content is as many bytes as its size, and byte p is byte p % 512 of the block where block p / 512 of the file is found that way. |
| FileGrow.AttachEntry | project3/xv6-public/fs.c:425-501 | A fresh zeroed block stored in an empty pointer keeps trees and bitmap in agreement. |
| FileGrow.AttachRoot | project3/xv6-public/fs.c:396-424 | The same for a pointer of the inode. |
| FileGrow.LookupStable | project3/xv6-public/fs.c:390-501 | A mapped file block stays mapped to the same disk block. |
| FileGrow.NewMappingIsNew | project3/xv6-public/fs.c:390-501 | A file block that was unmapped can only be mapped to a block nobody owned. |
| FileGrow.OthersUnmoved | project3/xv6-public/fs.c:390-501 | Mapping one file block maps, moves or unmaps no other. |
| FileGrow.FlatAfterGrow | project3/xv6-public/fs.c:44-82 | Growing the trees changes no byte any file reads; that new blocks are zeroed is what makes this true. |
| FileGrow.FlatAfterWrite | project3/xv6-public/fs.c:669-672 | Writing the disk block of one file block changes that file block and no other, of any file. |
| BlockMap.Single | project3/xv6-public/fs.c:407-424 | The single-indirect arithmetic is one level of the generic tree. |
| BlockMap.Double | project3/xv6-public/fs.c:425-456 | The double-indirect arithmetic is two levels of the generic tree. |
| BlockMap.Triple | project3/xv6-public/fs.c:457-500 | The triple-indirect arithmetic is three levels of the generic tree. |
| InodeTable.InodeRoundTrip | project3/xv6-public/fs.c:225-254 | An inode written by iupdate reads back as ilock reads it, and the other inodes of the block are untouched. |
| InodeTable.InodeBytes | project3/xv6-public/fs.h:40-47 | What is read as inode i is what its 64 bytes in block 122 + i / 8 say, and nothing else is: type, major, minor and nlink in two bytes each from 0, 2, 4 and 6, size in four from 8, block number k in four from 12 + 4k, low byte first. |
| InodeTable.UpdatedStores | project3/xv6-public/fs.c:236-254 | The bytes of an updated record say the inode, and every other byte of the disk is what it was. |
| FileFree.PruneForest | project3/xv6-public/fs.c:508-596 | Clearing a file's pointers and exactly its blocks' bits leaves trees and bitmap in agreement. |
| FileFree.TruncateUndoesGrowth | project3/xv6-public/fs.c:508-596 | Grow, then truncate: the owners of all blocks are what they were. |
| FileFree.UsedByAllocated | project3/xv6-public/fs.c:59-100 | In a sound file system a block is marked in the bitmap exactly if it is metadata or belongs to the tree of an allocated inode. |
| FileContent.WriteResultJoin | project3/xv6-public/file.c:231-252 | Two consecutive writes have the outcome of one write of both pieces. |
| FileNodes.NodeInjective | project3/xv6-public/fs.c:390-501 | Two places in the trees of files that hold the same block are the same place. |
| FileNodes.UpperEnds | project3/xv6-public/fs.c:643-681 | In a window of at most 128 file blocks, every index block lies on the way to the first or to the last. |
| FileNodes.UpperSize | project3/xv6-public/fs.c:643-681 | The ways to the blocks of such a window hold at most five different index blocks. |
| FileNodes.TightAfter | project3/xv6-public/fs.c:643-681 | A tree with exactly the nodes its first blocks need still has exactly the nodes needed after the blocks that follow have been mapped, or some of the first again. |
| TransactionSize.MissingBySize | project3/xv6-public/fs.c:390-501 | Which places on the way to a range of file blocks are empty is told by the file's size alone. |
| TransactionSize.ExactLogs | project3/xv6-public/fs.c:643-681 | The loop of writei logs exactly the blocks touched, the index blocks that got a pointer and bitmap blocks, and takes exactly as many blocks as places were empty. |
| TransactionSize.TxIsExact | project3/xv6-public/fs.c:643-681 | A completed writei logs exactly as many blocks as its offset, length, the file's size and the bitmap told before. |
| TransactionSize.ChunkBounds | project3/xv6-public/file.c:225-236 | A chunk of at most 9216 bytes logs at most 25 blocks besides bitmap blocks, and takes at most 24 free blocks. |
| TransactionSize.OverwriteSize | project3/xv6-public/file.c:225-236 | Writing within the blocks a file has takes none and logs the blocks touched, and the inode's if the size changes; a chunk of that kind logs at most 20 on any disk. |
| TransactionSize.FewMapsFit | project3/xv6-public/file.c:225-236 | A chunk whose new blocks lie in at most 15 bitmap blocks stays within MAXOPBLOCKS. |
| TransactionSize.StuckNeeds | project3/xv6-public/fs.c:643-681 | The loop finds the disk full only if fewer blocks were free than it needs, and a chunk has then logged at most 25 blocks besides bitmap blocks. |
| FirstFit.ExactSize | project3/xv6-public/fs.c:59-82 | A transaction that allocates takes the first free blocks, and logs besides its other blocks exactly the bitmap blocks of these. |
| FragmentedDisk.ChunkTooBig | project3/xv6-public/file.c:225-236 | On a disk whose free blocks are one each in nineteen bitmap blocks, and those past the last used block, the size told beforehand of the chunk after the first 130 blocks of a file passes MAXOPBLOCKS. |
| FragmentedDisk.OversizedChunk | project3/xv6-public/fs.c:643-681 | From any sound disk whose first blocks, up to 9000 of them, are the ones in use: creating, extending and removing files leads to such a disk, and the chunk is then written in one transaction above MAXOPBLOCKS. |
| FragmentedDisk.OversizedFromEmpty | project3/xv6-public/fs.c:643-681 | The same from an empty disk. |
| FileSystem.FileSys.Balloc | project3/xv6-public/fs.c:59-82 | The first free block is marked, zeroed and logged; panics exactly when the disk is full. |
| FileSystem.FileSys.Bfree | project3/xv6-public/fs.c:85-100 | Exactly one bit is cleared and logged; panics exactly when the block is free already. |
| FileSystem.FileSys.BMap | project3/xv6-public/fs.c:390-501 | bmap returns the block's one mapping, changes no other mapping and no byte of any file, logs every block it changed, and fails only on a full disk. |
| FileSystem.FileSys.IUpdate | project3/xv6-public/fs.c:225-254 | Inode i's record becomes the in-memory inode, in these bytes; every other record and every other byte is unchanged. |
| FileSystem.FileSys.WriteI | project3/xv6-public/fs.c:643-681 | The content c becomes c[..off] + src + c[off+n..], no other file changes, the logged inode equals the in-memory one, every changed block is logged, the blocks taken are the first free ones, refusals are exactly those of the source, and the panic on a full disk comes exactly when fewer blocks are free than the size, offset and length need. The transaction has exactly the size told beforehand. |
| FileSystem.FileSys.ReadI | project3/xv6-public/fs.c:613-638 | Returns exactly the slice of the content asked for, allocating and logging nothing because no block below the size is missing. |
| FileSystem.FileSys.FreeTree | project3/xv6-public/fs.c:521-590 | Frees every block below an index block, each once; none is found already free. |
| FileSystem.FileSys.ITrunc | project3/xv6-public/fs.c:508-596 | Frees exactly the file's data and index blocks; the other files keep their contents. |
| FileSystem.FileSys.WriteThenTruncate | project3/xv6-public/fs.c:508-681 | Writing to an empty file and truncating it gives back every bitmap bit. |
| FileSystem.FileSys.IPut | project3/xv6-public/fs.c:349-370 | The last reference to an unlinked inode frees its blocks and its record, leaves every other file and record as it was, and logs at most 25 bitmap blocks and one inode block. |
| FileSystem.FileSys.IAlloc | project3/xv6-public/fs.c:199-219 | The first free inode from 1 on becomes a zeroed record of the type, in memory and on disk; panics exactly when none is free; files keep their contents. |
| FileSystem.FileSys.SetLinks | project3/xv6-public/sysfile.c:292-296 | A link count stored by create or unlink changes that record alone, and no file's contents. |
| FileIO.WriteChunk | project3/xv6-public/file.c:238-246 | One transaction writes the next chunk whole or not at all, logs every block it changed, and has exactly the size told beforehand; one that panics on a full disk has logged at most 25 blocks besides bitmap blocks. |
| FileIO.OpenFile.FileWrite | project3/xv6-public/file.c:215-254 | The outcome is that of one write of the bytes the loop got through, which stops only where a chunk is refused; the offset advances by exactly those bytes; between any two of its transactions the file system is sound and holds whole chunks. |
| FileIO.OpenFile.PWrite | project3/xv6-public/file.c:19-65 | The same at a given offset; the file's own offset does not move. |
| FileCommit.TransactionEffect | project3/xv6-public/log.c:250-270 | The journal's effect of a transaction's log_writes is exactly the change the file system made. |
| FileCommit.TransactionsAreAtomic | project3/xv6-public/log.c:161-239 | Transactions one after the other, in any number of groups, with other operations under way that hold commits back, the last one perhaps cut short: at every moment a crash recovers the blocks as they were between two of them, none before the first commit point and at least those that were over at the last. |
| FileCrash.MountedSound | project3/xv6-public/fs.c:306-332 | What a disk holds as a file system depends on its home blocks and records alone: a sound file system whose inodes are on disk boots sound, with the same files, from any disk with its home blocks. |
| FileCrash.CrashedWrite | project3/xv6-public/file.c:215-254 | A crash at any moment of a long filewrite, then recovery with however many crashes: what boots is a sound file system with every inode on disk, in which the file holds its old content spliced with whole chunks of the write and every other file is as it was. |
| FileCrash.OnDisks | project3/xv6-public/fs.c:306-332 | The inodes of the file system that boots from a disk are what the bytes of its records say. |
| FileCommit.ReplayCarries | project3/xv6-public/log.c:250-270 | Whatever log_writes are made, they carry exactly the change they make to the blocks, and every changed block is among those logged. |
| FileCommit.InterleavedEffect | project3/xv6-public/log.c:161-210 | However the log_writes of several transactions are interleaved, their effect has each block as the transaction that logged it last left it. |
| FileCommit.MergedWhole | project3/xv6-public/log.c:161-210 | Transactions that log different blocks, or leave a shared block alike, are each there whole in that effect. |
| FileCommit.InterleavedGroupIsAtomic | project3/xv6-public/log.c:181-239 | For operations interleaved in any way: before the header write a crash recovers none of the group, after it all of it, merged. |
| FileCommit.ChunkIsFileTx | project3/xv6-public/file.c:225-236 | The transaction of a completed chunk is a file operation's: at most 25 blocks besides bitmap blocks. |
| FileCommit.FileOperationsFit | project3/xv6-public/log.c:250-270 | In every run of operations that log at most 25 other blocks, as chunks of writes, completed or stopped by a full disk, and iputs do, log_write never panics and the list stays within 115 blocks. |
| BufferRoom.RunPins | project3/xv6-public/log.c:250-270 | At every moment of such a run, installation and recovery included, at most 115 blocks are pinned. |
| BufferRoom.FreeExactly | project3/xv6-public/bio.c:100-148 | Some buffer can be recycled if and only if the dirty ones and the other referenced ones are not all. |
| BufferRoom.FourMoreFit | project3/xv6-public/bio.c:100-148 | During such a run bget finds a buffer as long as at most four buffers besides the pinned ones are referenced. |
| SchedSafety.StepKeepsInv | Reference_code/proc.c:72-851 | Every kernel routine keeps the invariant: each runnable MLFQ process is in its own level's queue once, nothing else is queued, at most one runs, levels and tick counts are in range, tickets sum to 100. |
| SchedSafety.RunInv | Reference_code/proc.c:72-851 | The invariant holds in every reachable state. |
| SchedSafety.DispatchKeepsInv | Reference_code/proc.c:638-684 | What the scheduler runs is runnable although its state is not looked at, and find_stride_proc never panics. |
| SchedSafety.BoostQueues | Reference_code/proc.c:115-158 | Boosting loses and duplicates no queued process. |
| SchedSafety.FullQueue | Reference_code/proc.c:72-101 | A queue needs a 64th slot if and only if every table entry is a runnable process of its level. |
| SchedSafety.OverflowExactly | Reference_code/proc.c:72-101 | Any kernel routine overflows a queue if and only if it would leave the whole table runnable at one level. |
| SchedOverflow.OverflowsExactly | Reference_code/proc.c:72-101 | Whether a routine overflows a queue, told before the call: a yield or tick if the queue the process goes to, counted after the boost when one is due, holds 63; a wakeup if a queue and the sleepers of its level come to 64; a kill if the sleeper's queue holds 63; no other routine ever. |
| SchedSafety.QueuesNeverOverflow | Reference_code/proc.c:72-101 | With fewer than NPROC live MLFQ processes, every queue fits its circular buffer, in every run. |
| SchedSafety.FullTableOverflows | Reference_code/proc.c:72-101 | A run with 64 MLFQ processes in which level 0 would need a 64th slot. |
| SchedSafety.SafePopulation | Reference_code/proc.c:72-101 | A bound on the live MLFQ processes rules out enqueue's panic in every run if and only if it is below NPROC. |
| SchedSafety.LeakStep | Reference_code/proc.c:256-289 | The ticket total exceeds the live processes' tickets by exactly the shares asked for again. |
| SchedSafety.ExactTickets | Reference_code/proc.c:256-289 | Over a whole run the total is exact if and only if no process that has a share is granted another. |
| SchedEffects.RunShares | Reference_code/proc.c:256-289 | In every reachable state strides follow tickets: stride * ticket <= 10000 < (stride + 1) * ticket for every live stride process and for the MLFQ. |
| SchedLaws.StepIsEffect | Reference_code/proc.c:72-851 | A step is the state machine's if and only if it has the effect that the relations tell, routine by routine and for the whole state, in literal numbers. |
| SchedLaws.DispatchDispatches | Reference_code/proc.c:161-188 | A round runs the stride process with the least pass if that is below the MLFQ's, else the earliest queued of the lowest level that has a runnable process; it is idle only when no MLFQ process is runnable. |
| SchedLaws.YieldYields | Reference_code/proc.c:191-226 | yield: the tick counts and is charged, the hundredth boosts, five ticks move a process from level 0 to 1 and ten from 1 to 2, and it goes behind the others of its level. |
| SchedLaws.TickTicks | Reference_code/trap.c:106-133 | A tick: the same charges and boost; a stride process leaves the CPU, an MLFQ process exactly when its slice of 1, 2 or 4 ticks is over. |
| SchedLaws.ShareAsks | Reference_code/proc.c:256-289 | A share of t tickets is refused above 80 in all; else the process has t tickets, the stride for them and the least pass, and the MLFQ has the rest, with the stride for that. |
| SchedEffects.WakeupWakes | Reference_code/proc.c:798-813 | After wakeup no entry sleeps on the channel. Those that did are runnable with level, ticks, stride and tickets as before: MLFQ ones behind what was queued, in the order of the table, stride ones at the least pass. Nothing else changes. |
| SchedEffects.KillKills | Reference_code/proc.c:826-851 | kill wakes the first entry with the pid if it sleeps, in the same way, and changes nothing else. |
| SchedEffects.InTurnWakesAll | Reference_code/proc.c:526-576 | Several wakeups one after the other wake exactly those asleep on one of the channels. |
| SchedEffects.ExitExits | Reference_code/proc.c:526-576 | exit: the sleepers of all its channels are woken, the tickets of a stride process are the MLFQ's again with the stride for them, and the process is a zombie. |
| SchedLaws.AsleepUntilWoken | Reference_code/proc.c:758-851 | A process asleep is made runnable by wakeup of its channel, by kill of its pid and by an exit that wakes its channel, and by no other routine. |
| SchedLaws.SleepThenWakeup | Reference_code/proc.c:758-813 | sleep and wakeup are a pair: on the same channel the process is runnable again, on any other it stays asleep. |
| SchedLaws.SleepsOn | Reference_code/proc.c:758-813 | Over any stretch of a run a process stays asleep on its channel until a step that wakes it. |
| SchedShare.StepGaps | Reference_code/proc.c:228-301 | Every routine keeps all active passes within one client's span of each other. |
| SchedShare.RunPassGaps | Reference_code/proc.c:228-254 | In every reachable state any two active passes differ by at most a span. |
| SchedShare.PassMoves | Reference_code/trap.c:106-133 | A steady client's pass moves by its stride times the ticks it is charged, and by nothing else. |
| SchedShare.PassIsTicks | Reference_code/trap.c:106-133 | Over a stretch of a run, pass is charged ticks times stride. |
| SchedShare.ProportionalShare | Reference_code/proc.c:638-684 | Over any stretch, however long, two clients' charged ticks weighted by stride differ by at most the sum of their spans, each at most 10000. |
| SchedShare.TicketShare | Reference_code/proc.c:256-289 | Over any stretch, however long, two clients' charged ticks are as their tickets: divided by these they differ by at most the spans and the rounding of the strides, and by the spans alone where the tickets divide 10000. |
| SchedKernel.RingPush | Reference_code/proc.c:84-92 | Advancing rear and storing appends to the queue the array encodes. |
| SchedKernel.RingPop | Reference_code/proc.c:93-101 | Advancing front removes the head of the queue the array encodes. |
| SchedKernel.Kernel.EnqueueAt | Reference_code/proc.c:84-92 | Appends at a level; panics exactly when 63 entries are queued. |
| SchedKernel.Kernel.Dequeue | Reference_code/proc.c:93-101 | Takes the head of a level, if there is one. |
| SchedKernel.Kernel.GetMinPass | Reference_code/proc.c:228-243 | The scan computes the least pass of the MLFQ and the runnable stride processes. |
| SchedSafety.MinUptoIsMin | Reference_code/proc.c:228-243 | That value is a lower bound of the passes scanned and is one of them. |
| SchedKernel.Kernel.FindStrideProc | Reference_code/proc.c:291-301 | The scan finds the first runnable stride process with that pass. |
| SchedKernel.Kernel.PriorityBoost | Reference_code/proc.c:115-158 | In place, the levels are reset and queues 1 and 2 are drained, in order, behind queue 0; panics exactly when the three together need a 64th slot. |
| SchedKernel.Kernel.ResetPasses | Reference_code/proc.c:245-254 | init_pass in place. |
| SchedKernel.Kernel.SetCpuShare | Reference_code/proc.c:256-289 | A share is granted exactly when the total stays within 80: the process gets its tickets, the stride in proportion and the least pass, the MLFQ the rest; otherwise nothing changes. |
| SchedKernel.Kernel.YieldCpu | Reference_code/proc.c:191-226 | yield in place: the whole effect told by YieldYields, and the panic exactly when the result does not fit the queues. |
| SchedKernel.Kernel.TimerTick | Reference_code/trap.c:106-133 | The timer branch in place: the whole effect told by TickTicks, and the panic exactly when the result does not fit the queues. |
| SchedKernel.Kernel.TickYieldCpu | Reference_code/proc.c:714-733 | tick_yield in place, with its panic exactly when the process's queue is full. |
| SchedKernel.Kernel.SleepOn | Reference_code/proc.c:758-793 | sleep in place, up to the switch: the process waits on the channel given and has left the CPU. |
| SchedKernel.Kernel.Wakeup1 | Reference_code/proc.c:798-813 | The scan wakes exactly the sleepers on the channel, none of them stays asleep: MLFQ processes behind what was queued at their level, stride processes at the least pass; panics exactly when they do not all fit. |
| SchedKernel.Kernel.KillPid | Reference_code/proc.c:826-851 | The first process with the pid, found exactly if there is one, is made runnable if asleep; panics exactly when its queue is full. |
| SchedKernel.Kernel.AllocProc | Reference_code/proc.c:355-398 | The first unused entry becomes an embryo with the given pid, if there is one. |
| SchedKernel.Kernel.FinishFork | Reference_code/proc.c:471-521 | A failed copy frees the entry; a finished child is queued at level 0; the panic is exactly a full queue. |
| SchedKernel.Kernel.ExitProc | Reference_code/proc.c:526-576 | Everyone asleep on one of the channels is woken, the share is given back with the MLFQ's stride in proportion, the process is a zombie; panics exactly when those woken do not fit their queues. |
| SchedKernel.Kernel.ReapEntry | Reference_code/proc.c:580-628 | wait frees the zombie's entry with all scheduling fields cleared. |
| SchedKernel.Kernel.Schedule | Reference_code/proc.c:638-684 | One round of the scheduler in place, without panic: the choice told by DispatchDispatches, the idle advance and the reset of passes. |
| Heap.InsertedListed | Reference_code/umalloc.c:31-43 | Returning a block keeps the list address ordered and fully coalesced. |
| Heap.InsertedUnits | Reference_code/umalloc.c:31-43 | Returning a block adds exactly its units, joining on either side or both. |
| Heap.TakenUnits | Reference_code/umalloc.c:74-86 | Allocating removes exactly the units handed out. |
| Heap.FreeUndoesTake | Reference_code/umalloc.c:24-90 | Freeing what was just allocated gives back the very same list. |
| Heap.StopsAtPos | Reference_code/umalloc.c:30-32 | The loop test of free holds exactly at the entry the block belongs after, including the wrap. |
| Heap.RequestFits | Reference_code/umalloc.c:69 | The units asked for cover the request exactly when the 32-bit rounding does not wrap, and with less than one unit to spare. |
| Heap.GrowthIsWhole | Reference_code/umalloc.c:46-69 | A request that makes the heap grow gets what it needs if and only if it is at most 2^31 - 16 bytes; up to the wrap, larger ones reach sbrk as a count that is not positive. |
| Heap.NothingAdded | Reference_code/proc.c:449-466 | Such a count makes growproc succeed without adding a byte: the size stays, or shrinks when the count takes away less than all of it. A process grows if and only if the count is positive, the memory is found and the result is below 2^31, and then by the count. |
| Heap.TwoGigabytes | Reference_code/sysproc.c:45-57 | malloc(2^31): sbrk returns success and the size of every process below 2^31 - 8 bytes is unchanged. |
| Heap.Allocator.FindPlace | Reference_code/umalloc.c:30-32 | The search terminates from any starting point of the circle, at the right entry. |
| Heap.Allocator.Free | Reference_code/umalloc.c:24-44 | The pointer surgery yields the coalesced list with the block's units added; units from sbrk stay the disjoint union of free and live. |
| Heap.Allocator.MoreCore | Reference_code/umalloc.c:46-61 | As many fresh units as asked for, or 4096 if that is more, join the list, possibly merging with the block freep points at, and the request then fits; unless the count that reaches sbrk is not that of the units, which is reported. |
| Heap.Allocator.Malloc | Reference_code/umalloc.c:63-90 | Returns 0 exactly when nothing fits and sbrk refuses; otherwise a new live block disjoint from all others; calls morecore at most once, and only when nothing fits. Growth goes astray exactly when the count that reaches sbrk is not that of the units. |
| PageTables.PteAfterSet | Reference_code/vm.c:35-80 | Storing one table entry changes what is mapped at that page alone, across both levels. |
| PageTables.AddTable | Reference_code/vm.c:41-53 | Hooking in a zeroed table maps nothing new. |
| PageTables.MapUser | Reference_code/vm.c:68-78 | Mapping a frame of no one's gives it to the address space and to one page of it. |
| PageTables.UnmapUser | Reference_code/vm.c:270-282 | Clearing an entry takes exactly its frame from the address space. |
| Translation.TableDecides | Reference_code/vm.c:35-80 | In an address space every directory entry in use is present, writable and for users, so what the processor makes of an address is what the table entry says. |
| AddressSpaces.KernelSeen | Reference_code/vm.c:104-137 | The kernel's entries are, at every address, the four regions: I/O space and data writable, text read only, devices at their own addresses, nothing for users and nothing below 0x80000000. |
| AddressSpaces.GrowthSeen | Reference_code/vm.c:222-254 | After a growth the bytes of the new pages are zeroed memory that users may write, and every other address translates as before. |
| AddressSpaces.CopySeen | Reference_code/vm.c:320-350 | A child sees below its size a copy, with the same rights and on other frames, and above it the kernel alone. |
| AddressSpaces.Machine.Kfree | Reference_code/kalloc.c:59-77 | The frame is pushed on the linked free list, filled with junk. |
| AddressSpaces.Machine.Kalloc | Reference_code/kalloc.c:82-95 | The head of the free list, and 0 exactly when it is empty. |
| AddressSpaces.Machine.FreeRange | Reference_code/kalloc.c:46-53 | Exactly the whole frames inside the range become free. |
| AddressSpaces.Machine.WalkPgdir | Reference_code/vm.c:35-55 | Finds or makes the table of a page, changing no mapping; the directory entry is then present, writable and for users; fails exactly when there is none and none can be made. |
| AddressSpaces.Machine.MapPages | Reference_code/vm.c:60-80 | Maps exactly the pages a byte range touches, up to the top of the address space; fails only when memory is exhausted, with a prefix mapped, or panics at the first page that is mapped already. |
| AddressSpaces.Machine.SetupKvm | Reference_code/vm.c:118-137 | What the processor sees of the new space is the four kernel regions, with their rights, and nothing else; on failure every frame taken is back. |
| AddressSpaces.Machine.DeallocUvm | Reference_code/vm.c:260-284 | Frees and unmaps exactly the pages mapped in the range, skipping missing tables without losing a page; every other address translates as before. |
| AddressSpaces.Machine.AllocUvm | Reference_code/vm.c:222-254 | Success gives users zeroed memory they may write, on fresh frames, and no other address changes; failure leaves every address as it was, and keeps no new page table exactly when the free frames were at most one more than the pages to map before the first without a table. |
| AddressSpaces.TablesMade | Reference_code/vm.c:222-254 | When memory runs out, tables have been made exactly if there were frames for the pages that have tables, one page more and its table. |
| AddressSpaces.Machine.FreeVm | Reference_code/vm.c:288-303 | Every frame the address space owned is freed once, and no other. |
| AddressSpaces.Machine.CopyUvm | Reference_code/vm.c:320-350 | The child sees equal bytes with equal rights on frames disjoint from the parent's; the parent is untouched; failure gives every frame back; a child is made only if every page below the size is mapped, and the panic only if one is not. |
| AddressSpaces.Machine.Lifetime | Reference_code/vm.c:118-350 | Build, grow, copy, tear down: whichever step runs out of memory, the free list ends with exactly the frames it began with. |
| AddressSpaces.Undone | Reference_code/vm.c:238-250 | Undoing a partial growth restores every entry; only page tables stay. |

## Left out

- Locks and memory order: critical sections are atomic steps; sleeping on a held lock is waiting until the step is enabled.
- The initial disk: a well-formed image and an empty log are where runs start; `mkfs.c` is not part of this model.
- Device and pipe files, directories, path names, `pread`, `fileread`, `sync`: easier than, or independent of, what is proved.
- IAlloc: in-memory inodes are an array, so `iget` and `ilock` are not routines; the inode is read back as it was stored.
- FreeTree: the source writes the nested loops out level by level; the model recurses over the level.
- FileSystem: works on the blocks that bread shows; BufferCache proves that bread shows a flat map of blocks.
- WriteI: on a full disk the source panics halfway; the contract then says when, and what was logged and taken, and nothing of the files, of which nothing is committed (CrashedWrite). Device inodes are not modelled.
- IPut: the valid flag of in-memory inodes is not modelled; every inode of the array counts as read.
- InterleavedGroupIsAtomic: which operation makes which log_write is given; that two operations change a shared bitmap or inode block in turn, as the buffer locks enforce, is not modelled, so soundness after interleaving is not stated.
- ProportionalShare: passes are unbounded naturals; 32-bit wrap-around is not modelled, because the idle branch skips the reset.
- SetCpuShare: requests are at least 1; the source does not check for zero or negative ones.
- SleepOn: channels are numbers, and the locks handed to sleep are not modelled.
- ExitProc: the channels it wakes are an argument, since parents are not part of the process record.
- Malloc: when sbrk adds nothing the model reports it and stops before the header is stored at the old break. There the source faults or, if the break is not at a page boundary, hands out units that do not exist.
- Heap: the contents of user blocks and the alignment of sbrk's results other than to whole units.
- Kfree: frames are numbered, so its panic on addresses that are unaligned or past the end of memory is part of the type, and the kernel's own frames are not told apart.
- AddressSpaces: pages are 1024 words, not bytes; loading of programs, `clearpteu`, `copyout` and the segment registers.
- Cache: the time between releasing the sleep lock and taking the list lock in brelse is not a separate step.
