# xv6 with copy-on-write fork: a verified model

This project models the parts of xv6 (x86, with copy-on-write `fork`) whose correctness is hardest to see from the code,
and proves what they are for. Code that works by changing state in place is a class with methods; concurrency is a system
of steps; what is only computed is a function. Integers that wrap around in C wrap around here.

## The parts

**Copy-on-write memory** (`Frames`, `Paging`, `Kernel`, `Eager`, `Procs`, `Forks`, `Traces`, `Machine`, `Counts`).
`Memory.Kernel` is kalloc.c and vm.c over two-level page tables in physical memory, with the counts, the free list and
`freecnt`. Two ghost maps say who holds which frame: `held` is what the reference counts account for, `refs` is what the
page tables say. The invariant ties them together: a managed frame is once on the free list with count 0, or its count is
the number of its holders; a writable user entry is a sole holder. `EagerCopy` is the simple system in which fork copies
every page; what its operations mean is stated beside it, byte by byte and process by process (`StoreLaw`, `SbrkLaw`,
`ForkLaw`, `ExitLaw`, `WaitAfterExit`). `CowMachine.Machine` runs any sequence of fork, load, store with faults, sbrk,
exit, wait and pipe pages over the kernel; its `Run` is the refinement theorem, with page conservation and the number of
failed allocations.

**Redo log over the buffer cache** (`RedoLog`, `Bio`, `LogLayer`). `RedoLog` is the theory of crashes: what a disk image
is worth, through every write of commit and of recovery. `BufferCache.Cache` is bio.c with its linked circle, over a disk
of atomic block writes that remembers every image it ever had. `Logging.Log` is log.c over that cache; its invariant names
for every image the committed state it recovers to, and `CrashAnywhere` is the theorem. Readers may hold buffers all the
while.

**User heap** (`Heap`, `Growth`). `HeapModel` is the heap as blocks on a line, `HeapLinks` the circle of headers in memory,
and `UserHeap.Allocator` the code of umalloc.c between the two. `HeapGrowth` sets it beside the kernel that answers sbrk.

**Files** (`Inodes`, `Files`, `Truncate`, `Tight`). Blocks are bytes; the free map and the indirect blocks are bits and
words in them. The invariant: a block is marked in use exactly if it is metadata or owned by exactly one slot of one inode.
File contents are byte sequences, and writing is splicing. A history keeps for every operation what was on the disk
before and after it and which blocks it logged.

**Files over the log** (`Journal`, `Group`). `Journal`: what a disk image holds of a file system, inodes packed and all, and
calls of filewrite run through the log. After a crash at any write the files are those after the first so many calls and
the first so many chunks of the next one: `CallsKept`, with `CallsDurable` for calls that returned. `GroupCommit.System`:
operations that run at the same time and are committed together, their log_writes and the reads of others in any order.
After a crash the files are what the first so many operations make of them (`Recovers`), and operations that ran at the
same time are there together or not at all (`Together`).

**Processes** (`Sched`, `Steps`, `Pipe`). `Scheduling` is a system of steps, each one lock operation or one assignment under a
lock, over any number of CPUs, processes and sleep locks: sleep and wakeup, the scheduler's hand-over of ptable.lock, fork,
exit, wait and kill. `SchedulingLaws` says what the steps do and add up to: an interrupt changes nothing, a failed fork
nothing but an unused slot, acquiresleep comes back with the lock, a parent asleep in wait reaps.
`Pipes.Pipe` is a pipe with any number of readers and writers; `Pipes.View` is the pipe without its ring, over which runs
are stated.

**Shell and grep** (`Shell`, `Syntax`, `Grep`). The parser as functions, the parser with its cursor as methods that agree
with them, and nulterminate on the line buffer; `ShellSyntax` is a grammar of its own, sentences with their tokens and
their meaning, which the parser accepts exactly. The regular expression matcher against a declarative meaning.

## Where the code does less than one would expect

- `freecnt` counts failed calls of kalloc too (kalloc.c:110): `CountFp` says exactly when it is right, `CountAfter` what it is
  after any run from boot, and `CountOff` reaches a wrong one.
- A shrink to size 0 frees all pages and then reports failure (proc.c:169-170): part of the simple system, `EagerCopy.Resized`.
- The log made by mkfs has one block fewer than the reservations assume (mkfs.c:25): `SizeSuffices` is the exact condition,
  and `Overrun` runs into the panic from boot.
- log_write checks the size before it looks for the block in the log (log.c:213-221), so that a full log refuses even a block
  that it has: `Refused` runs into it from boot, and `AgainSuffices` is the exact condition.
- NBUF equals LOGSIZE. A log of more than LOGSIZE blocks, filled, pins every buffer and commit fails in bget. The log mkfs
  makes is one block too small for that, but with it nearly full one reader is enough. `Crowded` runs into it from boot for
  every number of readers, and `CommitSuffices` is the exact condition, by layout and number of readers. With
  `SizeSuffices`: no size of the log is clear of both panics unless the disk has too few blocks to fill it (`NoGoodSize`).
- malloc's rounding wraps for requests within 7 bytes of 2^32 (umalloc.c:69), and sbrk sees another number for 2^28 units
  or more (umalloc.c:54): `Enough` and `AskedRight` are the exact conditions. For such a request sbrk succeeds and gives
  nothing, `Given` being the exact condition, and morecore's store of the header ends the process instead of malloc
  returning 0: `HeaderThere` says when, and `Phantom` does it from boot.
- pipewrite can return early without waking readers (pipe.c:86-89): `Strand` is the counterexample. A reader is left asleep
  by exactly the events in `Strands`: a writer that is killed or no longer read goes on with more bytes than the ring holds
  while a reader sleeps (`AwakeAfter`, and over runs `NobodyStranded` and `FirstStranded`).
- countvp and countpp differ unless the size is page-aligned: `VirtualPages`.
- The comment in file.c on the size of a chunk counts the blocks roughly; `WriteExact` counts them exactly, `ChunkFits` bounds
  them, and `Reached` is a chunk that needs them all.
- The shell's `&` ends a command only before another `&`, a `;`, a `)` or the end of the line, so that `a & b` is a syntax
  error: `AmpRefused`.

## Model

| member | source | states |
|---|---|---|
| Frames.Conservation | xv6-public/kalloc.c:68-134 | If every managed frame is either once on the free list with count 0 or has as many holders as its count says, then free frames and held frames together are exactly the managed frames. |
| Frames.FreeCounted | xv6-public/kalloc.c:50-61 | freerange: a frame joins the managed ones as a free frame and every other count stays right. |
| Frames.TakeCounted | xv6-public/kalloc.c:98-114 | kalloc: the head of the list gets count 1 and one holder, and the counts of all frames stay equal to the numbers of their holders. |
| Frames.ShareCounted | xv6-public/kalloc.c:116-124 | incr_refc: one more holder of a held frame, one more in its count, nothing else. |
| Frames.DropCounted | xv6-public/kalloc.c:68-93 | decr_refc inside kfree: the frame goes back to the list exactly when its last holder lets go; all counts stay right. |
| Frames.MoveCounted | xv6-public/vm.c:406-415 | Handing a frame from one holder to another, or changing the flags of an entry, leaves every count right as it is. |
| Frames.HolderCounted | xv6-public/kalloc.c:136-147 | For any holder of a frame, the count read by get_refc is at least 1, and is 1 exactly when there is no other holder: the handler's test is a test for sharing. |
| Frames.SoundShare | xv6-public/vm.c:325-338 | Sharing a read-only page with a directory that does not have it keeps the rule that a writable user page has no other holder. |
| Frames.SoundMove | xv6-public/vm.c:406-415 | A page can become writable when its entry is its only holder, without breaking the sharing rule. |
| Paging.PutEntryAt | xv6-public/vm.c:60-80 | Tables are not shared, so setting or clearing one entry changes one translation of one directory and no other translation at all. |
| Paging.SetEntry | xv6-public/vm.c:60-80 | Memory stays a well-formed set of directories, tables and pages when an entry is set or cleared, and the list of mappings found in it changes in just that one. |
| Paging.LinkTable | xv6-public/vm.c:35-55 | walkpgdir with alloc: linking a cleared table into a directory changes no translation of any directory. |
| Paging.NewDir | xv6-public/vm.c:117-126 | A cleared frame becomes a directory that translates nothing, and no other directory notices. |
| Paging.DropDir | xv6-public/vm.c:281-298 | Forgetting a directory with all its tables and pages leaves every other directory as it was. |
| Paging.ScribbleStructured | xv6-public/kalloc.c:83-88 | Overwriting a frame that nothing refers to changes no directory, no table and no mapping. |
| Memory.Kernel.constructor | xv6-public/kalloc.c:34-61 | After freerange every frame from `end` up is free, with count 0, and nothing is mapped; freecnt is the length of the list. |
| Memory.Kernel.Kalloc | xv6-public/kalloc.c:98-114 | Fails exactly on an empty list; otherwise the frame given was held by nobody and now has one holder. The counts stay exact, and freecnt is the list length minus the failed calls modulo 2^32. |
| Memory.Kernel.Kfree | xv6-public/kalloc.c:68-93 | The holder is gone; the frame is scribbled over and put on the list exactly when it was the last one; the counts stay exact. |
| Memory.Kernel.IncrRefc | xv6-public/kalloc.c:116-124 | The page gets a second, read-only holder in another directory, and counts and sharing rule stay right. |
| Memory.Kernel.WalkPgdir | xv6-public/vm.c:35-55 | The table that holds the entry. Without one: nothing changes and none is returned, or with alloc a cleared one is linked, which fails exactly when no frame is free, and then the count of failed kalloc calls goes up by one; no translation and no page content of any process changes. |
| Memory.Kernel.MapPage | xv6-public/vm.c:60-80 | One round of mappages: one translation is added, all others and all contents stay; it fails exactly when the table is missing and no frame is free, and then nothing has changed but the count of failed calls, by one. |
| Memory.Kernel.MapPages | xv6-public/vm.c:60-80 | The whole segment is mapped page by page, at the price of exactly the missing tables; it fails exactly when there are not enough free frames for them, with exactly one failed call. |
| Memory.Kernel.DeallocUvm | xv6-public/vm.c:251-279 | Every page present between the two sizes is unmapped and loses this holder, although the loop jumps over missing tables; all other pages and directories are untouched; the size returned is the smaller one. |
| Memory.Kernel.FreeVm | xv6-public/vm.c:281-298 | Everything of the directory is given up - pages, tables, directory - and everything else stays as it is. |
| Memory.Kernel.AllocPage | xv6-public/proc.c:94-98 | kalloc of a kernel stack or a pipe: it takes one frame, or fails, with one failed call counted, exactly when there is none, and no process notices. |
| Memory.Kernel.FreePage | xv6-public/proc.c:291-292 | kfree of a kernel stack or a pipe gives exactly one frame back. |
| Memory.Kernel.SetupKvm | xv6-public/vm.c:103-136 | A new directory with the complete kernel half for exactly 65 frames; with fewer it fails with exactly one failed call and has given back every frame it took. |
| Memory.Kernel.AllocRound | xv6-public/vm.c:233-247 | One round of allocuvm: a zeroed writable page that nobody else holds; a frame whose table cannot be made is still in hand for the failure exit; one failed call exactly when the round fails. |
| Memory.Kernel.AllocUvm | xv6-public/vm.c:219-249 | All the pages between the two sizes, zeroed and writable, exactly when there are frames for them and their tables; otherwise 0 and not one user page more than before, with exactly one failed call. Sizes at or above KERNBASE, and shrinking, are refused as in the source, with none. |
| Memory.Kernel.CopyRound | xv6-public/vm.c:325-338 | One round of copyuvm: the parent entry loses PTE_W, the child gets the same frame read-only, and its count is one more; one failed call exactly when the table is missing and no frame is free. |
| Memory.Kernel.CopyUvm | xv6-public/vm.c:313-345 | The child shares every page read-only, at the price of exactly 65 frames and one for each 4 MiB; with fewer it fails with exactly one failed call, everything taken is given back and only write protection is left behind. |
| Memory.Kernel.CowHandler | xv6-public/vm.c:389-420 | Not mapped, re-enabled, copied or out of memory, each exactly when the source says so, and one failed call exactly when out of memory; a copy leaves the other holders with their frame and contents, and no translation but this one changes. |
| Memory.Kernel.UserStore | xv6-public/trap.c:80-82 | A store with the fault it may take: this process reads the new byte, everyone else in every page reads what they read before, and it costs a frame exactly if the page was shared, or a failed call exactly if then there is none. |
| Memory.Undone | xv6-public/vm.c:233-247 | Unmapping what allocuvm has mapped leads back to the old mappings, with nothing left but new page tables. |
| Memory.PageLinked | xv6-public/vm.c:233-247 | A zeroed frame that is mapped and handed over to its entry is one page more, and nothing else. |
| Memory.CopyLinked | xv6-public/vm.c:406-412 | After the copying branch of the handler the page of the faulting process is in a frame of its own with the same bytes. |
| Processes.StoreGood | xv6-public/vm.c:389-420 | A store seen from the process table: one byte of one process changes, in the table of what every process reads. |
| Processes.GrowGood | xv6-public/proc.c:157-175 | After growth the process has zeroed pages more, the mapped pages are exactly those below the size, and no other process reads anything new. |
| Processes.ShrinkGood | xv6-public/proc.c:157-175 | After a shrink exactly the pages below the new size are left; a shrink to size 0 drops all pages and keeps the old size. |
| Processes.Wrapped | xv6-public/proc.c:157-175 | The new size computed in 32 bits is at or above the old one exactly when the shrink is by more than the size, so that deallocuvm then does nothing. |
| Processes.PageView | xv6-public/vm.c:35-55 | What a process is said to read at a page is what its translation in memory leads to. |
| Forks.ForkGood | xv6-public/proc.c:177-223 | The child reads on every page what the parent read although no page was copied; all old processes read what they read before. |
| Forks.ForkFailed | xv6-public/proc.c:193-199 | A failed fork leaves at most write protection behind: every process reads what it read before. |
| Forks.SameFree | xv6-public/vm.c:342-344 | A failed fork has given back every frame it took. |
| Forks.ExitGood | xv6-public/proc.c:225-269 | exit changes no memory: the process is a zombie with pages, size, pid and parent as before, its children have init for parent, nobody else changes, and the family stays in order. |
| Forks.ReapOther | xv6-public/proc.c:288-301 | Reaping a zombie is invisible to every other process. |
| Traces.Conserved | xv6-public/proc.c:271-313 | When the same processes and pipes are left, the processes with the sizes they had, and those of them that stored shared no page before, then exactly the same references are held and any two share a frame exactly if they did before: whatever children, however large they grew, came and went. |
| Traces.FreeAgain | xv6-public/kalloc.c:68-134 | With the same references held, sharing alike, as many frames are free as before. |
| Traces.PatternSize | xv6-public/kalloc.c:116-147 | References that share alike are in the same number of frames. |
| Traces.TraceStep | xv6-public/proc.c:177-313 | One operation never makes two old processes share a page; an old process keeps its identity, and unless it is the one that acts, its tables, pages and frames. |
| EagerCopy.ExitLaw | xv6-public/proc.c:225-269 | The simple system at an exit, or at the end of a process that touches an address it does not have: a zombie otherwise as it was, its children with init, nobody else changed. |
| EagerCopy.WaitAfterExit | xv6-public/proc.c:271-313 | A parent that runs and waits after its child has left must reap a zombie child, and may reap this one. |
| EagerCopy.WaitLaw | xv6-public/proc.c:281-301 | Of a reaped child nothing is left, and nobody else is touched. |
| EagerCopy.ForkLaw | xv6-public/proc.c:177-223 | A forked child has a pid of its own, its parent, and the parent's size and memory; nobody else is touched. |
| EagerCopy.StoreLaw | xv6-public/vm.c:389-420 | A store is read back where it was made, and every other byte of every process is as before. |
| EagerCopy.SbrkLaw | xv6-public/proc.c:156-175 | sbrk that succeeds: the size changes by the argument, the process has exactly the pages of its size, old bytes are kept and new ones are 0; a shrink beyond the size changes nothing. |
| CowMachine.Boot | xv6-public/proc.c:118-154 | kvmalloc and userinit: a kernel directory, and one process with one page that starts with the given code. |
| CowMachine.Machine.constructor | xv6-public/proc.c:118-154 | The machine after boot satisfies the invariant and holds just the first process, and no call of kalloc has failed. |
| CowMachine.Machine.Fork | xv6-public/proc.c:177-223 | Succeeds exactly when there is a slot and there are 66 frames and one for each 4 MiB of the parent, takes exactly those, takes none when it fails, and does to what processes read what a copying fork does. |
| CowMachine.Machine.Store | xv6-public/vm.c:389-420 | Does what a store does in the simple system; it panics exactly when the page is shared and no frame is free, and takes a frame exactly when it is shared. |
| CowMachine.Machine.Load | xv6-public/vm.c:389-404 | Reads the byte the simple system has there; a page that is not there ends the process. |
| CowMachine.Machine.Sbrk | xv6-public/proc.c:157-175 | growproc with its 32-bit sizes: growth succeeds exactly when the new size is below KERNBASE and the frames for pages and tables are there; the effect is that of the simple system, shrinking to size 0 included. |
| CowMachine.Machine.Exit | xv6-public/proc.c:225-269 | A zombie with its memory and its own parent, its children with init, nobody else changed; init itself panics. |
| CowMachine.Machine.Wait | xv6-public/proc.c:271-313 | Reaps a zombie child, if there is one, with everything it held, and nobody else notices; without one it sleeps if there are children, and fails if there are none. |
| CowMachine.Machine.Reap | xv6-public/proc.c:288-301 | The process is gone, all others read what they read before, and no old processes come to share. |
| CowMachine.Mourned | xv6-public/proc.c:225-313 | In any state of the machine, an exit and then a wait by the parent: a zombie child is reaped, and nobody else goes. |
| CowMachine.Machine.PipeOpen | xv6-public/pipe.c:22-57 | One frame for a pipe, or failure exactly when there is none, with one failed call; invisible to all processes. |
| CowMachine.Machine.PipeClose | xv6-public/pipe.c:59-75 | The frame of a pipe goes back, invisible to all processes. |
| CowMachine.Machine.Do | xv6-public/proc.c:157-313 | Any operation, enabled or not, keeps the invariant and does what it does in the simple system; it starves, and calls kalloc in vain, exactly when fewer frames are free than `Price` says it needs. |
| CowMachine.Machine.Run | xv6-public/vm.c:313-420 | Copy-on-write refines eager copy: over every run of any operations each process reads at every address what it would read if fork had copied every page. Page conservation: if the same processes and pipes are left, and the processes that are left did not call sbrk and stored only if they shared nothing before, as many frames are free as before, whatever their children did. The count of failed kalloc calls is the number of operations that starved, and each operation of the run starved exactly when the frames nobody held were fewer than it needs. |
| CowMachine.Machine.RunFree | xv6-public/kalloc.c:149-159 | The number of free frames after such a run is the number before it, with the children free to call sbrk and to store. |
| PageCounts.CountPp | xv6-public/proc.c:544-569 | countpp is the number of pages below the size that the directory translates, although it stops at the first entry past the size. |
| PageCounts.CountPtp | xv6-public/proc.c:571-586 | countptp is one more than the number of page tables linked in the directory. |
| PageCounts.CountFp | xv6-public/kalloc.c:149-159 | countfp is the number of free frames less the failed kalloc calls modulo 2^32, and so right if and only if their number is a multiple of 2^32. |
| PageCounts.CountAfter | xv6-public/kalloc.c:149-159 | After every run from boot countfp is the number of free frames less the number of operations that starved, which can be read off the outcomes, modulo 2^32. |
| PageCounts.CountOff | xv6-public/kalloc.c:98-114 | Counterexample to an exact countfp, from boot: one call of sbrk for a gigabyte makes it wrong. |
| PageCounts.VirtualPages | xv6-public/proc.c:537-542 | countvp, a shift of the size, equals the number of pages the size touches if and only if the size is page-aligned. |
| PageCounts.PhysicalPages | xv6-public/proc.c:544-569 | In every good state the pages counted by countpp are as many as the size calls for, or none after a shrink to size 0. |
| RedoLog.HeadRoundTrip | xv6-public/log.c:84-113 | Reading back a header block that was written gives the list that was written; word 0 is the count, word 1 + i is entry i, and the other words stay. |
| RedoLog.PutHead | xv6-public/log.c:98-113 | The loop of write_head produces the encoded header and keeps the rest of the block. |
| RedoLog.GetHead | xv6-public/log.c:84-96 | The loop of read_head gives the list the header block encodes. |
| RedoLog.LoggedWorth | xv6-public/log.c:176-190 | While the header on disk is empty, no prefix of the writes of write_log changes what the disk is worth. |
| RedoLog.HeadedWorth | xv6-public/log.c:98-113 | The single write of the header turns the disk from the old contents into the new ones, because the log holds them all. |
| RedoLog.InstalledWorth | xv6-public/log.c:68-82 | No prefix of the writes of install_trans changes what the disk is worth: recovery is idempotent. |
| RedoLog.ClearedWorth | xv6-public/log.c:192-202 | Once all blocks are installed the header can be cleared: nothing is owed any more. |
| RedoLog.CommitWorth | xv6-public/log.c:192-202 | After any number of the 2n + 2 writes of commit the disk is worth the old contents up to the header write and the new ones from there on. |
| RedoLog.RecoverWorth | xv6-public/log.c:115-122 | After any number of its writes a recovery leaves the disk worth what it was, and a complete one owes nothing. |
| RedoLog.RecoveriesWorth | xv6-public/log.c:115-122 | The same for any number of recoveries, each interrupted anywhere. |
| RedoLog.CrashAtomicity | xv6-public/log.c:115-202 | A crash after any number of writes of commit, then any number of recoveries interrupted anywhere, then one that completes: all home blocks are old if the header write was not reached and all new if it was, and the log is empty. |
| RedoLog.HeaderDecides | xv6-public/log.c:192-202 | If some logged block really changed, the new contents are recovered if and only if the header write reached the disk. |
| RedoLog.RecoversMeans | xv6-public/log.c:115-122 | What it means that a disk image recovers to given contents, over every sequence of interrupted recoveries. |
| History.CommitTold | xv6-public/log.c:192-202 | A commit extends the history: each of its crash points recovers to a committed state, never to an older one than an earlier point. |
| History.RecoverTold | xv6-public/log.c:115-122 | Every crash point of the recovery at boot recovers to the one state there is. |
| Ring.Unlinked | xv6-public/bio.c:129-133 | The two assignments that unlink a buffer leave a well-formed doubly linked circle of all the others, in their order. |
| Ring.Pushed | xv6-public/bio.c:134-137 | The four assignments behind the head give a well-formed circle with the buffer in front. |
| Buffers.RecycleView | xv6-public/bio.c:78-91 | Recycling a clean unreferenced buffer loses nothing of what the file system sees. |
| Buffers.DataView | xv6-public/bio.c:108-116 | New contents in a buffer show in its own block and in no other. |
| Pins.CleanSeen | xv6-public/bio.c:58-93 | In a cache in which everybody only reads, a block that is not pinned is seen as it is on the disk. |
| Pins.PinnedLess | xv6-public/bio.c:108-116 | Writing out the only buffer of a block unpins that block and no other. |
| Pins.IdleBuffer | xv6-public/bio.c:78-92 | If nobody holds a pinned buffer, there is a buffer to give away if and only if fewer are pinned or held than there are. |
| BufferCache.Cache.constructor | xv6-public/bio.c:38-56 | binit: the circle holds every buffer, and what is seen is the disk although all buffers carry the same label. |
| BufferCache.Cache.Find | xv6-public/bio.c:68-76 | The first loop finds a buffer with the label if and only if there is one. |
| BufferCache.Cache.Idle | xv6-public/bio.c:78-91 | The second loop finds the least recently used buffer that is neither referenced nor dirty, if and only if there is one. |
| BufferCache.Cache.Bget | xv6-public/bio.c:58-93 | The block's buffer, locked; no dirty or referenced buffer is ever recycled, no two buffers come to hold one block, and what is seen does not change; it panics exactly when there is nothing to recycle. |
| BufferCache.Cache.Iderw | xv6-public/memide.c:35-60 | A dirty buffer reaches the disk in one write; a buffer that is not valid is read; what is seen does not change. |
| BufferCache.Cache.Bread | xv6-public/bio.c:95-106 | The locked buffer holds what the file system sees of the block, and the disk is not written. |
| BufferCache.Cache.Bwrite | xv6-public/bio.c:108-116 | One disk write: the block on disk has the buffer's contents, is no longer pinned, and nothing else changes. |
| BufferCache.Cache.Brelse | xv6-public/bio.c:118-141 | The last user moves the buffer to the front of the circle, which stays well formed; what is seen and pinned stays. |
| Admission.BeginAdmitted | xv6-public/log.c:124-141 | A new operation that finds room for its full quota leaves room for all that the running operations may still add. |
| Admission.EndAdmitted | xv6-public/log.c:143-174 | An operation that ends gives its unused quota back. |
| Admission.WriteAdmitted | xv6-public/log.c:204-233 | With absorption, a write within quota keeps the promise to all others, and a new block always finds the log shorter than LOGSIZE. |
| Logging.Overrun | xv6-public/log.c:213-221 | Counterexample, run from boot, on every log of LOGSIZE blocks or fewer, header included: three operations are admitted, write within their quotas until the log is full, and the next block of an operation within its quota is refused. |
| Admission.AgainSuffices | xv6-public/log.c:213-221 | In states of the log, an operation within its quota that writes a block the log has already never hits the size panic if and only if the disk has too few home blocks to fill the log, or the log has no room at all. |
| Logging.Refused | xv6-public/log.c:213-221 | Counterexample, run from boot, for every size of the log: with the log filled within the quotas, an operation is refused a block that it has logged itself. |
| Admission.SizeSuffices | xv6-public/mkfs.c:25 | In states of the log, admitted operations within their quota never hit the size panic on a new home block if and only if the log has more than LOGSIZE blocks, one more than mkfs makes, or the disk has too few home blocks to fill it. |
| Logging.Log.constructor | xv6-public/log.c:53-66 | initlog: whatever state the disk was left in, the home blocks are afterwards what it was worth, and every crash point on the way recovers to the same. |
| Logging.Log.Recover | xv6-public/log.c:115-122 | recover_from_log through the buffer cache makes exactly the writes of the recovery above. |
| Logging.Log.ReadHead | xv6-public/log.c:84-96 | The in-memory header becomes the list on disk; nothing is written. |
| Logging.Log.WriteHead | xv6-public/log.c:98-113 | One disk write, of the encoded header; fails, in bget, exactly when every buffer is pinned or held by a reader. |
| Logging.Log.WriteLog | xv6-public/log.c:176-190 | The logged blocks go from the cache to the log one by one; the cached home blocks stay pinned and unwritten, and the readers where they are; it fails, before any write, exactly when pinned and held buffers are all there are. |
| Logging.Log.InstallTrans | xv6-public/log.c:68-82 | The logged blocks go to their homes one by one, and are unpinned; the readers stay where they are; it fails exactly when pinned and held buffers are all there are. |
| Logging.Log.BeginOp | xv6-public/log.c:124-141 | Admitted exactly when no commit is running and there is room; the invariant about reservations is kept. |
| Logging.Log.EndOp | xv6-public/log.c:143-164 | The last operation and no other starts a commit; the panic about a running commit cannot happen, and no operation is active while committing. |
| Logging.Log.Write | xv6-public/log.c:204-233 | A block changed by an operation is seen changed, pinned and recorded once; it is refused exactly when the log is full or there is no buffer for the block, and then header and reservations stay; no disk block is written; with nobody reading and a log larger than LOGSIZE a new block is never refused. |
| Logging.Log.LogWrite | xv6-public/log.c:204-233 | Records the block at most once and marks its buffer dirty, with both panics exactly where the source has them. |
| Logging.Log.ReadIn | xv6-public/file.c:106-109 | A reader's bread, which needs no operation: the buffer holds what is seen, the invariant of the log is kept; it fails exactly when there is no buffer for the block. |
| Logging.Log.LetGo | xv6-public/bio.c:118-141 | A reader's brelse keeps the invariant of the log, and nothing that is seen changes. |
| Logging.Log.Commit | xv6-public/log.c:192-202 | What is seen becomes the newest committed state by the 2n + 2 writes of the crash theory, with any readers of other blocks beside it; it fails exactly when the n logged blocks and the buffers held by readers are as many as there are buffers, and then disk, header and history are as before. |
| Logging.Log.CommitWrites | xv6-public/log.c:192-202 | The disk writes of commit through the cache are those of the crash theory, one by one and in order, with readers beside it; when it fails none has been made. |
| Logging.Crowded | xv6-public/log.c:176-190 | Counterexample, run from boot, for every number of readers below NBUF and a log of more blocks than they leave buffers: as many blocks are written within the quotas as there are other buffers, and the commit fails. |
| Logging.CommitSuffices | xv6-public/param.h:12 | Over all states of log and buffers, commits beside r readers never fail in bget if and only if the log has at most NBUF - r blocks, or the disk fewer than NBUF others, or r is at least NBUF, which leaves no buffer to log anything. |
| Logging.NoGoodSize | xv6-public/param.h:11-12 | A log is clear of the size panic on new blocks and of the panic in commit if and only if the disk has fewer home blocks than the log has blocks, and fewer than LOGSIZE. |
| Logging.Log.Done | xv6-public/log.c:165-173 | Operations may start again; the invariant holds. |
| Logging.CrashAnywhere | xv6-public/log.c:53-233 | At any time, also after commit has failed in bget, for every disk image there ever was and every sequence of interrupted recoveries, the completed recovery gives exactly the committed state that the history names for it. |
| HeapModel.OneBlock | xv6-public/umalloc.c:24-90 | Every unit got from the kernel is in exactly one block, free or live: none is lost and none is in two hands. |
| HeapModel.FreedGood | xv6-public/umalloc.c:24-44 | free keeps the list in address order, disjoint and fully coalesced, gives up exactly the one live block and loses no unit. |
| HeapModel.TakenGood | xv6-public/umalloc.c:75-84 | malloc keeps the heap in order and hands out exactly the wanted units, which were in no live block. |
| HeapModel.TailTaken | xv6-public/umalloc.c:78-82 | What is handed out are the last units of the block found, and the rest stays where it was. |
| HeapModel.FreeUndoes | xv6-public/umalloc.c:24-90 | free undoes malloc: blocks and free list are what they were, only freep has moved. |
| HeapModel.GrownGood | xv6-public/umalloc.c:46-61 | Memory from the kernel joins the heap as one more live block. |
| HeapLinks.FreeLinked | xv6-public/umalloc.c:33-43 | The assignments of free to headers thread the new list: a circle through all free blocks with right sizes. |
| HeapLinks.TakeLinked | xv6-public/umalloc.c:75-82 | The assignments of malloc to headers thread the new list. |
| UserHeap.Enough | xv6-public/umalloc.c:69 | The units found hold the bytes asked for if and only if the 32-bit rounding does not wrap, and then they are the fewest that do. |
| UserHeap.AskedRight | xv6-public/umalloc.c:54 | sbrk is asked for the bytes meant if and only if they are for fewer than 2^28 units. |
| HeapGrowth.Given | xv6-public/umalloc.c:46-61 | When sbrk succeeds, all the bytes morecore goes on with are in pages of the process if and only if it asked for fewer than 2^28 units. |
| HeapGrowth.HeaderThere | xv6-public/umalloc.c:57-58 | When sbrk succeeds, morecore's first store is to a page of the process exactly if fewer than 2^28 units were asked for or the last page reaches that far, which it does not if the size was a multiple of the page size. |
| HeapGrowth.Morecore | xv6-public/umalloc.c:54-58 | sbrk and that store, in any state of the machine: the process is killed exactly if the header is not in one of its pages. |
| HeapGrowth.Phantom | xv6-public/umalloc.c:54-58 | Counterexample, run from boot: asked for 2^28 units the kernel answers success and gives nothing, and the store of the header ends the process, a panic as it is the first one. |
| UserHeap.Allocator.Find | xv6-public/umalloc.c:30-32 | The loop of free ends, at the one list element behind which the block belongs, over the wrap point too. |
| UserHeap.Allocator.Free | xv6-public/umalloc.c:24-44 | The heap afterwards is the old one with the block put in its place and joined to both neighbours; all other live blocks are untouched. |
| UserHeap.Allocator.Morecore | xv6-public/umalloc.c:46-61 | Whatever sbrk answers: the piece answered, at least 4096 units, becomes part of the free list and some free block is then large enough; when sbrk fails nothing changes. |
| UserHeap.Allocator.Malloc | xv6-public/umalloc.c:63-90 | For every request: the first block large enough from behind freep, in the old heap or in the heap with one more piece from sbrk; exactly the wanted units become live; None exactly when nothing fits and sbrk fails. The loop ends and asks the kernel at most once. |
| UserHeap.Allocator.Take | xv6-public/umalloc.c:75-84 | The block is taken whole or its tail end is, and freep moves behind it. |
| UserHeap.AllSmall | xv6-public/umalloc.c:86 | A full round without a fit has seen every free block. |
| Bytes.WordPut | xv6-public/fs.c:390-393 | Storing a little-endian word in a block changes that word and no other. |
| Bytes.WordBytes | xv6-public/mkfs.c:55-65 | A word in a block is its four bytes, the lowest first. |
| Bytes.Bits | xv6-public/fs.c:66-68 | Setting or clearing a bit of a free-map block changes that bit and no other. |
| Bytes.BitValue | xv6-public/mkfs.c:246-248 | A bit of a byte of the free map is that binary digit of the byte, bit 0 the lowest. |
| Inodes.TakenInv | xv6-public/fs.c:55-78 | balloc: the block taken was free and is owned by nobody yet; all other bits still say in use exactly for owned and metadata blocks. |
| Inodes.FilledInv | xv6-public/fs.c:370-400 | Filling an empty slot with the block just taken makes that slot its only owner, for direct slots, the indirect block and its entries alike. |
| Inodes.DroppedInv | xv6-public/fs.c:402-435 | Emptying a slot: the bit of its block is set, so bfree does not panic, and afterwards bits and owners agree again; all other slots keep block and contents. |
| Inodes.DataAddress | xv6-public/fs.c:373-400 | The number of data block bn is entry bn of the inode for the first twelve, and then word bn - 12 of the block whose number is entry 12. |
| Contents.SameFile | xv6-public/fs.c:449-476 | A file whose blocks stay in place with their contents reads the same. |
| Contents.SpliceAt | xv6-public/fs.c:478-511 | After a write each byte is the one written there, or else the one that was there, and the size is the larger of old size and end of the write. |
| Contents.SpliceTwice | xv6-public/fs.c:478-511 | Two writes one after the other are one write of the two pieces joined. |
| Contents.WriteStep | xv6-public/fs.c:498-504 | Patching the bytes of one block is a splice of the file contents. |
| FileSystem.Disk.Balloc | xv6-public/fs.c:55-78 | The first free block, zeroed; None, a panic, exactly when no block is free; ownership is kept. |
| FileSystem.Disk.Scan | xv6-public/fs.c:65-74 | The inner loop finds the first clear bit of one free-map block within the disk. |
| FileSystem.Disk.Bmap | xv6-public/fs.c:370-400 | The block of the file with that number, with at most the two new blocks it needs; it fails exactly when fewer are free; nothing at all changes when the block is there; exactly the new blocks, the free-map blocks that say so and the indirect block with a new entry are logged. |
| FileSystem.Disk.Readi | xv6-public/fs.c:449-476 | Exactly the slice of the file, cut off at its end; refused exactly when the source refuses; nothing is allocated or changed. |
| FileSystem.Disk.Writei | xv6-public/fs.c:478-511 | The file becomes old contents with the source spliced in, no other file changes, refusal and panic exactly when the source has them; every inode on disk is current although iupdate is skipped; exactly the blocks of `WriteSet` are logged, and all that changed on the disk is in them. |
| FileSystem.Disk.Scatter | xv6-public/fs.c:498-504 | The loop of writei writes every byte of the source once and in its place, and the inode itself changes only when the file grows; it logs exactly the blocks the bytes lie in, the free-map blocks of new ones, and the indirect block if it got an entry. |
| FileSystem.Disk.Iupdate | xv6-public/fs.c:216-236 | The inode on disk becomes the one in memory, type, device, links, size and addresses; its block is logged. |
| FileSystem.Disk.Filewrite | xv6-public/file.c:115-156 | Exactly as many bytes are written as the file has room for, in whole chunks if not all, and they leave what one large write would; out of blocks exactly when the free blocks are fewer than those bytes need, and then whole chunks are written, as many as there are blocks for. Each chunk is one operation of the history, a refused one included; they follow one another on the disk, each left the file with the chunks so far, and each logged all that it changed and at most MAXOPBLOCKS distinct blocks, at most seven with one free-map block. |
| FileSystem.Disk.Operation | xv6-public/file.c:135-152 | One chunk between begin_op and end_op, refused or out of blocks exactly when writei is: exactly one operation more in the history, from the disk before to the disk after, which logged exactly the blocks of the write, all that changed among them and no more than its quota, and nothing outside free map, inodes and data. |
| FileSystem.RoundRoom | xv6-public/file.c:135-152 | A chunk is refused exactly when the room of the file is used up; the blocks the chunks need add up to those of one large write. |
| FileSystem.WriteSize | xv6-public/fs.c:478-511 | A write logs no more blocks than the bytes lie in, the blocks it takes, and two; with one free-map block, no more than the bytes lie in and three. |
| FileSystem.WriteExact | xv6-public/fs.c:478-511 | And exactly: the blocks the bytes lie in, the free-map blocks of the blocks taken, the indirect block if it got an entry, and the inode's block if the file grew, all different. |
| FileSystem.ChunkFits | xv6-public/file.c:127-139 | A chunk of the size chosen logs at most MAXOPBLOCKS distinct blocks for every offset and file size, for any number of free-map blocks. |
| ChunkLimit.Reached | xv6-public/file.c:127-139 | The bound is reached: on a disk of four free-map blocks, appending one chunk logs exactly MAXOPBLOCKS distinct blocks. |
| Truncation.Bfree | xv6-public/fs.c:80-95 | Clears the bit, or panics exactly when it is clear already. |
| Truncation.TruncDirect | xv6-public/fs.c:414-419 | The direct blocks are freed once each and the slots cleared; the panic of bfree is not reached. |
| Truncation.TruncEntries | xv6-public/fs.c:421-428 | The blocks listed in the indirect block are freed once each although the list itself is not cleared. |
| Truncation.Itrunc | xv6-public/fs.c:402-435 | The free blocks afterwards are exactly the old ones and the blocks of this inode; the inode is empty in memory and on disk, with type and links as before, no other file changes, and bfree never panics. Exactly the free-map blocks that say so and the inode's block are logged, and they cover all that changed. |
| Truncation.Discard | xv6-public/fs.c:332-345 | itrunc as an operation: it changes this file only, and logs its inode and exactly the blocks of the free map for the blocks it had. It is in order exactly if these are within its quota, as they are on a disk of at most nine blocks of free map. |
| Truncation.EmptyOne | xv6-public/fs.c:414-431 | One slot emptied: its block was in use, is free now, and no earlier freed block is the same. |
| Journal.Repacked | xv6-public/fs.c:216-236 | iupdate on the block: the sixteen words of the inode are replaced in their place, the other seven inodes stay. |
| Journal.InodeLaid | xv6-public/fs.h:29-36 | The disk format: inode i is in block inodestart + i / 8 from word 16 * (i % 8) on, type and major, minor and links, size, thirteen addresses. |
| Journal.Determined | xv6-public/fs.c:216-236 | A disk holds at most one file system: inodes and blocks can be read back from it. |
| Journal.Boot | xv6-public/log.c:53-66 | After recovery the log mirrors the file system that the disk was worth. |
| Journal.Start | xv6-public/log.c:53-66 | From boot, the file system and the log it is kept in, with which the runs below begin. |
| Journal.Perform | xv6-public/log.c:124-202 | An operation through the log, from begin_op to its commit: it is never refused, the cache and the newest committed state then hold the file system after it, and exactly one state more is committed if it logged anything. |
| Journal.Filewrite | xv6-public/file.c:115-156 | filewrite with its operations committed one by one: they are the chunks of the call, one after the other, all that the file has room for unless the disk has too few free blocks, which is exactly when it panics; every committed state is the file system after some of the operations, also after the panic. |
| Journal.Run | xv6-public/file.c:115-156 | Any number of filewrites on any files: where in the history each call begins, how many operations it is, what the files are after each of them, and that only a call for which the free blocks do not suffice ends the run. |
| Journal.Recovered | xv6-public/log.c:115-202 | Crash safety of the file system: after a crash at any disk write and any interrupted recoveries, the completed recovery leaves the file system after the first so many operations, whole. |
| Journal.CallsKept | xv6-public/file.c:135-152 | Crash safety of filewrite: after a crash at any disk write of a run and any interrupted recoveries, the files are those after the first so many calls and the first so many chunks of the next one. |
| Journal.NeverLess | xv6-public/log.c:192-202 | A crash at a later write never leaves less. |
| Journal.Durable | xv6-public/log.c:143-202 | What is done stays done: with all operations ended, any crash and recovery leaves the file system after all of them. |
| Journal.CallsDurable | xv6-public/file.c:115-156 | With all calls returned, any crash and recovery leaves the files as all of them made them. |
| GroupCommit.System.constructor | xv6-public/log.c:53-66 | The invariant holds at boot. |
| GroupCommit.System.Starts | xv6-public/log.c:124-141 | begin_op: admitted exactly if nobody commits and the log has room for the quotas of all. |
| GroupCommit.System.Changes | xv6-public/file.c:140-145 | An operation changes the files: a chunk of filewrite or itrunc, a panic exactly when the free blocks do not suffice; what it has to log is then outstanding. |
| GroupCommit.System.Writes | xv6-public/log.c:204-233 | A log_write of an operation, any number of times for a block and with any contents before the last; operations finish with a common block in their order. It is a panic exactly when the log is full or there is no buffer. |
| GroupCommit.System.Ends | xv6-public/log.c:143-163 | end_op: the last one to end starts a commit. |
| GroupCommit.System.Commits | xv6-public/log.c:164-202 | The commit of a group: exactly one committed state more if anything was logged, and it is the file system after all the operations so far; a panic exactly when every buffer is pinned or read. |
| GroupCommit.System.Do | xv6-public/log.c:124-233 | Each event, readers' bread and brelse too, can happen exactly when it is enabled, panics exactly as said, has exactly its effect, on the buffers held too, and keeps the invariant that ties cache, log and history together. |
| GroupCommit.System.Run | xv6-public/log.c:124-233 | The same for any sequence of events, until a panic. |
| GroupCommit.ReadRelease | xv6-public/bio.c:91-141 | A bread that is let go again leaves the same buffers held as before, and a commit is enabled exactly if it was. |
| GroupCommit.Recovers | xv6-public/log.c:115-202 | Crash safety with operations at the same time: after a crash at any disk write and any interrupted recoveries, the files are what the first so many operations make of them, also after a panic. |
| GroupCommit.Rests | xv6-public/log.c:143-202 | With no operation running and none waiting to be committed, any crash and recovery leaves the files as all operations made them. |
| GroupCommit.Together | xv6-public/log.c:143-174 | Two operations that were running at the same time are both in a committed state or both not. |
| Scheduling.StepKeeps | xv6-public/proc.c:225-498 | Every step of every process and every CPU, any number of them, keeps the invariant that ties states, channels, locks and CPUs together. |
| Scheduling.RunKeeps | xv6-public/proc.c:225-498 | The invariant holds after every run. |
| Scheduling.BootInv | xv6-public/proc.c:118-154 | The state at boot satisfies it. |
| Scheduling.NoLostWakeup | xv6-public/proc.c:416-475 | For any number of sleep locks, which processes may hold and wait for at once: in every reachable state a process that has released lk inside sleep and has not been woken holds ptable.lock or is SLEEPING on the lock's channel; and when lk is free, such a process means that the sleep lock is held. |
| Scheduling.OneHolder | xv6-public/sleeplock.c:22-42 | No sleep lock ever has two holders, and each has one exactly while it is marked locked. |
| Scheduling.Handoff | xv6-public/proc.c:315-393 | Whenever ptable.lock is free a CPU's proc is p exactly when it executes p, p is then RUNNING, every RUNNING process is some CPU's, and no process executes on two CPUs. |
| Scheduling.ReapSafe | xv6-public/proc.c:288-301 | The parent that reaps holds ptable.lock, so the zombie executes on no CPU and its kernel stack can go. |
| Scheduling.ReapedOnce | xv6-public/proc.c:271-313 | Only the parent reaps, no CPU executes the zombie, and however the run goes on nobody can reap the slot again unless a fork has taken it in between. |
| Scheduling.UnusedStays | xv6-public/proc.c:73-116 | No step but the fork that takes it changes an unused slot. |
| Scheduling.ZombieWatched | xv6-public/proc.c:251-269 | Every zombie has a living parent that is not asleep in wait: a wakeup by exit is never lost either. |
| Scheduling.TakesLock | xv6-public/sleeplock.c:22-32 | acquiresleep that finds the lock free takes it and keeps the invariant. |
| Scheduling.FallsAsleep | xv6-public/proc.c:429-443 | Setting the channel and state under ptable.lock keeps the invariant. |
| Scheduling.GivesLock | xv6-public/sleeplock.c:34-42 | From clearing the lock to wakeup1 the releaser owes the sleepers a wakeup. |
| Scheduling.WakeAllKeeps | xv6-public/proc.c:455-466 | wakeup1 leaves nobody waiting, so the debt is paid. |
| Scheduling.SwtchKeeps | xv6-public/proc.c:359-383 | The switch hands ptable.lock over with the CPU, from the process to the scheduler. |
| Scheduling.PickKeeps | xv6-public/proc.c:334-353 | The scheduler runs a process that was executing nowhere and passes the lock to it. |
| Scheduling.ExitKeeps | xv6-public/proc.c:251-269 | exit wakes the parent, hands the children to init and only then becomes a zombie. |
| Scheduling.DozeKeeps | xv6-public/proc.c:281-312 | wait sleeps only if it saw no zombie while holding the lock. |
| Scheduling.ReapKeeps | xv6-public/proc.c:288-301 | The slot of a reaped zombie is unused and nobody has it for a parent. |
| Scheduling.ParentKeeps | xv6-public/proc.c:200-201 | The parent of the embryo is set without a lock, and nobody else looks at the embryo meanwhile. |
| Scheduling.KillKeeps | xv6-public/proc.c:477-498 | kill of a sleeper keeps the invariant: it only makes the sleeper look again. |
| SchedulingLaws.EmbryoMade | xv6-public/proc.c:73-116 | In every reachable state an embryo has exactly one process that is forking it, and that is alive. |
| SchedulingLaws.ForkDoneLaw | xv6-public/proc.c:216-222 | The last step of fork makes the child RUNNABLE, with the forking process for parent, and touches nobody else. |
| SchedulingLaws.KillLaw | xv6-public/proc.c:477-498 | A killed sleeper is RUNNABLE, and nothing else changes. |
| SchedulingLaws.WakeAllLaw | xv6-public/proc.c:455-466 | wakeup1 makes exactly the processes asleep on that lock RUNNABLE. |
| SchedulingLaws.ExitLaw | xv6-public/proc.c:248-266 | exit makes the process a zombie with the parent it had, gives its children to init, and wakes exactly the parent, and init if it has got a zombie, where they sleep in wait. |
| SchedulingLaws.ReapLaw | xv6-public/proc.c:288-301 | wait frees the slot of the zombie and touches nobody else. |
| SchedulingLaws.TimerRound | xv6-public/proc.c:324-393 | A timer interrupt, after which the scheduler picks the same process again, leads back to the very same state. |
| SchedulingLaws.ExitReaped | xv6-public/proc.c:229-313 | After an exit whose parent sleeps in wait, the CPU can go on to the parent, which reaps the zombie. |
| SchedulingLaws.ForkRuns | xv6-public/proc.c:216-222 | After a fork any idle CPU can run the child. |
| SchedulingLaws.ForkUndone | xv6-public/proc.c:181-198 | A fork that fails leaves the state as it was but for what is in the unused slot. |
| SchedulingLaws.AcquireLaw | xv6-public/sleeplock.c:22-32 | Whatever step is made by whom: a process in acquiresleep stays in it until it has the lock, and comes back with it. |
| SchedulingLaws.ReleaseLaw | xv6-public/sleeplock.c:34-42 | A process in releasesleep comes back without the lock, and only after wakeup1. |
| Pipes.Counters | xv6-public/pipe.c:85-93 | The tests for full and empty and the ring positions are right although both counters wrap at 2^32. |
| Pipes.Pipe.constructor | xv6-public/pipe.c:22-57 | A new pipe is empty, open at both ends, with nobody asleep. |
| Pipes.Pipe.Write | xv6-public/pipe.c:77-98 | What is accepted are the first bytes the call has left, as many as the ring has room for, and they are appended to all accepted so far; a writer that sleeps keeps exactly the rest; it ends, sleeps or takes the early return as the source says, and the readers are woken or not as it does. |
| Pipes.Pipe.Read | xv6-public/pipe.c:100-121 | The pipe afterwards is `ReadOut` of the pipe before: it delivers, in order, the oldest bytes not yet delivered, as many as are there and asked for; it sleeps only on an empty pipe with an open write end. |
| Pipes.Pipe.Close | xv6-public/pipe.c:59-75 | Closing an end closes that end, wakes the other side and no one else, and frees the pipe exactly when both are closed; bytes and calls stay. |
| Pipes.Pipe.Kill | xv6-public/proc.c:477-498 | A killed sleeper is woken, and nothing else changes. |
| Pipes.Pipe.Run | xv6-public/pipe.c:59-121 | Any events in any order from any number of processes do to the ring, its counters and the sleepers what they do to the pipe without a ring, and the bytes returned are those delivered. |
| Pipes.OkAfter | xv6-public/pipe.c:77-121 | Every event keeps delivered bytes a prefix of accepted ones with at most PIPESIZE between them, and writers asleep only on a full pipe that is still read; it takes back no byte. |
| Pipes.FirstOut | xv6-public/pipe.c:77-121 | First in, first out over every run: what is delivered is what was accepted first, and nothing accepted or delivered is taken back. |
| Pipes.SentPieces | xv6-public/pipe.c:77-98 | Over every run, what is accepted is the pieces of the single steps, in their order. |
| Pipes.PieceOf | xv6-public/pipe.c:84-97 | Only a writer adds to what is accepted: the first bytes it has left, as many as fit; it goes to sleep with the rest exactly if it is not done, not killed, and read. |
| Pipes.Ledger | xv6-public/pipe.c:77-98 | Over every run of any number of writers: the pieces accepted from a call, joined, and what it has left are what it was given; after its end they are the first bytes of it. |
| Pipes.AllWritten | xv6-public/pipe.c:77-98 | A writer that returns, neither killed nor unread, has written everything. |
| Pipes.ReadOf | xv6-public/pipe.c:100-121 | A reader gets the oldest bytes under way, as many as it wants and there are; it sleeps exactly if there are none, somebody may still write, and it was not killed. |
| Pipes.ShutOf | xv6-public/pipe.c:59-75 | Closing an end closes that end, wakes those asleep on the other, and changes nothing else. |
| Pipes.AwakeAfter | xv6-public/pipe.c:84-92 | After an event no reader sleeps but on an empty pipe that may still be written, if and only if the event is not one in which a killed or unread writer goes on with more bytes than the ring holds while a reader sleeps. |
| Pipes.NobodyStranded | xv6-public/pipe.c:84-92 | Over every run without such an event no reader is left asleep without a reason. |
| Pipes.FirstStranded | xv6-public/pipe.c:84-92 | And the first such event of a run does leave one asleep without a reason. |
| Pipes.Strand | xv6-public/pipe.c:84-92 | Counterexample to waking readers: a killed writer with more bytes than fit returns early and leaves a reader asleep on a full pipe. |
| ShellGrammar.GetToken | xv6-public/sh.c:265-308 | The token lies within the line and in order, and anything but the end of the line makes progress: every parser loop ends. |
| ShellGrammar.ParseLine | xv6-public/sh.c:344-359 | Parsing is total: every string gives a command that ends within the line, or a panic. |
| ShellSyntax.RoundTrip | xv6-public/sh.c:327-446 | Every command tree of at most nine clean words per simple command has a line, and with any spaces between its tokens that line is parsed as the tree. |
| ShellSyntax.Accepted | xv6-public/sh.c:327-446 | A line is accepted if and only if it is the tokens of a sentence of the grammar with spaces between them; every other line panics. |
| ShellSyntax.Complete | xv6-public/sh.c:327-446 | A line that says a sentence is parsed as what the sentence means: redirections among the words with the last outermost, then the bar, then &, then ;, grouped to the right. |
| ShellSyntax.Sound | xv6-public/sh.c:327-446 | Every line accepted says a sentence with the meaning it is parsed as, and no simple command has more than nine words. |
| ShellSyntax.OneReading | xv6-public/sh.c:327-446 | The grammar is unambiguous: two sentences said by one line mean the same. |
| ShellSyntax.AmpRefused | xv6-public/sh.c:350-353 | A line with & before anything but another &, a ; or a ) panics, `a & b` for one. |
| ShellSyntax.Tokenised | xv6-public/sh.c:265-308 | Tokens written out, with a space where two would be read as one, are the tokens gettoken finds, >> and > told apart. |
| ShellSyntax.Untokenised | xv6-public/sh.c:265-308 | Every line is its tokens written out that way: nothing but whitespace is skipped. |
| ShellParser.Shell.NextToken | xv6-public/sh.c:265-308 | The cursor-moving gettoken computes the token of the grammar. |
| ShellParser.Shell.Look | xv6-public/sh.c:310-320 | peek moves over whitespace only and tells whether the next character is one of the given. |
| ShellParser.Shell.Redirections | xv6-public/sh.c:374-397 | The loop of parseredirs reads the redirections of the grammar, in order, or panics with it. |
| ShellParser.Shell.Words | xv6-public/sh.c:429-445 | The loop of parseexec reads words and redirections of the grammar, with the limit on arguments. |
| ShellParser.Shell.Simple | xv6-public/sh.c:415-446 | parseexec computes the grammar's simple command or block. |
| ShellParser.Shell.Group | xv6-public/sh.c:399-413 | parseblock computes the grammar's block, panics included. |
| ShellParser.Shell.Pipeline | xv6-public/sh.c:361-372 | parsepipe computes the grammar's pipeline. |
| ShellParser.Shell.Line | xv6-public/sh.c:344-359 | parseline computes the grammar's line, its loop over & included. |
| ShellParser.Shell.Command | xv6-public/sh.c:327-342 | The whole line is one command or it panics, and the buffer is the line with a NUL exactly behind every word. |
| ShellParser.Shell.Nulterminate | xv6-public/sh.c:448-493 | In place: exactly the positions behind the words of the command become NUL. |
| ShellParser.SpansOk | xv6-public/sh.c:327-446 | All words of a parsed command are whole words of the line. |
| ShellParser.CutRight | xv6-public/sh.c:448-493 | After nulterminate every argument and file name, read as a C string, is exactly its token: no end mark falls inside another one. |
| Grep.MatchHere | xv6-public/grep.c:84-96 | True if and only if the text from here on can be cut into stretches, one for each item of the pattern. |
| Grep.MatchStar | xv6-public/grep.c:98-106 | The same for a starred character and the rest; the loop and the mutual recursion end. |
| Grep.Match | xv6-public/grep.c:72-82 | True if and only if the pattern matches at the start when anchored, and somewhere when not. |
| Grep.OneReading | xv6-public/grep.c:84-96 | Every pattern has exactly one reading as items that spell it, in which a star belongs to the character before it and a $ is the end of the text at the end only; and that is what the matcher sees in it. |
| Grep.MatchesFirst | xv6-public/grep.c:84-96 | The declarative meaning by the first item: it accounts for a stretch behind which the rest matches. |

## Left out

- exec, ELF loading, path lookup, directories, the system call wrappers, devices, console, interrupts other than the timer, and boot code are not part of the model.
- Translation reads the page tables directly; the TLB and segments are not modelled.
- Page faults other than user loads and stores are left out, and so is the guard page with PTE_U cleared, which only exec makes.
- Allocator calls, fault handling and the operations of the machine are atomic steps; interleavings on several CPUs inside them are left out, since the lock toggling in kfree does not support them.
- kinit1 and kinit2 are one range of frames; a machine that boots has at least 200 free frames, where userinit would panic with too few.
- Reference counts are unbounded integers: a frame has at most one holder per process slot, far below 2^31.
- A process that has lost its pages by shrinking to size 0 only faults and exits in the model: it cannot fetch an instruction to do anything else.
- Journal.Perform: one operation alone, with nobody reading, and each block it logs is written once, with its contents at the end; `GroupCommit` is without these limits.
- In `GroupCommit` an operation changes the files in one step, before its log_writes, and two operations finish with a block that both log in the order of these steps; two that allocate blocks in turns are left out. Of the operations on files only filewrite and itrunc are run through the log, itrunc on disks of at most nine blocks of free map, of which mkfs makes one.
- Logging.Log.Write: takes bread, the change, log_write and brelse as one step, on a block that nobody holds; sleeping for a buffer that another process has locked is left out.
- Logging.Log.Commit: no reader holds a logged block while it runs, and none comes or goes; the source sleeps until such a block is let go.
- Logging.Log.CommitWrites: the same.
- Logging.Log.WriteLog: the same.
- Logging.Log.InstallTrans: the same.
- Logging.Log.WriteHead: the same.
- The disk writes blocks atomically and in order, as the memory disk does.
- FileSystem.Disk.Iupdate: keeps the inodes on disk as a table; how eight of them are packed into a block is the matter of `Journal.Repacked`. Type and major number are one word, minor number and links another.
- ialloc, iget, iput and device inodes are left out.
- UserHeap.Allocator.Malloc: a store by malloc or free to memory that is not there is not a fault in the heap model; `Given` and `HeaderThere` say when it is there, and `HeapGrowth.Morecore` what happens when it is not.
- UserHeap.Allocator.Morecore: the same.
- Heap addresses and sizes are whole units of 8 bytes, the size of a header: malloc returns only such addresses, and a pointer into a unit is not a live block.
- UserHeap.Allocator.Free: as in the source, the argument has to be a live block.
- Scheduling has no other sleepers than those on sleep locks and in wait; a process does not exit while it has a sleep lock; the counters of nested cli and the interrupt flag are left out.
- In the pipe model sleeping and waking are atomic with the pipe lock held, which is what the scheduling model proves of sleep.
- In the shell, the simple command under construction is kept apart from its redirections until it is complete, while the source fills a node in place; running commands, cd and the prompt are left out, and >> has the mode of > as in the source. Which of the panics a refused line ends in is not part of the grammar.
- grep's refilling of its buffer, and all other user programs, are left out.
