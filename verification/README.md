# Verified core engines of dosemu2

Models, with proofs, of the small stateful engines at the core of dosemu2. Each engine is
one module (cooperative threads take eight; `Basics` holds shared types) under `src/`; `dafny verify dfyconfig.toml` checks all of them.

An engine has two layers. The state and the operations in place are a class with arrays and fields,
or a method with loops, as in the C source; every such method is proved equal to a function over
values. The theorems are about those functions: over all inputs, all runs, all interleavings.

- **Cooperative threads** (`CoopthModel`, `CoopthInvariant`, `CoopthRuns`, `CoopthTheorems`,
  `CoopthBehaviour`, `CoopthShutdown`, `CoopthExamples`, `CoopthScheduler`). Thread ids own stacks of instances; redundant counters and
  `active_tids` must agree with them. A thread body is an arbitrary finite tree of calls into the
  scheduler, so that nested runs to any depth are covered. An operation ends in a new state or in a
  halt that says why: an assertion about the scheduler's own data (proved impossible); a check aimed at
  callers (such as that a cancelled body, cancellation enabled, runs to its end when resumed); or an
  obligation the source leaves to its callers unchecked. There are four of those: a thread's class does not change
  while instances of it are attached; a detached body does not end while a newer instance of its thread is
  live; a left instance is not attached again from outside; and a coroutine that is on the host stack is not
  resumed.
- **Text screen** (`TextScroll`, `Teletype`): in-place scrolling of video memory as a simultaneous
  shift; the teletype on top of it as a window on an unbounded sheet.
- **CGA screen** (`CgaScroll`): scrolling across the two interleaved banks, seen pixel by pixel.
- **Interrupt frames** (`InterruptFrames`): faked INT, CALL, IRET and RETF on a stack that wraps at 64K.
  The reference is the INT n and IRET entries of the Intel 64 and IA-32 Software Developer's Manual, volume 2.
- **Block move** (`BlockMove`): INT 15h AH=87h in page-sized chunks as a byte copy.
- **Tick clock** (`TickClock`): INT 1Ah AH=0/1 conserves ticks.
- **Revectoring** (`Revector`): who owns an interrupt vector, over any run.
- **HLT block** (`HltBlock`): the handler table as a partial map from offsets; skip-ahead search as first fit.
- **Keyboard buffer** (`Keyboard`): the ring as a FIFO of translated keys.
- **Ports** (`Ports`, `PortTable`, `PortServer`): wide accesses as byte accesses; registration of port ranges; the privileged port server as
  two processes and two pipes.

## Where the code does less than it seems to

Where a promise fails, the input is shown and the exact condition is proved, one a caller could check beforehand:

- A tab that wraps to a new row (other than on the last row) leaves the cursor on the old row (`Teletype.TabExact`).
- Scrolling text goes wrong when the left column is beyond the screen, when there are 256 columns, when scrolling
  down from row 0, and when rows are copied on a page other than the first (`TextScroll.ScrollExact`).
- The one-shot clear of a CGA screen misses two scan lines and part of a third (`CgaScroll.PixelsCleared`), and
  scrolling a CGA screen down from row 0 never ends (`CgaScroll.DownLoopEnds`).
- Reading the clock after 1366 or more days loses the subtraction to a 32-bit product (`TickClock.ReadExact`).
- Unregistering a HLT handler by an offset other than its start, or the last one of all, leaves a wrong table
  (`HltBlock.UnregisterExact`).
- `coopth_done` passes its final assertion only if no detached instance lies under an attached one
  (`CoopthShutdown.DoneEnds`), and a custom thread that ends twice before its handlers are called fails one in
  `do_del_thread` (`CoopthTheorems.PostPendingExact`).
- Automatic `int_hooks` with a `force_revect` other than -1, 0 and 1 lets an assertion of `do_int` fail
  (`Revector.SettingsExact`).
- Two PCI addresses in a row, or a request for an entry point a handler lacks, put the answers of the port server
  out of step with the calls (`PortServer.RunInStep`).
- A block move whose range ends at 4 GB is accepted however little memory there is (`BlockMove.AcceptsExact`).
- A block move of zero words is refused instead of doing nothing (`BlockMove.EmptyMoveRefused`).
- IRET clears the high word of the flags except VIF, because `set_FLAGS` assigns all 32 bits
  (`InterruptFrames.IretFlags`).

## Model

| member | source | states |
|---|---|---|
| `CoopthTheorems.InitInv` | src/base/core/coopth.c:137-172 | the static data at start-up satisfies the scheduler invariant, with no frame open |
| `CoopthTheorems.EveryRun` | src/base/core/coopth.c:298-375 | after any script of calls, any nesting of thread runs included, either a check aimed at callers stopped the program or the whole invariant holds and all three running counters are zero; no assertion about the scheduler's own data fires: not the two on `active_tids` in `do_del_thread`, nor those of `threads_joinable_dec`, `coopth_retf`, `coopth_callf`, `__thread_run` and `coopth_run` (the one on `post_pth` can: see the next row) |
| `CoopthTheorems.PostPendingExact` | src/base/core/coopth.c:324-331 | deleting the newest instance, detached and at rest, never fails, except that the assertion on `post_pth` fails if and only if the thread is custom, an earlier instance's handlers are still to be called, and this one was neither cancelled nor left |
| `CoopthExamples.CustomTwice` | src/base/core/coopth.c:324-331 | a script that reaches that assertion: a custom thread started, run and joined twice with no call of its handlers in between |
| `CoopthTheorems.CountersAgree` | src/base/core/coopth.c:137-147 | what the invariant means: total, joinable, left and per-class counters are the sizes of the corresponding sets of slots, live slots are 0..cur-1, no slot is both attached and left, `active_tids` is duplicate-free and holds exactly the threads with a live slot |
| `CoopthTheorems.NestedRuns` | src/base/core/coopth.c:461-473 | at any nesting depth `thread_running - joinable_running - left_running` is the number of open frames entered neither attached nor left, and a run that returns restores all three counters and the frames |
| `CoopthTheorems.InsideBurst` | src/base/core/coopth.c:238-282 | what a body does during a burst keeps the invariant and its own instance, with exactly one more frame open |
| `CoopthTheorems.ThreadRunBounds` | src/base/core/coopth.c:407-530 | `thread_run` takes at most four steps and two bursts, never stops in RUNNING, and never returns while the instance is left: a LEAVE switch ends in deletion |
| `CoopthTheorems.PostHandlersExactlyOnce` | src/base/core/coopth.c:284-334 | over any run, each non-custom instance that left or ended uncancelled has had its permanent handler called once and then its temporary handlers in order; one cancelled without leaving, or still alive, none |
| `CoopthTheorems.PermanentAtMostOnce` | src/base/core/coopth.c:194-211 | across DONE, DELETE, LEAVE and forced detach no instance's permanent handler is called twice, and it comes first |
| `CoopthTheorems.DeletionNeedsNewest` | src/base/core/coopth.c:298-334 | deleting a detached instance keeps the slots in order if and only if it is the newest of its thread |
| `CoopthTheorems.ClassChangeNeedsNoneAttached` | src/base/core/coopth.c:835-846 | changing the class keeps the class counters right if and only if nothing of the thread is attached |
| `CoopthTheorems.AttachNeedsNotLeft` | src/base/core/coopth.c:1247-1256 | attaching from outside keeps "never attached and left" if and only if the instance has not left |
| `CoopthRuns.ExecActsGood` | src/base/core/coopth.c:407-530 | every sequence of calls, from any state of the invariant and any calling thread, keeps the invariant, the open frames and the instances on the host stack, or stops at a caller check |
| `CoopthRuns.ExecGood` | src/base/core/coopth.c:756-792 | the same for each single entry point |
| `CoopthRuns.ThreadRunGood` | src/base/core/coopth.c:520-530 | the do-while loop of `thread_run` keeps the invariant and its step and burst bounds |
| `CoopthRuns.RunBurstGood` | src/base/core/coopth.c:250-282 | resuming a body and acting on what it returned keeps the invariant |
| `CoopthRuns.DoDetachGood` | src/base/core/coopth.c:857-897 | the forced detach keeps the invariant, whatever switch was pending |
| `CoopthRuns.DoCancelGood` | src/base/core/coopth.c:1374-1387 | cancelling keeps the invariant |
| `CoopthRuns.DetachedCount` | src/base/core/coopth.c:949-956 | `coopth_run`'s assertion holds: the detached-running count is the number of such frames |
| `CoopthInvariant.PutWhere` | src/base/core/coopth.c:341-353 | changing one slot changes each count by exactly what that slot contributed before and after |
| `CoopthInvariant.DelInv` | src/base/core/coopth.c:298-334 | deletion keeps every clause of the invariant, the handler log included |
| `CoopthInvariant.FreeSlotInv` | src/base/core/coopth.c:298-322 | freeing a slot with compaction of `active_tids` succeeds on the newest detached slot and keeps shape, counts and `active_tids` |
| `CoopthInvariant.WithoutMembers` | src/base/core/coopth.c:309-320 | compaction removes exactly the one thread id and leaves no duplicates |
| `CoopthInvariant.StartInv` | src/base/core/coopth.c:661-779 | starting a thread keeps the invariant; the only ways to fail are the source's fatal limits |
| `CoopthInvariant.SwLeaveGood` | src/base/core/coopth.c:194-204 | the LEAVE switch detaches, marks, counts and calls the handlers once |
| `CoopthInvariant.DoSwitchGood` | src/base/core/coopth.c:181-236 | every switch keeps the invariant |
| `CoopthInvariant.EndBurstGood` | src/base/core/coopth.c:250-282 | every way a body may give control back keeps the invariant |
| `CoopthShutdown.PoppedCounts` | src/base/core/coopth.c:298-334 | removing the newest instance of a thread lowers the total by one, and the joinable count by one exactly if it was attached |
| `CoopthShutdown.ObedientDies` | src/base/core/coopth.c:250-282 | a cancelled body that ends, having at most set flags, added handlers or woken threads, is deleted and nothing else changes in kind, unless one of those calls is refused |
| `CoopthShutdown.CancelPops` | src/base/core/coopth.c:1374-1387 | so cancelling a detached newest instance removes exactly it |
| `CoopthShutdown.CancelDetachPops` | src/base/core/coopth.c:1389-1412 | one restart of the shutdown loop removes exactly the attached instance it found |
| `CoopthShutdown.ShutdownEnds` | src/base/core/coopth.c:1389-1412 | `coopth_unsafe_shutdown` ends; total and joinable drop by the same amount; no active thread has an attached newest instance left; it stops half-way only in a call a body makes, so never if bodies make none |
| `CoopthShutdown.AllAttached` | src/base/core/coopth.c:1493-1516 | when every newest instance is attached, total equals joinable if and only if no detached instance lies under an attached one |
| `CoopthShutdown.DoneEnds` | src/base/core/coopth.c:1473-1516 | `coopth_done` ends, and passes its last assertion only if no thread has a detached instance under an attached one, and then always unless a call a body makes is refused; total equals joinable equals the joinable count at the call |
| `CoopthShutdown.DoneMeans` | src/base/core/coopth.c:1473-1516 | whoever calls `coopth_done`, once it returns the total exceeds the joinable count by the one detached instance the caller was in at the call, if any, and no other thread has a detached newest instance |
| `CoopthExamples.DoneFails` | src/base/core/coopth.c:1473-1516 | a script that reaches a state where it fails, whatever bodies do: start a thread, let it detach, start it again |
| `CoopthBehaviour.BurstEnds` | src/base/core/coopth.c:238-282 | each way a body may give control back, and what its instance is left as: asleep after a sleep, otherwise on the switch it asked for, finished or deleted; a body that has left, or is cancelled with cancellation enabled, may only end |
| `CoopthBehaviour.BurstLeaves` | src/base/core/coopth.c:250-282 | the same of a whole burst, calls included; a body cancelled before it ever ran ends without running |
| `CoopthBehaviour.Dormant` | src/base/core/coopth.c:506-509 | a run of a sleeping instance changes nothing and takes no burst |
| `CoopthBehaviour.Resumed` | src/base/core/coopth.c:407-530 | a run of a yielded, waiting, scheduled, attached or woken body resumes it at once, with nothing else changed first |
| `CoopthBehaviour.ResumedOnce` | src/base/core/coopth.c:520-530 | and exactly once, unless a detached body abandons its thread |
| `CoopthBehaviour.RunLeaves` | src/base/core/coopth.c:250-282 | a run whose body slept leaves it asleep; one whose body yielded, waited, scheduled or attached leaves it resumable without a wake-up |
| `CoopthBehaviour.ActsSpare` | src/base/core/coopth.c:407-530 | no script, nested runs included, touches a sleeping instance unless it names its thread to wake, cancel, attach, detach or start it, or shuts everything down |
| `CoopthBehaviour.SleepsUntilWoken` | src/base/core/coopth.c:1353-1372 | after any such script the sleeper is as it was, further runs of it change nothing, and a wake-up makes the next run resume it |
| `CoopthBehaviour.SleptRun` | src/base/core/coopth.c:250-282 | the same from the run in which the body went to sleep |
| `CoopthBehaviour.WakeUpWakes` | src/base/core/coopth.c:1353-1372 | a wake-up of a sleeping instance makes it resumable and changes nothing else; of any other it does nothing |
| `CoopthBehaviour.DetachRun` | src/base/core/coopth.c:188-192 | the run after a body asked to be detached takes no burst and detaches it; the next one resumes it |
| `CoopthBehaviour.JoinedRun` | src/base/core/coopth.c:206-211 | the run after a body finished takes no burst, deletes the instance and returns its number |
| `CoopthBehaviour.LeaveRun` | src/base/core/coopth.c:194-204 | the run after a body asked to leave detaches and counts it and resumes it in the same run |
| `CoopthBehaviour.StartMakes` | src/base/core/coopth.c:661-754 | a new instance is ready to run, attached exactly if its thread is not a detached one, with no handlers and no cancellation |
| `CoopthBehaviour.StartLimits` | src/base/core/coopth.c:661-779 | a start is let through if and only if the thread exists, has fewer than five instances, is active or one of fewer than ten to be, and is not a detached thread started as a custom one |
| `CoopthBehaviour.PostLimit` | src/base/core/coopth.c:1001-1011 | a body may add a handler if and only if it has fewer than five |
| `CoopthBehaviour.PostOrder` | src/base/core/coopth.c:284-296 | handler calls: the permanent one first, then the temporary ones in the order added |
| `CoopthBehaviour.AddPostAppends` | src/base/core/coopth.c:1001-1011 | a handler is added at the end of the caller's own list |
| `CoopthBehaviour.DeletionTells` | src/base/core/coopth.c:298-334 | deletion calls the handlers exactly if the instance was neither cancelled nor left and its thread is not custom; a custom one's are deferred |
| `CoopthBehaviour.LeavingTells` | src/base/core/coopth.c:194-204 | leaving calls the handlers at once |
| `CoopthBehaviour.CancelMarks` | src/base/core/coopth.c:1374-1387 | cancelling an attached instance marks it and wakes it if it sleeps, and nothing else |
| `CoopthBehaviour.CancelOwn` | src/base/core/coopth.c:1414-1429 | a body cannot cancel its own thread: refused, or without effect once it has left |
| `CoopthBehaviour.FlagsSet` | src/base/core/coopth.c:823-855 | the calls that set a thread's flags set just those |
| `CoopthBehaviour.OwnSet` | src/base/core/coopth.c:1247-1256 | attaching from outside makes the newest instance joinable; disabling cancellation concerns the caller alone |
| `CoopthScheduler.ShiftOut` | src/base/core/coopth.c:309-320 | shifting the array down over an element leaves what filtering it out gives |
| `CoopthScheduler.Scheduler.constructor` | src/base/core/coopth.c:137-172 | starts in the initial world |
| `CoopthScheduler.Scheduler.CallPostHandlers` | src/base/core/coopth.c:284-296 | the handler loop appends the permanent handler and then the temporary ones in order |
| `CoopthScheduler.Scheduler.Release` | src/base/core/coopth.c:298-322 | frees the slot; the in-place compaction loop over `active_tids` equals removal from the sequence |
| `CoopthScheduler.Scheduler.Del` | src/base/core/coopth.c:298-334 | the whole of `do_del_thread` |
| `CoopthScheduler.Scheduler.Begin` | src/base/core/coopth.c:661-738 | the whole of `do_start`, with its two limits |
| `CoopthScheduler.Scheduler.Resume` | src/base/core/coopth.c:238-282 | one resumption of a body, with whatever it calls |
| `CoopthScheduler.Scheduler.RunOnce` | src/base/core/coopth.c:415-473 | the RUNNING case with its counters |
| `CoopthScheduler.Scheduler.Run` | src/base/core/coopth.c:520-530 | the do-while loop computes the specified outcome, return value, steps and bursts |
| `CoopthScheduler.Scheduler.Scan` | src/base/core/coopth.c:1397-1411 | the scan finds the first active thread whose newest instance is of the wanted kind |
| `CoopthScheduler.Scheduler.ShutdownAll` | src/base/core/coopth.c:1389-1412 | the restarted scan of `coopth_unsafe_shutdown` equals its recursive specification |
| `CoopthScheduler.Scheduler.DoneAll` | src/base/core/coopth.c:1473-1536 | the restarted scan of `coopth_done` with its assertions |
| `CoopthScheduler.Scheduler.SwitchOnce` | src/base/core/coopth.c:475-518 | the SWITCH case: refines the specification |
| `CoopthScheduler.Scheduler.Perform` | src/base/core/coopth.c:899-967 | each entry point, nested runs included, does what the specification says |
| `CoopthScheduler.Scheduler.PerformAll` | src/base/core/coopth.c:407-530 | a whole script does what the specification says; from a state of the invariant it keeps it and fails no assertion about the scheduler's own data |
| `TextScroll.Scroll` | src/base/bios/vgabios.c:362-431 | every request, however odd, given enough memory: refused ones change nothing, all others leave what the clamped request specifies turn by turn, and the requests that are `Right` the simultaneous shift of the rectangle with everything else unchanged |
| `TextScroll.ScrollUp` | src/base/bios/vgabios.c:411-419 | the in-place upward loop computes the turns of its rows in order |
| `TextScroll.ScrollDown` | src/base/bios/vgabios.c:420-429 | so does the downward loop, with its unsigned row index |
| `TextScroll.ScrollRow` | src/base/bios/vgabios.c:413-418 | one turn blanks a run of cells or copies one, and touches no other cell, for any 8-bit column count |
| `TextScroll.CopyCells` | src/base/bios/vgabios.c:73-77 | the word copy, overlapping or not |
| `TextScroll.FillCells` | src/base/bios/vgabios.c:73-77 | the word fill |
| `TextScroll.Clamp` | src/base/bios/vgabios.c:388-391 | what the clamping guarantees of any request, and no more |
| `TextScroll.RowProgress` | src/base/bios/vgabios.c:411-419 | a turn finds its source row still untouched, so the part done grows by one row |
| `TextScroll.RightScrolls` | src/base/bios/vgabios.c:405-431 | requests that are `Right` are shifted as they should be |
| `TextScroll.ScrollExact` | src/base/bios/vgabios.c:388-431 | every memory comes out as the simultaneous shift if and only if the request is the one-shot clear, lies wholly beyond the screen, or has its left column on the screen, not 256 columns, no scrolling down from row 0, and nothing copied on a page but the first |
| `TextScroll.WrongColumns` | src/base/bios/vgabios.c:389-391 | columns that start beyond the screen, or number 256: a memory that comes out wrong |
| `TextScroll.LeftBeyondScreen` | src/base/bios/vgabios.c:389-391 | rows 0 to 10, columns 100 to 100 of an 80x25 screen: 236 columns are treated and column 20 of row 11 is blanked |
| `TextScroll.WrongRow` | src/base/bios/vgabios.c:420-428 | scrolling down from row 0 overwrites a cell of row 65535 |
| `TextScroll.StrayRow` | src/base/bios/vgabios.c:420-428 | on the first page, with columns in order: right if and only if the row index cannot wrap below row 0 |
| `TextScroll.WrongPage` | src/base/bios/vgabios.c:414-426 | a mark on the first page ends up on the other one |
| `TextScroll.PageOffset` | src/base/bios/vgabios.c:414-426 | on a page other than the first, in either direction: right if and only if nothing is copied |
| `TextScroll.ClearIsScroll` | src/base/bios/vgabios.c:405-408 | the one-shot clear is the simultaneous fill |
| `TextScroll.ScrollRows` | src/base/bios/vgabios.c:405-431 | the shift on page 0, by row and column: row r gets old row r+n (or r-n), vacated rows become blanks with the attribute, all other cells stay |
| `TextScroll.ScrollCells` | src/base/bios/vgabios.c:362-431 | from the request as it came in, on the first page: each cell of the rectangle is the old one so many rows away, or a space in the given attribute, all others are unchanged |
| `TextScroll.BlankIs` | src/base/bios/vgabios.c:413-415 | a blank cell is a space in the attribute asked for |
| `TextScroll.ScrollTwice` | src/base/bios/vgabios.c:411-419 | scrolling up by a and then by b is scrolling up by a+b |
| `Teletype.TypeShows` | src/base/bios/int10.c:138-209 | each character but the tab keeps the screen equal to the last rows of a sheet that never scrolls, with the cursor at the same place |
| `Teletype.TeletypeShowsSheet` | src/base/bios/int10.c:138-209 | for every stream of characters the screen shows the end of the sheet after each of them, if and only if every tab is sent where its spaces stay in the row or from the last row |
| `Teletype.TeletypeFromScreen` | src/base/bios/int10.c:138-209 | from any in-range cursor on any screen, every tab-free stream leaves the last li rows of the sheet it types |
| `Teletype.SpacesShow` | src/base/bios/int10.c:168-174 | the spaces of a tab are typed as on the sheet, and exactly when they change the row |
| `Teletype.TabExact` | src/base/bios/int10.c:168-174 | a tab does what its spaces do if and only if they stay within the row or the row is the last |
| `Teletype.TabCounterexample` | src/base/bios/int10.c:168-174 | on an 80x25 screen a tab from column 72 of row 0 leaves the cursor on the row its spaces have left |
| `Teletype.ScreenScrolled` | src/base/bios/vgabios.c:538-555 | the full-screen scroll in video memory drops the first row and appends a blank one |
| `Teletype.SpotWritten` | src/base/bios/int10.c:182-194 | writing at the computed address writes one cell of one row |
| `Teletype.PrintedCells` | src/base/bios/int10.c:182-209 | a printable character appears at the cursor in the given or the old colour; every other cell is as before, one row up if the screen scrolled, when the last row is blank in the colour at its start; the cursor moves on by one |
| `Teletype.ControlCells` | src/base/bios/int10.c:152-166 | bell, carriage return, backspace and line feed: where the cursor goes, and which cells move |
| `Teletype.TypedCell` | src/base/bios/int10.c:182-194 | a printable character on the sheet changes the cell at the cursor and no other |
| `Teletype.SheetText` | src/base/bios/int10.c:182-209 | a run of printable characters appears on the sheet in order, row by row from the cursor on, and nothing else changes |
| `Teletype.TabIsSpaces` | src/base/bios/int10.c:168-174 | a tab on the sheet is spaces up to the next multiple of eight or the margin, each in the colour that was there |
| `Teletype.Terminal.constructor` | src/base/bios/int10.c:77-88 | a terminal over the first page of video memory |
| `Teletype.Terminal.ScrollScreen` | src/base/bios/int10.c:201-206 | scrolling the screen by one line in video memory drops the first row and appends a blank one in the colour at the cursor |
| `Teletype.Terminal.Finish` | src/base/bios/int10.c:197-209 | wrapping, scrolling and placing the cursor, in place |
| `Teletype.Terminal.CharOut` | src/base/bios/int10.c:138-209 | the in-place operation, tab loop included, equals the specification on rows and leaves memory beyond the screen alone |
| `CgaScroll.Scroll` | src/base/bios/vgabios.c:432-504 | the full-screen request with no lines fills 16000 bytes linearly; any other is the simultaneous shift of scan lines inside the rectangle, nothing else changed |
| `CgaScroll.ScrollByRows` | src/base/bios/vgabios.c:478-504 | both in-place loops equal the simultaneous shift |
| `CgaScroll.DownLoopEnds` | src/base/bios/vgabios.c:497-504 | the downward loop, which counts in 16 bits, ends if and only if the top row is not row 0 |
| `CgaScroll.PixelsCleared` | src/base/bios/vgabios.c:437-452 | the one-shot clear fills every pixel except those of scan lines 197 and 199 and the right part of 195, which it leaves as they were |
| `CgaScroll.ClearExact` | src/base/bios/vgabios.c:437-452 | it does what the loop would do if and only if the bytes it wrongs, between the banks and at the end of the odd one, hold the fill already |
| `CgaScroll.ClearMissesLastLine` | src/base/bios/vgabios.c:437-452 | a pixel set in the last scan line survives a clear to black |
| `CgaScroll.CopyRow` | src/base/bios/vgabios.c:298-314 | copies the eight scan lines of a character row across the two banks |
| `CgaScroll.FillRow` | src/base/bios/vgabios.c:316-330 | fills the eight scan lines of a character row in both banks |
| `CgaScroll.RowLineIs` | src/base/bios/vgabios.c:298-330 | the bank-interleaved addressing of a row's lines is the address of those scan lines |
| `CgaScroll.LineBytes` | src/base/bios/vgabios.c:298-330 | bytes of different scan lines never share an address, despite the two banks |
| `CgaScroll.RowProgress` | src/base/bios/vgabios.c:486-495 | a turn finds its source lines untouched |
| `CgaScroll.PixelsScrolled` | src/base/bios/vgabios.c:1000-1007 | through `biosfn_read_pixel`: (x,y) shows the old pixel 8n lines away where that lies in the rectangle, the fill pattern where not, and every pixel outside is unchanged |
| `CgaScroll.SolidFill` | src/base/bios/vgabios.c:1000-1007 | a byte made of one colour fills every pixel with that colour |
| `CgaScroll.PixelDigits` | src/base/bios/vgabios.c:1000-1007 | a byte is its four pixels from left to right, base 4 |
| `CgaScroll.AddrSteps` | src/base/bios/vgabios.c:298-330 | the first two scan lines start the two banks, and each line lies 80 bytes after the last but one |
| `InterruptFrames.PushBytes` | src/include/cpu.h:254-260 | a pushed word lies at the stack pointer, low byte first, and everything else moved up by two, with SP modulo 64K |
| `InterruptFrames.OpenFrame` | src/base/core/int.c:3695-3740 | entering a frame puts flags, CS and IP (or CS and IP) on top and shifts the rest unchanged, wherever SP wraps |
| `InterruptFrames.CloseFrame` | src/base/core/int.c:3763-3793 | leaving takes those words back, whatever happened elsewhere |
| `InterruptFrames.IretFlags` | src/include/cpu.h:410-427 | after INT and IRET the flags are the old low word with IF and IOPL forced on and VIF as it was |
| `InterruptFrames.NestedFrame` | src/base/core/int.c:3695-3793 | for every properly nested body that leaves the frames alone and fits in 64K, CS, IP, SP and all earlier frames come back; after an IRET the flags too, but for the forced bits |
| `InterruptFrames.NestedCode` | src/base/core/int.c:3695-3793 | properly nested code returns SP and keeps every open frame |
| `InterruptFrames.NestedStep` | src/base/core/int.c:3695-3793 | the same for each step of such code |
| `InterruptFrames.QuietFlags` | src/base/core/int.c:3695-3793 | code that does not touch the flags itself returns VIF, TF and NT at any nesting of INT, CALL and their returns |
| `InterruptFrames.RetFlags` | src/base/core/int.c:1744-1762 | `do_ret_from_int` restores VIF, sets TF and NT again where they were set, and keeps all other flags |
| `InterruptFrames.EntryBits` | src/base/core/int.c:3695-3720 | entering an interrupt clears VIF, TF and NT, and AC exactly if CR0.AM counts as set; every other bit stays |
| `InterruptFrames.EntryMask` | src/base/core/int.c:3695-3720 | the same as one mask for each setting of CR0.AM |
| `InterruptFrames.MaskedInside` | src/base/core/int.c:3695-3720 | so a handler runs with interrupts off as the guest reads them, untraced and with NT clear, until it sets flags itself, whatever frames it enters |
| `InterruptFrames.FrameLayout` | src/base/core/int.c:3695-3740 | the bytes of a frame: IP at the new SP, then CS, then the flags, each low byte first; the registers are the target's |
| `InterruptFrames.LowByteFirst` | src/include/cpu.h:254-260 | words are kept low byte first |
| `InterruptFrames.WrapIs` | src/include/cpu.h:254-260 | stack offsets are taken modulo 64K |
| `InterruptFrames.PushedBits` | src/include/cpu.h:410-427 | the word pushed is the low flags with VIF in the place of IF |
| `InterruptFrames.SetBits` | src/include/cpu.h:410-427 | any word popped by IRET: its bits with IF and IOPL forced on, VIF from its IF, nothing else above |
| `InterruptFrames.Machine.constructor` | src/include/cpu.h:254-283 | a CPU over a 64K stack segment in memory |
| `InterruptFrames.Machine.Pushw` | src/include/cpu.h:254-260 | the two wrapped byte writes are one push, and nothing outside the segment changes |
| `InterruptFrames.Machine.Popw` | src/include/cpu.h:275-283 | the two wrapped byte reads are one pop |
| `InterruptFrames.Machine.IntTo` | src/base/core/int.c:3695-3720 | entering an interrupt, in place |
| `InterruptFrames.Machine.CallTo` | src/base/core/int.c:3722-3740 | a far call, in place |
| `InterruptFrames.Machine.Retf` | src/base/core/int.c:3763-3773 | a far return |
| `InterruptFrames.Machine.Iret` | src/base/core/int.c:3775-3793 | an interrupt return |
| `InterruptFrames.Machine.ReturnFromInt` | src/base/core/int.c:1744-1762 | the return used after a handled interrupt |
| `HltBlock.Disjoint` | src/base/core/hlt.c:113-160 | no offset has two live handlers |
| `HltBlock.Dispatch` | src/base/core/hlt.c:98-108 | an offset is served by the one live handler whose range holds it, with a relative offset below its length, and by slot 0 if and only if there is none |
| `HltBlock.FirstFitIs` | src/base/core/hlt.c:129-142 | first fit is the lowest start whose whole range is free, or there is none |
| `HltBlock.FirstFitSkip` | src/base/core/hlt.c:129-142 | starts with a conflict ahead can be skipped without changing the answer |
| `HltBlock.RegisteredOk` | src/base/core/hlt.c:149-159 | registering keeps the table right, adds one live handler with that start and length, and sends exactly its offsets to it |
| `HltBlock.UnregisterUndoes` | src/base/core/hlt.c:113-180 | unregistering the latest handler gives back the block as it was if and only if there was another handler before it; the offset table comes back in any case |
| `HltBlock.TrimLive` | src/base/core/hlt.c:175-178 | trimming the count drops no live handle and moves none; it empties the table exactly when no other handler is live |
| `HltBlock.UnregisterExact` | src/base/core/hlt.c:162-180 | unregistering leaves a right table if and only if the handler was named by its start and another stays registered; it removes exactly that handler |
| `HltBlock.LastHandlerLost` | src/base/core/hlt.c:162-180 | one handler registered and unregistered: no slot is left, not even slot 0 |
| `HltBlock.InnerOffset` | src/base/core/hlt.c:162-180 | a handler unregistered by its second offset keeps its first one in the table and takes an offset from its neighbour |
| `HltBlock.StepOk` | src/base/core/hlt.c:113-180 | each fair call keeps the table right |
| `HltBlock.EveryRun` | src/base/core/hlt.c:113-180 | so does every run of them |
| `HltBlock.InitialOk` | src/base/core/hlt.c:73-88 | a fresh block is right |
| `HltBlock.HltState.constructor` | src/base/core/hlt.c:73-88 | an empty block |
| `HltBlock.HltState.Search` | src/base/core/hlt.c:129-142 | the skip-ahead search returns what naive first fit returns |
| `HltBlock.HltState.RegisterHandler` | src/base/core/hlt.c:113-160 | the error return exactly when the table is full or nothing fits; otherwise the lowest free start, and the table stays right |
| `HltBlock.HltState.SetRange` | src/base/core/hlt.c:154-155 | writes exactly the range |
| `HltBlock.HltState.UnregisterHandler` | src/base/core/hlt.c:162-180 | refuses free offsets, otherwise clears range and slot; a fair call keeps the table right |
| `HltBlock.HltState.TrimCount` | src/base/core/hlt.c:175-178 | the loop gives back exactly the trailing free slots |
| `HltBlock.HltState.Handle` | src/base/core/hlt.c:98-108 | a live handler gets an offset within its length; slot 0 serves only offsets no live handler covers |
| `BlockMove.Machine.Move` | src/base/core/int.c:1016-1094 | the loop ends; no chunk crosses a page on either side; exactly the longest prefix with mapped pages has moved and nothing else changed; carry and AX tell whether that is all; A20 ends as it began |
| `BlockMove.Machine.constructor` | src/base/core/int.c:1016-1022 | a machine with page-mapped memory |
| `BlockMove.CopyBytes` | src/base/core/int.c:1078-1079 | the copy of one chunk |
| `BlockMove.ChunkCopied` | src/base/core/int.c:1054-1083 | a chunk that starts where the last ended extends the copied prefix |
| `BlockMove.PhysicalCopy` | src/base/core/int.c:1054-1094 | seen at physical addresses: a byte-by-byte copy, every other address unchanged |
| `BlockMove.EmptyMoveRefused` | src/base/core/int.c:1043-1050 | a move of no words is refused, because the limit checks wrap around |
| `BlockMove.AcceptsExact` | src/base/core/int.c:1043-1050 | a move is accepted if and only if the last byte of each range is within its limit and in memory, or the range ends past 4 GB at an address that is |
| `BlockMove.EndsAtFourGigabytes` | src/base/core/int.c:1043-1050 | a range that ends at 4 GB is accepted however little memory there is, for the sum wraps |
| `Keyboard.TranslateHides` | src/base/bios/int16.c:30-75 | translation is the identity for extended callers and hands others no scan code from 0x85 up |
| `Keyboard.TranslateExact` | src/base/bios/int16.c:30-75 | for callers that know only the old keyboard: ditched exactly if a new key; grey keys keep their scan code and get character 0; keypad slash and Enter become the main ones; every other key comes out unchanged |
| `Keyboard.GetNothing` | src/base/bios/int16.c:99-145 | with no key for the caller the buffer ends empty, and the hook or the kind of call decides the answer |
| `Keyboard.GetRest` | src/base/bios/int16.c:99-145 | what stays in the buffer: all from the first key not ditched on, or all after it if it was taken |
| `Keyboard.StreamAppend` | src/base/bios/int16.c:30-75 | the translated stream of two runs of keys is the two streams one after the other |
| `Keyboard.GetStream` | src/base/bios/int16.c:99-145 | a read takes the front of the translated stream, a check takes it only if it is zero, and nothing else of the stream is lost |
| `Keyboard.CheckThenRead` | src/base/bios/int16.c:99-164 | a check that reports a nonzero key is followed by a read of that key, whatever is stored meanwhile |
| `Keyboard.FifoStep` | src/base/bios/int16.c:99-202 | each store, read or check keeps: keys handed out, then the stream of the keys held, is the stream of the keys accepted |
| `Keyboard.FifoRun` | src/base/bios/int16.c:99-202 | so does any interleaving of them |
| `Keyboard.FifoFromEmpty` | src/base/bios/int16.c:99-202 | from an empty buffer the keys handed out are a prefix of the translated keys stored, and all of it once the buffer is empty |
| `Keyboard.Buffer.constructor` | src/base/bios/int16.c:187-202 | an empty ring |
| `Keyboard.Buffer.StoreKey` | src/base/bios/int16.c:187-202 | appends to the contents; refused if and only if (END-START)/2-1 keys are held |
| `Keyboard.Buffer.Advance` | src/base/bios/int16.c:131-140 | drops the oldest key, wrapping at END |
| `Keyboard.Buffer.GetKey` | src/base/bios/int16.c:99-145 | the loop over the ring equals the specification on the queue, ditched keys removed |
| `TickClock.ProductExact` | src/base/core/int.c:1329-1332 | the 32-bit product of days and ticks is exact if and only if there are at most 1365 days, and is always the product cut to 32 bits and read as signed |
| `TickClock.ReadSplits` | src/base/core/int.c:1325-1337 | a read shows the total modulo a day in CX:DX and the whole days in AX, which together spell the total below 65536 days; it never takes off more than it reports and leaves the user offset alone |
| `TickClock.ReadExact` | src/base/core/int.c:1329-1332 | a read takes the days it reports off the clock if and only if the total is below (MAX_ROLLOVER+1) days |
| `TickClock.OverflowExample` | src/base/core/int.c:1329-1332 | setting the largest time and reading once leaves more on the clock than was set |
| `TickClock.NormalisedIs` | src/base/core/int.c:1371-1377 | the set loop ends, with the base raised by whole days just until the sum is non-negative |
| `TickClock.ReadAfterSet` | src/base/core/int.c:1367-1392 | a read at the instant of a set returns the value modulo a day |
| `TickClock.Step` | src/base/core/int.c:1310-1392 | reads and sets in time order keep the total non-negative |
| `TickClock.TicksConserved` | src/base/core/int.c:1310-1337 | between sets, reported midnights times a day plus the current total never fall short of the elapsed ticks, and account for them exactly if and only if no read found more than MAX_ROLLOVER midnights |
| `TickClock.SinceSet` | src/base/core/int.c:1310-1392 | from a set on, its value plus the time since is accounted for if and only if the reads since were timely |
| `TickClock.Clock.constructor` | src/base/core/int.c:1310-1326 | a clock with given offsets |
| `TickClock.Clock.ReadTime` | src/base/core/int.c:1325-1337 | the registers hold the time of day and the whole days, and the clock then shows just the time of day if and only if there were at most MAX_ROLLOVER days |
| `TickClock.Clock.SetTime` | src/base/core/int.c:1367-1392 | the loop and the user offset |
| `Revector.UnrevectOk` | src/base/core/int.c:1858-1879 | unrevecting keeps the invariant, and hands out an entry if and only if the vector has an unrevect function, is not kept, and was not handed out since the reset; a revect handler is not needed |
| `Revector.SimpleOk` | src/base/core/int.c:1880-1891 | so does unrevecting in place, which needs a revect handler |
| `Revector.PostBootOk` | src/base/core/int.c:1917-1928 | so does the post-boot sequence |
| `Revector.ResetSound` | src/base/bios/setup.c:117-125 | a reset, revect_setup followed by the vector table of bios_setup, makes any settled state sound; only saved chains are carried over |
| `Revector.SetupNeedsBios` | src/base/core/int.c:3886-3904 | revect_setup alone would do so if and only if no vector still led to its own entry by the emulator's doing |
| `Revector.SetupAloneLoops` | src/base/core/int.c:3886-3904 | boot, revect_setup without bios_setup, INT 21h: the vector is chained to itself with no outsider involved |
| `Revector.FdppOk` | src/plugin/fdpp/boot.c:203-206 | booting fdpp, which may switch revectoring and the hooks off in mid-run, keeps the invariant |
| `Revector.StepOk` | src/base/core/int.c:3644-3680 | no step fails either assertion of `do_int` or breaks the invariant: interrupts, resets, boots, hooks, and writes of the vector table by anybody |
| `Revector.EveryRun` | src/base/core/int.c:3644-3680 | over any run a revectored vector has a handler and is not hooked, so neither `assert` reached from `do_int` fires; each entry is handed out at most once per reset; a chain to a vector's own entry is an outsider's work |
| `Revector.OnlyForeign` | src/base/core/int.c:1858-1891 | only an outsider's own act, writing or naming an entry that is not its own to use, is ever held against it |
| `Revector.NoSelfChain` | src/base/core/int.c:1802-1891 | from start-up, whatever resets, boots and interrupts happen, no vector's saved chain leads back to its own entry unless an outsider supplied that entry |
| `Revector.SettingsExact` | src/base/core/int.c:135-140 | no run fails an assertion of `do_int` if and only if automatic int_hooks is combined with one of the values -1, 0 and 1 of force_revect |
| `Revector.UnsettledFails` | src/plugin/fdpp/boot.c:203-206 | with automatic int_hooks and any other force_revect, booting fdpp leaves INT 28h revectored without a handler |
| `Revector.HandedOnce` | src/base/core/int.c:1858-1891 | once an entry was handed out, asking again yields nothing |
| `Revector.PostBootHooks` | src/base/core/int.c:1917-1928 | after booting every vector with a handler is hooked and not revectored, except a kept helper interrupt |
| `Revector.SimpleChains` | src/base/core/int.c:1880-1891 | hooking in place saves the table entry it replaces as the chain, puts the redirect entry there, and touches no other vector |
| `Revector.UnrevectChains` | src/base/core/int.c:1858-1879 | hooking for DOS saves the handler DOS names (the BIOS for the helper interrupt) and leaves the table to DOS |
| `Revector.IntChains` | src/base/core/int.c:3644-3680 | a revectored interrupt saves the handler in the table as the chain and changes nothing else |
| `Revector.PostBootChains` | src/base/core/int.c:1917-1928 | after booting each vector it hooked chains to what the table held before, the helper interrupt to the BIOS; every other vector is as it was |
| `Revector.ChainStays` | src/base/core/int.c:1802-1891 | over any run without a reset the chain of a hooked vector stays the handler it was given |
| `Revector.HandledExact` | src/base/core/int.c:1802-1891 | from a reset on, over every run: the emulator handles a vector itself if and only if revectoring is on, the vector has a handler and DOS has not taken it |
| `Revector.ResetExact` | src/base/bios/setup.c:117-125 | a reset hooks nothing, keeps settings and chains, and revectors exactly the vectors with a handler |
| `Revector.FdppExact` | src/plugin/fdpp/boot.c:203-206 | booting fdpp switches automatic revectoring off altogether, and automatic hooks follow it |
| `Revector.VectorSet` | src/base/core/int.c:1858-1891 | a write of the vector table by anybody changes that entry and no chain or flag |
| `Revector.HookTable` | src/base/core/int.c:3644-3680 | which vectors have an unrevect function, and which of them lose their handler with int_hooks off |
| `Revector.Machine.constructor` | src/base/core/int.c:3886-3904 | nothing revectored or hooked yet |
| `Revector.Machine.SetUpRevectoring` | src/base/core/int.c:3886-3904 | the loops of revect_setup, which leave the vector table alone |
| `Revector.Machine.PostHook` | src/base/bios/setup.c:117-181 | the reset and the vector table written after it |
| `Revector.Machine.Interrupt` | src/base/core/int.c:3644-3680 | the revectoring part of `do_int`; both its assertions hold |
| `Revector.Machine.ClearRevectored` | src/base/core/int.c:1867-1874 | clears one bit if set |
| `Revector.Machine.Hook` | src/base/core/int.c:1858-1879 | the unrevect function with its fixups |
| `Revector.Machine.HookInPlace` | src/base/core/int.c:1880-1891 | the simple form |
| `Revector.Machine.AfterBoot` | src/base/core/int.c:1917-1928 | the post-boot sequence |
| `Revector.Machine.DisableRevect` | src/base/core/int.c:4002-4013 | switches revectoring off where it was automatic |
| `Revector.Machine.BootFdpp` | src/plugin/fdpp/boot.c:203-206 | and lets automatic hooks follow |
| `Revector.Machine.NextVector` | src/base/core/int.c:276-294 | finds the next vector with a handler that is not kept, or tells there is none; its assertion holds |
| `Ports.InWBytes` | src/base/core/ports.c:217-232 | a word read is two byte reads, low port first, assembled little-endian, for every mix of handlers |
| `Ports.InDBytes` | src/base/core/ports.c:263-278 | a double-word read is four byte reads upwards, whether wide, as two words, or straddling handlers |
| `Ports.OutWBytes` | src/base/core/ports.c:241-254 | a word write is two byte writes, low byte and port first |
| `Ports.OutDBytes` | src/base/core/ports.c:280-294 | a double-word write is four byte writes upwards |
| `Ports.WordSteps` | src/base/core/ports.c:217-254 | the same for words with the two ports, their order and the digits written out |
| `Ports.DwordSteps` | src/base/core/ports.c:263-294 | and for double words with all four |
| `Ports.SharedReads` | src/base/core/ports.c:222-225 | ports that share a read function may all use the first one's handler |
| `Ports.SharedWrites` | src/base/core/ports.c:243-247 | likewise for writes |
| `Ports.WrittenReadsBack` | src/base/core/ports.c:189-294 | where the four ports hold bytes, a double word written reads back as itself, by words, and after being written by words, whatever handlers lie under the four ports |
| `Ports.WordWrites` | src/base/core/ports.c:241-294 | writing the two halves as words is the four byte writes of the double word |
| `Ports.WordsBytes` | src/base/core/ports.c:608-639 | a repeated word read is 2n byte reads alternating between the two ports, word k spelled by bytes 2k and 2k+1 |
| `Ports.WordsOutBytes` | src/base/core/ports.c:641-672 | a repeated word write is the byte writes of its words in order |
| `Ports.Bus.constructor` | src/base/core/ports.c:54-68 | a bus with tables and devices |
| `Ports.Bus.ReadWord` | src/base/core/ports.c:217-232 | the choice between wide and split, as specified |
| `Ports.Bus.WriteWord` | src/base/core/ports.c:241-254 | likewise for writes |
| `Ports.Bus.ReadDword` | src/base/core/ports.c:263-278 | the four-way test and the split into words |
| `Ports.Bus.WriteDword` | src/base/core/ports.c:280-294 | likewise for writes |
| `Ports.Bus.RepReadWords` | src/base/core/ports.c:608-639 | the loop fills exactly the words upwards or downwards from the base with the port's answers, and nothing else |
| `Ports.Bus.RepWriteWords` | src/base/core/ports.c:641-672 | the loop writes the words upwards or downwards from the base, in that order |
| `PortTable.RegisterAnswer` | src/base/core/ports.c:1092-1126 | a registration is refused for lack of slots exactly if its name is new and 254 are taken, and succeeds otherwise exactly if every port of its range is free |
| `PortTable.RegisterLookup` | src/base/core/ports.c:1092-1126 | the lookup after it: ports of the range, up to the first one taken, lead to the handler of that name, every other port where it did |
| `PortTable.RegisterName` | src/base/core/ports.c:1096-1116 | a known name keeps the handler it has; a new one gets the device's functions, missing byte functions replaced |
| `PortTable.RegisterProper` | src/base/core/ports.c:1092-1126 | slots stay told apart by name, at most 254, and every port leads to one |
| `PortTable.PortKept` | src/base/core/ports.c:1118-1126 | whatever is registered later, refused or not, a taken port keeps its handler |
| `PortTable.NameKept` | src/base/core/ports.c:1096-1116 | and a name its functions |
| `PortTable.AllRegisteredExact` | src/base/core/ports.c:1092-1126 | a list of devices is registered without complaint if and only if their ports were free and no two ranges overlap |
| `PortTable.LookupOwn` | src/base/core/ports.c:1092-1126 | after that each port leads to the handler of the device whose range it is in |
| `PortTable.LookupOther` | src/base/core/ports.c:1118-1126 | and a port in no range where it did |
| `PortTable.FirstOfName` | src/base/core/ports.c:1096-1116 | a name belongs to the first device registered under it |
| `PortTable.RegisteredReads` | src/base/core/ports.c:217-294 | a double-word access within the range of a device so registered is four byte accesses of that device, low port first |
| `PortTable.Registrar.constructor` | src/base/core/ports.c:820-829 | every port starts with slot 0 |
| `PortTable.Registrar.FindSlot` | src/base/core/ports.c:1096-1100 | the search by name |
| `PortTable.Registrar.RegisterHandler` | src/base/core/ports.c:1092-1126 | the search and the loop over the ports, in place |
| `PortServer.StepInv` | src/base/core/ports.c:928-1000 | each step of either process keeps: what the server has done is what its loop makes of the requests it has taken, and the client has read one answer per finished call |
| `PortServer.RunInv` | src/base/core/ports.c:928-1000 | so does every interleaving |
| `PortServer.Deterministic` | src/base/core/ports.c:928-1000 | whatever the client sends and however the processes interleave, the answers read depend on the requests sent alone |
| `PortServer.ServeKeepsTag` | src/base/core/ports.c:945-999 | a request is answered, under its own type and port, if and only if the entry point the switch calls for it exists; byte requests need none |
| `PortServer.FedAlive` | src/base/core/ports.c:928-1000 | the server outlives a stream if and only if every request finds the entry point it needs, in the handlers of the held address if there is one |
| `PortServer.BytesServable` | src/base/core/ports.c:945-951 | byte requests are served whatever the handlers lack |
| `PortServer.FedPaired` | src/base/core/ports.c:936-944 | a servable stream in which no PCI address follows another is answered one for one, in step, and the devices see its requests in order |
| `PortServer.EchoAt` | src/base/core/ports.c:936-944 | two PCI addresses in a row: the second is echoed as if it were an answer |
| `PortServer.GoesShort` | src/base/core/ports.c:945-999 | a stream that asks for a missing entry point is left short of answers from there on |
| `PortServer.InStepExactlyPaired` | src/base/core/ports.c:936-1000 | for any table: the answers are in step with the ordinary requests if and only if PCI addresses are paired and every request is servable |
| `PortServer.RunInStep` | src/base/core/ports.c:509-549 | the same of every run, whatever the client sends: all answers read match their calls if and only if that holds |
| `PortServer.Quiet` | src/base/core/ports.c:380-396 | when a paired client is between operations both pipes are empty, the server waits, and every request has been served |
| `PortServer.ServeDirect` | src/base/core/ports.c:945-998 | the server's own splitting, by bytes where the dispatcher goes by words, comes to the same as the dispatcher, asking agreement of the handlers only of requests that are split |
| `PortServer.DirectBytes` | src/base/core/ports.c:945-998 | a request made directly is the byte accesses of its width upwards, and is answered under its own type and port with the number they spell, or with its own word if it writes |
| `PortServer.PairDirect` | src/base/core/ports.c:936-944 | a pair is the address written and the data request made immediately after it |
| `PortServer.FedDirect` | src/base/core/ports.c:928-1000 | what the server makes of a paired stream is what the requests made directly would come to |
| `PortServer.PipesShort` | src/base/core/ports.c:509-549 | a paired client never has more than two requests and one answer under way |
| `PortServer.LogInOrder` | src/base/core/ports.c:936-944 | the devices have seen a prefix of what was sent, never ending in an address without its data access |
| `PortServer.ClientSees` | src/base/core/ports.c:380-549 | every run, every interleaving, of a client that pairs its PCI addresses and whose requests are servable and split rightly: answers as if made directly, pipes empty and devices up to date between operations, each address right before its data access |
| `PortServer.OwnAnswer` | src/base/core/ports.c:380-396 | the answer a client reads is the one its own latest request deserves |
| `PortServer.StepsEnd` | src/base/core/ports.c:928-1000 | every step but a new call is progress |
| `PortServer.NeverStuck` | src/base/core/ports.c:928-1000 | a waiting client of this kind is never stuck and is at most twelve steps from its answer |
| `PortServer.PortServerLoop` | src/base/core/ports.c:928-1000 | the loop of the server computes the stream function: answers, devices, order of accesses, and where it stops |

## Left out

- CoopthShutdown.ShutdownEnds: a body on its way out starts, runs, attaches, detaches and cancels no thread, for then the totals drop by another amount; such bodies are covered by `CoopthTheorems.EveryRun`.
- CoopthShutdown.DoneEnds: the same restriction, and the caller is the main program (no thread is current).
- CoopthTheorems.PostHandlersExactlyOnce: threads ever started as custom ones are modelled, with their deferred handler, but not accounted for.
- CoopthScheduler.Scheduler: the methods without a row are the value specification carried out on fields; instances are values in a sequence, so aliasing of instance structures is not modelled.
- Coroutine switching, `setjmp`/`longjmp`, stacks and backtraces of cooperative threads: the body is an arbitrary script instead.
- The back-end callbacks, context, sleep and thread-count notification handlers of threads, user data: opaque to the scheduler's own state.
- `run_traverser`, quick scheduling, `coopth_join` and `coopth_flush`: loops over the operations that are modelled; no fairness is claimed.
- Thread ids created in groups (`coopth_create_multi`): each id is a thread of its own here.
- Post and cleanup handlers do not call back into the scheduler; only bodies do.
- Teletype.Terminal.CharOut: at most 255 columns and 256 rows, the first page, no speaker.
- CgaScroll.Scroll: 1-bpp modes, other pages and character heights, columns beyond the screen; scrolling down from row 0, which never ends (`CgaScroll.DownLoopEnds`).
- Planar and linear video modes, glyph drawing, mode setting, cursor shape and CRTC registers.
- InterruptFrames.NestedFrame: the body does not write into open frames; the debugger variant of `set_EFLAGS` is left out.
- BlockMove.Machine.Move: overlapping ranges, on which C leaves `memcpy` undefined, and ranges that wrap past 4 GB; the bit layout of the two descriptors in guest memory.
- HltBlock.HltState.UnregisterHandler: an inner offset whose cleared range runs past the C array.
- Keyboard.Buffer.GetKey: idling while a blocking read waits; the INT 15h keyboard hook is a parameter.
- The BIOS and Linux time modes of INT 1Ah and the copies of the tick count in the BIOS data area.
- Revector.EveryRun: no debugger; what handlers do after `do_int` has dispatched.
- Ports.InDBytes: C leaves the order of the two operands of `|` open; the model evaluates them left to right. Port tracing and `port_rep_*` for bytes and double words.
- PortTable.Registrar.RegisterHandler: fast-access flags, I/O permissions, and AND/OR masks of ports.
- PortServer.ClientSees: all requests go through the server; the branches that access the hardware directly are left out, as is shutting the server down. The server serves the data request of a PCI pair through the handlers looked up for the address port; the theorem asks that the ports the request touches have the same ones.
- DOS, filesystem, mouse, network and user-interface plumbing of `int.c`.
