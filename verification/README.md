# Verified models of the lock-free list and the ring-buffer queue

This project models two persistent, lock-free data structures and proves what they promise.

* **The list** (`linkedlist/`): Harris' linked list over an array of node slots, with the delete mark in a
  node's own `next` word, a bitmap that allocates slots, epoch-based reclamation that frees them, and
  persistence of single node lines in ADR mode. `ListMachine` is a state machine in which any number of
  threads run add, remove and contains; a step makes at most one access to shared memory, and any node line
  may reach persistent memory at any moment. `ListInv` states what every step keeps; `ListHeap`, `ListStable`,
  `ListSteps`, `ListEffects`, `ListUpdates` and `ListSafety` prove it, and `ListSteady` says which runs keep it.
  `ListResults`, `ListLinear`, `ListProgress`, `ListSolo`, `ListUnwind`, `ListWaitFree`, `ListDurable`, `ListMarks`
  and `ListCrash` draw the consequences for whole runs, and `RetiredLists` those for the room in the retired lists.
  `ListPairs` and `ListOvertake` build a run that is not steady, `ListLoss` one after which a crash loses a key (see
  below).
* **The list run by one thread** (`SequentialList`, with `ListShape` and `Compaction`): search, contains, add,
  remove and recovery as methods over arrays. `LogReplay` is the replay of the redo log with crashes at every
  point, as a state machine.
* **The allocator and the reclaimer** (`SlotBitmap`, `Reclaimer`): the bitmap and each thread's list of retired
  slots, as classes over arrays with the original's pointer-to-pointer loops.
* **The queue** (`ring-buffer/p_rb_q_eadr.cc`): Krizhanovsky's ring with N producers and M consumers. `Ring` is
  the state machine, with scans of the announced positions that take one step per position and slots that are
  copied word by word; `RingSafety`, `RingResults` and `RingProgress` prove its properties. `RingRecovery` holds
  the functions that recovery computes and what they do to the contents of the queue, `RingSurvivors` where each
  call ends up, `RingQueue` recovery itself as a class over arrays, and `RingCrash` which crashes of the state
  machine leave what it needs, with a run to one that does not in `RingStale`. `RingDurability` puts the two
  together: which pushes survive a crash. `RingOrder` relates the order of tickets to the order of calls.
  `Masking` says what `& Q_MASK` means.

LL_SIZE, MAX_THREADS, Q_SIZE and the numbers of threads are arbitrary. Memory is sequentially consistent, and
tickets, epochs and counters do not wrap.

## How the concurrent proof of the list works

Every slot carries a ledger entry (history, not read by any step) saying whether it is free, private to a
thread, linked, unlinked but not yet retired, or retired, and when it was unlinked, counted in snips. A running
operation is *sheltered*: every slot that was linked at some time since it stored its reservation leads, by its
link, to such a slot with a larger key, and was not retired in an epoch before the reservation. Walking through
unlinked nodes is therefore safe, and hindsight (the key was absent at some time since the call) is part of the
shelter. A thread that frees has found at most the reservation of every operation that can see one of its retired
slots, although neither its scan nor start_op is atomic; only the second of the two loads of get_min can spoil
that. For durability, a thread owes the line it has changed until it has persisted it,
and until then its reservation protects the node that the stale durable link leads to.

## What the code does not promise

* `get_min` reads each reservation twice in its source text, once to compare it and once to copy it
  (ebr.h:168-169), and so does the state machine (steps `EScan` and `ELoad`). If another thread moves in
  between, the copy may be above a reservation that the scan has already passed. Call a run *steady* if each scan
  ends with a minimum that is not above the reservation of an operation that can see a slot on the scanner's
  retired list (`ListInv.ScanSound`, `ListInv.SteadyRun`). A run keeps the invariant in all its states if and only
  if it is steady (`ListSteady.RunKeepsInvIff`), and the results on runs of the list are stated for steady runs.
  A run is steady if no copying load is above the minimum it replaces, or above a reservation that counts
  (`ListSteady.CarefulIsSteady`). That holds of every run if the compiler turns the two reads into one load, since a
  copy that directly follows its comparison is not above what it replaces (`ListSolo.AloneIsSteady`).
  `ListOvertake.OvertakingFreesInUse` is a run from init that is steady up to the end of one scan and in which a slot
  is then freed that another thread is about to read: 127 pairs of add and remove, one more add and remove, three
  threads. `Reclaimer.TwoLoadsSoundIff` says exactly when the minimum that a whole scan returns is sound.
* Recovery reads a mark as deleting the nodes behind the marked one, while remove marks the deleted node itself.
  It keeps the key set exactly when no marked node precedes an unmarked one
  (`Compaction.CompactKeepsKeysIff`, with an example in `Compaction.CompactCanSwapKeys`).
* `__builtin_ffs` takes an int, so the allocator finds only the low 32 slots of every 64. The comment in
  config.h:23-27 that LL_SIZE - 2 slots are usable is wrong: it is LL_SIZE / 2 with the sentinels
  (`SlotBitmap.HalfIsFindable`).
* `init` names the pointer field and not the head node when it persists the head (linkedlist.c:283), so the
  head's durable link may still be 0, the head itself. The durable links form a list exactly from the first
  step on that persists the head's line (`ListDurable.DurableImageIsSorted`, `ListDurable.HeadSettlesIff`).
* A crash can lose a key whose add has returned 1. An add walks over links that other threads have changed and not
  yet persisted, and persists only the line it changes itself: `ListLoss.AddIsLost` is a run in which add(5) returns
  1 while persistent memory leads past its node, and its log entry is cleared before it returns
  (linkedlist.c:493-499). For every run, a crash loses no key in front of which no line is owed
  (`ListMarks.PresentStaysPresent`), and brings back no deleted key but one whose mark is just being persisted
  (`ListMarks.DeletedStaysDeleted`).
* The pop half of queue recovery is meant to move what has not been popped over what has. It takes the tickets
  from one saved pop to the next as not popped, the first of them included, and passes over those in front. It
  delivers the right values exactly when there is no pop to move (`RingRecovery.PopHalfIsRightIff`).
* `src` and `dst` of queue recovery are declared as int. Pushes survive exactly if source and destination
  compare as ints the way the tickets do (`RingRecovery.SurvivorsAreMovedIff`, with a push that is lost in
  `RingRecovery.TruncationLoses`).
* push announces the value of head_ before it draws its ticket, and pop likewise. A crash while such an
  announcement is stale can leave the recomputed tail ahead of the recomputed head: `RingStale` has a run of 26
  steps that ends there (`RingStale.StaleCrashIsNotRecoverable`). Exactly which crashes leave what recovery needs
  is stated for every state of every run (`RingCrash.CrashIsRecoverableIff`, `RingCrash.PopsAreMovableIff`);
  those without a stale announcement do (`RingCrash.SteadyCrashIsRecoverable`).
* Queue recovery takes `popped_elems.back()` of a list that may be empty (p_rb_q_eadr.cc:270). The value is then
  unused; the model does without it.
* The tail's key is never read, so keys need only be above INT_MIN.

## Model

| member | source | states |
|---|---|---|
| ListSafety.StepKeepsInv | linkedlist/linkedlist.c:377-563 | every step of every thread, in any interleaving, keeps the invariant of the list, its allocator and its reclaimer; only the step that ends a scan of the reservations has a condition to meet |
| ListSteady.StepKeepsInvIff | linkedlist/include/ebr.h:162-181 | a step keeps the invariant if and only if it does not end a scan with a minimum above the reservation of an operation that can see a slot on the scanner's retired list |
| ListSafety.WriteBackKeepsInv | linkedlist/linkedlist.c:86-89 | so does a node line that reaches persistent memory unasked |
| ListSafety.FreedIsUnseen | linkedlist/include/ebr.h:162-195 | in every state that satisfies the invariant, what empty is about to free is in nobody's view, although get_min and start_op are not atomic |
| ListSafety.OtherScansKept | linkedlist/include/ebr.h:222-232 | a reservation made or withdrawn while another thread scans or frees spoils neither the scan nor what it has found |
| ListSafety.OwnScanKept | linkedlist/include/ebr.h:162-172 | with both loads of get_min as steps of their own, and if the copied value is not above a reservation already read whose operation can see a slot the scanner has retired: the minimum so far bounds all those reservations |
| ListSafety.RunsKeepInv | linkedlist/linkedlist.c:377-563 | the invariant holds in every state of every steady run from init |
| ListSteady.RunKeepsInvIff | linkedlist/linkedlist.c:377-563 | a run from init keeps the invariant in all its states if and only if it is steady |
| ListSteady.CarefulIsSteady | linkedlist/include/ebr.h:167-170 | a run is steady if each of its copying loads either does not overtake or copies a value that is not above a reservation that counts |
| ListPairs.Pairs | linkedlist/linkedlist.c:473-563 | for every k below 128, thread 0 alone gets from an empty list, by k pairs of add and remove, to a state in which it has retired the first k slots that can be found, 64 in each epoch, and the rest are free |
| ListOvertake.OvertakingFreesInUse | linkedlist/include/ebr.h:162-195 | a run from init, steady up to the end of a scan whose last copying load has overtaken, at whose end a slot is free that another thread is about to read |
| ListResults.ChainIsPath | linkedlist/linkedlist.c:377-438 | in steady runs, following links from the head gives a strictly sorted path to the tail that holds every published unmarked node, and its unmarked inner nodes carry exactly the key set |
| ListResults.MarkedIsFrozen | linkedlist/linkedlist.c:532-559 | in steady runs, a marked node's link never changes again until its slot is handed out for a new node |
| ListResults.OnlyMarkedLeave | linkedlist/linkedlist.c:411-425 | in steady runs, a snip takes only marked nodes off the list |
| ListResults.SlotConservation | linkedlist/linkedlist.c:190-220 | in steady runs, every slot is in exactly one place: free, new node of one thread, on the list, or at one position among the nodes one thread has unlinked or retired |
| ListResults.RetiredListsSorted | linkedlist/include/ebr.h:106-122 | in steady runs, each thread's retired list is sorted by retire epoch, holds no slot twice and nothing from the future |
| ListResults.ReachedIsHeld | linkedlist/linkedlist.c:390-404 | whatever a running operation uses or can reach from there or from the head was linked at some time since its reservation |
| ListResults.NoUseAfterReclaim | linkedlist/include/ebr.h:162-232 | in steady runs, such a slot is not freed, reused or given another key until the operation ends, and was not retired before its reservation: no use after reclaim, no ABA |
| ListLinear.KeySetChanges | linkedlist/linkedlist.c:473-563 | in steady runs, the key set changes exactly in a linking CAS of add, which inserts its absent key, and in a marking CAS of remove, which deletes its present key |
| ListLinear.CallSoFar | linkedlist/linkedlist.c:473-563 | in steady runs, a call takes effect at most once, and the thread's history says whether it has |
| ListLinear.CallHasItsArguments | linkedlist/linkedlist.c:473-482 | operation and key of a thread at work are those it was called with |
| ListLinear.WorkBeginsWithCall | linkedlist/linkedlist.c:473-482 | a thread that goes to work has been called, with some operation and key |
| ListLinear.UpdateLinearizes | linkedlist/linkedlist.c:473-563 | in steady runs, a call of add or remove with key val that returns 1 changed the set in exactly one step between call and return: add inserted val, which was absent, remove deleted val, which was present |
| ListLinear.ReadLinearizes | linkedlist/linkedlist.c:444-467 | in steady runs, any other call with key val changed nothing, and in some state between call and return val was in the key set or not as the call says, even if contains walked through unlinked nodes |
| ListLinear.RetriesArePaidFor | linkedlist/linkedlist.c:390-431 | in steady runs, a call starts over at most as often as CAS operations of other threads succeeded since it was called |
| ListProgress.EachRetryIsPaidFor | linkedlist/linkedlist.c:390-431 | in steady runs, whenever a call starts over, a CAS of another thread succeeded since the call last read the head |
| ListSolo.SoloStepDescends | linkedlist/linkedlist.c:491-511 | each step of a call run alone, unless it is about to copy a value above its own reservation, spends a retry that others have paid for, or lowers a rank drawn from the program point and the keys ahead |
| ListUnwind.AloneItReturns | linkedlist/linkedlist.c:531-551 | from every state of every steady run, even one in which its next load overtakes, a call run alone returns, provided an add that has no node yet finds a free slot |
| ListWaitFree.ContainsIsWaitFree | linkedlist/linkedlist.c:444-467 | in steady runs, a call of contains makes at most three steps of its own for each int there is and nine more, whatever the other threads do |
| ListDurable.MoveIsDisciplined | linkedlist/linkedlist.c:414-416 | a thread that changes a link owes the line and protects the old target until it has persisted it; new nodes are durable before they are linked |
| ListDurable.StepKeepsDurable | linkedlist/linkedlist.c:491-512 | every step of a steady run keeps the durable image in order |
| ListDurable.WriteBackKeepsDurable | linkedlist/linkedlist.c:86-89 | so does every spontaneous write-back of a line |
| ListDurable.DurableImageIsSorted | linkedlist/linkedlist.c:377-563 | in every state of every steady run the durable links form a path from slot 0 to slot 1 with strictly increasing durable keys over slots that are not free, exactly if the head's durable link is no longer the one it was allocated with |
| ListDurable.HeadSettlesIff | linkedlist/linkedlist.c:275-286 | if init has left the head's durable link stale, it is settled exactly from the first step on that persists the head's line |
| ListMarks.RunsKeepMarks | linkedlist/linkedlist.c:540-547 | in every state of every steady run, a marked node has a durable mark unless the thread that marked it is just about to persist it, and no other node has one |
| ListMarks.DeletedStaysDeleted | linkedlist/linkedlist.c:540-547 | in every state of every steady run, a key found in persistent memory is in the key set, or a thread has just deleted it and not yet persisted the mark |
| ListMarks.PresentStaysPresent | linkedlist/linkedlist.c:490-494 | in every state of every steady run, a key of the set is found in persistent memory unless some thread still owes the line of a node with a lower key |
| ListLoss.AddIsLost | linkedlist/linkedlist.c:490-504 | a run in which add(5) has returned 1 while persistent memory leads past its node, because another thread still owes the line of the head |
| ListMarks.DurableImageHoldsKeys | linkedlist/linkedlist.c:473-563 | whenever no thread owes a line or a mark and the head has settled, the unmarked inner nodes of the durable path carry exactly the key set |
| ListCrash.RunsUseFindable | linkedlist/linkedlist.c:195-205 | in steady runs, every slot in use but the sentinels is one the allocator can find |
| ListCrash.CrashImageIsList | linkedlist/linkedlist.c:222-254 | whenever a steady run crashes after the head's line has been persisted, persistent memory holds a chain that meets the requirements of recovery |
| RetiredLists.RetiredFit | linkedlist/linkedlist.c:195-205 | in steady runs, a thread has at most as many slots on its retired list as can be found beside the sentinels |
| RetiredLists.ListAddFinds | linkedlist/include/ebr.h:54-70 | in steady runs, new_node finds a node whenever a thread retires a slot: the exit for lack of memory is never taken there |
| RetiredLists.EmptyLeavesNoOlder | linkedlist/include/ebr.h:181-194 | in every run, a thread that leaves the loop of empty has no entry on its list any more that was retired before the minimum found |
| SequentialList.PList.NewNode | linkedlist/linkedlist.c:190-213 | takes the lowest free slot that can be found, or fails when there is none |
| SequentialList.PList.Init | linkedlist/linkedlist.c:275-286 | the sentinels become slots 0 and 1 of an empty list |
| SequentialList.PList.Traverse | linkedlist/linkedlist.c:391-405 | the traversal ends at the last unmarked node before the key and the first unmarked one not before it, with only marked nodes between |
| SequentialList.PList.Search | linkedlist/linkedlist.c:377-438 | run alone, from any marks, it returns adjacent nodes around the key, keeps the key set, and takes out and retires exactly the marked nodes it passed, each once |
| SequentialList.PList.ContainsKey | linkedlist/linkedlist.c:444-467 | returns whether the key is in the set and changes nothing |
| SequentialList.PList.Add | linkedlist/linkedlist.c:473-512 | adds the key, returns whether it was absent, fails only without a free slot; the log entry is left as the code leaves it |
| SequentialList.PList.Remove | linkedlist/linkedlist.c:519-563 | deletes the key, returns whether it was present, retires its node; the log entry is cleared |
| SequentialList.CutStaysApart | linkedlist/linkedlist.c:418-425 | what is retired stays disjoint from the chain and free of duplicates |
| ListShape.FoundDecides | linkedlist/linkedlist.c:482-486 | the node a search ends at holds the key exactly when the key is in the set |
| ListShape.CutKeepsKeys | linkedlist/linkedlist.c:411-416 | taking out marked nodes behind an unmarked one keeps the list sorted and its key set |
| ListShape.InsertAddsKey | linkedlist/linkedlist.c:490-494 | linking a node into the gap keeps the list sorted and adds its key |
| ListShape.MarkDropsKey | linkedlist/linkedlist.c:540-544 | marking a node takes exactly its key out of the set |
| SequentialList.PList.CompactNode | linkedlist/linkedlist.c:238-248 | one round of the compaction loop |
| SequentialList.PList.CompactList | linkedlist/linkedlist.c:237-252 | the loop ends for every mark pattern with the compacted chain, its size, and clear bits for exactly its slots |
| SequentialList.PList.Recover | linkedlist/linkedlist.c:222-254 | recovery before the log: size is the interior length, a bit is clear exactly if its slot is on the chain, and the list is valid |
| Compaction.LoopIsCompact | linkedlist/linkedlist.c:237-247 | the loop, turn by turn, computes the recursive compaction |
| Compaction.TurnsKeepCompact | linkedlist/linkedlist.c:237-247 | a crash between any two turns of the loop does no harm: starting over ends with the same chain |
| Compaction.CompactIsSubchain | linkedlist/linkedlist.c:237-247 | it leaves a sub-chain in the same order |
| Compaction.CompactSurvivors | linkedlist/linkedlist.c:237-247 | exactly which nodes are left: a node goes if and only if the node in front of it is marked, unless it and all behind it up to the tail are marked; of those left only these keep their marks |
| Compaction.CompactStaysSorted | linkedlist/linkedlist.c:237-247 | it leaves strictly sorted keys |
| Compaction.CompactWithoutMarks | linkedlist/linkedlist.c:237-247 | without marks it changes nothing |
| Compaction.CompactKeepsKeysIff | linkedlist/linkedlist.c:239-247 | it keeps the key set exactly when no marked node precedes an unmarked one |
| Compaction.CompactCanSwapKeys | linkedlist/linkedlist.c:239-247 | on head, A marked, B, tail it brings A back and loses B |
| SequentialList.CompactedKeys | linkedlist/linkedlist.c:222-254 | the same for the recovered arrays |
| LogReplay.StepKeepsInv | linkedlist/linkedlist.c:256-271 | every step, crash or write-back keeps: starting over from persistent memory leads to the same key set |
| LogReplay.LastEntryDecides | linkedlist/linkedlist.c:260-266 | one replay in slot order: for each key the last entry in flight decides |
| LogReplay.ReplaySurvivesCrashes | linkedlist/linkedlist.c:256-271 | however often replay crashes and restarts, with the nested log writes of thread 0: when it is done, a key is present if and only if the last entry in flight for it is an add, or there was none and it was present before; the log is clear |
| LogReplay.ReplayFinishes | linkedlist/linkedlist.c:91-118 | left alone, it gets there from every state crashes can lead to |
| SequentialList.PList.RedoEntry | linkedlist/linkedlist.c:260-269 | redoing one entry adds its key or deletes it, clears the entry, and disturbs no entry but 0; without a slot for an add it ends with the entry still in flight |
| SequentialList.PList.Replay | linkedlist/linkedlist.c:258-271 | after the uninterrupted loop on the arrays a key is present if and only if the last entry in flight for it is an add, or there was none and it was present before |
| SlotBitmap.Bitmap.ClearBit | linkedlist/include/bitmap.h:28-29 | takes exactly one slot and says whether it was free |
| SlotBitmap.Bitmap.SetBit | linkedlist/include/bitmap.h:31-32 | frees exactly one slot |
| SlotBitmap.Ffs | linkedlist/include/bitmap.h:37 | the lowest set bit among the low 32 of the word |
| SlotBitmap.Bitmap.FindFirst | linkedlist/include/bitmap.h:38-48 | the lowest free slot in the low half of its word, or 0 exactly if there is none |
| SlotBitmap.HalfIsFindable | linkedlist/include/config.h:23-27 | only half of the slots can ever be found |
| SlotBitmap.FullMeansHalf | linkedlist/include/bitmap.h:37-48 | when the allocator fails exactly half of the slots are in use |
| Reclaimer.RList.NewNode | linkedlist/include/ebr.h:54-70 | takes a node from the list's own bitmap, or fails when none can be found |
| Reclaimer.RList.Add | linkedlist/include/ebr.h:106-122 | appends at the end; nodes, size and private bitmap stay in agreement |
| Reclaimer.RList.Unlink | linkedlist/include/ebr.h:186-190 | takes one node out through the pointer that points to it and gives it back |
| Reclaimer.RList.Empty | linkedlist/include/ebr.h:174-195 | frees exactly the slots retired before the minimum and keeps the other entries in order |
| Reclaimer.SurvivorsAreSuffix | linkedlist/include/ebr.h:181-194 | on a sorted list the survivors are a suffix |
| Reclaimer.OlderAreInFront | linkedlist/include/ebr.h:181-194 | on a sorted list the freed entries are those in front |
| Reclaimer.Ebr.GetMin | linkedlist/include/ebr.h:162-172 | the lowest reservation |
| Reclaimer.TwoLoadsSoundIff | linkedlist/include/ebr.h:167-170 | with two loads per reservation the minimum that get_min returns is sound exactly when the last copying load did not rise above a reservation in front of it that held still |
| Reclaimer.SteadyScanIsSound | linkedlist/include/ebr.h:167-170 | if no copy is above the minimum it replaces, the scan is sound at every turn |
| Reclaimer.TwoLoadsCanMiss | linkedlist/include/ebr.h:167-170 | two reservations for which it is not |
| Reclaimer.OneLoadIsSound | linkedlist/include/ebr.h:167-170 | with one load each it always is |
| Reclaimer.Ebr.Retire | linkedlist/include/ebr.h:197-208 | appends with the current epoch, advances counter and epoch, and empties at the right lengths by the lowest reservation, keeping the list sorted |
| Reclaimer.Ebr.StartOp | linkedlist/include/ebr.h:222-226 | from now on the thread holds back exactly what is retired in the current epoch or later; what others hold back stays as it is |
| Reclaimer.Ebr.EndOp | linkedlist/include/ebr.h:228-232 | the thread holds back nothing any more: of the epochs held back, exactly those that it alone held back can be freed |
| Reclaimer.Ebr.Empty | linkedlist/include/ebr.h:174-195 | keeps exactly the entries that some reservation holds back, and frees exactly the slots of the others |
| MarkBits.MarkRoundTrip | linkedlist/linkedlist.c:128-147 | marking an index can be undone exactly if bit 31 of the index is clear |
| MarkBits.WordIsIndexAndMark | linkedlist/linkedlist.c:128-147 | a word is made up of its index and its mark |
| Masking.SlotIsMod | ring-buffer/p_rb_q_eadr.cc:87 | for a power of two `t & (q - 1)` is `t mod q` |
| Masking.SameSlotFarApart | ring-buffer/p_rb_q_eadr.cc:87 | two tickets with the same masked index are at least Q_SIZE apart |
| Ring.SlotOf | ring-buffer/p_rb_q_eadr.cc:431 | the slot of a ticket |
| RingSafety.ScanReads | ring-buffer/p_rb_q_eadr.cc:128-164 | reading one announced position keeps what a scan under way knows: unfinished tickets below its minimum are still ahead of it |
| RingSafety.ScanStores | ring-buffer/p_rb_q_eadr.cc:420-427 | so a finished scan may be stored, even over a newer value |
| RingSafety.DrawKeepsTickets | ring-buffer/p_rb_q_eadr.cc:412-413 | drawing a ticket between read and announcement keeps the accounts of tickets |
| RingSafety.StepKeepsInv | ring-buffer/p_rb_q_eadr.cc:386-493 | every step of every producer and consumer keeps the invariant of the ring |
| RingSafety.RunsKeepInv | ring-buffer/p_rb_q_eadr.cc:386-493 | it holds in every state of every run |
| RingResults.TicketSoundness | ring-buffer/p_rb_q_eadr.cc:412-440 | every push ticket below last_head_ has been written and every pop ticket below last_tail_ copied, despite racing scans; no call still copying is below them |
| RingResults.CallPushesItsArgument | ring-buffer/p_rb_q_eadr.cc:431-434 | from call to return a push carries its argument, and that is what is recorded with the ticket it draws |
| RingResults.Exactness | ring-buffer/p_rb_q_eadr.cc:386-493 | each ticket below head_ was drawn by a call of push, and a pop that has finished with the ticket, or is about to return, has the argument of that call; each ticket below tail_ is popped or in the hands of one pop |
| RingResults.HistoryOnlyGrows | ring-buffer/p_rb_q_eadr.cc:386-493 | what was pushed or popped with a ticket is settled once |
| RingOrder.EarlierCallLowerTicket | ring-buffer/p_rb_q_eadr.cc:412-413 | if a push has drawn its ticket before another is called, its ticket is the lower one; likewise for pops |
| RingOrder.StaleIsRecent | ring-buffer/p_rb_q_eadr.cc:412-413 | what a call announces before it draws is a value that the counter has had since the call |
| RingOrder.FirstInFirstOut | ring-buffer/p_rb_q_eadr.cc:386-493 | a value pushed before the push of another is called is never popped after the pop of that other one in the same sense: values leave the ring in the order of their pushes in time |
| RingResults.SlotExclusion | ring-buffer/p_rb_q_eadr.cc:420-439 | two calls are never copying to or from the same slot at the same time |
| RingResults.Bounded | ring-buffer/p_rb_q_eadr.cc:474-488 | at most Q_SIZE tickets are written and not yet copied out, all within one window |
| RingProgress.FreshScanPasses | ring-buffer/p_rb_q_eadr.cc:474-481 | a pop whose ticket is below the fresh minimum, and a push whose ticket is below it plus Q_SIZE, gets through alone, even from the middle of a stale scan |
| RingProgress.CannotWedge | ring-buffer/p_rb_q_eadr.cc:420-427 | if all calls wait, among them a push and a pop, one of them gets through |
| RingProgress.OneSidedWait | ring-buffer/p_rb_q_eadr.cc:420-427 | if only pushes wait, one gets through exactly if some ticket is below tail_ + Q_SIZE; if only pops wait, exactly if some ticket is below head_ |
| RingRecovery.Lowest | ring-buffer/p_rb_q_eadr.cc:128-164 | the recomputed position is the lowest announced one, or the counter |
| RingRecovery.SortIsOrdered | ring-buffer/p_rb_q_eadr.cc:208 | the list is put in the order of tickets |
| RingRecovery.SurvivorsAreMoved | ring-buffer/p_rb_q_eadr.cc:210-229 | no copy overwrites what is still needed: the tickets from the tail on hold the old contents, then the survivors in ticket order |
| RingRecovery.SurvivorsAreMovedIff | ring-buffer/p_rb_q_eadr.cc:210-229 | with different values in all slots of a ring of at most 2^32, the survivors are all moved exactly if, as ints, each source is above its destination |
| RingRecovery.TruncationLoses | ring-buffer/p_rb_q_eadr.cc:212-229 | a push with ticket 2^31 is not moved to the free place before it |
| RingRecovery.RecoverableIsMovable | ring-buffer/p_rb_q_eadr.cc:195-208 | distinct tickets less than a round after the tail, and a tail not ahead of the head, are all that is needed |
| RingRecovery.PopHalfIsRightIff | ring-buffer/p_rb_q_eadr.cc:231-290 | with different values in all slots, recovery delivers what has not been popped, in order, exactly if there is no pop to move |
| RingSurvivors.PopHalfShifts | ring-buffer/p_rb_q_eadr.cc:247-290 | for every list of pops, the pop half moves the contents of the slots from the first saved pop up to the last one by one place, and leaves the other slots as they are |
| RingSurvivors.ChosenHasRank | ring-buffer/p_rb_q_eadr.cc:196-208 | a call's place in the sorted list is the number of calls to move that have lower tickets |
| RingQueue.Queue.FindLastHead | ring-buffer/p_rb_q_eadr.cc:128-145 | the lowest push position |
| RingQueue.Queue.FindLastTail | ring-buffer/p_rb_q_eadr.cc:147-164 | the lowest pop position |
| RingQueue.Queue.CollectPushed | ring-buffer/p_rb_q_eadr.cc:196-207 | collects the saved tickets above last_head_ of producers that announce nothing, each once, and drops the other saved positions |
| RingQueue.Queue.CollectPopped | ring-buffer/p_rb_q_eadr.cc:232-245 | collects the saved tickets between last_tail_ and last_head_ of consumers that announce nothing, each once, and drops the other saved positions |
| RingQueue.Queue.ListUnpopped | ring-buffer/p_rb_q_eadr.cc:247-266 | lists the tickets from the first saved pop up to the last, one after the other, each with the thread of the saved pop after it |
| RingQueue.Queue.CopyList | ring-buffer/p_rb_q_eadr.cc:210-290 | the in-place copy loops of pushes and pops, with positions converted to int |
| RingQueue.Queue.Recover | ring-buffer/p_rb_q_eadr.cc:183-305 | recovery of whatever a crash has left: bounds, slots, saved positions and cleared announcements |
| RingQueue.Queue.RecoverMoves | ring-buffer/p_rb_q_eadr.cc:183-305 | with no pop to move and in step as ints, slots [T, L + n) hold the old [T, L) followed by the n survivors in ticket order; below 2^31 the queue is then settled |
| RingQueue.Queue.RecoverSurvivors | ring-buffer/p_rb_q_eadr.cc:195-304 | whatever the pops, after a crash that leaves the positions in order: exactly the pushes saved above the recomputed head by producers that announce nothing are carried over, each to the place that its rank by ticket gives it; head_ and tail_ grow by their numbers; the slots from the lowest pop to be moved up to the highest are moved up by one place, and the rest of the queue is as it was |
| RingQueue.Queue.RecoverAgain | ring-buffer/p_rb_q_eadr.cc:292-304 | recovering a settled queue again changes neither bounds nor contents |
| RingCrash.StepKeepsCrashInv | ring-buffer/p_rb_q_eadr.cc:386-493 | every step keeps: no stored position and no copying or finished call of the other side is past a ticket whose announcement is not withdrawn; saved tickets are distinct |
| RingCrash.CrashIsRecoverableIff | ring-buffer/p_rb_q_eadr.cc:183-229 | in every state of every run, a crash leaves the positions in order and the pushes to move within a round and distinct if and only if each producer with a stale announcement has announced at least the recomputed tail, and each push to move is less than a round above each stale announcement of a consumer |
| RingCrash.PopsAreMovableIff | ring-buffer/p_rb_q_eadr.cc:231-245 | in every state of every run, the same for the pops: the stale announcements of producers are not below the recomputed tail, and no stale announcement of a consumer is more than a round below the recomputed head |
| RingCrash.SteadyCrashIsRecoverable | ring-buffer/p_rb_q_eadr.cc:183-244 | in particular after a crash where no announcement is stale |
| RingCrash.SavedTicketsDiffer | ring-buffer/p_rb_q_eadr.cc:435-439 | in every state of every run, saved tickets are finished and never saved twice |
| RingDurability.ReturnedIsSaved | ring-buffer/p_rb_q_eadr.cc:431-443 | a push that has returned, from a thread that has announced nothing since, has its ticket saved, and its argument is in the slot until it is popped |
| RingDurability.RecoverAfterCrash | ring-buffer/p_rb_q_eadr.cc:183-305 | after a crash of any run without stale announcements, recovery leaves the argument of each such push in the queue, unless it was popped before; only with pops to move may it lose one below the recomputed head |
| RingStale.StaleCrashIsNotRecoverable | ring-buffer/p_rb_q_eadr.cc:412-413 | a run of two producers and a consumer in which a push announces 0 and is overtaken: after a crash recovery leaves tail_ at 1 and head_ at 0 |

## Left out

- ring-buffer/p_rb_q_adr.cc and ring-buffer/p_rb_q_exp.cc: variants of the same push and pop, one inside transactions of a library that is not part of this model, one experimental.
- RingQueue.Queue.RecoverMoves: says what the queue holds afterwards only if no pop is to be moved, since otherwise the code loses the value at the tail (RingRecovery.PopHalfIsRightIff), and only if the pushes compare as ints the way they should, since otherwise it loses one of them (RingRecovery.SurvivorsAreMovedIff).
- RingRecovery.SurvivorsAreMovedIff: for rings of at most 2^32 slots, where the conversion to int does not change a slot.
- ListResults.NoUseAfterReclaim: proved of steady runs, as are all results on runs of the list: these are the runs that keep the invariant (ListSteady.RunKeepsInvIff), and ListOvertake.OvertakingFreesInUse is one that does not.
- RingDurability.RecoverAfterCrash: says nothing of a push whose thread has announced another since, because a thread remembers only its last finished position, and recovery drops it if the thread announces anything (p_rb_q_eadr.cc:199-206).
- Durable linearizability of the concurrent list: an add that has returned may be lost (ListLoss.AddIsLost), and an add in flight may be replayed after another thread's completed remove. The redo log is therefore not part of `ListMachine`; `LogReplay` takes each list operation's effect as one step.
- eADR mode (EADR_AVAILABLE), and libpmem except for the step that copies one 64-byte line.
- Weak memory, compiler barriers, and the wrap-around of tickets, epochs, counters and 32-bit keys.
- `size` during concurrent runs (ENABLE_VALIDATION is off), timers, printing, file mapping, magic numbers.
- The exit of add for lack of memory: `ListMachine` lets an add wait for a slot; `SequentialList` and `Reclaimer` report failure.
- The scan of the bitmap in the concurrent machine is one step that finds any slot it could find; the retry loop of new_p_node is not counted by `RetriesArePaidFor`.
- `SequentialList` models retire by the sequence of slots handed to it; `Reclaimer` models retire itself.
- Run alone, the CAS operations of add and remove succeed; `SequentialList` stores where the precondition of the CAS has been proved, and has no loop for its failure.
- SlotBitmap.Ffs: a word is a sequence of 64 bits, so that the and and or of the macros are updates of one bit.
- list_remove (ebr.h:124-144): nothing calls it.
- linkedlist/main.c, the test drivers, Bench/, scripts and notebooks.
