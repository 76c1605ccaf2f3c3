# Verification of the concurrent exercises

A Dafny model of the four concurrent programs of this repository, and of the one-slot sibling of the
first, with proofs about every schedule of their threads. `dafny verify dfyconfig.toml` checks it all.

Each program is a labelled transition system: `Step(s, l)` is one atomic step of one thread, `l` being the
choice of the scheduler and of the environment, and `None` when that step is not enabled. A schedule is a
sequence of labels (`Runs.Exec`), so "every interleaving" is "every sequence of labels". Thread counts,
buffer sizes and quotas are parameters; the constants of the program text are instances. The steps of
mutexes, condition variables and semaphores follow `pthread_mutex_lock`, `pthread_cond_wait`,
`pthread_cond_signal`, `sem_wait` and `sem_post` of IEEE Std 1003.1-2017, System Interfaces: a waiter that
has been signalled must get the lock again and may be overtaken, and may also wake up spuriously. Beside
each machine stand the classes and methods that do the same in place, on arrays and on a heap linked list.

| module | program |
|---|---|
| `Runs`, `Sums`, `Lists`, `CondVar` | schedules, counting threads by weight, sequence deletion, the life of a waiting thread |
| `RaceCounter`, `LockedCounter` | `S4_Thread/ex2_race_condition_mutx.c`, as written and with its lock lines restored |
| `Ring`, `BoundedBuffer`, `BoundedBufferRuns`, `BoundedBufferValues`, `BoundedBufferProgram` | `S4_Thread/nConsumer.c` |
| `OneSlot` | `S4_Thread/ex3_condition_variable.c` |
| `Restaurant`, `RestaurantRuns`, `RestaurantTrays`, `RestaurantSilent`, `RestaurantCode` | `S10_IPC_Semafore` |
| `Chat`, `ChatInv`, `ChatRuns`, `ChatCommands`, `ChatTerminate`, `ChatProgress`, `PeerList` | `S6_IPC_Socket/ex2_p2pchat` |

## Where the code differs from what its comments intend

The model follows the code in each case.

- nConsumer.c: a consumer's quota is `(P*N)/C` rounded down, so `(P*N) % C` items are never consumed. The
  program returns if and only if these fit the ring (`ReturnsIffLeftoverFits`); with the shipped constants
  they do, and two items stay behind (`ShippedConstants`).
- ex2_race_condition_mutx.c: the lock calls are commented out. The final values are exactly
  `Lowest(T, N) .. T*N` (`FinalValues`), that is 2 to T*N for at least two threads and two iterations.
- chef.c:104: `add_nonvegan_dish_once` posts `non_empty` where the chef loop posts `non_full`. The dish is
  never announced. The accounting of slots against semaphores breaks in some run if and only if that call
  is among the processes (`AccountingFailsIff`), and a scan fails in some run if and only if it runs beside
  the non-vegan chef or more often than there are slots (`ScanFailsIff`). `Drift` gives the exact surplus,
  `SilentAddsFeedNobody` what it means for customers, `RepeatAdd` what repeated calls do.
- command.c:345-358: `cmd_exit` joins with the lock held. It completes if and only if every listed thread
  is already past its last use of the lock (`ExitIffThreadsPastLock`); `ExitCanHang` is a run in which it
  hangs.
- listener.c:47-56: a node is in the list before its thread handle is set. `cmd_terminate` on such a node
  can join an unset handle: exactly when its search finds a node without a thread
  (`UndefinedIffFoundEarly`), that is, one the listener has published and not yet given a thread
  (`EarlyFindIsPublished`). That is the only way to undefined behaviour in the model
  (`OnlyEarlyTerminateIsUndefined`), and it can happen (`EarlyTerminate`). The model then stops in a state
  of its own, `Undefined`.

## Model

| member | source | states |
|---|---|---|
| RaceCounter.FinalValues | S4_Thread/ex2_race_condition_mutx.c:9-18 | for every T, N and v: some complete interleaving of the unlocked program ends with v if and only if `Lowest(T, N) <= v <= T*N` |
| RaceCounter.CompleteRunBounds | S4_Thread/ex2_race_condition_mutx.c:49-55 | no complete interleaving ends outside these bounds |
| RaceCounter.LoseSome | S4_Thread/ex2_race_condition_mutx.c:12 | one stale load can lose any number of the other threads' increments |
| RaceCounter.OverwriteWithOne | S4_Thread/ex2_race_condition_mutx.c:12 | a schedule exists in which thread 0 stores 1 when all others but one increment of thread 1 are done |
| RaceCounter.StoreStaleLast | S4_Thread/ex2_race_condition_mutx.c:12 | from there the run can end with any value from 2 to N+1 |
| RaceCounter.StuckIsComplete | S4_Thread/ex2_race_condition_mutx.c:38-40 | a schedule that cannot go on is complete, after exactly 3TN steps |
| RaceCounter.SharedCounter.Advance | S4_Thread/ex2_race_condition_mutx.c:10-15 | the thread body in place is the step of the machine |
| RaceCounter.RunRacy | S4_Thread/ex2_race_condition_mutx.c:19-47 | the program under a free scheduler stops with a value within the bounds |
| LockedCounter.CompleteRunIsExact | S4_Thread/ex2_race_condition_mutx.c:11-14 | with the lock lines every complete run ends at T*N |
| LockedCounter.StuckIsComplete | S4_Thread/ex2_race_condition_mutx.c:11-14 | the lock never blocks the program as a whole: a schedule that cannot go on is complete |
| Ring.PutAppends | S4_Thread/nConsumer.c:33-35 | storing at `in` appends to the queue read from `out` |
| Ring.GetRemovesOldest | S4_Thread/nConsumer.c:56-58 | loading at `out` removes the oldest item |
| Ring.RingBuffer.Put | S4_Thread/nConsumer.c:33-35 | the same in place, on the array |
| Ring.RingBuffer.Get | S4_Thread/nConsumer.c:56-58 | the same in place, on the array |
| BoundedBuffer.StepInv | S4_Thread/nConsumer.c:20-67 | every step of every thread keeps the invariant: FIFO ring, item counts, lock ownership, no lost wake-up on either condition variable |
| BoundedBuffer.ParkInv | S4_Thread/nConsumer.c:28-30 | a thread that goes to wait leaves nothing available to its kind |
| BoundedBuffer.SignalInv | S4_Thread/nConsumer.c:38 | one signal per moved item is enough, whichever waiter it wakes |
| BoundedBufferRuns.FirstInFirstOut | S4_Thread/nConsumer.c:33-58 | in every reachable state produced = consumed followed by the ring, and each producer's items are consumed in its own order, none missing or twice |
| BoundedBufferRuns.ParkedMeansServed | S4_Thread/nConsumer.c:28-62 | no lost wake-up, in every reachable state: a parked consumer (producer) means at most as many items (free slots) as threads of its kind already awake, and one more while the lock holder is about to look or to signal |
| BoundedBufferRuns.RunsAreShort | S4_Thread/nConsumer.c:22-65 | a bound on the length of every schedule, linear in the items and in the number of spurious wake-ups |
| BoundedBufferRuns.StuckOutcome | S4_Thread/nConsumer.c:88-95 | where a schedule ends: all joined with exactly the leftover in the ring, or, if the leftover exceeds the ring, with the ring full, all consumers done and a producer parked for good |
| BoundedBufferRuns.ReturnsIffLeftoverFits | S4_Thread/nConsumer.c:48 | from every reachable state main can return if and only if `(P*N) % C <= B` |
| BoundedBufferRuns.ShippedConstants | S4_Thread/nConsumer.c:6-9 | with 2, 3, 5 and 10 main returns on every schedule, with 18 items consumed and 2 left |
| BoundedBufferValues.PutStoresValue | S4_Thread/nConsumer.c:33-35 | in every reachable state with room, a put appends one item to the queue: the value that was drawn, by that producer |
| BoundedBufferValues.ValuesArriveInOrder | S4_Thread/nConsumer.c:33-59 | at every point of every schedule the values drawn by the puts, in order, are the values printed by the consumers followed by the values in the ring |
| BoundedBufferValues.SignalWakesOne | S4_Thread/nConsumer.c:38-61 | a step changes no other thread, except that after a move exactly one waiter of the other kind wakes if there is any |
| BoundedBufferProgram.Program.Advance | S4_Thread/nConsumer.c:22-65 | the thread bodies in place are the steps of the machine, and print what is put and taken |
| BoundedBufferProgram.RunProgram | S4_Thread/nConsumer.c:69-104 | the whole program under a free scheduler with any number of spurious wake-ups stops, has returned exactly when the leftover fits, and the consumers have printed a prefix of what the producers have, all but the leftover |
| OneSlot.NeverBothParked | S4_Thread/ex3_condition_variable.c:21-38 | the two threads never wait at the same time, which is why one condition variable is enough |
| OneSlot.NothingOverwritten | S4_Thread/ex3_condition_variable.c:24-40 | written = read plus the slot; a write happens only when all earlier writes have been read |
| OneSlot.RunsAreShort | S4_Thread/ex3_condition_variable.c:19-43 | no schedule is longer than 14n + 4 steps plus 3 per spurious wake-up |
| OneSlot.StuckIsComplete | S4_Thread/ex3_condition_variable.c:57-58 | a schedule that cannot go on has both threads done and everything read in order |
| OneSlot.RunChannel | S4_Thread/ex3_condition_variable.c:18-45 | the two loops in place, under a free scheduler with any number of spurious wake-ups: what is printed is what was produced |
| Restaurant.StepInv | S10_IPC_Semafore/src/chef.c:21-106 | every step of every process keeps the accounting of both trays |
| Restaurant.Accounting | S10_IPC_Semafore/src/chef.c:27-39 | free slots = `empty` + its tokens in flight, dishes = `full` + its tokens in flight, mutex + holders = 1, for any processes while no silent add has placed a dish |
| Restaurant.Drift | S10_IPC_Semafore/src/chef.c:89-106 | with the silent add: tokens are still conserved, dishes exceed what `full` accounts for by silent placements less failed chef scans, and no eater ever scans in vain |
| Restaurant.ScansSucceed | S10_IPC_Semafore/src/chef.c:30-36 | every scan finds its slot, and dishes = placements - meals, on the vegan tray always and on the other without the silent add |
| Restaurant.LockedInv | S10_IPC_Semafore/src/consumer.c:15-22 | the scan keeps the accounting, and an eater's scan succeeds |
| Restaurant.InitInv | S10_IPC_Semafore/src/shared.c:21-31 | the initial trays and semaphore values satisfy it |
| RestaurantRuns.NeverStuckForGood | S10_IPC_Semafore/src/consumer.c:57-86 | with a chef and an eater for each tray, every process can complete its next round from every reachable state |
| RestaurantRuns.FiveProcesses | S10_IPC_Semafore/app/main.c:69-90 | so can each of the five processes that main starts |
| RestaurantRuns.NoDeadlock | S10_IPC_Semafore/src/chef.c:54-55 | with a chef per tray and one customer of any kind some process can always step |
| RestaurantRuns.MealsNeedAnnouncements | S10_IPC_Semafore/src/chef.c:104 | meals never exceed the scans of placers that post `full` |
| RestaurantRuns.SilentAddsFeedNobody | S10_IPC_Semafore/src/chef.c:89-106 | without the non-vegan chef nobody eats from that tray, however many dishes the one-shot adds |
| RestaurantRuns.VeganAddFeeds | S10_IPC_Semafore/src/chef.c:70-87 | the vegan one-shot does serve a meal |
| RestaurantTrays.StepTouchesOneTray | S10_IPC_Semafore/src/consumer.c:57-86 | chefs, adds and single-diet customers touch only the tray of their dish; the hybrid customer the vegan one in even rounds and the other one in odd rounds |
| RestaurantTrays.HybridWaitsForVegan | S10_IPC_Semafore/src/consumer.c:82-83 | vegan first: with nobody to serve a vegan dish a hybrid never completes a meal, whatever is on the other tray |
| RestaurantTrays.TraysHoldTheirFood | S10_IPC_Semafore/src/chef.c:31-32 | in every reachable state the vegan tray holds only EMPTY and VEGAN, the other one only EMPTY and NON_VEGAN |
| RestaurantTrays.ScanReplacesFirst | S10_IPC_Semafore/src/chef.c:57-63 | the critical section fills the first empty slot with the tray's dish, or clears the first dish, and nothing else; or there is none and it fails |
| RestaurantSilent.AddReturnsOne | S10_IPC_Semafore/src/chef.c:74-86 | an add that has returned has returned 1, unless the processes are such that scans can fail |
| RestaurantSilent.SilentAddsReturn | S10_IPC_Semafore/src/chef.c:93-105 | in every reachable state the dishes placed by silent adds are the calls whose scan succeeded, returned or about to |
| RestaurantSilent.AccountingFailsIff | S10_IPC_Semafore/src/chef.c:104 | for any tray size and processes: dishes differ from what `full` and its tokens in flight account for in some reachable state if and only if the tray is the non-vegan one, has slots, and the silent add is among the processes |
| RestaurantSilent.ScanFailsIff | S10_IPC_Semafore/src/chef.c:54-66 | some run has a scan that fails if and only if it is of the non-vegan tray, the tray has slots, the silent add is among the processes, and so is the chef or more silent adds than slots |
| RestaurantSilent.ChefFails | S10_IPC_Semafore/src/chef.c:57-63 | after one surplus silent dish the chef can run into a full tray while holding a token |
| RestaurantSilent.SilentAddsFail | S10_IPC_Semafore/src/chef.c:93-101 | with more silent adds than free slots one of them scans in vain |
| RestaurantCode.SharedTray.ReplaceFirst | S10_IPC_Semafore/src/chef.c:30-36 | the scan loop on the array replaces exactly the first matching slot, and reports whether there was one |
| RestaurantCode.SharedTray.Once | S10_IPC_Semafore/src/consumer.c:10-27 | a one-shot operation blocks exactly when its semaphore is 0, else it is one iteration of the machine: the first slot with the sought food is replaced and 1 returned, or there is none, the tray is as it was and 0 is returned |
| RestaurantCode.SharedTray.CountDishes | S10_IPC_Semafore/src/shared.c:40-45 | the status loop counts the occupied slots |
| RestaurantCode.RepeatAdd | S10_IPC_Semafore/src/chef.c:70-106 | repeated one-shot adds: as many succeed as there are slots; then the vegan one blocks, the other goes on returning 0, with `full` still 0 |
| ChatInv.StepInv | S6_IPC_Socket/ex2_p2pchat/src/connection.c:20-224 | every step of main, listener and receive threads keeps the invariant of the list |
| ChatInv.ConnCheckInv | S6_IPC_Socket/ex2_p2pchat/src/command.c:94-103 | the duplicate check establishes that no active connection opened by main has the address |
| ChatCommands.RefusedIffDuplicate | S6_IPC_Socket/ex2_p2pchat/src/command.c:94-103 | `cmd_connect` is refused if and only if a listed connection is active and has the same ip and port; otherwise it goes on to that address |
| ChatCommands.SearchFindsListed | S6_IPC_Socket/ex2_p2pchat/src/command.c:193-224 | `cmd_terminate(id)` goes on with p if and only if p is the listed node with that id, and marks only that one; it reports an error if and only if no listed node has the id |
| ChatCommands.OnlyTheseChange | S6_IPC_Socket/ex2_p2pchat/src/connection.c:137-140 | who changes a node: `active` is cleared by three steps only and never set, `should_remove` is set by its own thread only and never cleared, id and address never change, and its thread passes its stages one by one |
| ChatCommands.ListenerEndsOnExit | S6_IPC_Socket/ex2_p2pchat/src/listener.c:40-43 | failed calls never end the listener: it has ended only after `running` was cleared |
| ChatCommands.ListenerUndoes | S6_IPC_Socket/ex2_p2pchat/src/listener.c:47-75 | accept followed by a failed `pthread_create` restores list and nodes, one id being used up |
| ChatCommands.ConnectUndoes | S6_IPC_Socket/ex2_p2pchat/src/command.c:133-155 | the same for `cmd_connect` |
| ChatRuns.IdsAreUnique | S6_IPC_Socket/ex2_p2pchat/src/connection.c:28-52 | ids of all listed and in-flight nodes are distinct, positive and below `next_conn_id` |
| ChatTerminate.ListIsNotSorted | S6_IPC_Socket/ex2_p2pchat/src/connection.c:28-49 | a run whose list holds the ids 3, 1, 2 |
| ChatRuns.OneActivePerAddress | S6_IPC_Socket/ex2_p2pchat/src/command.c:94-133 | of the connections opened by `cmd_connect` at most one per address is active |
| ChatRuns.FreeIsSafe | S6_IPC_Socket/ex2_p2pchat/src/connection.c:151-160 | no step frees a node whose thread may still run, or one that is still listed, or one twice |
| ChatRuns.JoinedAndFreedOnce | S6_IPC_Socket/ex2_p2pchat/src/connection.c:191-208 | over a whole run each connection is joined and freed at most once, and no listed node has been freed |
| ChatRuns.RescanFindsNode | S6_IPC_Socket/ex2_p2pchat/src/connection.c:200-206 | the rescan always finds the node, joined and flagged |
| ChatRuns.ReaperJoinIsShort | S6_IPC_Socket/ex2_p2pchat/src/connection.c:186-193 | the thread that the reaper joins is at most one step from returning |
| ChatRuns.ReapCollectsAll | S6_IPC_Socket/ex2_p2pchat/src/connection.c:182-223 | a node that was ever flagged has been joined and freed by the end of any later reap |
| ChatRuns.EveryLineReaps | S6_IPC_Socket/ex2_p2pchat/app/main_p2pchat.c:119-120 | what is flagged when a line is read, or when `cmd_list` is given, has been joined and freed before the next command is due |
| ChatRuns.ReapEndsClean | S6_IPC_Socket/ex2_p2pchat/src/connection.c:182-223 | when the reaper unlocks for good no node has `should_remove` set |
| ChatRuns.OrderIsKept | S6_IPC_Socket/ex2_p2pchat/src/connection.c:48-49 | over any run the list becomes the old list without the freed connections, in the old order and with the same ids, behind connections that were not listed before |
| ChatRuns.NeverActiveAgain | S6_IPC_Socket/ex2_p2pchat/src/connection.c:138 | a connection that is not active stays so for the rest of every run, even if its address is reused |
| ChatRuns.ExitDeactivates | S6_IPC_Socket/ex2_p2pchat/src/command.c:316-337 | no connection that is listed at the first pass of `cmd_exit` is ever active after it |
| ChatRuns.OpenedAreInactive | S6_IPC_Socket/ex2_p2pchat/src/command.c:316-337 | from then on no connection opened by main is active at all |
| ChatRuns.ExitIffThreadsPastLock | S6_IPC_Socket/ex2_p2pchat/src/command.c:345-358 | the last phase of `cmd_exit` can complete if and only if every listed thread is past its final critical section |
| ChatRuns.ExitCompletes | S6_IPC_Socket/ex2_p2pchat/src/command.c:345-358 | and then it ends with an empty list and nothing allocated |
| ChatRuns.BlockedForever | S6_IPC_Socket/ex2_p2pchat/src/connection.c:137-140 | otherwise every continuation leaves main waiting with the lock held |
| ChatTerminate.ExitCanHang | S6_IPC_Socket/ex2_p2pchat/src/command.c:345-349 | such a state is reachable |
| ChatTerminate.TerminateRemovesExactly | S6_IPC_Socket/ex2_p2pchat/src/command.c:193-245 | on a node with a thread: that node is joined, removed and freed, all others stay in order with additions in front, but for a node of the listener that was rolled back |
| ChatTerminate.TerminateEndsOne | S6_IPC_Socket/ex2_p2pchat/src/command.c:193-245 | the whole command on a listed connection with a thread: when it returns that connection has been joined and freed, and every other listed connection with a thread is still listed |
| ChatTerminate.TerminateIsDefined | S6_IPC_Socket/ex2_p2pchat/src/command.c:226-227 | on such a node the join is defined whatever the other threads do |
| ChatTerminate.UndefinedIffFoundEarly | S6_IPC_Socket/ex2_p2pchat/src/command.c:193-227 | some continuation of a `cmd_terminate(id)` that is about to search joins an unset or freed handle if and only if the listed node with that id has no thread at that moment |
| ChatTerminate.EarlyFindIsPublished | S6_IPC_Socket/ex2_p2pchat/src/listener.c:47-62 | and that is if and only if the listener has published the listed node with that id and not created its thread |
| ChatTerminate.OnlyEarlyTerminateIsUndefined | S6_IPC_Socket/ex2_p2pchat/src/listener.c:47-56 | every run that ends in an undefined join has passed such a search; the reaper and `cmd_exit` never cause one |
| ChatTerminate.EarlyTerminate | S6_IPC_Socket/ex2_p2pchat/src/listener.c:47-56 | and that is reachable |
| ChatProgress.MainCanFinish | S6_IPC_Socket/ex2_p2pchat/src/command.c:316-345 | from every reachable state outside the last loop of `cmd_exit`, unless `cmd_terminate` has met a node without a thread, main can finish its command; `cmd_exit` with everything joined and freed |
| Lists.RemoveMembers | S6_IPC_Socket/ex2_p2pchat/src/connection.c:154-157 | the sequence deletion that every unlink implements takes out exactly one node |
| PeerList.ConnList.Insert | S6_IPC_Socket/ex2_p2pchat/src/connection.c:48-49 | insertion in front on the heap list |
| PeerList.ConnList.FindById | S6_IPC_Socket/ex2_p2pchat/src/connection.c:63-71 | the first node with the id, or none |
| PeerList.ConnList.IsConnected | S6_IPC_Socket/ex2_p2pchat/src/command.c:95-102 | true if and only if an active node has the address |
| PeerList.ConnList.RemoveNode | S6_IPC_Socket/ex2_p2pchat/src/connection.c:151-160 | the unlink refines sequence deletion and keeps the list well formed |
| PeerList.ConnList.RescanAndRemove | S6_IPC_Socket/ex2_p2pchat/src/connection.c:200-210 | so does the rescan of the reaper and of `cmd_terminate` |
| PeerList.ConnList.Rollback | S6_IPC_Socket/ex2_p2pchat/src/listener.c:62-73 | so does the rollback of the listener and of `cmd_connect` |
| PeerList.ConnList.Reap | S6_IPC_Socket/ex2_p2pchat/src/connection.c:176-224 | without interference: terminates, leaves exactly the unflagged nodes in order, frees each flagged one once |
| PeerList.ConnList.Terminate | S6_IPC_Socket/ex2_p2pchat/src/command.c:193-245 | without interference: removes one node with the id, inactive by then, or reports that there is none; the other nodes stay as they were |
| PeerList.ConnList.DeactivateAll | S6_IPC_Socket/ex2_p2pchat/src/command.c:317-336 | the first loop of `cmd_exit` |
| PeerList.ConnList.FreeAll | S6_IPC_Socket/ex2_p2pchat/src/command.c:346-357 | the last loop of `cmd_exit` frees every node once and empties the list |

## Modelling decisions

- A step is what a thread does between two points at which another thread can notice. The critical
  sections of the chat program are split at their lock and unlock; inside, no other thread can look at the
  list, so a traversal is one step, except the reaper's, which is one step per node.
- The chef and customer loops never end, and the commands of the chat program run amid other threads;
  they are steps of their machines. As methods stand the scans and one-shot operations of the restaurant
  and the list operations inside the critical sections of the chat program.
- Main reaps after every line it reads and before the command (app/main_p2pchat.c:120); the reap at the end of
  `cmd_list` leads back to the point where a command is due, which is as if an empty command had followed.
- Items of the bounded buffer carry their producer and number as history; the program stores the value.
  Trays count placements, misses and meals as history, and the chat machine logs joined and freed ids.
- Steps guarded by `todo > 0`, or by an index being in range, have no such test in the C text; the
  invariants show that the guards hold whenever the step is due.
- `malloc` may return any address that is not allocated, a freed one included. `pthread_create` sets the
  handle and starts the thread in one step. `recv`, `accept`, `connect`, `malloc` and `pthread_create` may
  succeed or fail at any time.
- In its last loop `cmd_exit` leaves `conn_head` alone until the end; the model pops nodes from the front.
  No other thread can tell, since main holds the lock.
- Termination is claimed with spurious wake-ups counted: each adds at most three steps to the bound.

## Left out

- Sockets, pipes, processes, signals, shared memory mapping, message queues and all output: they are
  outcomes chosen by the environment, or not part of this model.
- `S4_Thread/ex4_rw_lock.c`, `ex1_creat_thread.c`, `fun_thread_join.c` and the exercises of the other
  sections: only easy facts would be added.
- `cmd_send` and `cmd_list`: they take the lock and change neither the list nor the flags.
- End of input at the prompt (app/main_p2pchat.c:108-110): the process ends there without `cmd_exit`.
- Argument parsing and the self-connection test of `cmd_connect`; addresses are pairs of numbers.
- Machine integers: ids, counters and loop indices are unbounded, so ids are unique as long as
  `next_conn_id` does not overflow, and the counter as long as T*N fits a `long long`.
- Reading `cur->id` for a message after the node has been freed (connection.c:208-209) and the fields of a
  connection for a message after the lock has been released.
- Data races on the counter are read as interleaved load, add and store, as the comment in the file does;
  on `running` as atomic reads and writes.
- SIGTERM or SIGINT arriving inside a critical section.
- PeerList.ConnList.Reap: states the reaper without other threads; what they may do while the lock is
  released is in the machine of module `Chat`, whose list operations are the same sequence operations.
