# A verified model of the modified goldfish scheduler and its companion modules

The repository contains a modified Linux scheduler (`Project2/goldfish/kernel/sched`), kernel modules that trace page
writes and list the process tree, and a small line-based server. This project models their hardest algorithms in Dafny 4.11
and proves what they are for. Check it with `dafny verify dfyconfig.toml`.

Most algorithms appear twice. An imperative part (a class or a method with loops) follows the C code in place; it is
proved equal to, or bounded by, functions on values; run queue locking is a state machine over lock operations only. The
lemmas about those functions and machines carry the results: invariants of every
run, refinements of a simple form, conservation, error bounds, round trips.

| file | what it models |
|---|---|
| `Common.dfy`, `ListOps.dfy` | shared vocabulary; linked lists as sequences without repetition |
| `RtPrioArray.dfy`, `RtHierarchy.dfy`, `RtScheduling.dfy`, `RtRunqueue.dfy` | the real-time class on a group tree of any depth (`CONFIG_RT_GROUP_SCHED`): one run queue, the tree, runs and the pick, and the mutable run queues |
| `RtThrottle.dfy`, `RtRuntime.dfy` | the runtime budget and the period timer; lending and reclaiming runtime between CPUs |
| `TreeWalk.dfy`, `RtSchedulable.dfy`, `RtAdmission.dfy` | the goto-driven walk over task groups; the bandwidth check that runs on it; all runs of settings and group creations |
| `Completion.dfy` | completions and exclusive wakeups, as a protocol of critical sections |
| `FixedPower.dfy`, `CpuLoad.dfy`, `LoadAverage.dfy` | fixed-point powers, the decaying per-CPU load figures, the distributed load average with its double idle buffer |
| `SchedGroups.dfy` | building the circular group list of a scheduling domain, and the debug walk that checks it |
| `Ras.dfy` | the repository's own RAS class, on one processor with HZ >= 100 |
| `RqLocks.dfy` | ordered locking of two run queues by any number of threads |
| `ClassSwitch.dfy` | moving tasks between the classes, and `pick_next_task` |
| `Mprotect.dfy` | `mprotect_s` over a list of memory areas |
| `PsTree.dfy` | the recursive process walk into a bounded buffer, and the program that reads it back |
| `LineReader.dfy` | the buffered line reader |

Some statements one might expect are false of the code; the model keeps the code and the project proves when they hold:

- The 32-bit sum in `tg_rt_schedulable` can wrap, so the check passes some stored trees whose groups hold less than their
  children claim (`RtSchedulable.WrapAccepts`); in a tree that passes, groups hold what is below them iff no true sum reaches
  2^32 (`RtSchedulable.AntichainsFitIff`). No sequence of settings and group creations from boot leads to a tree that wraps,
  however many children it has (`RtAdmission.SharesHold`, `RtAdmission.CrowdUnreachable`).
- `to_ratio` is exact to one unit iff the runtime is below 2^44 ns; longer ones lose bits in the shift and can count as
  nothing (`RtSchedulable.RatioExact`, `RtSchedulable.LongRuntimeIsFree`). On a 32-bit machine none can be set
  (`RtAdmission.AskedIsShort`).
- `__enable_runtime` conserves runtime iff the CPU was disabled or held exactly its share (`RtRuntime.EnableConservesIff`,
  `RtRuntime.EnableBreaks`).
- The RAS class can starve a waiter, by slice queries on the running task (`Ras.QueriesStarve`) or by inserts at the head
  (`Ras.HeadInsertsStarve`). Each of them costs a waiter at most one longest slice (`Ras.TicksBound`); without them, and with
  every reschedule served before the next tick, the wait is bounded (`Ras.WaitBound`).
- The class of a task follows from its policy and priority except for forked `SCHED_RAS` children (`ClassSwitch.ForkClass`,
  `ClassSwitch.ForkedRasStays`).
- A CPU that was idle over a sample takes part in the next one iff it does not wake before that window has begun
  (`LoadAverage.ExitIdleSamplesNext`, `LoadAverage.WakeMissesWindow`).
- `sched_setscheduler` returns 0 but ignores the reset-on-fork flag when nothing else changes
  (`ClassSwitch.ResetFlagTaken`, `ClassSwitch.ResetFlagIgnored`).
- `ptree.c` shows every record iff no process bears the sentinel name (`PsTree.ReadBack`).
- `read_line` stores its NUL inside the caller's length iff the length is not zero (`LineReader.NulInBounds`).

## Model

| member | source | states |
|---|---|---|
| `RtScheduling.RunInv` | Project2/goldfish/kernel/sched/rt.c:1071-1149 | Over every run of task enqueue, dequeue, throttle, replenish, period-timer and yield steps on a group tree of any depth: list, bitmap, count and cached priority agree on every run queue, every linked entity is on the list of its current priority and nowhere else, and a non-root group is on its parent's queue exactly when it is nonempty and not throttled; the queued tasks are those enqueued and not dequeued since; the picked task is runnable and no runnable task is more urgent. |
| `RtScheduling.NextInv` | Project2/goldfish/kernel/sched/rt.c:779-830 | Each single step keeps that invariant, and only enqueue and dequeue change which tasks are queued. |
| `RtScheduling.InitInv` | Project2/goldfish/kernel/sched/rt.c:60-86 | The empty run queues after initialisation satisfy the invariant. |
| `RtScheduling.PickIsMostUrgent` | Project2/goldfish/kernel/sched/rt.c:1328-1369 | Nothing is picked exactly when no queued task is free of throttled ancestors; otherwise the pick is such a task, of minimum prio among all of them, and first on its list. |
| `RtScheduling.HeadOfQueue` | Project2/goldfish/kernel/sched/rt.c:1328-1343 | The first set bit of the bitmap is the cached priority and its list is nonempty, so the BUG_ON after the pick cannot fire; the head is a task or a nonempty, unthrottled group at that priority. |
| `RtScheduling.UrgencyFlowsUp` | Project2/goldfish/kernel/sched/rt.c:832-842 | The cached priority of the root is at least as urgent as every linked entity that no throttled run queue holds back. |
| `RtScheduling.EnqueueInv` | Project2/goldfish/kernel/sched/rt.c:1132-1137 | Enqueueing an entity restores the invariant even if the groups on its path were misplaced before; the task ends up queued, every other task stays as it was, and run queues off the path are untouched. |
| `RtScheduling.DequeueInv` | Project2/goldfish/kernel/sched/rt.c:1139-1149 | The same for dequeueing: the task is off, groups on its path that still hold something are back on. |
| `RtScheduling.EnqueueRelinks` | Project2/goldfish/kernel/sched/rt.c:1117-1137 | Every entity on the path of an enqueued one is out of every list it was on and, if it goes on again, at the asked-for end of the list of its new priority; nothing else on those run queues moves. |
| `RtScheduling.DequeueRelinks` | Project2/goldfish/kernel/sched/rt.c:1117-1149 | The same for dequeueing: the task is off, the groups above it that still hold something are at the tail of their lists. |
| `RtScheduling.ThrottleRelinks` | Project2/goldfish/kernel/sched/rt.c:436-445 | Throttling a linked group moves its path likewise; throttling any other changes no list. |
| `RtScheduling.UnthrottleRelinks` | Project2/goldfish/kernel/sched/rt.c:419-434 | Releasing an unlinked, nonempty group puts its path in at the tails; releasing any other changes no list. |
| `RtScheduling.TaskEntersAtEnd` | Project2/goldfish/kernel/sched/rt.c:1071-1097 | A task enters at the head or tail of the list of its priority, whether or not it was queued before, and the rest of the list keeps its order. |
| `RtScheduling.ThrottleInv` | Project2/goldfish/kernel/sched/rt.c:436-445 | Throttling a run queue keeps the invariant, changes no other queue's throttling and no task's link. |
| `RtScheduling.UnthrottleInv` | Project2/goldfish/kernel/sched/rt.c:419-434 | Replenishing puts a nonempty group back on its parent's queue and keeps the invariant. |
| `RtScheduling.TimerPokeIsNoOp` | Project2/goldfish/kernel/sched/rt.c:813-822 | For a queue that owes no time the timer's enqueue has nothing to repair while the invariant holds. |
| `RtScheduling.YieldInv` | Project2/goldfish/kernel/sched/rt.c:1186-1214 | Requeueing along the path changes only the order within lists: same links, counts, bitmaps, cached priorities and throttling. |
| `RtScheduling.RequeueMoves` | Project2/goldfish/kernel/sched/rt.c:1186-1214 | It puts the entity and every linked group above it at the asked-for end of the list it is on, and leaves every other list of every run queue exactly as it was. |
| `RtScheduling.YieldGivesWay` | Project2/goldfish/kernel/sched/rt.c:1206-1214 | When the picked task yields, another one is picked if and only if the task or a group above it shares its list with another entity. |
| `RtHierarchy.DequeueStackOk` | Project2/goldfish/kernel/sched/rt.c:1117-1130 | Unlinking top-down removes exactly the linked entities of the path, and every run queue stays consistent at every point. |
| `RtHierarchy.EnqueueUpOk` | Project2/goldfish/kernel/sched/rt.c:1132-1137 | Linking bottom-up leaves the task queued and every group of the path queued exactly when nonempty and unthrottled. |
| `RtHierarchy.SePrioInRange` | Project2/goldfish/kernel/sched/rt.c:1046-1067 | An entity has a real-time priority exactly when it is a task or a nonempty group, so the warning in inc_rt_tasks cannot fire. |
| `RtPrioArray.AddAgrees` | Project2/goldfish/kernel/sched/rt.c:968-978 | Linking keeps bitmap bit i set iff list i is nonempty, the count equal to the entities linked, and the cached priority equal to the lowest set bit. |
| `RtPrioArray.DelAgrees` | Project2/goldfish/kernel/sched/rt.c:980-1003 | Unlinking keeps them too, and the warning that the removed priority is above the cached one cannot fire. |
| `RtPrioArray.EmptyAgrees` | Project2/goldfish/kernel/sched/rt.c:968-1003 | The count is zero iff all lists are empty iff the cached priority is MAX_RT_PRIO; otherwise the cached priority is the least index of a nonempty list. |
| `RtPrioArray.RequeueAgrees` | Project2/goldfish/kernel/sched/rt.c:1186-1198 | Moving an entity puts it at the asked-for end of its list, and changes no membership, bit, count or cached priority. |
| `RtPrioArray.RtRqObject.FindFirstBit` | Project2/goldfish/kernel/sched/rt.c:1328-1336 | The search loop returns the first set bit, the delimiter bounding it. |
| `RtPrioArray.RtRqObject.DecRtPrio` | Project2/goldfish/kernel/sched/rt.c:980-1003 | The new cached priority: the first set bit when the removed entity had the cached one, MAX_RT_PRIO when the queue is empty, else unchanged. |
| `RtRunqueue.Runqueue.DequeueRtStack` | Project2/goldfish/kernel/sched/rt.c:1117-1130 | The two loops over back pointers, on mutable run queues, unlink the whole path top-down: afterwards no entity of the path is linked, every other is as before, and the queues are consistent. |
| `RtRunqueue.Runqueue.ThreadBack` | Project2/goldfish/kernel/sched/rt.c:1117-1125 | The first loop threads the path through the back pointers so that they lead from the topmost entity down to the given one. |
| `RtRunqueue.Runqueue.EnqueueTaskRt` | Project2/goldfish/kernel/sched/rt.c:1155-1168 | The loop over the path implements enqueue and keeps the whole-tree invariant. |
| `RtRunqueue.Runqueue.DequeueTaskRt` | Project2/goldfish/kernel/sched/rt.c:1170-1180 | The loops implement dequeue and keep the whole-tree invariant. |
| `RtRunqueue.Runqueue.ThrottleRtRq` | Project2/goldfish/kernel/sched/rt.c:844-891 | Throttling takes the group off its parent's queue and keeps the whole-tree invariant. |
| `RtRunqueue.Runqueue.ReplenishRtRq` | Project2/goldfish/kernel/sched/rt.c:779-830 | Clearing the throttling puts the group back when it has something to run, and keeps the invariant. |
| `RtRunqueue.Runqueue.RequeueTaskRt` | Project2/goldfish/kernel/sched/rt.c:1200-1214 | The requeue loop makes the moves that RequeueMoves describes and keeps the invariant. |
| `RtRunqueue.Runqueue.PickNextTask` | Project2/goldfish/kernel/sched/rt.c:1345-1369 | The descent loop returns the task that PickIsMostUrgent characterises. |
| `RtThrottle.BandwidthBound` | Project2/goldfish/kernel/sched/rt.c:779-936 | However time is charged to the running queue: after K elapsed periods a queue that is not throttled has consumed at most K + 1 runtimes and its rt_time is within the runtime; a throttled one at most K + 1 runtimes, the overshoot of the charge that throttled it, which is part of that charge, and what was charged between it and the next reschedule. |
| `RtThrottle.LateUntilReschedule` | Project2/goldfish/kernel/sched/rt.c:1353-1357 | What a throttled queue is charged is exactly what is charged before the next reschedule: a throttled queue is not picked. |
| `RtThrottle.RunInv` | Project2/goldfish/kernel/sched/rt.c:897-936 | The bound's invariant holds after every step of every run, with all charges and periods counted. |
| `RtThrottle.NextInv` | Project2/goldfish/kernel/sched/rt.c:844-891 | Each charge, timer or reschedule step keeps it, and leaves rt_time within the runtime unless throttled. |
| `RtThrottle.OvershootBound` | Project2/goldfish/kernel/sched/rt.c:925-935 | The overshoot is positive and at most the one charge that throttled. |
| `RtThrottle.NothingForgiven` | Project2/goldfish/kernel/sched/rt.c:795-802 | Time charged minus rt_time grows by exactly what the timer repays: no time is written off. |
| `RtThrottle.ReleasedAfter` | Project2/goldfish/kernel/sched/rt.c:795-802 | A throttled queue charged no further is released by the first period n at which it owes less than n + 1 runtimes, neither earlier nor later. |
| `RtThrottle.TimerSplits` | Project2/goldfish/kernel/sched/rt.c:795-802 | A timer that makes up for m + n periods at once does what one for m followed by one for n does. |
| `RtThrottle.RtBudget.UpdateCurr` | Project2/goldfish/kernel/sched/rt.c:897-936 | The charging loop's body in place, for the running queue: the new budget, history included, and a reschedule exactly when throttled. |
| `RtThrottle.RtBudget.PickQueue` | Project2/goldfish/kernel/sched/rt.c:1353-1357 | A throttled queue is not picked. |
| `RtThrottle.RtBudget.PeriodTimer` | Project2/goldfish/kernel/sched/rt.c:779-830 | The timer in place: repayment, release below the runtime, and the request to enqueue exactly on release. |
| `RtRuntime.RuntimeConserved` | Project2/goldfish/kernel/sched/rt.c:560-724 | Over every run of borrowing, CPU disable, and enable of CPUs that are disabled or hold their own runtime, the runtimes of the enabled CPUs sum to (number enabled) x the group's runtime. |
| `RtRuntime.BalanceOk` | Project2/goldfish/kernel/sched/rt.c:560-610 | One borrow leaves total and enabled set unchanged, never takes a donor below its own rt_time, and never lifts a borrower that starts within the period above it. |
| `RtRuntime.BalanceMore` | Project2/goldfish/kernel/sched/rt.c:560-610 | The result tells whether some neighbour had runtime to spare. |
| `RtRuntime.BalanceGives` | Project2/goldfish/kernel/sched/rt.c:575-605 | CPUs are asked in order; up to any CPU, what has been given is the sum of the offers, one n-th of each spare runtime, or the room below the period, whichever is less, and the borrower gets exactly that. |
| `RtRuntime.BalanceShares` | Project2/goldfish/kernel/sched/rt.c:591-605 | A borrower that ends below the period got the full offer of every CPU; one that ends at it was filled up by a last donor, those before which gave in full and those after which gave nothing. |
| `RtRuntime.BalanceAbove` | Project2/goldfish/kernel/sched/rt.c:594-596 | A borrower above the period hands its excess to the first CPU with runtime to spare. |
| `RtRuntime.BalanceNothing` | Project2/goldfish/kernel/sched/rt.c:590-591 | If no CPU has any to spare, nothing moves and the answer is that nothing was offered. |
| `RtRuntime.BalanceConserves` | Project2/goldfish/kernel/sched/rt.c:560-610 | The total is kept also for a borrower that starts above the period. |
| `RtRuntime.ReclaimOk` | Project2/goldfish/kernel/sched/rt.c:646-674 | Greedy reclaim ends with nothing wanted when the others hold enough, or when someone can take the surplus, and moves exactly what was wanted. |
| `RtRuntime.ReclaimTakes` | Project2/goldfish/kernel/sched/rt.c:646-674 | Reclaim empties the CPUs in order: up to any CPU, what has been taken is all they held or all that was wanted, whichever is less. |
| `RtRuntime.ReclaimGives` | Project2/goldfish/kernel/sched/rt.c:659-667 | A CPU that had borrowed leaves its surplus to the first other enabled CPU. |
| `RtRuntime.DisableConserves` | Project2/goldfish/kernel/sched/rt.c:615-691 | With the accounts balanced the BUG_ON(want) cannot fire, and the CPUs left enabled balance again. |
| `RtRuntime.EnableConservesIff` | Project2/goldfish/kernel/sched/rt.c:702-724 | Enabling keeps the accounts balanced if and only if the CPU was disabled or held exactly the group's runtime. |
| `RtRuntime.EnableBreaks` | Project2/goldfish/kernel/sched/rt.c:702-724 | A balanced pair of CPUs of which enabling one breaks the balance, because it had lent to the other. |
| `RtRuntime.NextInv` | Project2/goldfish/kernel/sched/rt.c:560-724 | Each of these steps keeps the balance and does what it is for: a borrow moves the gifts that BalanceGives describes, a disabled CPU alone is marked, an enabled one has the group's runtime. |
| `RtRuntime.GroupRuntime.DoBalanceRuntime` | Project2/goldfish/kernel/sched/rt.c:560-610 | The loop over CPUs on arrays implements the borrow and keeps the balance. |
| `RtRuntime.GroupRuntime.GreedyReclaim` | Project2/goldfish/kernel/sched/rt.c:646-674 | The reclaim loop on arrays implements the reclaim. |
| `RtRuntime.GroupRuntime.DisableRuntime` | Project2/goldfish/kernel/sched/rt.c:615-691 | Disabling in place, with the BUG_ON proved unreachable. |
| `RtRuntime.GroupRuntime.EnableRuntime` | Project2/goldfish/kernel/sched/rt.c:702-724 | Enabling in place, whatever the CPU held; the accounts stay balanced iff it was disabled or held its own runtime. |
| `Completion.NoLostWakeup` | Project2/goldfish/kernel/sched/core.c:3671-3725 | Over every interleaving of waiters, complete, complete_all, try_wait, timeouts and signals: the woken waiters still queued are at least min(done, queued waiters), and done is completions posted minus waits satisfied, exactly when that difference fits the 32-bit counter, and never negative. |
| `Completion.NextInv` | Project2/goldfish/kernel/sched/core.c:3671-3725 | Each critical section keeps that invariant. |
| `Completion.PostedMeansProgress` | Project2/goldfish/kernel/sched/core.c:3703-3725 | While something is posted and somebody waits, some waiter is awake, and any waiter that resumes leaves with a completion, even on a timeout or signal. |
| `Completion.ResumeLeaves` | Project2/goldfish/kernel/sched/core.c:3707-3725 | A waiter that wakes sleeps on, in its place, exactly if nothing is posted, time is left and no signal is pending; else it is off the queue, the others keep their order, and a completion is used up exactly if there is one. |
| `Completion.QueueIsWaiters` | Project2/goldfish/kernel/sched/core.c:3565-3725 | Over every interleaving the wait queue is a line kept without looking at it: the tasks that began to wait and have not left, in that order; asleep are those that nothing has woken since, complete waking the first sleeper in line and complete_all all of them. |
| `Completion.CompleteIsFifo` | Project2/goldfish/kernel/sched/core.c:3565-3577 | complete wakes the first sleeper of the queue and no other. |
| `Completion.CompleteAllWakesAll` | Project2/goldfish/kernel/sched/core.c:3691-3699 | complete_all leaves no sleeper. |
| `Completion.CompletionObject.WakeUpCommon` | Project2/goldfish/kernel/sched/core.c:3565-3577 | The scan loop, with its early exit after nr_exclusive successful exclusive wakeups, wakes exactly the sleepers the recursive scan does. |
| `Completion.CompletionObject.Complete` | Project2/goldfish/kernel/sched/core.c:3671-3679 | complete on the object: counter, sleepers and history. |
| `Completion.CompletionObject.CompleteAll` | Project2/goldfish/kernel/sched/core.c:3691-3699 | complete_all on the object, the counter wrapping at 32 bits. |
| `Completion.CompletionObject.BeginWait` | Project2/goldfish/kernel/sched/core.c:3703-3717 | Entry to a wait: satisfied at once iff something is posted, else queued unless a signal is pending. |
| `Completion.CompletionObject.ResumeWait` | Project2/goldfish/kernel/sched/core.c:3716-3725 | A wakeup: the waiter leaves iff posted, timed out or signalled, and is satisfied iff posted. |
| `Completion.CompletionObject.TryWaitForCompletion` | Project2/goldfish/kernel/sched/core.c:3860-3872 | Succeeds iff something is posted, and then takes one. |
| `TreeWalk.WalkTgTreeFrom` | Project2/goldfish/kernel/sched/core.c:662-691 | The goto-driven walk returns what the recursive walk returns: down in preorder, up in postorder over the subtree of from, stopping at and returning the first nonzero result; it terminates on every finite tree. |
| `TreeWalk.WalkPerforms` | Project2/goldfish/kernel/sched/core.c:656-661 | The recursive walk makes exactly the listed visits, up to the first nonzero result. |
| `TreeWalk.VisitsSubtree` | Project2/goldfish/kernel/sched/core.c:656-661 | down and up are visited for a group if and only if it lies in the subtree of from. |
| `TreeWalk.VisitsOnce` | Project2/goldfish/kernel/sched/core.c:656-661 | No visit is made twice. |
| `TreeWalk.SiblingsApart` | Project2/goldfish/kernel/sched/core.c:672-680 | Subtrees of different children are disjoint. |
| `RtAdmission.SharesHold` | Project2/goldfish/kernel/sched/core.c:7585-7686 | From boot, over every run of group creations and removals, accepted and refused settings, changes of the global setting and task moves: no sum of the check ever wraps, however many children a group has, and the ratios of any groups below g, no two of them ancestor-related, sum to at most the ratio of g, itself at most the global one. |
| `RtAdmission.NextInv` | Project2/goldfish/kernel/sched/core.c:7443-7503 | Each step keeps the tree well formed and rooted, every stored runtime within its period or unlimited, and every group at or above the true sum of its children. |
| `RtAdmission.ProposalHolds` | Project2/goldfish/kernel/sched/core.c:7658-7686 | Where all sums fit before an accepted setting they fit after it: one setting cannot carry a sum from within the limit over 2^32. |
| `RtAdmission.CrowdUnreachable` | Project2/goldfish/kernel/sched/core.c:7443-7478 | No such run leads to the tree that deceives the check. |
| `RtAdmission.FractionsHold` | Project2/goldfish/kernel/sched/core.c:7585-7686 | The same in parts of the processor: over every run, runtime/period summed over groups below g, no two of them ancestor-related, is at most that of g plus 2^-20 for each, and at most the global one plus 2^-20 for each. |
| `RtAdmission.TasksServed` | Project2/goldfish/kernel/sched/core.c:7610-7612 | Over every run no real-time task is in a group without runtime while bandwidth is enforced. |
| `RtAdmission.AskedIsShort` | Project2/goldfish/kernel/sched/core.c:7688-7725 | Every runtime that can be asked for with a 32-bit long is unlimited or below 2^44 ns, unlimited exactly if negative, and microseconds are 1000 ns. |
| `RtAdmission.TaskGroups.TgSetRtBandwidth` | Project2/goldfish/kernel/sched/core.c:7658-7686 | Accepted if and only if the tree with the new values would be schedulable; acceptance stores them in the group and on every CPU, refusal changes nothing. |
| `RtAdmission.TaskGroups.SchedGroupSetRtRuntime` | Project2/goldfish/kernel/sched/core.c:7688-7699 | A runtime in microseconds, none if negative, is proposed with the stored period. |
| `RtAdmission.TaskGroups.SchedGroupSetRtPeriod` | Project2/goldfish/kernel/sched/core.c:7714-7725 | A period in microseconds is proposed with the stored runtime; zero is refused and changes nothing. |
| `RtAdmission.TaskGroups.SchedCreateGroup` | Project2/goldfish/kernel/sched/core.c:7443-7478 | The new group comes first among its parent's children and has no runtime on any CPU. |
| `RtAdmission.TaskGroups.SchedDestroyGroup` | Project2/goldfish/kernel/sched/core.c:7488-7503 | A group without children disappears from its parent's list, and its settings with it. |
| `RtAdmission.TaskGroups.RtSchedulable` | Project2/goldfish/kernel/sched/core.c:7641-7656 | The walk succeeds iff the check succeeds at every group of the tree. |
| `RtSchedulable.AcceptedIffSchedulable` | Project2/goldfish/kernel/sched/core.c:7641-7656 | The walk with a proposal succeeds iff the tree that would result passes the check everywhere. |
| `RtSchedulable.SubstitutionIsUpdate` | Project2/goldfish/kernel/sched/core.c:7592-7633 | Checking with the proposed values in place of the stored ones is checking the tree that would result. |
| `RtSchedulable.TgRtSchedulable` | Project2/goldfish/kernel/sched/core.c:7585-7639 | The per-group check with its 32-bit running sum and its errors in order. |
| `RtSchedulable.SumChildren` | Project2/goldfish/kernel/sched/core.c:7622-7634 | The loop sums the children's ratios modulo 2^32. |
| `RtSchedulable.AntichainsFitIff` | Project2/goldfish/kernel/sched/core.c:7585-7639 | In a tree that passes the check, the ratios of all sets of groups below g, no two of them ancestor-related, sum to at most the ratio of g if and only if no sum that the check forms below g reaches 2^32. |
| `RtSchedulable.AntichainFits` | Project2/goldfish/kernel/sched/core.c:7622-7637 | Where every group holds its children, each holds any set of groups below it no two of which are ancestor-related. |
| `RtSchedulable.HoldsIffNoWrap` | Project2/goldfish/kernel/sched/core.c:7622-7637 | For any number of children: in a tree that passes the check, a group holds its children's ratios if and only if their true sum is below 2^32. |
| `RtSchedulable.WrapAccepts` | Project2/goldfish/kernel/sched/core.c:7622-7637 | A stored tree of 4097 unlimited children that passes the check although they claim more than the root has: the 32-bit sum wraps. |
| `RtSchedulable.RatioBound` | Project2/goldfish/kernel/sched/core.c:7551-7557 | A runtime within its period, or unlimited, is worth at most 2^20. |
| `RtSchedulable.RatioExact` | Project2/goldfish/kernel/sched/core.c:7551-7557 | A ratio is never above 2^20 times runtime/period, and within one below it if and only if the runtime is below 2^44 ns. |
| `RtSchedulable.LongRuntimeIsFree` | Project2/goldfish/kernel/sched/core.c:7551-7557 | A runtime of 2^44 ns in a period as long is the whole processor and counts as zero: the shift loses its bits. |
| `RtSchedulable.AcceptedFractions` | Project2/goldfish/kernel/sched/core.c:7585-7639 | In a tree that passes the check with no wrapped sum, runtime/period of each group is at most the global one plus 2^-20, and summed over its n children at most its own plus n times 2^-20. |
| `FixedPower.PowerError` | Project2/goldfish/kernel/sched/core.c:2412-2432 | For x <= 2^f, f >= 1 and every n the result is at most 2^f and within n/2 of the exact 2^f (x/2^f)^n. |
| `FixedPower.FixedPowerInt` | Project2/goldfish/kernel/sched/core.c:2412-2432 | The loop terminates with that result and that error. |
| `FixedPower.LoopNear` | Project2/goldfish/kernel/sched/core.c:2416-2429 | From approximations of the m-th and k-th power, what is left of the loop reaches one of the (m + k n)-th, with half a unit of error for each factor. |
| `FixedPower.ProductNear` | Project2/goldfish/kernel/sched/core.c:2418-2428 | One rounded product is off by the errors of its factors and at most half a unit more. |
| `FixedPower.PowerAdd` | Project2/goldfish/kernel/sched/core.c:2399-2411 | Exponents add, for exact powers. |
| `FixedPower.CalcLoadBetween` | Project2/goldfish/kernel/sched/core.c:2270-2277 | One averaging step, rounded, stays between the old load and the active load. |
| `FixedPower.CalcLoadNear` | Project2/goldfish/kernel/sched/core.c:2270-2277 | One averaging step is the mean of load and active with weights exp and 2048 - exp, off by at most half a unit. |
| `FixedPower.CalcLoadNNear` | Project2/goldfish/kernel/sched/core.c:2457-2463 | n missed periods at once shrink the gap between load and active by the exact n-th power of the weight, off by n/2 of its units and half a unit of the result. |
| `FixedPower.CalcLoadNBetween` | Project2/goldfish/kernel/sched/core.c:2457-2463 | Folding n missed periods at once stays between them too, for every n. |
| `CpuLoad.DecayedNear` | Project2/goldfish/kernel/sched/core.c:2610-2632 | decay_load_missed never raises a load, never leaves more than the exact decay ((2^i - 1)/2^i)^n, and falls short of it by at most seven roundings, for indices 1 to 4 and any number of missed ticks, cut-off and shift branches included. |
| `CpuLoad.TableIsFloor` | Project2/goldfish/kernel/sched/core.c:2594-2603 | Every degrade_factor entry the loop can use is 128 times the exact share, rounded down. |
| `CpuLoad.DecayLoadMissed` | Project2/goldfish/kernel/sched/core.c:2610-2632 | The loop never indexes past its table row and computes the decay that DecayedNear bounds. |
| `CpuLoad.DecayLoopNear` | Project2/goldfish/kernel/sched/core.c:2624-2631 | The error bound for what is left of the loop from any column. |
| `CpuLoad.ShiftNear` | Project2/goldfish/kernel/sched/core.c:2621-2622 | At index 1 the shift is the exact decay rounded down. |
| `CpuLoad.CutOff` | Project2/goldfish/kernel/sched/core.c:2618-2619 | From the cut-off on, the exact share is at most 7/128, so answering zero is within the error. |
| `CpuLoad.AveragedMoves` | Project2/goldfish/kernel/sched/core.c:2657-2673 | Averaging moves the figure towards the load by exactly the gap divided by 2^i, rounded up, so never past it and never stuck short of it. |
| `CpuLoad.UpdatedBetween` | Project2/goldfish/kernel/sched/core.c:2639-2674 | Entry 0 is the load; any other entry i is the old one, decayed over the missed ticks, moved towards the load by a 2^i-th of the gap, rounded up; with one update a tick nothing is decayed. |
| `CpuLoad.SteadyConverges` | Project2/goldfish/kernel/sched/core.c:2639-2674 | Under a constant load, n updates of all entries leave in each a gap of at most (gap - n), hence none after gap updates, and at most the exact decay of the original gap; entry 0 is the load after one. |
| `CpuLoad.LoadRecord.UpdateCpuLoad` | Project2/goldfish/kernel/sched/core.c:2639-2674 | The loop over the indices, in place: all five figures, nothing on a repeated call in the same tick, missed ticks by 32-bit subtraction. |
| `Ras.RefinesRoundRobin` | Project2/goldfish/kernel/sched/ras.c:82-195 | Seen as (current task, run list without it), every operation of the class is the same operation of a plain round robin: put_prev and pick run the first waiter and append the old current if it goes on, yield and tick change nobody's turn. |
| `Ras.TurnRefines` | Project2/goldfish/kernel/sched/ras.c:141-179 | The reschedule case of it, wherever the running task stands in the list. |
| `Ras.TicksBound` | Project2/goldfish/kernel/sched/ras.c:246-291 | For every run at all in which a task waits, with k waiters ahead of it at first: the ticks are at most (k + 1 + d) longest slices and the late ticks, where d counts the inserts at the head and the slice queries on the running task, and a tick is late when it comes before a reschedule already asked for. |
| `Ras.WaitBound` | Project2/goldfish/kernel/sched/ras.c:246-291 | Without head inserts, slice queries on the running task and late ticks, a task with k waiters ahead runs within (k + 1) longest slices, whatever else is enqueued, dequeued, preempted, yields or sleeps. |
| `Ras.PatienceFalls` | Project2/goldfish/kernel/sched/ras.c:246-291 | Every tick but a late one uses up patience by at least one, and only a head insert or a query of the running task adds to it, at most one longest slice. |
| `Ras.QueriesStarve` | Project2/goldfish/kernel/sched/ras.c:293-318 | For every n there is a run of n ticks in which a waiter never runs, because the running task's interval is queried after each tick: the query refills its slice. |
| `Ras.HeadInsertsStarve` | Project2/goldfish/kernel/sched/ras.c:82-121 | For every n there is a run of n ticks, none of them late, in which a waiter never runs, because two others keep being put back at the head. |
| `Ras.NextInv` | Project2/goldfish/kernel/sched/ras.c:82-195 | Over every step: ras_nr_running is the list length, no task is listed twice, and every queued task has a slice between 1 and the longest one. |
| `Ras.EndsDiffer` | Project2/goldfish/kernel/sched/ras.c:279-279 | The pointer test prev != next means exactly that two or more tasks are queued. |
| `Ras.WeightBands` | Project2/goldfish/kernel/sched/ras.c:33-52 | The weight is at least w exactly below 2^(14 - w) writes: one step down with each doubling from 2^4 to 2^13. |
| `Ras.SliceFavours` | Project2/goldfish/kernel/sched/ras.c:91-105 | Fewer writes never mean a shorter slice within a group, and a foreground task's slice is longer than any other's by at least 20 ms worth of ticks. |
| `Ras.SlicesApart` | Project2/goldfish/kernel/sched/ras.c:91-105 | Within a group slices differ by exactly 10 ms worth of ticks for each power of two from 2^4 to 2^13 between the write counts; the longest slice is that of a foreground task with fewer than 2^4 writes, and from 2^13 writes on a slice is exactly 50 ms worth of ticks in the foreground and 30 ms elsewhere. |
| `Ras.SliceRunsDown` | Project2/goldfish/kernel/sched/ras.c:246-262 | Whatever else happens, a running task that is not queried loses exactly one unit of its slice with each tick, and no tick asks for a reschedule before the slice is used up. |
| `Ras.SliceServedInFull` | Project2/goldfish/kernel/sched/ras.c:246-291 | The tick that uses it up gives a new slice and, exactly when another task is queued, asks for a reschedule and puts the task last. |
| `Ras.PreemptsFewerWrites` | Project2/goldfish/kernel/sched/ras.c:200-217 | A woken task preempts exactly when a power of two between 2^4 and 2^13 separates its smaller write count from the running task's; both weights are brought up to date and nothing else of any task changes. |
| `Ras.RasRunqueue.TaskTick` | Project2/goldfish/kernel/sched/ras.c:246-291 | The tick on the object: decrement as an unsigned word, refill, move to the tail and reschedule only with company. |
| `Ras.RasRunqueue.EnqueueTask` | Project2/goldfish/kernel/sched/ras.c:82-121 | Enqueueing on the object: slice, list position, both counters. |
| `Ras.RasRunqueue.DequeueTask` | Project2/goldfish/kernel/sched/ras.c:123-139 | Dequeueing on the object; nr_running drops even for a task not on the list. |
| `Ras.RasRunqueue.PickNextTask` | Project2/goldfish/kernel/sched/ras.c:141-160 | The head of the list, and none exactly when the list is empty. |
| `Ras.RasRunqueue.PutPrevTask` | Project2/goldfish/kernel/sched/ras.c:163-179 | The previous task moves to the tail if it is still on the list. |
| `Ras.RasRunqueue.YieldTask` | Project2/goldfish/kernel/sched/ras.c:181-195 | A yielding task goes to the tail, if it is still on the list. |
| `Ras.RasRunqueue.CheckPreemptCurr` | Project2/goldfish/kernel/sched/ras.c:200-217 | Both weights are recomputed on the object and a reschedule is asked for as PreemptsFewerWrites says. |
| `Ras.RasRunqueue.GetRrInterval` | Project2/goldfish/kernel/sched/ras.c:293-318 | Returns the refilled slice, between 1 and the longest one. |
| `Ras.RasRunqueue.ScheduleRas` | Project2/goldfish/kernel/sched/core.c:3381-3382 | One reschedule on the object is one turn of the round robin and keeps the invariant. |
| `LoadAccounting.Exact` | Project2/goldfish/kernel/sched/core.c:2252-2264 | From boot, in every interleaving of any number of CPUs: the global count, both idle buffers, what is in flight and what is being folded add up; with nothing in flight, the count and the buffers equal the sum of calc_load_active. |
| `LoadAccounting.PerformBalanced` | Project2/goldfish/kernel/sched/core.c:2350-2395 | Each atomic access of fold, idle entry, idle fold, global add and CPU removal keeps the books balanced. |
| `LoadAverage.FoldedOnceWhenDue` | Project2/goldfish/kernel/sched/core.c:2325-2395 | Over every run: a change recorded on idle entry has been folded, with all its copies, exactly when its sample has been taken, the next one if recorded outside a window and the one after if inside; outside a window the buffer not being read is empty. |
| `LoadAverage.NextInv` | Project2/goldfish/kernel/sched/core.c:2474-2561 | Every step, with calc_global_load as one, keeps records, buffers and indices consistent. |
| `LoadAverage.GlobalCatchesUp` | Project2/goldfish/kernel/sched/core.c:2474-2543 | After calc_global_load jiffies is below calc_load_update + 10 however many periods were missed, and not more than one period below. |
| `LoadAverage.AveragesBetween` | Project2/goldfish/kernel/sched/core.c:2516-2543 | Each load average stays between its old value and the scaled active count, also in the bulk catch-up. |
| `LoadAverage.SampleWeights` | Project2/goldfish/kernel/sched/core.c:2516-2543 | One period later each average is, to half a unit, the mean of its old value and the active count with the weights 1884, 2014 and 2037 of 2048 for one, five and fifteen minutes. |
| `LoadAverage.ExitIdleSkipsWindow` | Project2/goldfish/kernel/sched/core.c:2366-2384 | A CPU that wakes inside a window does not sample in it. |
| `LoadAverage.CountsReports` | Project2/goldfish/kernel/sched/core.c:2252-2561 | Over every run from boot, the global count is the sum of what each CPU reported last, on entering idle, at a tick that was due or on leaving, less what waits in the buffers. |
| `LoadAverage.TickFolds` | Project2/goldfish/kernel/sched/core.c:2549-2561 | A tick before the CPU's sampling time does nothing; a later one brings the count up to what the CPU reports and moves that time by one period. |
| `LoadAverage.RemoveTakesOut` | Project2/goldfish/kernel/sched/core.c:5298-5302 | A dead CPU's contribution leaves the count and becomes zero. |
| `LoadAverage.ExitIdleSamplesNext` | Project2/goldfish/kernel/sched/core.c:2366-2384 | A CPU that wakes after its sampling time samples in the next window if and only if the current window has begun. |
| `LoadAverage.WakeMissesWindow` | Project2/goldfish/kernel/sched/core.c:2366-2384 | A concrete CPU, idle over a sample, that wakes before the next window and is told to wait for the one after it. |
| `LoadAverage.GlobalLoad.CalcLoadEnterIdle` | Project2/goldfish/kernel/sched/core.c:2350-2364 | Idle entry on the shared counters: the delta goes to the buffer that the clock selects. |
| `LoadAverage.GlobalLoad.CalcLoadExitIdle` | Project2/goldfish/kernel/sched/core.c:2366-2384 | Idle exit: the CPU's next sample time. |
| `LoadAverage.GlobalLoad.CalcLoadAccountActive` | Project2/goldfish/kernel/sched/core.c:2549-2561 | The tick: the delta goes to the global count, once per period. |
| `LoadAverage.GlobalLoad.CalcGlobalLoadRemove` | Project2/goldfish/kernel/sched/core.c:5298-5302 | A dead CPU's contribution leaves the global count. |
| `LoadAverage.GlobalLoad.CalcGlobalNohz` | Project2/goldfish/kernel/sched/core.c:2474-2504 | The catch-up and the index flip. |
| `LoadAverage.GlobalLoad.CalcGlobalLoad` | Project2/goldfish/kernel/sched/core.c:2516-2543 | The whole sample on the shared counters. |
| `Mprotect.AddressSpace.MprotectS` | Project2/page-trace/start_trace.c:109-207 | After the checks, for a fixup that meets its contract: exactly the addresses from the start of the range up to a cut have the requested bits with their old non-RWX bits, all of those were mapped and allowed it, every other address is as it was, and the result is 0 iff the cut is the end; with hooks that never refuse, iff every address of the range is mapped and allows the bits. An earlier error changes nothing. |
| `Mprotect.AddressSpace.ProtectRange` | Project2/page-trace/start_trace.c:168-203 | The loop; the cut is where it stopped, and an error means that the address there is unmapped or does not allow the bits, or that a hook asked about it refused; with hooks that never refuse it is -ENOMEM and -EACCES respectively. |
| `Mprotect.SkipIsSound` | Project2/page-trace/start_trace.c:188-194 | Skipping ahead to prev->vm_end after a merge is sound: what lies there already had the flags the loop would have set, and they were allowed. |
| `Mprotect.PrepareIff` | Project2/page-trace/start_trace.c:117-166 | A request without growth flags reaches the loop iff it is aligned, nonempty, does not wrap after rounding, has valid bits and starts at a mapped address. |
| `Mprotect.PrepareOk` | Project2/page-trace/start_trace.c:117-166 | The loop starts inside its first area with a nonempty range that covers the request. |
| `Mprotect.PlanBits` | Project2/page-trace/start_trace.c:114-138 | Read, write and execute are asked for exactly as in prot, and execute also for a reader whose personality says so; the hooks are asked with the same bits. |
| `Mprotect.PrepareRefuses` | Project2/page-trace/start_trace.c:109-130 | What each malformed request returns, in order: misaligned or growing both ways, empty, wrapping, and unknown bits. |
| `Mprotect.PrepareLocates` | Project2/page-trace/start_trace.c:132-166 | A well-formed request is placed by the memory map alone. |
| `Mprotect.GrowsUp` | Project2/page-trace/start_trace.c:155-165 | Growing up: -ENOMEM if the start is unmapped, -EINVAL if its area does not grow, else the change goes to the end of that area. |
| `Mprotect.GrowsDown` | Project2/page-trace/start_trace.c:147-154 | Growing down: -ENOMEM if nothing in the range is mapped, -EINVAL if the area of its first mapped address does not grow, else the change begins where that area begins. |
| `Mprotect.AllowedBits` | Project2/page-trace/start_trace.c:175-178 | A protection is allowed if and only if each of read, write and execute has its VM_MAY bit. |
| `Mprotect.WantedBits` | Project2/page-trace/start_trace.c:172-172 | The new flags have the requested read, write and execute bits and every other bit as before. |
| `MprotectFixup.SplitDelivers` | Project2/page-trace/start_trace.c:188-190 | Splitting the area at both ends of the range meets the contract that the loop asks of mprotect_fixup. |
| `MprotectFixup.SplitAndMergeDelivers` | Project2/page-trace/start_trace.c:188-190 | Splitting and then merging with equal neighbours on both sides meets that contract too. |
| `Mprotect.HonestExists` | Project2/page-trace/start_trace.c:181-190 | There is a fixup that meets the contract and, with the security hook, never refuses: the hypotheses of the main result can hold together. |
| `AddressMap.GapAfter` | Project2/page-trace/start_trace.c:198-202 | A successor that does not begin where the area ends, or none, means that the address there is unmapped. |
| `AddressMap.FindVma` | Project2/page-trace/start_trace.c:142-145 | find_vma: the first area that ends above the address. |
| `SchedGroups.GroupsPartitionSpan` | Project2/goldfish/kernel/sched/core.c:6266-6321 | One group for each leader; the masks are nonempty, pairwise disjoint and cover the span exactly. |
| `SchedGroups.GroupIsChildSpan` | Project2/goldfish/kernel/sched/core.c:6249-6264 | When the child domains partition the span, each mask is the span of its child domain. |
| `SchedGroups.ChildDomainsAreGroups` | Project2/goldfish/kernel/sched/core.c:6249-6264 | Child domains that partition the span meet the builder's requirements, and each CPU of the span is in exactly the group whose mask is its child domain. |
| `SchedGroups.ChildDomainsPassDebug` | Project2/goldfish/kernel/sched/core.c:5698-5749 | For such domains the built list passes the debug walk from every CPU once powers are set, and the group entered is the CPU's child domain. |
| `SchedGroups.GroupTable.BuildSchedGroups` | Project2/goldfish/kernel/sched/core.c:6273-6321 | The nested loops leave a circular list of the groups in order of first member, with these masks and zero power; called for any CPU but the first of the span they only set sd->groups, and no other entry changes. |
| `SchedGroups.GroupTable.Collect` | Project2/goldfish/kernel/sched/core.c:6301-6310 | The inner loop fills exactly the CPUs of one leader into its mask and marks them covered. |
| `SchedGroups.GroupTable.WalkGroups` | Project2/goldfish/kernel/sched/core.c:5698-5749 | On a circular list, the walk is silent if and only if the groups are nonempty with power, disjoint, cover the span, and both span and first group contain the CPU. |
| `SchedGroups.GroupTable.SchedDomainDebugOne` | Project2/goldfish/kernel/sched/core.c:5677-5756 | Without load balancing the domain may have no parent and -1 is returned; with it, the debug check is silent if and only if the walk is and the span lies within the parent's. |
| `SchedGroups.BuiltIsSound` | Project2/goldfish/kernel/sched/core.c:5702-5749 | The list that was built passes the walk from the group of any CPU of the span, once the powers are set. |
| `RqLocks.NoDeadlock` | Project2/goldfish/kernel/sched/sched.h:1032-1135 | Any number of threads in any interleaving: no cycle of waiting threads forms, a blocking acquire while holding a lock is of a higher address, no lock has two holders, each function ends holding what it promises and at most two locks, and a balance returns true exactly when it dropped its lock, which it does exactly if it is fair or its trylock failed for a lock of lower address. |
| `RqLocks.NextInv` | Project2/goldfish/kernel/sched/sched.h:1032-1135 | Every lock operation keeps each thread on a safe course. |
| `RqLocks.CallSafe` | Project2/goldfish/kernel/sched/sched.h:1032-1135 | Each locking function is safe on every path, trylock failure included. |
| `RqLocks.FairSafe` | Project2/goldfish/kernel/sched/sched.h:1032-1041 | The CONFIG_PREEMPT variant of _double_lock_balance drops its lock, blocks only in address order, ends with both locks and returns true. |
| `RqLocks.UnfairSafe` | Project2/goldfish/kernel/sched/sched.h:1051-1070 | The other variant takes a lower lock while holding a higher one only by trylock; it drops its lock, and returns true, exactly if the trylock failed and the other lock has the lower address. |
| `RqLocks.LockBothSafe` | Project2/goldfish/kernel/sched/sched.h:1101-1118 | double_rq_lock acquires in address order, whichever way it is called. |
| `RqLocks.NoCycle` | Project2/goldfish/kernel/sched/sched.h:1032-1135 | Along any chain of waiting threads the wanted addresses rise, so it cannot close. |
| `RqLocks.SomeoneRuns` | Project2/goldfish/kernel/sched/sched.h:1032-1135 | Behind every waiting thread there is one that holds a lock and can go on. |
| `ClassSwitch.TasksConserved` | Project2/goldfish/kernel/sched/core.c:3303-3326 | Through any sequence of wakeups, sleeps, forks, __sched_setscheduler and rt_mutex_setprio, a task is in the queue of its class exactly when it has on_rq and in no other, nr_running is the sum of the class counts, and the fair-only shortcut agrees with the full scan. |
| `ClassSwitch.FastPathAgrees` | Project2/goldfish/kernel/sched/core.c:3303-3326 | With the counts right, the shortcut returns what the scan over stop, rt, ras, fair and idle would, even when rt is throttled. |
| `ClassSwitch.PickIsHighest` | Project2/goldfish/kernel/sched/core.c:3303-3326 | No queued task is in a higher class than the one picked, in the order stop, rt, ras, fair, idle, except real-time tasks that a throttled rt class does not offer; within the class the pick is that of the class. |
| `ClassSwitch.ScheduleSwitches` | Project2/goldfish/kernel/sched/core.c:3331-3391 | One reschedule: a task that sleeps is off its queue, a RAS task that goes on is last on its own, no other queue changes, and the next task is in the highest class that offers one. |
| `ClassSwitch.RunnableTracked` | Project2/goldfish/kernel/sched/core.c:1838-1840 | Over every run the tasks with on_rq are exactly those woken that have not gone to sleep since, and each fork adds a task that is not. |
| `ClassSwitch.SetSchedulerInv` | Project2/goldfish/kernel/sched/core.c:4346-4364 | A changing request leaves the task in the class for its policy and priority, queued iff it was, with nr_running and every other task unchanged; one that changes nothing leaves everything alone. |
| `ClassSwitch.GrantedIff` | Project2/goldfish/kernel/sched/core.c:4217-4340 | Exactly which requests are granted, which are refused with -EINVAL and which with -EPERM. |
| `ClassSwitch.GrantedIsKept` | Project2/goldfish/kernel/sched/core.c:4180-4196 | A granted request leaves the policy and real-time priority asked for, normal_prio 99 minus it, and the priority of that or of a more urgent waiter; one that asks for nothing new changes nothing. |
| `ClassSwitch.ResetFlagTaken` | Project2/goldfish/kernel/sched/core.c:4314-4349 | The reset-on-fork flag of a granted request takes effect if and only if something else changes too or it is set so already. |
| `ClassSwitch.ResetFlagIgnored` | Project2/goldfish/kernel/sched/core.c:4314-4323 | A SCHED_NORMAL task that asks for SCHED_NORMAL with reset-on-fork gets 0 and not the flag. |
| `ClassSwitch.SetPrioInv` | Project2/goldfish/kernel/sched/core.c:3954-4010 | A priority change moves the task to the class for its policy and the new priority, SCHED_RAS winning over a real-time priority; it stays as runnable as it was, and nobody else changes. |
| `ClassSwitch.ReclassInv` | Project2/goldfish/kernel/sched/core.c:3985-4007 | The shared dequeue, put_prev, change, enqueue frame keeps all queues and counts. |
| `ClassSwitch.ReclassPlaces` | Project2/goldfish/kernel/sched/core.c:3985-4007 | A queued task leaves its old list and is at the asked-for end of the list of its new class; nobody else moves. |
| `ClassSwitch.SetPrioPlaces` | Project2/goldfish/kernel/sched/core.c:3985-4007 | A task whose priority falls goes to the head of its list, any other to the tail. |
| `ClassSwitch.ForkClass` | Project2/goldfish/kernel/sched/core.c:1742-1785 | A forked child is in the class of its policy and priority if and only if its policy is not SCHED_RAS; under SCHED_RAS it starts in the fair class. |
| `ClassSwitch.ForkResets` | Project2/goldfish/kernel/sched/core.c:1742-1785 | A child inherits no boost. With reset-on-fork it has no real-time policy, nice 0 or worse, the priority of that and the flag cleared; otherwise it is its parent but for queueing and class. |
| `ClassSwitch.ForkedRasStays` | Project2/goldfish/kernel/sched/core.c:4314-4323 | Asking for SCHED_RAS does not move such a child: the request returns 0 and changes nothing. |
| `ClassSwitch.NextInv` | Project2/goldfish/kernel/sched/core.c:3331-3391 | Every step keeps the invariant. |
| `ClassSwitch.WakeInv` | Project2/goldfish/kernel/sched/core.c:1838-1840 | A wakeup adds exactly the woken task. |
| `ClassSwitch.ClassRunqueue.SchedSetscheduler` | Project2/goldfish/kernel/sched/core.c:4217-4370 | The function on the run queue object, its error returns in order. |
| `ClassSwitch.ClassRunqueue.RtMutexSetprio` | Project2/goldfish/kernel/sched/core.c:3954-4010 | The function on the run queue object. |
| `ClassSwitch.ClassRunqueue.ScheduleTask` | Project2/goldfish/kernel/sched/core.c:3331-3391 | Deactivation, put_prev and pick on the run queue object. |
| `ClassSwitch.ClassRunqueue.PickNextTask` | Project2/goldfish/kernel/sched/core.c:3303-3326 | pick_next_task returns the result of the full scan. |
| `ClassSwitch.ClassRunqueue.SchedFork` | Project2/goldfish/kernel/sched/core.c:1742-1785 | The child's policy, priority and class. |
| `ClassSwitch.ClassRunqueue.WakeTask` | Project2/goldfish/kernel/sched/core.c:1838-1840 | A wakeup on the run queue object, keeping the invariant. |
| `ClassSwitch.ClassRunqueue.DequeueTask` | Project2/goldfish/kernel/sched/core.c:726-731 | Dequeueing from whichever class the task is in, with both counts. |
| `ClassSwitch.ClassRunqueue.EnqueueTask` | Project2/goldfish/kernel/sched/core.c:719-724 | Enqueueing into whichever class the task is in, with both counts. |
| `PsTree.ReadBack` | Project1/Problem2/ptree.c:32-44 | The reader shows exactly the first min(nr, N) records of the preorder walk, if and only if none of them has the sentinel name. |
| `PsTree.TreeRebuilt` | Project1/Problem2/ptree.c:32-44 | When the buffer is large enough, the pids and layers read back rebuild the tree: no two trees give the same output. |
| `PsTree.LinksMatch` | Project1/Problem1/sys_ptree.c:63-113 | Every record's parent, first-child and next-sibling pids are those that the order and layers of the records determine. |
| `PsTree.PreorderShows` | Project1/Problem1/sys_ptree.c:63-127 | Record k shows process k of the preorder: its own pid, state, uid, name and first child. |
| `PsTree.FilledContents` | Project1/Problem1/sys_ptree.c:142-200 | The buffer holds the first min(nr, N) records, then the sentinel name if there is room, and is otherwise as before. |
| `PsTree.FillContents` | Project1/Problem1/sys_ptree.c:57-136 | Records land consecutively from the start position and stop at nr. |
| `PsTree.PstreeDfs` | Project1/Problem1/sys_ptree.c:47-141 | The recursive walk through the two int pointers stores the preorder below the process, advances idx by what fits and restores layer. |
| `PsTree.VisitChild` | Project1/Problem1/sys_ptree.c:53-140 | One turn of the list loop stores the child's record and everything below it, one layer down, as far as there is room. |
| `PsTree.PutRecord` | Project1/Problem1/sys_ptree.c:59-133 | The put_user sequence stores one whole record. |
| `PsTree.Ptree` | Project1/Problem1/sys_ptree.c:142-200 | The system call: 1 for null pointers, else the filled buffer. |
| `PsTree.PrintTree` | Project1/Problem2/ptree.c:32-44 | The print loop shows the records up to the first sentinel or nr. |
| `PsTree.ParseWalk` | Project1/Problem1/sys_ptree.c:47-141 | A forest is recovered from the pairs of its walk, and what follows is left. |
| `LineReader.ReadAll` | Project1/Problem4/server/server.c:79-79 | However read splits the stream and however often it is interrupted, calling read_line until it returns 0 yields the lines of the whole stream, whose concatenation is the stream. |
| `LineReader.Reader.ReadLine` | Project1/Problem4/server/general.h:56-85 | One call takes the first line of what is left, stores it with its NUL inside the buffer, returns its length, and leaves the rest for the next call. |
| `LineReader.Reader.ReadFromBuf` | Project1/Problem4/server/general.h:30-54 | Up to n buffered bytes are handed out, in order, refilling when empty; 0 only at the end of input and -1 only on an error other than EINTR. |
| `LineReader.Reader.FillBuffer` | Project1/Problem4/server/general.h:34-46 | The refill loop retries interrupted reads and loses nothing. |
| `LineReader.Reader.TakeLine` | Project1/Problem4/server/general.h:61-82 | The byte loop stops after a newline, at length - 1 bytes or at the end of input. |
| `LineReader.LinesSplit` | Project1/Problem4/server/general.h:56-85 | Splitting loses and repeats nothing, every line is nonempty, shorter than length and has no newline but at its end, and only the last may be incomplete. |
| `LineReader.LinesUnique` | Project1/Problem4/server/general.h:56-85 | There is no other way to split a stream so. |
| `LineReader.CutUnique` | Project1/Problem4/server/general.h:61-82 | The first line is determined by what follows the stream's front: a line that could not be longer. |
| `LineReader.NulInBounds` | Project1/Problem4/server/general.h:83-84 | The terminating NUL is inside the caller's length for every stream if and only if the length is not zero; after every line it is there, and it is missing exactly at the end of the input with a length of 2 or more. |

## Left out

- RtThrottle.BandwidthBound: the runtime is fixed, positive and below the period, and not shared with other CPUs; borrowing is the subject of `RtRuntime`.
- RtRuntime.RuntimeConserved: the group's runtime is finite, `tg_set_rt_bandwidth` does not run meanwhile (on a disabled CPU it overwrites the disabled mark), and a CPU is enabled only where `RtRuntime.EnableConservesIff` says that this conserves.
- RtScheduling.RunInv: a priority changes only while its task is off the queues; `__enable_runtime`, which clears throttling without requeuing, is not a step; priority boosting (`rt_nr_boosted`) is absent.
- RtAdmission.SharesHold: the global setting at boot has its runtime within its period or unlimited; a change through sysctl is one step, with the check that precedes it, and allocation failures do not occur; a group is removed only when it has no children and no tasks, and real-time tasks are moved or made only where there is runtime while bandwidth is enforced, as the cgroup core, `sched_rt_can_attach` and `__sched_setscheduler` see to.
- Completion.NoLostWakeup: tasks that wait non-exclusively on the same queue occur only in the wakeup scan, since completions queue exclusive waiters only.
- CpuLoad.DecayedNear: index 0 is overwritten by every update and is not decayed.
- LoadAverage.FoldedOnceWhenDue: `calc_global_load`, and the choice of the idle buffer with the addition to it, are single steps; the finer interleavings are covered by `LoadAccounting.Exact`.
- Ras.TicksBound: one processor, whose tasks are not moved between groups; the running task's scheduler is not changed meanwhile.
- Mprotect.AddressSpace.MprotectS: `mprotect_fixup` is given by its contract, not modelled; what `find_vma`'s list and locks look like is not modelled either. The checks before the loop are one function, not the source's sequence of gotos.
- ClassSwitch.ClassRunqueue.SchedSetscheduler: capability, security and group-bandwidth refusals are inputs, and the recheck after a concurrent policy change is not modelled.
- PsTree.ReadBack: the process tree does not change during the call, and the user's buffer is accessible.
- LineReader.ReadAll: no read error other than EINTR; `read_line` then returns -1 as an unsigned number, and nothing is said about the lines.
- SchedGroups.BuiltIsSound: group powers are set by a later pass, which is not modelled.
- Jiffies, loads, runtimes and clock values are mathematical integers, except the counter of a completion, the bandwidth ratios and their sums, RAS slices, update ticks of the load figures and user addresses, which have their width.
- Locks other than those of run queues, RCU, memory barriers, interprocessor interrupts, timers as such, tracing and printk: critical sections are atomic steps.
- CFS, stop and idle class internals and cpupri: only the tasks they hold and what they would pick.
- Pushing and pulling real-time tasks between CPUs, migration counters, overload marks and affinity: load balancing policy on top of the queues modelled here.
- Accounting fields (execution times, statistics, the real-time watchdog) and `check_class_changed`: they do not influence the queues.
- Sysctl, cgroup and debugfs files, syscall table patching, the trace modules other than `mprotect_s`, the write counter, sockets and the Caesar shift of the server: plumbing.
- The PROT_, VM_ and errno values are those of the Linux headers; those headers are not part of this model's sources, and the value of VM_GROWSUP, which depends on the architecture, is a parameter.
