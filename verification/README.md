# Verification of the ittrium kernel and its lwIP mailbox port

ittrium is a small µITRON4.0 kernel. This project models its portable part in Dafny and proves
what its queues, scheduler, waits, timeouts and objects guarantee over every run, together with
the message mailbox that the lwIP port builds from two of its semaphores.

## The kernel

Every task has one `qnode` that moves between the priority lines, the wait queues of the objects
and the list of free control blocks, and one `wtmeb` node for the timer list. All lists are
circular and intrusive, and `kqueue_remove` leaves the removed node's links as they were. Nothing
in a node says which list it is in; that follows only from the state of the task. The project
makes this precise and proves that no call and no tick ever gets it wrong.

There are two levels.

* **The state machine.** `KernelState` gives, for each service call, the state it leaves behind:
  lists as sequences, tables as sequences of records. A call is one step, because its body is one
  critical section followed by `dispatch`. `KernelInv.Inv` is the global invariant. On it rest the
  theorems about whole runs: where every node is, which task is scheduled, how each wait ends and
  when, who is served first, what semaphores, eventflags and mailboxes conserve, and what the
  activation, wakeup and suspension counters count.
* **The code.** `KQueue.Heap`, `ReadyQueue.RdyQ`, `MessageQueues.Mailboxes` and
  `KernelImpl.Kernel` are classes that do what the C code does, in its order: links rewritten in
  place, a bitmap with a cached top priority, tables updated entry by entry, loops that follow
  pointers while nodes are being unlinked. Each method is proved to take the step of the state
  machine, so the theorems hold of it. A method such as `KernelImpl.Kernel.WaiSem` states its whole
  new state and result as that step; what the step means is what the theorems below say.

A running task stays `RDY` in its priority line, as in the code, which never stores `TTS_RUN`.
`rdyq_top` on an empty queue reads the null pointer placed behind the last line; here that is
`NULL`. A blocking call returns the caller's `ercd` once the caller runs again; in the model that
value is the caller's `ercd` in the later state, and the call's own result is the code preset when
the wait begins. The variables that `p_flgptn` and `ppk_msg` point to are the fields `flgOut` and
`msgOut` of the waiting task. TMO is 16 bits wide, as on the ports whose `TMO` is `H`; the count of
a timer is unsigned, 32 bits wide, and wraps. The limits are those of the qemu-a53 configuration
(`TMAX_MAXSEM` 32, `TMAX_ACTCNT` 15); the numbers of tasks, priorities and objects are arbitrary.

What the kernel does not check, its callers must: `KernelRuns.Sound` lists it, and
`KernelSafety.InvExact` proves that the list is exact. A call that can be made at all keeps the
invariant if and only if it is sound. A message packet is known by its address, and the invariant
says that no address is in the message lists twice: one packet has one link, so a packet linked
again closes its list into a ring. Runs are runs of sound calls. While a packet is in a list its
header (link and priority) is the kernel's; a sender fills it in before the packet is sent.

Where names and behaviour disagree, the model follows the behaviour. `TA_MFIFO` (0x02) and
`TA_TPRI` (0x01) both pass the test for `TA_MPRI` (0x03), so only attribute 0 gives a FIFO mailbox.
`TA_WSGL` is 0, so `wai_flg` never refuses a second waiter. `dly_tsk` takes a 32-bit delay and
narrows it to a TMO.

## The lwIP mailbox

`MboxRing.SysMbox` is the ring buffer, `SlicedWait.SemWaitMs` the loop that serves long timeouts in
slices, and `MboxProtocol` the protocol: posters, try-posters (also from interrupts) and fetchers
interleave between critical sections, and both semaphores are signalled outside of them. The
semaphores are those of `SemContract`, which `KernelSemaphores` proves of the kernel's own.

## Files

| file | modules |
|---|---|
| kqueue.dfy, rdyq.dfy | linked lists and the ready queue |
| kernel_state.dfy | the steps of the state machine |
| kernel_inv.dfy, kernel_calls.dfy, kernel_runs.dfy | the invariant and that every call keeps it |
| kernel_safety.dfy | start-up, runs, exact preconditions, scheduling |
| kernel_effects.dfy, kernel_order.dfy, kernel_lines.dfy | what one step does to a task, to the objects, to the order of wait queues, of the timer list and of the priority lines |
| kernel_ready.dfy, kernel_tasks.dfy, kernel_results.dfy | who moves in the priority lines, the life of a task, what each call returns |
| kernel_waits.dfy, kernel_objects.dfy, kernel_flags.dfy, kernel_counts.dfy | theorems about waits, semaphores and mailboxes, eventflags bit by bit, and counters |
| mailbox.dfy, kernel.dfy | the code of the message queues and of the kernel |
| sem_contract.dfy, sys_arch.dfy, mbox_protocol.dfy, mbox_messages.dfy | semaphore contract, ring, sliced wait, protocol, and which messages it delivers |

## Model

| member | source | states |
|---|---|---|
| KQueue.Heap.KqueueInit | kernel/kqueue.h:13-16 | an unlinked node becomes the head of an empty list; every other ring is as it was |
| KQueue.Heap.KqueueInsert | kernel/kqueue.h:18-24 | the four link writes put the node in front of the given one in that ring, whatever stale links it carried |
| KQueue.Heap.KqueueRemove | kernel/kqueue.h:26-32 | the node is gone from its ring and all rings are well linked; a self-linked node is left alone |
| KQueue.Heap.KqueueRemoveNext | kernel/kqueue.h:34-42 | unlinks and returns the first element |
| KQueue.Heap.KqueueEmpty | kernel/kqueue.h:57-61 | true exactly for a head without elements |
| KQueue.InitFreeList | kernel/task.c:63-75 | the start-up loops put every control block on the free list, in order |
| ReadyQueue.Ffs | kernel/rdyq.h:35-44 | terminates on a non-zero word with the index of its lowest set bit |
| ReadyQueue.RdyQ.constructor | kernel/rdyq.h:46-57 | every line empty, all bits clear, no top priority |
| ReadyQueue.RdyQ.RdyqTop | kernel/rdyq.h:59-67 | the first task of the lowest non-empty line, found by trying all lines, or none |
| ReadyQueue.RdyQ.RdyqInsert | kernel/rdyq.h:70-81 | appends to the line, keeps the bitmap exact, and says whether the task is the new top |
| ReadyQueue.RdyQ.BitmapSet | kernel/rdyq.h:24-27 | after setting one bit, exactly the bits of non-empty lines are set |
| ReadyQueue.RdyQ.BitmapClear | kernel/rdyq.h:29-32 | after clearing one bit, exactly the bits of non-empty lines are set |
| ReadyQueue.RdyQ.RdyqRemove | kernel/rdyq.h:93-114 | the word scan from the removed priority finds the same top as a search of all lines |
| ReadyQueue.RdyQ.RdyqRotate | kernel/rdyq.h:116-125 | the head of the line goes to its end and nothing else moves |
| MessageQueues.Mailboxes.InsertMpri | kernel/mailbox.c:65-78 | for a packet whose address is in no list, the pointer walk terminates and links it behind all messages of equal or better priority; each list is then the acyclic chain through its packets' addresses, and no other list has changed |
| MessageQueues.Mailboxes.Push | kernel/mailbox.c:176-185 | appends a packet whose address is in no list; `mq_tail` is the last one, no other list has changed |
| MessageQueues.Mailboxes.Pop | kernel/mailbox.c:219-223 | the head packet leaves the list |
| KernelImpl.Kernel.constructor | kernel/task.c:59-82 | start-up builds exactly the abstract start state |
| KernelImpl.Kernel.TaskMakeReady | kernel/task.c:114-119 | the task joins its line and becomes scheduled exactly if its priority beats the old top |
| KernelImpl.Kernel.TaskMakeUnready | kernel/task.c:124-129 | the task leaves its line; the top is looked up again only if it was the scheduled one |
| KernelImpl.Kernel.TaskChangePri | kernel/task.c:134-141 | remove, set priority, insert, with the scheduled task kept right |
| KernelImpl.Kernel.TaskLeaveWait | kernel/wait.h:22-29 | WAI becomes RDY, WAS becomes SUS |
| KernelImpl.Kernel.WaitCancel | kernel/wait.h:38-42 | timer and `qnode` are both unlinked |
| KernelImpl.Kernel.WaitRelease | kernel/wait.h:31-36 | both nodes unlinked and the wait left |
| KernelImpl.Kernel.WaitReleaseWith | kernel/wait.c:13-17 | release with a result code |
| KernelImpl.Kernel.WaitReleaseTmout | kernel/wait.c:22-26 | the timer callback: unlink `qnode` and leave the wait |
| KernelImpl.Kernel.KqueueFindPri | kernel/wait.h:44-54 | the pointer walk stops at the first task of a worse priority |
| KernelImpl.Kernel.KqueueInsertPri | kernel/wait.h:56-62 | inserts there |
| KernelImpl.Kernel.MakeWait | kernel/wait.c:31-45 | the caller leaves its line, becomes WAI and its timer is armed |
| KernelImpl.Kernel.WaitDelete | kernel/wait.c:50-59 | terminates with the queue empty, every waiter released in order with E_DLT |
| KernelImpl.Kernel.ObjMakeWait | kernel/wait.c:75-87 | the caller waits in the object's queue, by priority or in arrival order |
| KernelImpl.Kernel.TimerInsert | kernel/timer.c:28-42 | no timeout self-links the node, any other count is queued last |
| KernelImpl.Kernel.TimerEvent | kernel/timer.c:65-69 | one event: count down, at zero unlink and run the callback |
| KernelImpl.Kernel.TimerHandler | kernel/timer.c:49-74 | the loop visits each queued event once although callbacks unlink nodes under it |
| KernelImpl.Kernel.CreTsk | kernel/tsk_manage.c:18-91 | a free control block leaves the free list and becomes a dormant task with no request queued; a taken or bad ID changes nothing; invariant kept exactly if the priority, which is not checked, is in range |
| KernelImpl.Kernel.DelTsk | kernel/tsk_manage.c:122-162 | whatever the target is doing, both its nodes are off every queue and its control block is back on the free list; not the caller itself; invariant kept |
| KernelImpl.Kernel.IActTsk | kernel/tsk_manage.c:164-199 | a dormant task becomes ready, any other has one more activation queued up to the limit, beyond it E_QOVR; invariant kept |
| KernelImpl.Kernel.ActTsk | kernel/tsk_manage.c:201-209 | the same, and the scheduled task runs if the call succeeds |
| KernelImpl.Kernel.ChgPri | kernel/tsk_manage.c:219-248 | a ready task moves to the end of its new line and the best task is scheduled; so does a waiting one, out of its wait queue and still in state WAI or WAS, and then the invariant is lost; kept exactly in all other cases |
| KernelImpl.Kernel.RotRdq | kernel/tsk_manage.c:250-265 | the head of one line goes behind its equals, for the best line or a given one, and the new first task is scheduled; invariant kept |
| KernelImpl.Kernel.ExtTsk | kernel/tsk_manage.c:267-283 | the caller leaves its line and ends dormant with its counts reset, or starts again if an activation is queued; invariant kept |
| KernelImpl.Kernel.DlyTsk | kernel/tsk_dep_syn.c:11-23 | the caller waits on no object with result E_OK preset and the narrowed delay as timeout; invariant kept |
| KernelImpl.Kernel.SusTsk | kernel/tsk_dep_syn.c:25-58 | a ready task leaves its line and becomes SUS, a waiting one stays in its queues and becomes WAS, the nesting is counted; a task already SUS becomes WAS although it waits for nothing; invariant kept exactly otherwise |
| KernelImpl.Kernel.RsmTsk | kernel/tsk_dep_syn.c:60-88 | the last of the nested suspensions makes SUS ready again and WAS waiting, in the queue it never left; invariant kept |
| KernelImpl.Kernel.SlpTsk | kernel/tsk_dep_syn.c:90-109 | takes a queued wakeup, or polls, or sleeps with E_TMOUT preset; invariant kept |
| KernelImpl.Kernel.IWupTsk | kernel/tsk_dep_syn.c:121-148 | ends a sleep with E_OK, or queues the wakeup up to the limit; invariant kept |
| KernelImpl.Kernel.WupTsk | kernel/tsk_dep_syn.c:150-158 | the same, and the scheduled task runs if the call succeeds |
| KernelImpl.Kernel.CanWup | kernel/tsk_dep_syn.c:165-189 | returns the number of queued wakeups and leaves none; invariant kept |
| KernelImpl.Kernel.CreSem | kernel/semaphore.c:40-71 | the semaphore's queue head leaves the list of free semaphores and becomes an empty wait queue; parameter errors in the order tested; invariant kept exactly if the initial count, which is not compared, is at most the maximum |
| KernelImpl.Kernel.WaiSem | kernel/semaphore.c:99-124 | takes a resource that is there, or polls, or waits in the semaphore's queue; invariant kept |
| KernelImpl.Kernel.ISigSem | kernel/semaphore.c:143-166 | releases the first waiter without touching the count, else counts up to the maximum, else E_QOVR; invariant kept |
| KernelImpl.Kernel.SigSem | kernel/semaphore.c:168-174 | the same, and the scheduled task runs whatever the result |
| KernelImpl.Kernel.DelSem | kernel/semaphore.c:181-205 | every waiter is released with E_DLT, then the queue head joins the list of free semaphores; invariant kept |
| KernelImpl.Kernel.CreFlg | kernel/eventflags.c:53-85 | a dead eventflag comes to life with its pattern and an empty queue; attribute errors refused; invariant kept |
| KernelImpl.Kernel.SweepQueue | kernel/eventflags.c:124-139 | the traversal takes the successor before it releases the task under it |
| KernelImpl.Kernel.ISetFlg | kernel/eventflags.c:110-150 | sets the bits, then sweeps the queue once while releasing tasks from it; invariant kept although it is broken during the sweep |
| KernelImpl.Kernel.SetFlg | kernel/eventflags.c:152-158 | the sweep of `ISetFlg`, and the scheduled task runs whatever the result |
| KernelImpl.Kernel.ClrFlg | kernel/eventflags.c:160-176 | removes bits; nobody's condition becomes true by it; invariant kept |
| KernelImpl.Kernel.WaiFlg | kernel/eventflags.c:178-216 | returns the pattern if the condition holds, clearing it under TA_CLR, or polls, or waits with pattern and mode recorded; invariant kept |
| KernelImpl.Kernel.DelFlg | kernel/eventflags.c:258-281 | every waiter is released with E_DLT and the pattern is zero; invariant kept |
| KernelImpl.Kernel.CreMbx | kernel/mailbox.c:80-113 | a dead mailbox comes to life with an empty list and queue; attribute errors refused; invariant kept |
| KernelImpl.Kernel.SndMbx | kernel/mailbox.c:141-201 | hands the packet to the first waiter, in a list or not, or links it, at the end or by priority, if its address is in no list; refuses a bad priority; invariant kept |
| KernelImpl.Kernel.RcvMbx | kernel/mailbox.c:206-240 | takes the head packet, or polls, or waits in the mailbox's queue; invariant kept |
| KernelImpl.Kernel.DelMbx | kernel/mailbox.c:288-310 | every waiter is released with E_DLT and the list is dropped; invariant kept |
| KernelSafety.BootInv | kernel/task.c:59-82 | the start state satisfies the invariant |
| KernelSafety.StartEmpty | kernel/task.c:59-82 | at start-up nothing exists, nothing runs, every line is empty, and the free list holds all tasks in order |
| KernelRuns.StepInv | kernel/wait.h:22-62 | every sound call and every tick keeps the global invariant, despite stale links |
| KernelSafety.InvExact | kernel/tsk_dep_syn.c:45-52 | among callable calls exactly the sound ones keep it: not `sus_tsk` of a suspended task, `chg_pri` of a waiting or suspended one, `cre_sem` above the maximum, `cre_tsk` below 1 or above the number of priorities, `snd_mbx` linking a packet whose address is in a list already |
| KernelSafety.Reachable | kernel/wait.c:31-87 | in every reachable state a task's `qnode` is on precisely the queue its state dictates and its `wtmeb` on the timer list only while it waits |
| KernelSafety.SchedIsBest | kernel/task.c:103-163 | the scheduled task is the first of the best ready tasks; none exactly if no task is ready |
| KernelSafety.Synced | config/linux-user/cpu_support.c:111-143 | after each task-level call the running task is the scheduled one |
| KernelSafety.RunSynced | config/linux-user/cpu_support.c:111-143 | so it is after every run whose last interrupt-level call or tick has been followed by a dispatch |
| KernelSafety.RefusedChangesNothing | kernel/tsk_manage.c:122-148 | a call that fails leaves every queue, table and object as it was; only the caller's own error code may change |
| KernelEffects.StepEffect | kernel/tsk_dep_syn.c:25-189 | a table of the control block of every task and of every object after each call, the loops over lists resolved; what its entries mean is stated by the rows of `KernelTasks`, `KernelResults` and `KernelFlags` |
| KernelOrder.StepOrder | kernel/wait.h:44-62 | no step reorders those that keep waiting, in any wait queue or on the timer list |
| KernelReady.StepLines | kernel/rdyq.h:70-114 | at every call but `rot_rdq`, and at a tick, each priority line loses at most the task the call is about and grows at its end by tasks that were not ready; nobody else moves; only `chg_pri` and `ext_tsk` put a task back |
| KernelReady.RotRdqExact | kernel/tsk_manage.c:250-265 | the head of the line of the given priority, or for 0 of the scheduled task, goes to its end; every other list, every control block and every object is as it was, and the first task of the best line runs |
| KernelReady.RotRdqElse | kernel/tsk_manage.c:257-258 | with nothing ready, or a priority out of range, nothing is rotated |
| KernelReady.RoundRobin | kernel/rdyq.h:116-125 | k rotations of a line of n tasks, k <= n, bring its first k behind the others: each task is at the head in its turn, and n rotations restore the line |
| KernelReady.ChgPriExact | kernel/task.c:134-141 | the task has the new priority, or for 0 its initial one, and stands behind its equals, also if the priority is the one it had; its old line is as before without it |
| KernelTasks.FieldsKept | kernel/tsk_manage.c:164-283 | field by field, only the calls concerned with it change a control block: the initial priority never changes, the current one only by `chg_pri` and `ext_tsk`, and so on |
| KernelTasks.NamedAlone | kernel/tsk_manage.c:164-199 | an ID of 1 and above names task ID - 1 and 0 the caller; no other task changes, and an ID nobody has is E_ID and changes nothing |
| KernelTasks.CreatedExact | kernel/tsk_manage.c:66-91 | a task just created is dormant at the priority given, with nothing counted |
| KernelTasks.DeletedExact | kernel/tsk_manage.c:122-162 | a task deleted exists no longer and is on the free list; no other task changes |
| KernelTasks.ExitExact | kernel/tsk_manage.c:267-283 | a task that exits falls back to its initial priority and loses wakeups and suspensions; without a queued activation it is dormant and in no list, with one it is ready, one activation fewer, last in the line of its initial priority |
| KernelTasks.StartsAtInitial | kernel/task.c:85-101 | in every run from start-up, each start of a task is at its initial priority and last in that line |
| KernelTasks.InitialKept | kernel/tsk_manage.c:72 | over every run in which a task exists its initial priority stays what it was |
| KernelTasks.CanWupExact | kernel/tsk_dep_syn.c:165-189 | on E_OK the number reported is that of the wakeups that were queued, and none are left |
| KernelTasks.InterruptKeepsRun | kernel/tsk_manage.c:211-214 | the interrupt-level calls and the tick leave the running task running |
| KernelResults.NamedReturns | kernel/tsk_manage.c:164-248 | what the calls that name a task return, decided by the state of the task and a counter at 15 |
| KernelResults.TaskReturns | kernel/tsk_manage.c:18-162 | what the other calls about tasks return |
| KernelResults.LifeReturns | kernel/semaphore.c:40-71 | which creations and deletions of objects succeed, with each error: attributes above 1, 7 and 3, counts above 32 |
| KernelResults.ObjectReturns | kernel/mailbox.c:141-240 | what the calls on semaphores, eventflags and mailboxes return: exactly when what is asked for is there |
| KernelResults.ObjectLife | kernel/eventflags.c:66-74 | an object comes to life as its parameters say, with nothing in it; deleted, it is dead; no other object changes |
| KernelLines.TickExact | kernel/timer.c:49-74 | a tick counts each queued timer down once and ends exactly the waits that are due; the other timers keep their order, and each priority line grows by the released tasks of its priority in the order of the timer list |
| KernelLines.WaitDeleteExact | kernel/wait.c:50-59 | after `wait_delete` the queue is empty, exactly its tasks are released with E_DLT, and each priority line grows by those of its priority in the order they waited |
| KernelLines.SetFlgOrder | kernel/eventflags.c:121-139 | so it does by the tasks that `set_flg` wakes |
| KernelWaits.WaitBegins | kernel/wait.c:31-45 | only the running task starts to wait, only if the call cannot be satisfied, with the result for a timeout in place |
| KernelWaits.WaitsIff | kernel/semaphore.c:110-120 | the caller of a blocking call waits if and only if it is to be delayed, or what it asks for is not there and it does more than poll |
| KernelWaits.WaitOutcome | kernel/wait.c:13-26 | a wait goes on unchanged or ends in exactly one of four ways, each with its result code |
| KernelWaits.OwnObject | kernel/semaphore.c:155-164 | a wait is satisfied only through the object it is for |
| KernelWaits.RunPresets | kernel/semaphore.c:116-118 | in every reachable state a waiting task holds the result for its timeout |
| KernelWaits.TimerSet | kernel/timer.c:28-42 | a wait that begins has a running timer exactly if a timeout was given |
| KernelWaits.TimerLast | kernel/timer.c:37-42 | a new timer is the last of the timer list, on which nothing else changes |
| KernelWaits.CountsTicks | kernel/timer.c:63-71 | over a run a timer counts ticks and nothing else, and stays on its list while the wait lasts |
| KernelWaits.TimeoutExact | kernel/timer.c:49-74 | a wait nothing else ends is ended by precisely the n-th tick, with E_TMOUT, or E_OK for `dly_tsk`; without a timeout by none |
| KernelWaits.TicksExact | kernel/timer.c:40-41 | a 16-bit timeout is its own number of ticks exactly if it is positive; zero wraps |
| KernelWaits.DelayExact | kernel/tsk_dep_syn.c:11-18 | the 32-bit delays that `dly_tsk` observes exactly, all others being narrowed to something else |
| KernelWaits.Narrowed | kernel/tsk_dep_syn.c:11-18 | namely to the 16-bit value they are congruent to |
| KernelWaits.WaitsHappen | kernel/semaphore.c:99-124 | the premises of these theorems are met: a run from start-up, given call by call, after which a task waits on a semaphore with its timer running |
| KernelWaits.JoinsQueue | kernel/wait.c:75-87 | where a newcomer stands: last if the attribute is even (0, TA_CLR), behind equals and before worse priorities if it is odd (TA_TPRI) |
| KernelWaits.ServedIsBest | kernel/semaphore.c:155-157 | the task served waits in that queue and, in a TA_TPRI queue, has the best priority there |
| KernelWaits.NoOvertaking | kernel/wait.h:44-62 | over every run, of two that keep waiting in a queue the one behind stays behind and is never at its head, which is where `sig_sem` and `snd_mbx` serve; `set_flg` serves whoever's condition holds |
| KernelObjects.SemConserved | kernel/semaphore.c:110-164 | per step: count plus resources obtained, hand-overs included, equals count before plus signals; at most one task obtains one |
| KernelObjects.SemRunConserved | kernel/semaphore.c:99-166 | the same over every run, with 0 <= count <= maximum |
| KernelObjects.SemLifetime | kernel/semaphore.c:40-63 | from creation: initial count plus signals is count plus everything obtained |
| KernelObjects.SemBounds | kernel/semaphore.c:54-61 | the count is within bounds, and zero while anybody waits |
| KernelObjects.MailStep | kernel/mailbox.c:165-223 | a message sent, its packet being in no list if it is to be queued, is queued or handed to the first waiter; a message received is the head of the list; nothing else happens |
| KernelObjects.FifoRun | kernel/mailbox.c:141-240 | over every run of a FIFO mailbox in which no packet is linked while it is in a list: delivered then queued messages are the ones sent, in order |
| KernelObjects.OnlyZeroIsFifo | include/ittrium.h:25-28 | of the attributes accepted only 0 gives FIFO |
| KernelObjects.FifoExact | kernel/mailbox.c:173-186 | two messages keep their order exactly if the mailbox is FIFO or their priorities agree |
| KernelObjects.StableSort | kernel/mailbox.c:65-78 | the list of a priority mailbox is sorted, holds the messages sent, and keeps the order of equals |
| KernelObjects.HeadIsBest | kernel/mailbox.c:65-78 | its head is the earliest sent of the best priority |
| KernelObjects.PriorityRun | kernel/mailbox.c:165-225 | over every such run a priority mailbox behaves like an unsorted list from which the earliest best message is taken |
| KernelFlags.WaiFlgExact | kernel/eventflags.c:38-50 | bit by bit: with TWF_ANDW a wait is satisfied at once exactly if every bit asked for is in the pattern, with TWF_ORW exactly if some bit is; the caller is told the pattern, which is cleared with TA_CLR and only then |
| KernelFlags.ClrFlgExact | kernel/eventflags.c:172-175 | a bit remains exactly if it was set and is set in the mask; nothing else changes |
| KernelFlags.NoLostWakeup | kernel/eventflags.c:178-216 | no task waits for bits that are there: all of them with TWF_ANDW, any with TWF_ORW |
| KernelFlags.SetFlgAll | kernel/eventflags.c:110-145 | the new pattern has exactly the old bits and the new ones; without TA_CLR exactly the waiters whose bits it has are released with it, it stays, and the others keep their order |
| KernelFlags.SetFlgFirst | kernel/eventflags.c:121-139 | with TA_CLR only the first of them is, with that same pattern, which is cleared exactly then |
| KernelCounts.ActivationsCount | kernel/tsk_manage.c:164-283 | over every run: starts plus queued activations are accepted activations; a dormant task has none queued |
| KernelCounts.WakeupsCount | kernel/tsk_dep_syn.c:90-148 | over every run that discards none: completed sleeps plus queued wakeups are accepted wakeups |
| KernelCounts.SuspensionsCount | kernel/tsk_dep_syn.c:45-83 | suspensions nest, and the count is positive exactly while the task is SUS or WAS |
| KernelSemaphores.ViewOk | kernel/semaphore.c:54-61 | a live semaphore meets the bounds of the contract |
| KernelSemaphores.SignalsAsAgreed | kernel/semaphore.c:143-166 | the kernel's signal is the one of the contract: first waiter, else count, else refused |
| KernelSemaphores.WaitsAsAgreed | kernel/semaphore.c:99-124 | so are waiting and polling, for a TA_TFIFO semaphore |
| KernelSemaphores.OthersLeave | kernel/wait.c:22-26 | every other call leaves count and waiters as they were, but for waiters whose timeout fires or who are deleted, and those that stay keep their order |
| MboxRing.SysMbox.EnqueueUnlocked | services/net/arch/sys_arch.c:307-315 | appends to the abstract sequence, for any size and any number of wrap-arounds |
| MboxRing.SysMbox.DequeueUnlocked | services/net/arch/sys_arch.c:317-329 | removes and returns its first element |
| MboxRing.SysMbox.TryEnqueue | services/net/arch/sys_arch.c:401-407 | refuses exactly a full ring and then changes nothing |
| MboxRing.SysMbox.TryDequeue | services/net/arch/sys_arch.c:467-481 | refuses exactly an empty ring, and reports whether it was full |
| SlicedWait.SemWaitMs | services/net/arch/sys_arch.c:156-184 | terminates; every slice is in 1..10000 and fits a TMO; on E_TMOUT the slices sum to the timeout |
| MboxProtocol.StepTokens | services/net/arch/sys_arch.c:397-524 | every interleaving keeps: ring contents = count of `sem_empty` + tokens held + signals owed, and nothing put into the ring is lost, doubled or overtaken (whose messages these are: `MboxMessages.RunMessages`) |
| MboxProtocol.RunTokens | services/net/arch/sys_arch.c:331-524 | so it is after every run |
| MboxMessages.RunMessages | services/net/arch/sys_arch.c:397-485 | over every interleaving: what was fetched, then what is in the ring, are the arguments of the accepted calls in order. Accepted is told from the calls alone: a try when fewer messages have been accepted and not taken than there are slots, a `sys_mbox_post` when one of its tries is, with the argument it was called with |
| MboxMessages.TokenTaken | services/net/arch/sys_arch.c:461-463 | a fetch gets a token exactly if a message is neither promised to another fetcher nor still to be signalled for |
| MboxMessages.LongestWaits | services/net/arch/sys_arch.c:409-413 | a signal wakes whoever has waited longest on that semaphore; no move concerns another thread |
| MboxMessages.PostsAndFetchesEnd | services/net/arch/sys_arch.c:401-431 | a post succeeds exactly when the ring has grown by its message, else it ends or waits for `sem_full` with the same message; exactly a fetch from a full ring owes a signal; a fetch timed out has left the queue |
| MboxMessages.PostSection | services/net/arch/sys_arch.c:401-407 | the critical section of a try, run on the ring buffer, is that step of the protocol |
| MboxMessages.FetchSection | services/net/arch/sys_arch.c:467-477 | so is the critical section of a fetch: the message it returns is the one the protocol delivers |
| MboxProtocol.HolderFindsMessage | services/net/arch/sys_arch.c:468-478 | a fetcher with a token never finds the ring empty |
| MboxProtocol.SignalNeverLost | services/net/arch/sys_arch.c:409-413 | no signal to `sem_empty` is refused |
| MboxProtocol.StepLive | services/net/arch/sys_arch.c:425-430 | with one blocking poster at a time, or one slot, no step strands a poster |
| MboxProtocol.RunLive | services/net/arch/sys_arch.c:425-485 | nor does a run |
| MboxProtocol.StrandedRun | services/net/arch/sys_arch.c:479-484 | for every larger ring and every number of threads from three, a run with two blocking posters that leaves one asleep beside a free slot, everybody else being idle |
| MboxProtocol.CalmRun | services/net/arch/sys_arch.c:425-485 | with at most two threads, whatever they do, no run strands a poster |
| MboxProtocol.StrandedExact | services/net/arch/sys_arch.c:417-431 | with blocking posts allowed to every thread, no run strands a poster exactly if the ring has one slot or there are two threads at most |

## Left out

- KernelImpl.Kernel.ChgPri: does not cover a suspended target, whose node is in no list: the code unlinks it through stale links and overwrites the nodes they point to. On the state machine `KernelSafety.InvExact` includes it, without that damage: the invariant is lost anyway.
- KernelImpl.Kernel.SndMbx: links only a packet whose address is in no message list; linked again it points to itself or closes a ring. `KernelSafety.InvExact` shows that the invariant is lost.
- A `tskpri` whose index is in front of the first line or past the last one: `cre_tsk` stores it, `KernelState.PriIndex` writes both as the index past the last, and no later call is modelled on it.
- KernelImpl.Kernel.WaiFlg: makes no claim of a single waiter, TA_WSGL being 0.
- Processor ports, interrupt tables, context switching and stack frames; `dispatch` is its effect on `runtsk`.
- Nested ticks, tick statistics, system time.
- Stacks, task names, block memory, `exinf`; creating a task never fails for lack of memory.
- Negative task IDs, which the calls do not check for, are excluded by `KernelState.TaskArg`.
- The `acre_` calls, which search for a free ID, and the `ref_` calls, which only read.
- `rdyq_insert_front`, `obj_chg_pri` and the mailbox fields of the task control block, which nothing calls or uses.
- The ports whose TMO is wider than 16 bits.
- The pools of semaphores and threads, `malloc` and the clock readings of the lwIP port; a fetch may time out at any moment while it waits.
- Progress of two or more blocking posters on a ring of several slots, which the port does not have.
- File systems, shell, loader, drivers and board support.
