# Caprese kernel: a model and its proofs

Caprese is a capability microkernel for RISC-V.  Its state is linked and mutable, and its functions rely,
through `assert`s, on invariants that no line of the kernel states.  This project states them and proves that every operation
keeps them, in six parts.

- **Capabilities** (`SlotLinks`, `Capability`, `Carving`, `Derivation`, `Lineage`, `CapOps`, `CapMoves`, `CapCreate`, `CapRuns`,
  `CapTracks`, `CapLedger`, `CapOutcomes`, `CapSystem`, `CapSpaces`).  Slots are linked into derivation lists across tasks and into one free list per task.  A list is flat: revoking a memory
  capability frees everything behind it, older siblings included, and copies made of a delegated capability outlive the revocation of the delegation.
  `CapRuns.Step` is one operation, with a result type that says that every invariant holds; `CapOutcomes` tells what each does and when it is refused; `CapSystem.Slots` is the same operations as code on
  `prev` and `next` words.
- **IPC and scheduling** (`Tasks`, `TaskLinks`, `Ipc`, `IpcOutcomes`, `IpcRuns`, `IpcSystem`).  Each kernel operation is one step on one
  processor.  `Resume` says in which function a task lost the processor, so that the assertions after `resched()` are due when it gets it back.
- **Page tables and user memory** (`Paging`, `PagingRuns`, `Translation`, `MapEffects`, `MapRuns`, `UserMemory`,
  `Forwarding`), with the layout of
  Sv39 (section 4.4 of the RISC-V Privileged Architecture, version 20211203).
- **Boot-time regions** (`Regions`), **the recursive spinlock** (`SpinLock`) as single steps of any number of tasks in any order, and
  **the devicetree walker** (`DeviceTree`, `DtbWalker`; section 5.4 of the Devicetree Specification).

Conventions.  A pointer is an address, and null is 0.  An operation on a whole state is a function on values; the class
beside it has the kernel's fields, and each of its methods is proved to do to them what the function describes.  Stamps,
clocks, `made`, `destroyed`, `taken`, `seen` and `winner` are history: no decision reads them.  Outcomes `Halted` and `Halt` stand for a failed
assertion, a panic or a null pointer followed.

Some branches of the kernel do not keep its invariants.  Each is modelled as it is; a lemma gives the exact condition, and where it helps another
gives a concrete state.

- `create_memory_object` gives out memory it does not have when the next aligned address passes the end (`Carving.CarveExact`, `Carving.CarveEscapes`).
- `copy_cap` of a task or endpoint with no free slot trips the assertion of `insert_after` on a null slot (`CapTracks.CopyHalts`).
- `destroy_cap` on a delegation of memory that is not last on its list trips an assertion, although it may never have been carved (`CapOps.DestroyHalts`, `CapTracks.DelegateThenDestroyHalts`).
- `insert_cap_space` never refuses: with all tables full it trips an assertion (`CapSpaces.Space.InsertCapSpace`).
- `suspend_task` leaves a waiting task in its queue (`Ipc.SuspendKeeps`); `kill_task` follows a null pointer for a queued caller (`Ipc.KillKeeps`);
  `ipc_receive` and `ipc_reply` trip an assertion when the pending call came through another endpoint (`Ipc.ReceiveKeeps`, `Ipc.ReplyKeeps`); a failed
  transfer in `ipc_receive` or `ipc_call` strands a task (`IpcRuns.StepExact`).
- `unmap_virt_page_cap` can switch off a kernel entry when the levels differ (`Paging.UnmapPageExact`, `PagingRuns.MismatchBreaks`).
- `init_task` zeroes the root table it is given; a page mapped in it before can then no longer be destroyed (`PagingRuns.MakeRootExact`, `PagingRuns.RootForgets`).
- `forward_user_memory` goes past the target's page when the source's is longer (`Forwarding.ForwardExactly`, `Forwarding.ForwardOverruns`).

## Model

| member | source | states |
|---|---|---|
| SlotLinks.EraseLinked | src/kernel/cap_space.cpp:151-176 | the words written by `erase_this` turn linked lists into the same lists with the slot taken out and standing alone |
| SlotLinks.SpliceAfterLinked | src/kernel/cap_space.cpp:125-149 | the words written by `insert_after` put the whole inserted list just behind the slot, order kept, `prev` and `next` still inverse |
| SlotLinks.PlaceBeforeLinked | src/kernel/cap_space.cpp:104-123 | the words written by `insert_before` put the lone slot just before the other |
| SlotLinks.SubstituteLinked | src/kernel/cap_space.cpp:178-201 | the words written by `replace` give the lone slot the other's place and neighbours |
| Derivation.PopPartitioned | src/kernel/task.cpp:174-192 | popping the head of a free list leaves every other slot where it belongs and the popped one alone; the head and the count stay right |
| Derivation.PushPartitioned | src/kernel/task.cpp:155-172 | pushing a slot back leaves every slot where it belongs, with the slot first on its own task's free list and the count one more |
| Carving.CarveExact | src/kernel/cap.cpp:55-71 | the object carved is inside the unused part, aligned, and ends at the new `used_size`, if and only if the next aligned address does not pass the end of the memory; 64-bit wrap-around modelled |
| Carving.CarveEscapes | src/kernel/cap.cpp:61-71 | a concrete request for which the unsigned subtraction wraps and memory outside the capability is given out |
| Carving.RoundUpCases | include/kernel/align.h:6-12 | `round_up` is the least multiple not below its argument when its addition does not wrap, and falls below its argument when it does |
| CapOps.DestroyTailKeeps | src/kernel/cap_space.cpp:51-81 | `destroy_cap_slot` on a list's last slot keeps every invariant, frees that slot only, and hands the capability to a zombie before it, or destroys the object exactly when the slot before stands for another one |
| CapOps.RevokeMem | src/kernel/cap_space.cpp:412-421 | revoking a memory capability keeps every invariant, frees exactly the slots behind it on its list, and leaves capability and order of all other slots unchanged |
| CapOps.RevokeReclaims | src/kernel/cap_space.cpp:412-421 | after that, nothing but what the memory was itself carved from overlaps it |
| CapOps.FreeBack | src/kernel/cap_space.cpp:432-439 | the freeing loop frees exactly the slots behind `s` up to `q` and changes no other slot's capability, nor any order |
| CapOps.RevokeZombieTakes | src/kernel/cap_space.cpp:422-442 | revoking a zombie gives its slot, at its old place, the capability at the end of its chain, frees exactly the chain behind it, each slot to its owner, and leaves all other slots as they were |
| CapOps.RevokeZombieKeeps | src/kernel/cap_space.cpp:422-442 | and keeps every invariant |
| CapOps.ResolveLive | src/kernel/cap_space.cpp:426-428 | from every occupied slot, following `next` over zombies reaches a slot that holds a capability |
| CapOps.SharedNeighbour | src/kernel/cap_space.cpp:462-462 | if another slot holds the same task or endpoint, then a neighbour stands for it, so looking at neighbours only is enough |
| CapOps.Destroy | src/kernel/cap_space.cpp:447-476 | `destroy_cap` keeps every invariant, whether it ends, is refused or trips the assertion; what it does is in `CapOutcomes.DestroyMeans` |
| CapOps.DestroyHalts | src/kernel/cap_space.cpp:456-463 | `destroy_cap` trips the assertion of `destroy_memory_object` if and only if the slot is a zombie, with none before it, for memory behind which another slot stands on the list |
| CapOutcomes.DestroyMeans | src/kernel/cap_space.cpp:447-476 | when `destroy_cap` succeeds: its slot is null; exactly it, what stood behind it for memory, and the chain of a zombie are freed; a zombie just before it holds the capability now; every other slot keeps its capability and its order; beyond what the revocation destroyed, the object is destroyed exactly when no neighbour stands for it too |
| CapOutcomes.DestroyRefused | src/kernel/cap_space.cpp:450-454 | `destroy_cap` is refused, and changes nothing, if and only if the slot is null |
| CapOutcomes.RevokeRefused | src/kernel/cap_space.cpp:395-402 | `revoke_cap` is refused, and changes nothing, if and only if the slot holds neither memory nor a zombie; it never trips an assertion |
| CapOutcomes.TransferRefused | src/kernel/cap_space.cpp:283-316 | `transfer_cap` is refused, and changes nothing, if and only if the slot is null or a zombie, a task is killed, or the receiver has no free slot |
| CapOutcomes.DelegateRefused | src/kernel/cap_space.cpp:318-348 | `delegate_cap` is refused, and changes nothing, under the same condition, and only then |
| CapOutcomes.CopyRefused | src/kernel/cap_space.cpp:350-393 | `copy_cap` is refused, and changes nothing, if and only if the capability is not a task, an endpoint or an identifier, or is an identifier whose owner is killed or has no free slot |
| CapOutcomes.SameObjectMeans | src/kernel/cap.cpp:383-417 | what `is_same_object` compares: the slots that zombies stand for, and then task, endpoint or all three parts of an identifier |
| CapOutcomes.StepKills | src/kernel/cap.cpp:425-429 | a step kills exactly the task it names, if it is `kill_task`, or the tasks whose objects it destroys |
| CapMoves.TransferKeeps | src/kernel/cap_space.cpp:283-316 | transferring puts the capability in the new slot, at the same place of its list, frees the old slot, changes nothing else, and keeps every invariant |
| CapMoves.DelegateKeeps | src/kernel/cap_space.cpp:318-348 | delegating leaves a zombie and puts the capability just behind it, changes nothing else, and keeps every invariant |
| CapMoves.CopyKeeps | src/kernel/cap_space.cpp:350-393 | copying a task or endpoint capability puts the copy just behind it, changes nothing else, and keeps every invariant |
| CapCreate.CreateKeeps | src/kernel/cap.cpp:262-381 | creating an object keeps every invariant: the new object is disjoint from all others but those it was carved from |
| CapCreate.CreateCarves | src/kernel/cap.cpp:47-75 | when creating succeeds, the object is in the free slot, just behind the memory, aligned, in its unused part, whose `used_size` now ends where the object does; nothing else changed |
| CapOutcomes.CreateMakes | src/kernel/cap.cpp:73-260 | a created object is of the kind asked for: a task capability with all seven rights, a page of the level asked for, memory with nothing used and the device flag of its source, and so on, at the next aligned address |
| CapOutcomes.CreateDone | src/kernel/cap.cpp:262-381 | creating succeeds if and only if the slot holds memory, the task can take a capability, the kind is allowed for the memory and the level, and the object fits; otherwise no capability changes, and no assertion fails |
| CapOutcomes.CarveDone | src/kernel/cap.cpp:55-71 | carving succeeds if and only if the object, at the next aligned address, ends within the memory |
| CapCreate.InsertKeeps | src/kernel/task.cpp:135-153 | inserting a capability that overlaps nothing keeps every invariant |
| CapRuns.StepConduct | src/kernel/cap_space.cpp:283-476 | after an operation, every held capability is one of before, in the slot that `Origin` names, the same or memory with `used_size` no smaller; different memory comes from different slots; only a slot that was null holds something new; apart from new tasks and spaces, no slot changes owner |
| CapTracks.UsedNeverFalls | src/kernel/cap.cpp:70-72 | over every run, a memory capability held before it is the same memory with `used_size` no smaller, in whatever slot transfers, delegations and revocations left it; any other was made during the run |
| CapTracks.OriginsApart | src/kernel/cap.cpp:70-72 | over every run, no two memory capabilities are one of before |
| CapTracks.CarvedOnce | src/kernel/cap.cpp:61-71 | a created object overlaps nothing that was ever destroyed: no memory is given out twice |
| CapTracks.RunNatural | src/kernel/cap.cpp:121-221 | over every run whose boot-time capabilities are aligned, held tasks, endpoints, page tables, pages and capability spaces stay at multiples of their size |
| CapLedger.StepAccounts | src/kernel/cap_space.cpp:395-476 | every operation keeps each memory, page table, page and capability-space capability in the slot its origin map names, or records its destruction |
| CapLedger.NoneLost | src/kernel/cap_space.cpp:51-81 | over every run, each of them is still held or was destroyed during the run: none is lost |
| CapTracks.CopyHalts | src/kernel/cap_space.cpp:364-371 | `copy_cap` trips an assertion if and only if the capability is a task or endpoint and its owner is killed or has no free slot |
| CapTracks.DelegateThenDestroyHalts | src/kernel/cap_space.cpp:447-464 | for every state: delegating memory that is not last on its list, with no zombie before it, and then destroying the slot it came from trips an assertion |
| CapRuns.SlotsAlwaysConserved | src/kernel/task.cpp:155-192 | after every run, a task's `free_slots_count` and its occupied slots add up to 101 per capability space, less one |
| CapRuns.FreeCount | src/kernel/task.cpp:155-192 | `free_slots_count` is the number of the task's null slots that are not reserved |
| CapRuns.AddSlots | src/kernel/cap_space.cpp:231-246 | a new capability space keeps every invariant, gives its task 101 slots, reserves one exactly when it is the first, and changes no capability |
| CapRuns.SlotsPartitioned | src/kernel/cap_space.cpp:104-476 | in every reachable state a list has occupied slots only, or is one task's free list, or is a reserved slot alone |
| CapRuns.DenotationContiguous | src/kernel/cap.cpp:383-417 | in every reachable state the slots that stand for one task or endpoint form one unbroken stretch of one list |
| CapRuns.LiveObjectsApart | src/kernel/cap.cpp:47-75 | in every reachable state two different objects are disjoint, unless one lies in the given-out part of the other and stands behind it |
| CapRuns.HeldOrDestroyed | src/kernel/cap_space.cpp:51-81 | a task or endpoint that was made is held by some slot or destroyed, never both |
| CapRuns.DestroyedWithLastSlot | src/kernel/cap_space.cpp:447-476 | `destroy_object` runs on a task or endpoint in exactly the step that takes away its last slot, and never again |
| CapSystem.Slots.EraseThis | src/kernel/cap_space.cpp:151-176 | in place, does to the lists what erasing describes, and returns the neighbour; nothing is written when the slot stands alone |
| CapSystem.Slots.InsertAfter | src/kernel/cap_space.cpp:125-149 | in place, finds the tail and splices the list in |
| CapSystem.Slots.InsertBefore | src/kernel/cap_space.cpp:104-123 | in place, puts the lone slot before the other |
| CapSystem.Slots.Replace | src/kernel/cap_space.cpp:178-201 | in place, puts the lone slot in the other's place |
| CapSystem.Slots.PushFreeSlots | src/kernel/task.cpp:155-172 | in place, is the push on the whole state |
| CapSystem.Slots.PopFreeSlots | src/kernel/task.cpp:174-192 | in place, is the pop on the whole state, null when the list is empty |
| CapSystem.Slots.InsertCap | src/kernel/task.cpp:135-153 | in place, takes a free slot for the capability, or refuses when the task is killed or full |
| CapSystem.Slots.InitTask | src/kernel/task.cpp:45-57 | in place, records a task that has no slots yet |
| CapSystem.Slots.constructor | src/kernel/cap_space.cpp:84-102 | starts the refinement: no task, no slot |
| CapSystem.Slots.IsSameObject | src/kernel/cap.cpp:383-417 | ends, and decides whether the two slots stand for one object |
| CapSystem.Slots.InsertCapSpace | src/kernel/cap_space.cpp:231-248 | in place, adds the slots of a space, last one first |
| CapSystem.Slots.TransferCap | src/kernel/cap_space.cpp:283-316 | in place, with its refusals, is the transfer on the whole state |
| CapSystem.Slots.DelegateCap | src/kernel/cap_space.cpp:318-348 | in place, with its refusals, is the delegation on the whole state |
| CapSystem.Slots.CopyCap | src/kernel/cap_space.cpp:350-393 | in place, with its refusals, is the copy on the whole state; with no free slot for a task or endpoint it halts |
| CapSystem.Slots.CreateObject | src/kernel/cap.cpp:262-381 | in place, with its refusals, is the creation that `CapOutcomes.CreateMakes` and `CapOutcomes.CreateDone` tell of |
| CapSystem.Slots.DestroyCapSlot | src/kernel/cap_space.cpp:51-81 | in place, is the destruction of a tail on the whole state |
| CapSystem.Slots.RevokeCap | src/kernel/cap_space.cpp:395-445 | its loops end, and in place it is the revocation on the whole state |
| CapSystem.Slots.DestroyCap | src/kernel/cap_space.cpp:447-476 | in place, with its refusals and its assertion, is the destruction that `CapOutcomes.DestroyMeans` tells of |
| CapSpaces.IndexThenLookup | src/kernel/cap_space.cpp:512-565 | `lookup_cap` of a slot's `get_cap_slot_index` finds that slot |
| CapSpaces.SpaceHidden | src/kernel/cap_space.cpp:227-233 | no user access translates in the addresses of a capability space |
| CapSpaces.LookupThenIndex | src/kernel/cap_space.cpp:512-565 | `get_cap_slot_index` of what a descriptor below the capacity finds is that descriptor |
| CapSpaces.LookupFinds | src/kernel/cap_space.cpp:523-554 | a descriptor finds the slot its quotient and remainder name if it is below the capacity, and nothing otherwise |
| CapSpaces.SpaceIndices | src/kernel/cap_space.cpp:215-225 | how the address of a capability space splits into the three table indices |
| CapSpaces.Space.constructor | src/kernel/task.cpp:66-98 | what `init_task` leaves: the kernel's view of physical memory, one inner table, one table of spaces, the first space; its assertions on disabled entries hold, as it zeroes the tables first |
| CapSpaces.FillKernelView | src/kernel/task.cpp:68-76 | the loop over physical memory finds each entry disabled, fills exactly the kernel's view, and changes no other entry |
| CapSpaces.Space.InsertCapSpace | src/kernel/cap_space.cpp:203-249 | a space is added if and only if there are fewer than 512 per extension; when there are exactly 512 per extension the test lets the call through and the assertion on the missing table fails |
| CapSpaces.Space.ExtendCapSpace | src/kernel/cap_space.cpp:251-281 | a table is added, and no space moves, if and only if there are fewer than 511; its assertions hold |
| CapSpaces.Space.LookupCap | src/kernel/cap_space.cpp:512-554 | finds exactly the numbers of occupied slots |
| Tasks.MoveHoused | src/kernel/ipc.cpp:572-606 | moving a task with its new control block leaves every task in the queue its fields name, in order of joining |
| Tasks.OnePlace | src/kernel/task.cpp:326-364 | no task stands in two queues, nor twice in one |
| Ipc.SendKeeps | src/kernel/ipc.cpp:18-149 | sending never trips an assertion and keeps every invariant, delivered or not |
| Ipc.ReceiveKeeps | src/kernel/ipc.cpp:151-254 | receiving trips an assertion if and only if a call is pending that came through another endpoint; otherwise it keeps every invariant |
| Ipc.ReplyKeeps | src/kernel/ipc.cpp:256-297 | replying trips an assertion if and only if a call is pending that came through another endpoint; otherwise it keeps every invariant |
| Ipc.CallKeeps | src/kernel/ipc.cpp:299-351 | calling never trips an assertion and, when the message is delivered, keeps every invariant |
| Ipc.Cancel | src/kernel/ipc.cpp:353-384 | cancelling empties both queues, appends their tasks to the ready queue in order, receivers first, and keeps every invariant |
| Ipc.Drain | src/kernel/ipc.cpp:356-368 | one loop of it wakes exactly the tasks of its queue, as cancelled, and changes no other control block or queue |
| Ipc.KillKeeps | src/kernel/task.cpp:194-250 | killing follows a null pointer if and only if the task is a caller whose call nobody has received; otherwise it keeps every invariant |
| Ipc.SuspendKeeps | src/kernel/task.cpp:272-296 | suspending keeps the invariants if and only if the task does not wait |
| Ipc.SwitchKeeps | src/kernel/task.cpp:252-270 | switching never trips an assertion, those of the function the task was in included, and keeps every invariant |
| IpcOutcomes.SendDelivers | src/kernel/ipc.cpp:38-58 | a send to a waiting receiver gives the first receiver the processor, with no error, and puts the sender last in the ready queue; no other queue or control block changes |
| IpcOutcomes.SendWaits | src/kernel/ipc.cpp:60-69 | with no receiver, a blocking send waits as the last sender and frees the processor; one that does not block changes nothing but the message of the task |
| IpcOutcomes.SendUndelivered | src/kernel/ipc.cpp:105-110 | a long message that does not reach the receiver leaves everything else as it was |
| IpcOutcomes.ReplyAnswers | src/kernel/ipc.cpp:256-297 | a reply makes the caller ready, with no error, last in the ready queue, and leaves the current task running without a caller; undelivered, or without a caller, it changes at most the message; nobody else changes |
| IpcOutcomes.ReceiveCancelsCaller | src/kernel/ipc.cpp:166-188 | a receive by a task with a caller makes the caller ready, as cancelled, before anything else, and changes nobody else |
| IpcOutcomes.ReceiveWaits | src/kernel/ipc.cpp:233-241 | with no sender, a blocking receive waits as the last receiver and frees the processor; one that does not block changes nothing but that |
| IpcOutcomes.ReceiveTakes | src/kernel/ipc.cpp:190-231 | a receive takes the first sender: a caller is linked with the receiver and goes on waiting, any other sender gets the processor with no error and the receiver is ready, last in the queue; nobody else changes |
| IpcOutcomes.ReceiveUndelivered | src/kernel/ipc.cpp:200-205 | a message that does not arrive takes the first sender out of the queue and changes nothing else about it |
| IpcOutcomes.CallConnects | src/kernel/ipc.cpp:314-337 | a call to a waiting receiver makes the first receiver ready, with the caller recorded, and the caller wait for its reply, off the processor; nobody else changes |
| IpcOutcomes.CallWaits | src/kernel/ipc.cpp:304-309 | with no receiver, a call waits as the last sender and frees the processor; nobody else changes |
| IpcOutcomes.CallUndelivered | src/kernel/ipc.cpp:321-323 | a call that does not arrive leaves the current task running with the fields of a waiting one; nobody else changes |
| IpcOutcomes.CancelTells | src/kernel/ipc.cpp:353-384 | cancelling tells exactly the tasks that waited at the endpoint; no other control block and no other queue changes |
| IpcOutcomes.KillKills | src/kernel/task.cpp:194-250 | a killed task has status killed, is in no queue and off the processor; each queue is the old one without it; the task it had called has no caller any more; no other control block changes |
| IpcOutcomes.SuspendMeans | src/kernel/task.cpp:272-296 | a running or ready task is suspended and off the processor and its queue; a waiting one is only marked; others are left; nobody else changes |
| IpcOutcomes.ResumeMeans | src/kernel/task.cpp:298-310 | a suspended task becomes ready, last in the queue; with any other, nothing changes |
| IpcOutcomes.YieldMeans | src/kernel/task.cpp:419-427 | the current task becomes ready, last in the queue, and the processor free; nobody else changes |
| IpcOutcomes.SwitchMeans | src/kernel/task.cpp:252-270 | the ready task leaves the queue and runs; the one that ran is ready, last in the queue; nobody else changes |
| IpcOutcomes.IdleMeans | src/kernel/task.cpp:429-440 | the first ready task leaves the queue and runs; nobody else changes |
| IpcOutcomes.NewTaskMeans | src/kernel/task.cpp:37-64 | a new task is suspended, in no queue, with no partner; nobody else changes |
| IpcRuns.StepExact | src/kernel/ipc.cpp:18-384 | each operation halts on exactly one class of states and breaks the invariants on exactly one class of states |
| IpcRuns.Run | src/kernel/task.cpp:194-440 | every legal run, from any state with the invariants, never halts and keeps them |
| IpcRuns.PlacedByState | src/kernel/task.cpp:326-440 | after every legal run each task is in exactly the place its state fields name |
| IpcRuns.CallsInverse | src/kernel/ipc.cpp:207-211 | caller and callee are inverse between tasks of which the caller lives, and a running task has no callee |
| IpcRuns.ChainAscends | src/kernel/ipc.cpp:314-337 | no chain of received calls returns to a task on it |
| IpcRuns.ChainEnd | src/kernel/ipc.cpp:265-290 | the chain of received calls from a living task ends: in some number of steps, over tasks that all wait for the reply of the next, it comes to a task that is not itself blocked in a received call |
| IpcRuns.TakesFirst | src/kernel/ipc.cpp:190-231 | a receive takes the message of the first sender, who then runs or waits for the reply; no other operation takes a message |
| IpcRuns.MessagesInOrder | src/kernel/ipc.cpp:190-241 | after every legal run the messages taken from an endpoint were taken in the order of arrival, none twice, and before all that still wait |
| IpcRuns.NeverBoth | src/kernel/ipc.cpp:38-39 | after every legal run no endpoint has both senders and receivers waiting |
| IpcRuns.KillQueuedCallerHalts | src/kernel/task.cpp:216-219 | a concrete run in which killing a queued caller follows a null pointer |
| TaskLinks.PushRepresents | src/kernel/task.cpp:326-342 | pushing at the tail of a linked queue is appending to its sequence; all other queues, and the null words of tasks in none, stay right |
| TaskLinks.RemoveRepresents | src/kernel/task.cpp:344-364 | removing any task from a linked queue is removing it from its sequence; all other queues, and the null words of tasks in none, stay right |
| IpcSystem.Kernel.constructor | src/kernel/start.cpp:69-76 | starts the refinement: the root task on the processor, all queues empty |
| IpcSystem.Kernel.InitTask | src/kernel/task.cpp:49-63 | in place, records a new task, suspended and in no queue |
| IpcSystem.Kernel.PushReadyQueue | src/kernel/task.cpp:326-342 | in place, appends; its assertions on null words hold |
| IpcSystem.Kernel.PushWaitingQueue | src/kernel/ipc.cpp:572-586 | in place, appends; its assertions on null words hold |
| IpcSystem.Kernel.RemoveReadyQueue | src/kernel/task.cpp:344-364 | in place, removes a ready task from any position; neither write goes to null |
| IpcSystem.Kernel.RemoveWaitingQueue | src/kernel/ipc.cpp:588-606 | in place, removes a waiting task from any position; neither write goes to null |
| IpcSystem.Kernel.SwitchTask | src/kernel/task.cpp:252-270 | in place, is the switch on the whole state, with the assertions due when the task runs again |
| IpcSystem.Kernel.IpcSend | src/kernel/ipc.cpp:18-149 | in place, is the send that `IpcOutcomes.SendWaits` and `IpcOutcomes.SendDelivers` tell of; its assertions hold |
| IpcSystem.Kernel.IpcReceive | src/kernel/ipc.cpp:151-254 | in place, is the receive on the whole state; its assertions hold |
| IpcSystem.Kernel.IpcReply | src/kernel/ipc.cpp:256-297 | in place, is the reply on the whole state; its assertions hold |
| IpcSystem.Kernel.IpcCall | src/kernel/ipc.cpp:299-351 | in place, is the call on the whole state; its assertions hold |
| IpcSystem.Kernel.IpcCancel | src/kernel/ipc.cpp:353-384 | its loops end, and in place it is the cancellation on the whole state |
| IpcSystem.Kernel.KillTask | src/kernel/task.cpp:194-250 | in place, is the kill that `IpcOutcomes.KillKills` tells of; its assertions hold |
| IpcSystem.Kernel.SuspendTask | src/kernel/task.cpp:272-296 | in place, is the suspension on the whole state |
| IpcSystem.Kernel.Resume | src/kernel/task.cpp:298-310 | in place, is the resumption on the whole state |
| IpcSystem.Kernel.YieldProcessor | src/kernel/task.cpp:419-427 | in place, is the yield on the whole state |
| IpcSystem.Kernel.SwitchCap | src/kernel/syscall/ns_task_cap.cpp:115-126 | in place, takes a ready task out of the ready queue and switches to it |
| IpcSystem.Kernel.IdleOnce | src/kernel/task.cpp:429-440 | in place, gives the first ready task the processor; the assertions after `resched` hold |
| Paging.IndexOfEntry | include/arch/rv64/kernel/page.h:29-39 | the address of entry `i` of a table at an aligned address has index `i` |
| Paging.OneEntryEach | src/kernel/cap.cpp:437-461 | no two mapped capabilities share an entry |
| Paging.OwnEntry | src/kernel/cap.cpp:585-597 | an enabled user entry with a capability's frame is the entry that capability is mapped in |
| Paging.MapTableKeeps | src/kernel/cap.cpp:477-538 | mapping a table keeps the correspondence of entries and capabilities |
| Paging.UnmapTableKeeps | src/kernel/cap.cpp:540-597 | unmapping a table disables the table's own entry and no other, although no parent is compared |
| Paging.MapPageKeeps | src/kernel/cap.cpp:599-673 | mapping a page keeps the correspondence |
| Paging.UnmapPageExact | src/kernel/cap.cpp:675-734 | unmapping a page disables the page's own entry if and only if the entry is in the user half, as it is whenever the levels are equal |
| Paging.RemapPageKeeps | src/kernel/cap.cpp:736-842 | remapping disables the page's own entry and then maps the page, and keeps the correspondence |
| Paging.DestroyKeeps | src/kernel/cap.cpp:437-461 | the recomputed entry is the right one: the assertions hold, and destroying keeps the correspondence |
| PagingRuns.RunCorresponds | src/kernel/cap.cpp:437-842 | after any run from boot mapped capabilities and enabled user entries correspond one to one, and every capability can be destroyed, with any number of address spaces; a new table needs only a frame that was never used |
| PagingRuns.KernelHalfKept | src/kernel/cap.cpp:502-842 | no operation changes an entry of the kernel half of a table |
| PagingRuns.CreateTableExact | src/kernel/cap.cpp:188-199 | making a table keeps the correspondence if and only if nothing is still mapped in an earlier table at its address |
| PagingRuns.MakeRootExact | src/kernel/task.cpp:58-76 | making a root of an unmapped table keeps the correspondence if and only if nothing is mapped in the table, which is zeroed |
| PagingRuns.RootForgets | src/kernel/task.cpp:66-66 | for every state: a page mapped in a table that then becomes a root fails the assertions of its destruction |
| PagingRuns.MismatchBreaks | src/kernel/cap.cpp:700-728 | a concrete state in which unmapping a page through a table of another level switches off a kernel entry |
| PagingRuns.MapTableMeans | src/kernel/cap.cpp:477-538 | a table is mapped if and only if it is free, the parent is not of the lowest level, and the user entry is free; then it is recorded there, one level down, at the entry's address, the entry leads to it and grants nothing, and nothing else changed |
| PagingRuns.UnmapTableMeans | src/kernel/cap.cpp:540-597 | a table is unmapped if and only if the entry named is the one it is mapped in; then that entry is off and nothing else changed |
| PagingRuns.MapPageMeans | src/kernel/cap.cpp:599-673 | a page is mapped if and only if it is free, of the table's level, and the user entry is free; then entry and capability record the rights asked for, the entry is a user's, not global, with the page's frame, the capability records the address, and nothing else changed |
| PagingRuns.UnmapPageMeans | src/kernel/cap.cpp:675-734 | through a table of its level, a page is unmapped if and only if the entry named is the one it is mapped in; through another, an entry of the kernel half can be switched off that is not the page's |
| PagingRuns.RemapPageMeans | src/kernel/cap.cpp:736-842 | a page is remapped if and only if the old entry named is the one it is mapped in, both tables are of its level, and the new user entry is free; then its old entry is off, the new one and the capability have the rights asked for, and nothing else changed |
| PagingRuns.PageTables.MapPageTableCap | src/kernel/cap.cpp:477-538 | keeps the correspondence; a free table is mapped in a free user entry, or nothing changes |
| PagingRuns.PageTables.UnmapPageTableCap | src/kernel/cap.cpp:540-597 | keeps the correspondence; the table's own entry is off, or nothing changes |
| PagingRuns.PageTables.MapVirtPageCap | src/kernel/cap.cpp:599-673 | keeps the correspondence; a free page is mapped in a free user entry with exactly the rights asked for, or nothing changes |
| PagingRuns.PageTables.UnmapVirtPageCap | src/kernel/cap.cpp:675-734 | of a user entry, keeps the correspondence; the page's own entry is off, or nothing changes; of a kernel entry, it is not the page's own |
| PagingRuns.PageTables.RemapVirtPageCap | src/kernel/cap.cpp:736-842 | keeps the correspondence; the page moves from its own entry to a free one, with exactly the rights asked for, or nothing changes |
| PagingRuns.PageTables.DestroyMapped | src/kernel/cap.cpp:437-461 | its assertions hold, and it keeps the correspondence |
| Translation.WalkExactly | src/kernel/user_memory.cpp:7-30 | an address translates to an entry if and only if it is an enabled user entry, not a table's, at the index of the address in a table that the walk comes to |
| Translation.WalkLoop | src/kernel/user_memory.cpp:7-30 | the level loop computes the recursive walk |
| Translation.HitsExactly | src/kernel/user_memory.cpp:12-23 | an address's walk comes to an attached table if and only if the address is in the range that the table's capability records |
| Translation.SwitchRoot | src/kernel/user_memory.cpp:7-30 | switching an entry on changes the walks that come to it, from a fault, and no other, the kernel's addresses included |
| MapEffects.MapPageExtends | src/kernel/cap.cpp:624-670 | mapping a page extends the translation by exactly the page's addresses, which lead to its frame with exactly the rights asked for, and changes no other address of any task |
| MapEffects.UnmapPageShrinks | src/kernel/cap.cpp:700-731 | unmapping makes exactly the page's addresses fault |
| MapEffects.UnmapUndoesMap | src/kernel/cap.cpp:599-734 | unmapping undoes mapping, at every address |
| MapEffects.RemapPageMoves | src/kernel/cap.cpp:775-839 | remapping moves the page: the new addresses translate to it with exactly the rights asked for, the old ones fault, no other changes |
| MapEffects.MapTableSilent | src/kernel/cap.cpp:502-535 | mapping an empty table changes no translation |
| MapRuns.TreeFromBoot | src/kernel/cap.cpp:437-842 | after every run from boot in which only tables with nothing in them are mapped, the tables of all address spaces hang at their recorded addresses |
| MapEffects.MapTableTree | src/kernel/cap.cpp:502-535 | tables still hang at their recorded addresses after a table with nothing in it is mapped |
| UserMemory.WalkUniform | src/kernel/user_memory.cpp:42-47 | all addresses of one page walk to one entry |
| UserMemory.ReadUserMemory | src/kernel/user_memory.cpp:33-54 | returns true if and only if every byte translates, and has read exactly the bytes before the first that does not, as byte-by-byte reading would |
| UserMemory.Ram.WriteUserMemory | src/kernel/user_memory.cpp:56-77 | returns true if and only if every byte translates, and leaves the memory that byte-by-byte writing up to the first that does not would leave |
| UserMemory.Ram.ForwardUserMemory | src/kernel/user_memory.cpp:79-112 | what its rounds leave, on all inputs |
| UserMemory.ForwardIsByteCopy | src/kernel/user_memory.cpp:79-112 | when in each round the target's bytes are consecutive in physical memory, it returns true if and only if every byte translates on both sides, and then has copied byte by byte |
| UserMemory.ShorterIsByteCopy | src/kernel/user_memory.cpp:93-109 | so it is, over a whole call, when in each round no more is left of the source's page than of the target's |
| Forwarding.ForwardExactly | src/kernel/user_memory.cpp:79-112 | when all rounds start on bytes that translate and no physical byte is read or written twice or both, forwarding agrees with byte-by-byte copying on every memory if and only if each round's target bytes are consecutive |
| Forwarding.FaultsAgree | src/kernel/user_memory.cpp:83-91 | when some round starts on a byte that does not translate, both ways of copying fail |
| Forwarding.ForwardOverruns | src/kernel/user_memory.cpp:100-108 | a concrete copy that reports success, leaves a byte uncopied and overwrites the one past the target's first page |
| Regions.SubtractExact | src/arch/rv64/kernel/setup.cpp:30-72 | the pieces hold exactly the difference, each address once, unless the reserved region ends before it starts and starts inside the other |
| Regions.SubtractRegion | src/arch/rv64/kernel/setup.cpp:30-72 | an address is in one of the two regions filled, and in one only, if and only if it is in the first region and not in the second, unless the second is such a one |
| Regions.CutUp | src/arch/rv64/kernel/setup.cpp:213-236 | the first loop tiles from the start with aligned blocks of strictly increasing size, every shift below 64, and stops at the end or where less than the next block is left |
| Regions.CutDown | src/arch/rv64/kernel/setup.cpp:238-255 | the second loop tiles the rest with aligned blocks of strictly decreasing size; every shift is below 64, and `size_bit` is positive where it is decremented |
| Regions.CutRegion | src/arch/rv64/kernel/setup.cpp:211-255 | together they tile the region exactly |
| Regions.TilesExact | src/arch/rv64/kernel/setup.cpp:215-255 | blocks laid end to end are disjoint and cover exactly their stretch |
| Regions.InsertMemoryRegion | src/arch/rv64/kernel/setup.cpp:189-256 | the memory capabilities made are disjoint, naturally aligned powers of two, whose union is exactly the region less all reserved regions; a region that starts at zero gives none |
| SpinLock.StepKeeps | src/kernel/lock.cpp:22-75 | a step of any task keeps the invariant if and only if it does not take the count past 32 bits, and panics if and only if it is an unlock by a task that does not have the lock |
| SpinLock.MutualExclusion | src/kernel/lock.cpp:22-75 | in every interleaving at most one task has the lock, or is taking or giving it up |
| SpinLock.CountIsDepth | src/kernel/lock.cpp:25-26 | whenever the task that has the lock is in no lock function it is the recorded owner, and `count` is its nesting depth |
| SpinLock.WonSeesNoOwner | src/kernel/lock.cpp:30-40 | a `test_and_set` that finds the flag clear sees owner 0, so the retry is never taken |
| SpinLock.ClearFlagTaken | src/kernel/lock.cpp:30-40 | a `test_and_set` that finds the flag clear sets it, and three more steps of the task leave it the owner, one level deep |
| SpinLock.SetFlagWaits | src/kernel/lock.cpp:65-67 | one that finds it set changes nothing shared: `lock` tries again, `try_lock` returns false |
| SpinLock.FreeIsTaken | src/kernel/lock.cpp:22-41 | a whole `lock` or `try_lock` of a free lock, undisturbed, takes it |
| SpinLock.OwnIsNested | src/kernel/lock.cpp:25-28 | a whole `lock` or `try_lock` by the owner takes it one level deeper |
| SpinLock.UnlockReleases | src/kernel/lock.cpp:43-55 | a whole `unlock` by the owner gives one level back, and the last frees the lock |
| SpinLock.TryLockTrueOwns | src/kernel/lock.cpp:57-75 | `try_lock` returns true only to the owner, one level deeper |
| DeviceTree.PropsParse | src/arch/rv64/kernel/arch/dtb.cpp:95-117 | on the bytes of a node's properties, with NOP tokens anywhere between, the loop ends just behind them with the cell counts they give |
| DeviceTree.NodeParse | src/arch/rv64/kernel/arch/dtb.cpp:42-140 | on the bytes of any node the walker consumes exactly them and makes exactly the calls of the tree, or halts if and only if a node with children has a zero `#address-cells` |
| DeviceTree.ForEachVisits | src/arch/rv64/kernel/arch/dtb.cpp:171-187 | on the structure block of any tree the callback is called once per node, in pre-order, with the parent's cell counts (2 and 1 by default), but for the descendants of nodes for which it returned false |
| DeviceTree.CellsOfIs | src/arch/rv64/kernel/arch/dtb.cpp:92-113 | the children's cell counts are what the last `#address-cells` and the last `#size-cells` of the node say, or the defaults |
| DeviceTree.BaseNameIs | src/arch/rv64/kernel/arch/dtb.cpp:69-83 | a node's name is copied up to an `@`, its end, or 31 bytes, whichever comes first |
| DtbWalker.Walker.NextString | src/arch/rv64/kernel/arch/dtb.cpp:26-30 | reads a string and moves past its terminator |
| DtbWalker.Walker.SkipNop | src/arch/rv64/kernel/arch/dtb.cpp:36-40 | ends, and moves past all NOP tokens |
| DtbWalker.Walker.ReadProps | src/arch/rv64/kernel/arch/dtb.cpp:95-117 | ends, on any bytes, where the reading of properties does |
| DtbWalker.Walker.ParseDtbNode | src/arch/rv64/kernel/arch/dtb.cpp:42-140 | ends, on any bytes, with the cursor, aligned as asserted at every entry, and the calls of the walk |
| DtbWalker.Walker.ForEachDtbNode | src/arch/rv64/kernel/arch/dtb.cpp:171-187 | ends, on any bytes, with the cursor and the calls of the whole walk |
| DtbWalker.Walker.ParseChildren | src/arch/rv64/kernel/arch/dtb.cpp:119-131 | ends, on any bytes, with the cursor and the calls of the walk over children |

## Left out

- Assembly, CSR access, SBI calls, trap entry, context save and restore, boot stub, linker scripts: a context switch changes the current task only.
- System call dispatch and `invoke_sys_*` wrappers, but for the switch to another task: lookup and type test only.
- Locks inside operations: each operation is one step; the recursive lock has its own model.  A claim that both together make progress does not hold, since `ipc_send_short` keeps an endpoint's lock over a switch.
- The idle task as a user of locks: its identifier is the value that means "no owner".
- The plain `spinlock_t`, memory orders, and fairness of spinning.
- Kill notification, which queues a killed task against the queue's own assertion, and the panic on killing the root task.
- Message headers, payload formats and capabilities inside messages; whether a transfer succeeds is a parameter of the step, and the value that a send or call returns after it was blocked is `ipc_state` in the model.
- Self-kill in the middle of a revocation: `destroy_object` is taken to return.  Killing and cancelling that `destroy_object` starts are steps of the IPC model, and unmapping is one of the paging model; in the slot model they only mark the task killed and record the object.
- `create_task_object` beyond the new task's slots and its root table: the marking of its capability-space tables as mapped; the inner `break`s of `create_object` (lines 335, 340, 345) that lead to a null slot.
- `extend_cap_space` through capabilities, which records the table as its own parent; the capability-space tables of the root task as mapped capabilities; `used` of a capability-space capability.
- Identifiers from `make_unique_id_cap` are any values; that they are unique is not claimed.
- Bit-field widths in capabilities beyond `used_size`, and what the flags of task capabilities allow.
- The device flag of a page capability, the rights that a page object is created with, and the clearing of a page's bytes when it is mapped.
- User pointers at or above the virtual address limit, and physical memory that the copies write being page tables.
- `make_memory_cap`'s limits on the blocks made at boot, the fixed sizes of the region arrays, and the reading of regions from `reg` properties.
- `find_prop_type`, `_dtb_to_u64`, `for_each_dtb_prop`, unit addresses, and reads beyond the devicetree blob, which give zero here.
- `lookup_tid`, registers, logging, the root task's start from state `suspended`: the model starts with it running.
- CapCreate.CreateKeeps: requires that the next aligned address does not pass the end of the memory; `Carving.CarveExact` shows that this is exactly when it may.
- Forwarding.ForwardExactly: requires that no physical byte is read twice, written twice or both; a copy onto its own frames can agree by chance.
- IpcSystem.Kernel.constructor: starts with the root task running; `start.cpp` leaves its state field `suspended` while it has the processor.
- IpcSystem.Kernel.IpcReceive: requires that no call is pending from another endpoint, since the source's assertion fails otherwise.
- IpcSystem.Kernel.IpcReply: requires that no call is pending from another endpoint, since the source's assertion fails otherwise.
- IpcSystem.Kernel.KillTask: requires that the task is not a caller whose call nobody has received, since the source follows a null pointer otherwise.
- MapEffects.MapPageExtends: requires that tables hang at their recorded addresses, as they do after every run of `MapRuns.TreeFromBoot`; mapping a table that already has pages in it at another address breaks that, and the kernel does not prevent it.
