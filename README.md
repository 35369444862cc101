# Thread-dependency tracer: a Dafny model

Two Pin tools keep per-thread dynamic instruction counts and the bookkeeping meant to record how the threads of a traced program were spawned and started.

- `tracer/champsim_mt_tracer.cpp` also fills one ChampSim trace record per instruction.
- `tracer/pintool.cpp` is the thread-dependency tool.

This project models the operations the two files define for that bookkeeping.

- **Pending-spawn queue, one per parent thread.** `insertSpaceInThreadCreation` pushes a marker holding the parent's instruction count. `popSpaceInThreadCreation` removes the head marker and records the child in the global thread-dependency table. In tracer/champsim_mt_tracer.cpp the push is called from `writeToFile` for a `pthread_create` routine.
- **Global maps.** `threadMapDB` maps an OS thread id to a Pin thread id. `threadDependencyDB` maps a child's Pin id to its dependency record.
- **Child-record list, one per parent.** `insertChildThreadRecordNode` appends a node. `updateChildTHreadRecordNode` walks a cursor along the list and stamps the node it stops at.
- **Per-instruction trace record.** `BeginInstruction` advances the instruction count and zeroes the record. The register and memory hooks each "set insert" one value into a fixed array of 2 or 4 slots.
- **`ThreadStart` of the Pin tool.** It creates the new thread's state, resolves the parent through `threadMapDB`, pops the parent's queue and registers the new thread.

The wiring between these operations is partial in the source. tracer/pintool.cpp registers only `ThreadStart`, `ThreadFini`, `Fini` and an `Instruction` routine that calls `BeginInstruction` and an empty `EndInstruction`. Nothing in that file calls `insertSpaceInThreadCreation`, `insertChildThreadRecordNode` or `updateChildTHreadRecordNode`. tracer/champsim_mt_tracer.cpp never registers `Image`, `Instruction` or `writeToFile`, and it never creates its thread-data key. The model therefore gives each operation its contract on its own. The `SpawnQueue` lemmas describe the pushes and pops the queue is written for, not a run of either tool as registered.

The code defines these behaviours:

- A repeated insert into either map is silently ignored, as `std::map::insert` does.
- A record update overwrites the field, even if it was set before.
- A query or update of an unknown key, and a pop from an empty queue, dereference an invalid iterator or a null node. The model makes each of these a precondition.
- The Pin tool pairs a starting child with its parent through the OS parent id that Pin reports.

The queue and child-list operations and `ThreadStart` take a Pin lock in the source. `BeginInstruction` and the operand hooks take none, but each touches only the calling thread's log. The model treats every operation as one sequential step.

Integer widths follow the source:

- Instruction counts and `libCounter` wrap modulo 2^64.
- The create and start order counters wrap modulo 2^32.
- A register number is cut to its low byte before it is stored.
- Register slots hold bytes (`u8`); memory slots hold 64-bit addresses (`u64`).
- Thread ids are 64-bit in the maps and the queue. They are 32-bit (`UINT32`) in the child-record nodes and in the arguments that fill those nodes.

Node fields that the source never initialises are left arbitrary with a nondeterministic assignment. They are not assumed to be zero.

## Model

| member | source | states |
|---|---|---|
| `Records.Wrap64` | tracer/champsim_mt_tracer.cpp:393 | `UINT64` increment: equals the sum below 2^64; otherwise it is the sum reduced modulo 2^64 (congruent to it and below 2^64) |
| `Records.Wrap32` | tracer/champsim_mt_tracer.cpp:262 | `UINT32` counter increment: equals the sum below 2^32; otherwise it is the sum reduced modulo 2^32 (congruent to it and below 2^32) |
| `Records.LowByte` | tracer/champsim_mt_tracer.cpp:438-456 | `(unsigned char)r`: a register number below 256 is kept; otherwise it differs from the stored byte by a multiple of 256 |
| `Tables.InsertIfAbsent` | tracer/champsim_mt_tracer.cpp:62-65 | `std::map::insert`: the key set gains the key; every existing entry keeps its value; a new key maps to the given value |
| `Tables.NewRecord` | tracer/champsim_mt_tracer.cpp:83-91 | a new dependency record carries the given parent, pthread_create time and start time, with terminateTime 0 and insCount 0 |
| `Tables.WithTerminateTime` | tracer/champsim_mt_tracer.cpp:95-98 | of an existing record, only terminateTime changes; every other field and every other record is unchanged; the key set is unchanged |
| `Tables.WithInsCount` | tracer/champsim_mt_tracer.cpp:100-103 | of an existing record, only insCount changes; every other field and every other record is unchanged; the key set is unchanged |
| `Tables.RegisterThenQuery` | tracer/pintool.cpp:23-31 | after registering an OS id that was absent, the query answers the registered Pin id; a second registration of the same OS id changes nothing |
| `Tables.ThreadMap.Insert` | tracer/pintool.cpp:23-26 | `insertThreadMapDB`: the map becomes the insert-if-absent of (OS id, Pin id) |
| `Tables.ThreadMap.Query` | tracer/pintool.cpp:28-31 | `queryThreadMapDB`: the OS id must be registered; the answer is the Pin id registered for it |
| `Tables.DependencyTable.Insert` | tracer/pintool.cpp:53-63 | `insertThreadDependencyDB`: a new child gets a fresh record (terminate and insCount 0); an existing child's record is left unchanged |
| `Tables.DependencyTable.UpdateTerminateTime` | tracer/pintool.cpp:65-68 | `updateThreadDependencyDB`: the child must have a record; only its terminateTime changes |
| `Tables.DependencyTable.UpdateInsCount` | tracer/pintool.cpp:70-73 | `updateThreadDependencyDBTerminateInsCount`: the child must have a record; only its insCount changes |
| `Slots.FirstZero` | tracer/champsim_mt_tracer.cpp:452-459 | the index the second loop stops at: a zero slot with no zero slot before it, or the array length when no slot is zero |
| `Slots.SlotInsertEffect` | tracer/champsim_mt_tracer.cpp:440-460 | the slots are unchanged exactly when the value is already present or no slot is zero; otherwise only the lowest-index zero slot changes, and it receives the value; at most one slot changes |
| `Slots.SlotInsertRecords` | tracer/champsim_mt_tracer.cpp:482-501 | no recorded non-zero value is lost; a value that finds room or is already present is recorded afterwards; only that value can be added |
| `Slots.SlotInsertKeepsDistinct` | tracer/champsim_mt_tracer.cpp:508-528 | if the non-zero slots were pairwise distinct before an insert, they are pairwise distinct after it |
| `Slots.SlotInsertIdempotent` | tracer/champsim_mt_tracer.cpp:535-555 | inserting the same value a second time changes nothing |
| `Slots.InsertUnique` | tracer/champsim_mt_tracer.cpp:441-460 | the two loops (search for the value, then fill the first zero slot) leave the array equal to `SlotInsert` of the old contents |
| `Trace.TraceRecord.Reset` | tracer/champsim_mt_tracer.cpp:396-412 | the record holds the given ip, both branch flags are 0, and every register and memory slot is 0 |
| `Trace.TraceRecord.BranchOrNot` | tracer/champsim_mt_tracer.cpp:422-432 | is_branch becomes 1; branch_taken becomes 1 when taken is non-zero and is otherwise left as it was |
| `Trace.TraceRecord.RegRead` | tracer/champsim_mt_tracer.cpp:434-461 | the low byte of the register is set-inserted into the 4 source-register slots; the other three arrays are unchanged |
| `Trace.TraceRecord.RegWrite` | tracer/champsim_mt_tracer.cpp:463-502 | the low byte of the register is set-inserted into the 2 destination-register slots; the other three arrays are unchanged |
| `Trace.TraceRecord.MemoryRead` | tracer/champsim_mt_tracer.cpp:504-529 | the address is set-inserted into the 4 source-memory slots; the other three arrays are unchanged |
| `Trace.TraceRecord.MemoryWrite` | tracer/champsim_mt_tracer.cpp:531-556 | the address is set-inserted into the 2 destination-memory slots; the other three arrays are unchanged |
| `Children.SelectFrom` | tracer/champsim_mt_tracer.cpp:279-288 | from cursor position i, the walk rests at the first node from i onward where it stops: the last node, a node whose handle is 0, or a non-root node whose handle equals the searched value |
| `Children.Selected` | tracer/champsim_mt_tracer.cpp:275-290 | the node the update stamps is the least stopping index of a non-empty list |
| `Children.RootSelection` | tracer/champsim_mt_tracer.cpp:279-287 | the root is stamped exactly when it is the only node or its handle is 0; a root whose handle equals the searched value is passed over |
| `Children.SelectsFirstMatch` | tracer/champsim_mt_tracer.cpp:279-287 | if a non-root node carries the searched handle and no earlier handle is 0, the first such non-root node is stamped |
| `Children.SelectsLastWithoutMatch` | tracer/champsim_mt_tracer.cpp:279-288 | with all handles non-zero and no non-root match, the last node is stamped |
| `SpawnQueue.PopState` | tracer/champsim_mt_tracer.cpp:327-343 | one pop: the queue loses exactly its head; the child gets a record with the head's count as its pthread_create time and the parent's current count as its start time, unless it already had a record; other records are unchanged |
| `SpawnQueue.ReplayDefined` | tracer/champsim_mt_tracer.cpp:330-333 | a run of pushes and pops completes exactly when no child starts while its parent's queue is empty (both directions) |
| `SpawnQueue.ReplayFifo` | tracer/champsim_mt_tracer.cpp:299-343 | FIFO: after any run, the queue is the initial queue followed by the pushed markers, less as many from the front as children started |
| `SpawnQueue.ReplayKeepsRecords` | tracer/champsim_mt_tracer.cpp:92 | a run never changes an existing record, and the table gains exactly the ids of the children that started |
| `SpawnQueue.ReplayPairsInOrder` | tracer/champsim_mt_tracer.cpp:306-333 | FIFO pairing: with fresh, distinct children, the i-th child to start gets the i-th marker's count as its pthread_create time and its parent's count at its start as its start time |
| `SpawnQueue.TwoChildrenScenario` | tracer/champsim_mt_tracer.cpp:299-343 | markers at 10 and 25, then starts at 30 and 40: the queue ends empty; the two records are (0, 10, 30, 0, 0) and (0, 25, 40, 0, 0) |
| `ChampSimTracer.AppendKeepsOrdersConsecutive` | tracer/champsim_mt_tracer.cpp:239-262 | appending a node stamped with the counter, then incrementing the counter modulo 2^32, keeps create orders along the list consecutive |
| `ChampSimTracer.ThreadLog.BeginInstruction` | tracer/champsim_mt_tracer.cpp:389-413 | insNum grows by exactly 1 (mod 2^64); ip and trace.ip are the given ip; flags and all slots are 0; nothing else in the log changes |
| `ChampSimTracer.ThreadLog.InsertSpaceInThreadCreation` | tracer/champsim_mt_tracer.cpp:299-325 | exactly one marker is appended at the tail, with threadPINID 0 and the current insNum; earlier markers are unchanged and in order |
| `ChampSimTracer.ThreadLog.PopSpaceInThreadCreation` | tracer/champsim_mt_tracer.cpp:327-343 | the queue must be non-empty; the new queue and table are `PopState` of the old ones, for this thread's current insNum |
| `ChampSimTracer.ThreadLog.WriteToFile` | tracer/champsim_mt_tracer.cpp:349-351 | a `pthread_create` routine pushes one marker with the current insNum; any other routine leaves the queue unchanged; libCounter grows by 1 |
| `ChampSimTracer.ThreadLog.InsertChildThreadRecordNode` | tracer/champsim_mt_tracer.cpp:227-265 | one node is appended, carrying the create instruction, the handle value, the parent id and create order = the old counter; earlier nodes are unchanged; the counter grows by 1; create orders stay consecutive |
| `ChampSimTracer.ThreadLog.UpdateChildThreadRecordNode` | tracer/champsim_mt_tracer.cpp:267-297 | the list must be non-empty; only the `Selected` node changes: it receives the start instruction, the thread id and start order = the old counter; the counter grows by 1 |
| `PinTool.ThreadLog.constructor` | tracer/pintool.cpp:384-403 | new per-thread state: the OS id, insNum 0, an empty pending queue and an empty child list |
| `PinTool.ThreadLog.BeginInstruction` | tracer/pintool.cpp:284-308 | insNum grows by exactly 1 (mod 2^64); the trace record is reset to the given ip, with all flags and slots 0 |
| `PinTool.ThreadLog.InsertSpaceInThreadCreation` | tracer/pintool.cpp:213-239 | exactly one marker carrying the current insNum is appended at the tail; the other markers are unchanged and in order |
| `PinTool.ThreadLog.PopSpaceInThreadCreation` | tracer/pintool.cpp:241-263 | as in the ChampSim tracer: the head marker leaves a non-empty queue and the child is inserted into the table with that marker's count and the parent's current count |
| `PinTool.ThreadLog.InsertChildThreadRecordNode` | tracer/pintool.cpp:151-182 | one node is appended with the create instruction and parent id; the list grows by 1; earlier nodes are unchanged; all other node fields, the handle included, are arbitrary |
| `PinTool.ThreadLog.UpdateChildThreadRecordNode` | tracer/pintool.cpp:184-211 | the list must be non-empty; only the `Selected` node changes, receiving the start instruction and thread id |
| `PinTool.Tool.ThreadStart` | tracer/pintool.cpp:380-430 | a fresh log (insNum 0, empty queue and list) is installed for tid; tid 0 gets parent 0 and leaves the table alone; any other tid gets parent = the Pin id registered for its creator's OS id, and exactly one pop happens on that parent's queue, with the parent's instruction count at the call as start time, while the parent's count, ip, OS id, parent id and child list stay as they were; afterwards the map holds the insert-if-absent of own OS id → tid |

## Left out

- Pin plumbing is not modelled: `Instruction`, `Image`, `main`, `Usage`, TLS key creation and the `PIN_*` calls. Thread ids, OS ids, instruction addresses, memory addresses and branch outcomes are plain parameters.
- The argument hooks around `pthread_create` and `start_thread` in tracer/champsim_mt_tracer.cpp are not modelled: `processArgumentPThreadCreate`, `processArgumentPThreadCreateAfter` and `processArgumentStartThread`. `processArgumentPThreadCreate` and `processArgumentPThreadCreateAfter` look up the calling thread's log. The first stores the `pthread_t*` argument with `updatePthread_tHolder` (tracer/champsim_mt_tracer.cpp:716), which is not modelled either. The second calls `insertChildThreadRecordNode` (tracer/champsim_mt_tracer.cpp:729). `processArgumentStartThread` resolves the parent's Pin id through `threadMapDB` (tracer/champsim_mt_tracer.cpp:735). When the calling Pin thread id is not 0, it calls `updateChildTHreadRecordNode` on the parent's log with the parent's `insNum` (tracer/champsim_mt_tracer.cpp:739-742). The captured `pthread_t*` and its later dereference are replaced by passing the produced handle value to `InsertChildThreadRecordNode`.
- Locking (`PIN_MutexLock`, `PIN_GetLock`) is not modelled, and interleavings are not verified. `popSpaceInThreadCreation` in tracer/pintool.cpp takes `global_lock`, which its caller `ThreadStart` already holds.
- File and console output is not modelled: `EndInstruction`'s `fwrite`, the symbol-file line in `writeToFile`, and every `cout` line, including the tables printed by `Fini`.
- Linked lists are modelled as sequences. The walk to the tail on append, the relinking of `next` fields, and the `new`/`delete` of nodes are therefore not modelled. The walk of the update is modelled as a loop over an index.
- `PinTool.ThreadLog.PopSpaceInThreadCreation`: the version in tracer/pintool.cpp does not compile. It uses `tmpp`, whose declaration is commented out, and the head removal is commented out too. The model follows tracer/champsim_mt_tracer.cpp:327-343 instead.
- The bodies of `ThreadStart` and `ThreadFini` in tracer/champsim_mt_tracer.cpp are commented out, and so is `ThreadFini` in tracer/pintool.cpp. Only the update helpers they would call are modelled. `ChampSimTracer.ThreadLog.constructor` stands for the commented-out initialisation at tracer/champsim_mt_tracer.cpp:644-665: an empty queue and child list and zero counters. `PinTool.Tool.constructor` stands for the default construction of the two global maps, which start empty.
- The `PIN_SetThreadData` failure exit in `ThreadStart` is not modelled.
- Pin's `THREADID` is 32 bits wide. The model takes the thread ids that go into the 64-bit maps and queue as `u64`, and the ids that go into child-record nodes as `u32`, as the source declares them. Every stored id comes from a `THREADID`, so no conversion truncates one.
- `PinTool.Tool.ThreadStart`: it requires a pending marker on the parent's queue (`CanStart`). In tracer/pintool.cpp nothing pushes onto a queue, so for a thread other than 0 the tool as registered never meets this precondition. The model describes the pairing the pop is written for. It does not model the null dereference that an empty queue leads to.
- `PinTool.ThreadLog.InsertSpaceInThreadCreation`, `PinTool.ThreadLog.InsertChildThreadRecordNode` and `PinTool.ThreadLog.UpdateChildThreadRecordNode` are modelled as defined. Nothing in tracer/pintool.cpp calls them.
- `ChampSimTracer.ThreadLog.WriteToFile`, `ChampSimTracer.ThreadLog.InsertSpaceInThreadCreation`, `ChampSimTracer.ThreadLog.InsertChildThreadRecordNode` and `ChampSimTracer.ThreadLog.UpdateChildThreadRecordNode` are modelled as defined. Their callers are never registered in tracer/champsim_mt_tracer.cpp. `writeToFile` is never inserted as an analysis routine. The argument hooks are inserted only by `Image`, which is never registered. `ChampSimTracer.ThreadLog.PopSpaceInThreadCreation` has a single call site, inside `ThreadStart`, and that call is commented out (tracer/champsim_mt_tracer.cpp:660). `BeginInstruction` is called only from the unregistered `Instruction`.
- `thread_data_t` and the padding fields are unused by the code, so they are not modelled.
- mt_program/contension.cpp is a toy workload, and it is not part of this model.
