/** The per-thread state (`MLOG`) of the thread-dependency Pin tool
    (tracer/pintool.cpp), its operations, and the thread-start callback that
    creates it and pairs the new thread with its parent's pending spawn. */
module PinTool {
  import opened Records
  import opened Tables
  import opened Trace
  import opened Children
  import SpawnQueue

  class ThreadLog {
    var ip: u64
    var insNum: u64
    var parentThreadId: u64
    /** The pending-spawn queue (`threadDependencyNode` and its successors), head first. */
    var pending: seq<Marker>
    /** The child-record list (`child_thread_record_root_node` and its successors), root first. */
    var children: seq<ChildRecord>
    var osid: u64
    const trace: TraceRecord

    ghost predicate Valid()
    {
      trace.Valid()
    }

    /** The fields ThreadStart sets on a fresh log: the OS id, a zero instruction
        count, and empty queue and child list. */
    constructor (osId: u64)
      ensures Valid() && fresh(trace) && fresh(trace.Arrays())
      ensures osid == osId && insNum == 0 && pending == [] && children == []
    {
      osid := osId;
      insNum := 0;
      pending := [];
      children := [];
      trace := new TraceRecord();
    }

    /** One more instruction: the counter advances by one and the trace record is reset to `at`. */
    method BeginInstruction(at: u64)
      requires Valid()
      modifies this`insNum, this`ip, trace, trace.Arrays()
      ensures Valid()
      ensures insNum == Wrap64(old(insNum) + 1) && ip == at
      ensures trace.IsReset(at)
    {
      insNum := Wrap64(insNum + 1);
      ip := at;
      trace.Reset(at);
    }

    /** `insertSpaceInThreadCreation`: a marker holding the current instruction count
        goes to the tail of the queue; the node's other two fields are left as they were. */
    method InsertSpaceInThreadCreation()
      modifies this`pending
      ensures |pending| == |old(pending)| + 1
      ensures pending[..|old(pending)|] == old(pending)
      ensures pending[|old(pending)|].threadPinId == 0
      ensures pending[|old(pending)|].instructionNumber == insNum
    {
      var holder: u64 := *;
      var order: i32 := *;
      pending := pending + [Marker(0, insNum, holder, order)];
    }

    /** The pop the thread-start callback performs on the parent's log: the head marker
        leaves the queue and `child` gets a record carrying the marker's count and this
        thread's current count. */
    method PopSpaceInThreadCreation(table: DependencyTable, parent: u64, child: u64)
      requires pending != []
      modifies this`pending, table
      ensures (pending, table.records)
        == SpawnQueue.PopState(parent, old(pending), old(table.records), child, insNum)
    {
      var head := pending[0];
      pending := pending[1..];
      table.Insert(child, parent, head.instructionNumber, insNum);
    }

    /** `insertChildThreadRecordNode`: a node carrying the create instruction and the
        parent id goes to the tail of the list. Every other field of the node, the
        handle value included, stays as the allocation left it. */
    method InsertChildThreadRecordNode(createIns: u64, parentId: u32)
      modifies this`children
      ensures |children| == |old(children)| + 1
      ensures children[..|old(children)|] == old(children)
      ensures children[|old(children)|].createIns == createIns
      ensures children[|old(children)|].assignedParentId == parentId
    {
      var startIns: u64 := *;
      var createOrder: u32 := *;
      var startOrder: u32 := *;
      var handle: u64 := *;
      var assignedId: u32 := *;
      children := children + [ChildRecord(createIns, startIns, createOrder, startOrder, handle, assignedId, parentId)];
    }

    /** `updateChildTHreadRecordNode`: the cursor walk picks one node (see `Children`),
        which receives the start instruction and the started thread's id. The cursor is
        dereferenced after the walk, so the list must not be empty. */
    method UpdateChildThreadRecordNode(startIns: u64, assignedId: u32, pthreadTValue: u64)
      requires children != []
      modifies this`children
      ensures |children| == |old(children)|
      ensures var k := Selected(old(children), pthreadTValue);
        && children[k] == old(children)[k].(startIns := startIns, assignedThreadId := assignedId)
        && forall j :: 0 <= j < |children| && j != k ==> children[j] == old(children)[j]
    {
      var i := 0;
      while i + 1 < |children| && children[i].pthreadTValue != 0
        invariant 0 <= i < |children|
        invariant forall j :: 0 <= j < i ==> !Stops(children, pthreadTValue, j)
        invariant i > 0 ==> children[i].pthreadTValue != pthreadTValue
      {
        i := i + 1;
        if children[i].pthreadTValue == pthreadTValue {
          break;
        }
      }
      assert Stops(children, pthreadTValue, i);
      assert i == Selected(children, pthreadTValue);
      children := children[i := children[i].(startIns := startIns, assignedThreadId := assignedId)];
    }
  }

  /** The tool's process-wide state: the two global maps and the thread-local slot
      through which each Pin thread id reaches its log. */
  class Tool {
    const threadMap: ThreadMap
    const table: DependencyTable
    var logs: map<u64, ThreadLog>

    constructor ()
      ensures fresh(threadMap) && fresh(table)
      ensures threadMap.entries == map[] && table.records == map[] && logs == map[]
    {
      threadMap := new ThreadMap();
      table := new DependencyTable();
      logs := map[];
    }

    /** What ThreadStart dereferences for a thread other than the first: the parent's OS
        id is registered, the parent's log exists (and is not the one just installed for
        `tid`), and the parent has a pending spawn to pop. */
    ghost predicate CanStart(tid: u64, parentOsId: u64)
      reads this, threadMap, logs.Values
    {
      tid != 0 ==>
        && parentOsId in threadMap.entries
        && threadMap.entries[parentOsId] != tid
        && threadMap.entries[parentOsId] in logs
        && logs[threadMap.entries[parentOsId]].pending != []
    }

    /** The log of the parent a starting thread pops, as a frame. */
    ghost function ParentLog(tid: u64, parentOsId: u64): set<object>
      reads this, threadMap, logs.Values
      requires CanStart(tid, parentOsId)
    {
      if tid == 0 then {} else {logs[threadMap.entries[parentOsId]]}
    }

    /** `ThreadStart` for Pin thread `tid` with OS id `osId`, whose creator has OS id
        `parentOsId`: a fresh log is installed for `tid`; thread 0 gets parent 0, any
        other thread gets the Pin id registered for its creator's OS id and pops one
        marker from that parent's queue into the dependency table; finally `osId` is
        registered for `tid`. */
    method ThreadStart(tid: u64, osId: u64, parentOsId: u64)
      requires CanStart(tid, parentOsId)
      modifies this, threadMap, table, ParentLog(tid, parentOsId)
      ensures tid in logs && logs == old(logs)[tid := logs[tid]]
      ensures fresh(logs[tid]) && fresh(logs[tid].trace) && fresh(logs[tid].trace.Arrays())
      ensures logs[tid].Valid()
      ensures logs[tid].osid == osId && logs[tid].insNum == 0
      ensures logs[tid].pending == [] && logs[tid].children == []
      ensures tid == 0 ==> logs[tid].parentThreadId == 0 && table.records == old(table.records)
      ensures tid != 0 ==>
        var parentId := old(threadMap.entries[parentOsId]);
        var parent := old(logs[parentId]);
        && logs[tid].parentThreadId == parentId
        && (parent.pending, table.records)
          == SpawnQueue.PopState(parentId, old(parent.pending), old(table.records), tid, old(parent.insNum))
        && parent.insNum == old(parent.insNum) && parent.ip == old(parent.ip)
        && parent.children == old(parent.children) && parent.osid == old(parent.osid)
        && parent.parentThreadId == old(parent.parentThreadId)
      ensures threadMap.entries == InsertIfAbsent(old(threadMap.entries), osId, tid)
    {
      var log := new ThreadLog(osId);
      logs := logs[tid := log];
      if tid != 0 {
        var parentId := threadMap.Query(parentOsId);
        log.parentThreadId := parentId;
        var parentLog := logs[parentId];
        parentLog.PopSpaceInThreadCreation(table, parentId, tid);
      } else {
        log.parentThreadId := 0;
      }
      threadMap.Insert(osId, tid);
    }
  }
}
