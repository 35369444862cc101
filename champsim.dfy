/** The per-thread state (`MLOG`) of the ChampSim multi-threaded tracer
    (tracer/champsim_mt_tracer.cpp) and the operations that update it. */
module ChampSimTracer {
  import opened Records
  import opened Tables
  import opened Trace
  import opened Children
  import SpawnQueue

  /** Create orders along a child list are consecutive (modulo 2^32) and the last one
      is just below the running counter. */
  ghost predicate OrdersConsecutive(children: seq<ChildRecord>, counter: u32)
  {
    forall i :: 0 <= i < |children| ==> children[i].createOrder == (counter - |children| + i) % TWO_32
  }

  /** Appending the node the counter stamps and incrementing the counter keeps the
      create orders consecutive. */
  lemma AppendKeepsOrdersConsecutive(children: seq<ChildRecord>, counter: u32, node: ChildRecord)
    requires OrdersConsecutive(children, counter)
    requires node.createOrder == counter
    ensures OrdersConsecutive(children + [node], Wrap32(counter + 1))
  {
  }

  class ThreadLog {
    var ip: u64
    var insNum: u64
    var libCounter: u64
    var parentThreadId: u64
    /** The pending-spawn queue (`threadDependencyNode` and its successors), head first. */
    var pending: seq<Marker>
    var pthreadCreateCounter: u32
    var runningChildThreadCounter: u32
    /** The child-record list (`child_thread_record_root_node` and its successors), root first. */
    var children: seq<ChildRecord>
    const trace: TraceRecord

    ghost predicate Valid()
      reads this
    {
      && trace.Valid()
      && OrdersConsecutive(children, pthreadCreateCounter)
    }

    /** A log with no pending spawns, no children, zero counters and a trace record
        whose contents are whatever the allocation held. */
    constructor ()
      ensures Valid() && fresh(trace) && fresh(trace.Arrays())
      ensures insNum == 0 && libCounter == 0
      ensures pending == [] && children == []
      ensures pthreadCreateCounter == 0 && runningChildThreadCounter == 0
    {
      insNum := 0;
      libCounter := 0;
      pending := [];
      children := [];
      pthreadCreateCounter := 0;
      runningChildThreadCounter := 0;
      trace := new TraceRecord();
    }

    /** One more instruction: the counter advances by one and the trace record is reset to `at`. */
    method BeginInstruction(at: u64)
      requires Valid()
      modifies this`insNum, this`ip, trace, trace.Arrays()
      ensures Valid()
      ensures insNum == Wrap64(old(insNum) + 1) && ip == at
      ensures trace.IsReset(at)
    {
      insNum := Wrap64(insNum + 1);
      ip := at;
      trace.Reset(at);
    }

    /** `insertSpaceInThreadCreation`: a marker holding the current instruction count
        goes to the tail of the queue; the node's other two fields are left as they were. */
    method InsertSpaceInThreadCreation()
      requires Valid()
      modifies this`pending
      ensures Valid()
      ensures |pending| == |old(pending)| + 1
      ensures pending[..|old(pending)|] == old(pending)
      ensures pending[|old(pending)|].threadPinId == 0
      ensures pending[|old(pending)|].instructionNumber == insNum
    {
      var holder: u64 := *;
      var order: i32 := *;
      pending := pending + [Marker(0, insNum, holder, order)];
    }

    /** `popSpaceInThreadCreation`: the head marker leaves the queue and `child` gets a
        record carrying the marker's count and this thread's current count. The head is
        dereferenced unchecked, so the queue must not be empty. */
    method PopSpaceInThreadCreation(table: DependencyTable, parent: u64, child: u64)
      requires Valid() && pending != []
      modifies this`pending, table
      ensures Valid()
      ensures (pending, table.records)
        == SpawnQueue.PopState(parent, old(pending), old(table.records), child, insNum)
    {
      var head := pending[0];
      pending := pending[1..];
      table.Insert(child, parent, head.instructionNumber, insNum);
    }

    /** The routine-entry hook: a call of `pthread_create` pushes a marker; every call
        counts one more library routine (the symbol-file line is not modelled). */
    method WriteToFile(rtnName: string)
      requires Valid()
      modifies this`pending, this`libCounter
      ensures Valid()
      ensures rtnName == "pthread_create" ==>
        && |pending| == |old(pending)| + 1
        && pending[..|old(pending)|] == old(pending)
        && pending[|old(pending)|].instructionNumber == insNum
      ensures rtnName != "pthread_create" ==> pending == old(pending)
      ensures libCounter == Wrap64(old(libCounter) + 1)
    {
      if rtnName == "pthread_create" {
        InsertSpaceInThreadCreation();
      }
      libCounter := Wrap64(libCounter + 1);
    }

    /** `insertChildThreadRecordNode`: a node stamped with the create instruction, the
        handle value and the running create order goes to the tail of the list, and the
        create order advances by one. The start fields stay as the allocation left them. */
    method InsertChildThreadRecordNode(createIns: u64, pthreadTValue: u64, parentId: u32)
      requires Valid()
      modifies this`children, this`pthreadCreateCounter
      ensures Valid()
      ensures |children| == |old(children)| + 1
      ensures children[..|old(children)|] == old(children)
      ensures children[|old(children)|].createIns == createIns
      ensures children[|old(children)|].createOrder == old(pthreadCreateCounter)
      ensures children[|old(children)|].pthreadTValue == pthreadTValue
      ensures children[|old(children)|].assignedParentId == parentId
      ensures pthreadCreateCounter == Wrap32(old(pthreadCreateCounter) + 1)
    {
      var startIns: u64 := *;
      var startOrder: u32 := *;
      var assignedId: u32 := *;
      var node := ChildRecord(createIns, startIns, pthreadCreateCounter, startOrder, pthreadTValue, assignedId, parentId);
      AppendKeepsOrdersConsecutive(children, pthreadCreateCounter, node);
      children := children + [node];
      pthreadCreateCounter := Wrap32(pthreadCreateCounter + 1);
    }

    /** `updateChildTHreadRecordNode`: the cursor walk picks one node (see `Children`),
        which receives the start instruction, the started thread's id and the running
        start order; the start order advances by one. The cursor is dereferenced after
        the walk, so the list must not be empty. */
    method UpdateChildThreadRecordNode(startIns: u64, assignedId: u32, pthreadTValue: u64)
      requires Valid() && children != []
      modifies this`children, this`runningChildThreadCounter
      ensures Valid()
      ensures |children| == |old(children)|
      ensures var k := Selected(old(children), pthreadTValue);
        && children[k] == old(children)[k].(startIns := startIns, assignedThreadId := assignedId,
                                            startOrder := old(runningChildThreadCounter))
        && forall j :: 0 <= j < |children| && j != k ==> children[j] == old(children)[j]
      ensures runningChildThreadCounter == Wrap32(old(runningChildThreadCounter) + 1)
    {
      var i := 0;
      while i + 1 < |children| && children[i].pthreadTValue != 0
        invariant 0 <= i < |children|
        invariant forall j :: 0 <= j < i ==> !Stops(children, pthreadTValue, j)
        invariant i > 0 ==> children[i].pthreadTValue != pthreadTValue
      {
        i := i + 1;
        if children[i].pthreadTValue == pthreadTValue {
          break;
        }
      }
      assert Stops(children, pthreadTValue, i);
      assert i == Selected(children, pthreadTValue);
      children := children[i := children[i].(startIns := startIns, assignedThreadId := assignedId,
                                              startOrder := runningChildThreadCounter)];
      runningChildThreadCounter := Wrap32(runningChildThreadCounter + 1);
    }
  }
}
