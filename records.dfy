/** Fixed-width integers and the records the tracer keeps about threads. */
module Records {

  const TWO_8: int := 0x100
  const TWO_32: int := 0x1_0000_0000
  const TWO_64: int := 0x1_0000_0000_0000_0000

  /** `unsigned char` */
  type u8 = x: int | 0 <= x < TWO_8
  /** `UINT32` (also Pin's THREADID) */
  type u32 = x: int | 0 <= x < TWO_32
  /** `int` */
  type i32 = x: int | -0x8000_0000 <= x < 0x8000_0000
  /** `UINT64`, `ADDRINT` and `unsigned long long` */
  type u64 = x: int | 0 <= x < TWO_64

  datatype Option<T> = None | Some(value: T)

  /** Unsigned 64-bit addition wraps modulo 2^64. */
  function Wrap64(x: nat): (r: u64)
    ensures x < TWO_64 ==> r == x
    ensures x >= TWO_64 ==> r < x
    ensures (x - r) % TWO_64 == 0
  {
    x % TWO_64
  }

  /** Unsigned 32-bit addition wraps modulo 2^32. */
  function Wrap32(x: nat): (r: u32)
    ensures x < TWO_32 ==> r == x
    ensures x >= TWO_32 ==> r < x
    ensures (x - r) % TWO_32 == 0
  {
    x % TWO_32
  }

  /** The cast `(unsigned char)r` keeps the low byte of a register number. */
  function LowByte(x: u32): (r: u8)
    ensures x < TWO_8 ==> r == x
    ensures (x - r) % TWO_8 == 0
  {
    x % TWO_8
  }

  /** One entry of the thread-dependency table, keyed by the child's Pin thread id. */
  datatype DependencyRecord = DependencyRecord(
    parentThread: u64,       // Pin id of the thread that called pthread_create
    pthreadCreateTime: u64,  // parent's instruction count when pthread_create was entered
    startTime: u64,          // parent's instruction count when the child started
    terminateTime: u64,      // parent's instruction count when the child finished
    insCount: u64)           // the child's own instruction count when it finished

  /** One node of a parent's pending-spawn queue (`ThreadDependencyNode`).
      `pthreadTHolder` and `startOrder` are never initialised by the tracer. */
  datatype Marker = Marker(
    threadPinId: u64,
    instructionNumber: u64,
    pthreadTHolder: u64,
    startOrder: i32)

  /** One node of a parent's child-record list (`child_thread_record_node`). */
  datatype ChildRecord = ChildRecord(
    createIns: u64,        // parent_thread_pthread_create_ins
    startIns: u64,         // parent_thread_thread_start_ins
    createOrder: u32,      // parent_thread_pthread_create_order
    startOrder: u32,       // parent_thread_thread_start_order
    pthreadTValue: u64,    // pthread_t_value
    assignedThreadId: u32, // pin_assigned_thread_ID
    assignedParentId: u32) // pin_assigned_parent_thread_ID
}
