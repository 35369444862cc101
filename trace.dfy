/** The per-instruction record (`trace_instr_format_t`) that the tracer fills in
    while an instruction is being traced. */
module Trace {
  import opened Records
  import opened Slots

  const NUM_INSTR_DESTINATIONS: nat := 2
  const NUM_INSTR_SOURCES: nat := 4

  class TraceRecord {
    var ip: u64
    var isBranch: u8
    var branchTaken: u8
    const destinationRegisters: array<u8>
    const sourceRegisters: array<u8>
    const destinationMemory: array<u64>
    const sourceMemory: array<u64>

    /** The four operand arrays, each with its fixed size, and no two of them the same array
        (the register and memory arrays differ already by their element type). */
    ghost predicate Valid()
    {
      && destinationRegisters.Length == NUM_INSTR_DESTINATIONS
      && sourceRegisters.Length == NUM_INSTR_SOURCES
      && destinationMemory.Length == NUM_INSTR_DESTINATIONS
      && sourceMemory.Length == NUM_INSTR_SOURCES
      && destinationRegisters != sourceRegisters
      && destinationMemory != sourceMemory
    }

    ghost function Arrays(): set<object>
    {
      {destinationRegisters as object, sourceRegisters, destinationMemory, sourceMemory}
    }

    /** A record whose contents are whatever the allocation held. */
    constructor ()
      ensures Valid() && fresh(Arrays())
    {
      destinationRegisters := new u8[NUM_INSTR_DESTINATIONS];
      sourceRegisters := new u8[NUM_INSTR_SOURCES];
      destinationMemory := new u64[NUM_INSTR_DESTINATIONS];
      sourceMemory := new u64[NUM_INSTR_SOURCES];
    }

    /** True when the record holds `ip`, no branch flags and only empty slots. */
    ghost predicate IsReset(at: u64)
      reads this, Arrays()
    {
      && ip == at && isBranch == 0 && branchTaken == 0
      && (forall i :: 0 <= i < destinationRegisters.Length ==> destinationRegisters[i] == 0)
      && (forall i :: 0 <= i < sourceRegisters.Length ==> sourceRegisters[i] == 0)
      && (forall i :: 0 <= i < destinationMemory.Length ==> destinationMemory[i] == 0)
      && (forall i :: 0 <= i < sourceMemory.Length ==> sourceMemory[i] == 0)
    }

    /** The reset part of BeginInstruction: the record is set to `at` and every flag and slot is zeroed. */
    method Reset(at: u64)
      requires Valid()
      modifies this, Arrays()
      ensures Valid() && IsReset(at)
    {
      ip := at;
      isBranch := 0;
      branchTaken := 0;
      for i := 0 to NUM_INSTR_DESTINATIONS
        modifies destinationRegisters, destinationMemory
        invariant forall j :: 0 <= j < i ==> destinationRegisters[j] == 0 && destinationMemory[j] == 0
      {
        destinationRegisters[i] := 0;
        destinationMemory[i] := 0;
      }
      for i := 0 to NUM_INSTR_SOURCES
        modifies sourceRegisters, sourceMemory
        invariant forall j :: 0 <= j < i ==> sourceRegisters[j] == 0 && sourceMemory[j] == 0
        invariant forall j :: 0 <= j < NUM_INSTR_DESTINATIONS ==> destinationRegisters[j] == 0 && destinationMemory[j] == 0
      {
        sourceRegisters[i] := 0;
        sourceMemory[i] := 0;
      }
    }

    /** BranchOrNot: the instruction is a branch; `branch_taken` is only ever set, never cleared, here. */
    method BranchOrNot(taken: u32)
      modifies this
      ensures isBranch == 1
      ensures branchTaken == if taken != 0 then 1 else old(branchTaken)
      ensures ip == old(ip)
    {
      isBranch := 1;
      if taken != 0 {
        branchTaken := 1;
      }
    }

    /** RegRead: the low byte of the register number is set-inserted into the source registers. */
    method RegRead(reg: u32)
      requires Valid()
      modifies sourceRegisters
      ensures sourceRegisters[..] == SlotInsert(old(sourceRegisters[..]), 0, LowByte(reg))
      ensures unchanged(destinationRegisters) && unchanged(destinationMemory) && unchanged(sourceMemory)
    {
      InsertUnique(sourceRegisters, 0, LowByte(reg));
    }

    /** RegWrite: the low byte of the register number is set-inserted into the destination registers. */
    method RegWrite(reg: u32)
      requires Valid()
      modifies destinationRegisters
      ensures destinationRegisters[..] == SlotInsert(old(destinationRegisters[..]), 0, LowByte(reg))
      ensures unchanged(sourceRegisters) && unchanged(destinationMemory) && unchanged(sourceMemory)
    {
      InsertUnique(destinationRegisters, 0, LowByte(reg));
    }

    /** MemoryRead: the effective address is set-inserted into the source memory operands. */
    method MemoryRead(addr: u64)
      requires Valid()
      modifies sourceMemory
      ensures sourceMemory[..] == SlotInsert(old(sourceMemory[..]), 0, addr)
      ensures unchanged(destinationRegisters) && unchanged(sourceRegisters) && unchanged(destinationMemory)
    {
      InsertUnique(sourceMemory, 0, addr);
    }

    /** MemoryWrite: the effective address is set-inserted into the destination memory operands. */
    method MemoryWrite(addr: u64)
      requires Valid()
      modifies destinationMemory
      ensures destinationMemory[..] == SlotInsert(old(destinationMemory[..]), 0, addr)
      ensures unchanged(destinationRegisters) && unchanged(sourceRegisters) && unchanged(sourceMemory)
    {
      InsertUnique(destinationMemory, 0, addr);
    }
  }
}
