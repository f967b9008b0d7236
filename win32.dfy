// Option type used for the OS calls that may produce nothing.
module Wrappers {
  datatype Option<T> = None | Some(value: T)
}

// The slice of the Win32 debugging interface that DkFork relies on, reduced to
// values: fixed-width integers and the C conversions between them, the event
// and exception codes it dispatches on, the records it reads, the replies the
// OS gives to each call, and process memory as an address-to-byte map.
module Win32 {
  import opened Wrappers

  type byte = x: int | 0 <= x < 0x100
  type u32 = x: int | 0 <= x < 0x1_0000_0000
  type u64 = x: int | 0 <= x < 0x1_0000_0000_0000_0000
  type i64 = x: int | -0x8000_0000_0000_0000 <= x < 0x8000_0000_0000_0000

  /** Handles are 32-bit values on i386; NULL is 0. */
  type Handle = u32

  /** A C conversion to a 32-bit unsigned type (DWORD, SIZE_T or a pointer on
    * i386): the value modulo 2^32. */
  function ToU32(x: int): (r: u32)
    ensures (x - r) % 0x1_0000_0000 == 0
    ensures 0 <= x < 0x1_0000_0000 ==> r == x
  {
    x % 0x1_0000_0000
  }

  /** The C conversion `(int)` of a DWORD: two's complement reinterpretation. */
  function ToInt32(x: u32): (r: int)
    ensures -0x8000_0000 <= r < 0x8000_0000
    ensures (x - r) % 0x1_0000_0000 == 0
    ensures x < 0x8000_0000 ==> r == x
  {
    if x < 0x8000_0000 then x else x - 0x1_0000_0000
  }

  // Debug event codes (DEBUG_EVENT.dwDebugEventCode).
  const EXCEPTION_DEBUG_EVENT: u32 := 1
  const CREATE_PROCESS_DEBUG_EVENT: u32 := 3
  const EXIT_PROCESS_DEBUG_EVENT: u32 := 5

  // Exception codes (EXCEPTION_RECORD.ExceptionCode).
  const EXCEPTION_BREAKPOINT: u32 := 0x8000_0003
  const EXCEPTION_ACCESS_VIOLATION: u32 := 0xC000_0005
  const EXCEPTION_ILLEGAL_INSTRUCTION: u32 := 0xC000_001D
  /** Raised when the program runs as a Visual Studio debug target; DkFork
    * treats it as benign. */
  const VS_DEBUG_EXCEPTION: u32 := 0x406D_1388

  /** The INT3 opcode planted at the main function. */
  const INT3: byte := 0xCC

  /** The pseudo-handle GetCurrentProcess() returns, (HANDLE)-1. */
  const CURRENT_PROCESS: Handle := 0xFFFF_FFFF

  /** The exit status `-1` passed to TerminateProcess, as a UINT. */
  const EXIT_MINUS_ONE: u32 := 0xFFFF_FFFF

  /** CREATE_PROCESS_DEBUG_INFO, reduced to the fields DkFork reads. */
  datatype CreateInfo = CreateInfo(hProcess: Handle, hThread: Handle, baseOfImage: u32)

  /** DEBUG_EVENT: the event code, the ids, and the members of the union that
    * DkFork reads (the create-process info and the exception record). */
  datatype DebugEvent = DebugEvent(
    code: u32, pid: u32, tid: u32,
    createInfo: CreateInfo,
    excCode: u32, excAddr: u32)

  const ZERO_CREATE_INFO := CreateInfo(0, 0, 0)
  const ZERO_EVENT := DebugEvent(0, 0, 0, ZERO_CREATE_INFO, 0, 0)

  /** PROCESS_INFORMATION as filled by CreateProcess. */
  datatype ProcessInfo = ProcessInfo(hProcess: Handle, hThread: Handle, pid: u32, tid: u32)

  /** The CONTEXT_CONTROL part of an i386 thread context. */
  datatype Context = Context(ebp: u32, eip: u32, segCs: u32, eflags: u32, esp: u32, segSs: u32)

  const ZERO_CONTEXT := Context(0, 0, 0, 0, 0, 0)

  /** An image section header: its name, virtual address and virtual size. */
  datatype Section = Section(name: string, virtualAddress: u32, virtualSize: u32)

  /** Child memory as far as the model knows it. */
  type Memory = map<nat, byte>

  /** The parent's own address space, readable at every address. */
  type AddressSpace = nat -> byte

  /** The `n` bytes of `space` starting at `addr`. */
  function ReadSpan(space: AddressSpace, addr: nat, n: nat): (r: seq<byte>)
    ensures |r| == n
    decreases n
  {
    if n == 0 then [] else [space(addr)] + ReadSpan(space, addr + 1, n - 1)
  }

  /** Byte `i` of a span read is the byte at `addr + i`. */
  lemma {:induction false} ReadSpanAt(space: AddressSpace, addr: nat, n: nat, i: nat)
    requires i < n
    ensures ReadSpan(space, addr, n)[i] == space(addr + i)
    decreases n
  {
    if i > 0 {
      ReadSpanAt(space, addr + 1, n - 1, i - 1);
    }
  }

  /** Whether `a` lies in the `n`-byte span starting at `addr`. */
  predicate InSpan(a: nat, addr: nat, n: nat)
  {
    addr <= a < addr + n
  }

  /** `mem` with `bytes` stored from `addr` on, one byte after another. */
  function WriteBytes(mem: Memory, addr: nat, bytes: seq<byte>): Memory
    decreases |bytes|
  {
    if bytes == [] then mem else WriteBytes(mem[addr := bytes[0]], addr + 1, bytes[1..])
  }

  /** After a write, the span holds the written bytes and every other
    * address keeps what it held; the known addresses grow by the span. */
  lemma {:induction false} WriteBytesAt(mem: Memory, addr: nat, bytes: seq<byte>, a: nat)
    ensures a in WriteBytes(mem, addr, bytes) <==> a in mem || InSpan(a, addr, |bytes|)
    ensures InSpan(a, addr, |bytes|) ==> WriteBytes(mem, addr, bytes)[a] == bytes[a - addr]
    ensures a in mem && !InSpan(a, addr, |bytes|) ==> WriteBytes(mem, addr, bytes)[a] == mem[a]
    decreases |bytes|
  {
    if bytes != [] {
      WriteBytesAt(mem[addr := bytes[0]], addr + 1, bytes[1..], a);
    }
  }

  /** The OS's answer to one WriteProcessMemory call: whether it reports
    * success, and how many bytes it reports as written. */
  datatype WriteReply = WriteReply(ok: bool, written: nat)

  /** How many of the `n` requested bytes actually arrive. */
  function Transferred(w: WriteReply, n: nat): (k: nat)
    ensures k <= n && k <= w.written
    ensures k == n || k == w.written
  {
    if w.written < n then w.written else n
  }

  /** The child memory after a WriteProcessMemory of `bytes` at `addr`
    * answered by `w`: the transferred prefix of `bytes` lands at `addr`. */
  function AfterWrite(mem: Memory, addr: nat, bytes: seq<byte>, w: WriteReply): Memory
  {
    WriteBytes(mem, addr, bytes[..Transferred(w, |bytes|)])
  }

  /** The OS calls whose order the model records. */
  datatype OsCall =
    | CreateProcessCall(commandLine: string)
    | ContinueCall(pid: u32, tid: u32)
    | TerminateCall(process: Handle, exitCode: u32)
    | DetachCall(pid: u32)

  /** What the OS answers to the calls CreateProcDbgEvtHandler makes. */
  datatype CreateReplies = CreateReplies(
    killOnExitOk: bool,              // DebugSetProcessKillOnExit
    sections: Option<seq<Section>>,  // ImageNtHeader and its section table
    write: WriteReply)               // WriteProcessMemory of the data section

  /** What the OS answers to the calls BreakpointExcHandler makes. */
  datatype BreakpointReplies = BreakpointReplies(
    write: WriteReply,    // WriteProcessMemory (INT3 byte, or the stack span)
    getContextOk: bool,   // GetThreadContext
    setContextOk: bool)   // SetThreadContext

  /** One return from WaitForDebugEvent with the replies for the handler the
    * event is dispatched to. */
  datatype Wakeup = Wakeup(
    waitOk: bool,
    event: DebugEvent,
    create: CreateReplies,
    breakpoint: BreakpointReplies)

  /** One StackWalk64 call: its result and the frame's AddrFrame.Offset. */
  datatype WalkResult = WalkResult(ok: bool, frame: u64)

  /** The results of the successive StackWalk64 calls, by call number. */
  type StackWalker = nat -> WalkResult

  /** A successful CreateProcess: the process information and the new
    * child's initial memory and main-thread context. */
  datatype Launch = Launch(info: ProcessInfo, mem: Memory, ctx: Context)
}
