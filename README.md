# DkFork in Dafny

`DkFork()` emulates POSIX `fork()` on 32-bit Windows XP. The parent walks its own stack to find the span between the caller of `DkFork` and the program's main function. It then starts the same image as a debuggee and drives the child through its debug events:

- on the create-process event it copies the parent's `.data` section into the child;
- on the first breakpoint trap it plants `INT3` (0xCC) at the main function;
- on the next trap it copies the stack span into the child, points Eip at the stub `ChildForkProc` and Esp at the span's end bound, and detaches.

The parent returns the child's process id, or -1 on any failure.

This project models that control logic in two layers:

- `fork_model.dfy` (module `ForkModel`) holds the session as a value, `State`. It has one function per handler and one for the whole call (`Fork`).
- `dk_fork.dfy` (module `DkFork`) holds the C file as an object. Class `Forker` has the file-scope statics as fields, and each static function is a method that updates them in place. Each method's postcondition equates the new state and the `BOOL` it returns with the matching `ForkModel` function of the old state. The two do-while loops, in `DkFork` and `GetStartAndEndFrame`, and the section search are `while` loops with invariants.
- `fork_proofs.dfy` (module `ForkProofs`) states and proves what the code promises, as lemmas about the `ForkModel` functions.
- `win32.dfy` (module `Win32`) reduces the operating system to values. It holds the fixed-width integers, the C casts, the event and exception codes, the records read, the replies to each call, and memory as an address-to-byte map.
- `findings.dfy` (module `ForkFindings`) models the section search as written. It is described under Findings below.

Every Win32 and DbgHelp call is an input to the model:

- each iteration of the event loop consumes a `Wakeup`: the result of `WaitForDebugEvent`, the event, and the replies to the calls its handler makes;
- `StackWalk64` is a `StackWalker`, which gives the result and frame address of call number `i`;
- `CreateProcess` is an optional `Launch`;
- `GetModuleFileNameEx` is the image name it stores, which is empty when it fails.

`WriteProcessMemory` is a reply `(ok, written)`. The first `min(written, size)` bytes of the parent's span land at the same addresses in the child. `TerminateProcess`, `ContinueDebugEvent`, `CreateProcess` and `DebugActiveProcessStop` are recorded, in order, in a call log. `WaitForDebugEvent(INFINITE)` never returns once the event sequence is used up; the model gives this the result `Blocked`.

Casts are explicit:

- `(DWORD) lMainProgAddr` is `ToU32`;
- the 64-bit frame addresses become 32-bit pointers and `SIZE_T` through `ToU32`;
- `start - end` is computed modulo 2^64 and then truncated;
- `(int) pi.dwProcessId` is `ToInt32`.

Behaviours of the code worth noting:

- A stack walk whose first `StackWalk64` call fails records no frame and still returns TRUE (src/DkFork.c:265).
- A failed `WaitForDebugEvent` leaves the loop with `fDbgOK` still TRUE. `DkFork` then detaches and returns the child's id (src/DkFork.c:153-192).
- A failure of `DebugSetProcessKillOnExit` or `ImageNtHeader` returns FALSE without terminating the child (src/DkFork.c:287-291), and so does an exit-process event.
- The breakpoint phase is one boolean, not four states. A trap after the transplant cannot occur, because the loop stops right after the first continue that follows a successful transplant.

## Model

| member | source | states |
|---|---|---|
| `DkFork.Forker.constructor` | src/DkFork.c:85-93 | the statics start zeroed, with no child memory, context or calls |
| `DkFork.Forker.InitStaticVars` | src/DkFork.c:198-208 | zeroes image name, parent handle, event, create info, both frame bounds and both flags; keeps the main address, child and call log |
| `DkFork.Forker.GetStartAndEndFrame` | src/DkFork.c:219-268 | the loop computes `WalkFrames`: first successful frame is the end bound, last of two or more the start bound, 64-frame cap |
| `DkFork.FindDataSection` | src/DkFork.c:294-300 | found exactly when some section is named ".data", and then the index of the first one |
| `DkFork.Forker.CreateProcDbgEvtHandler` | src/DkFork.c:276-326 | the handler computes `CreateProcStep` (with a missing `.data` reported as FALSE, see Findings) |
| `DkFork.Forker.BreakpointExcHandler` | src/DkFork.c:396-436 | the handler computes the two-phase `BreakpointStep` |
| `DkFork.Forker.ExcDbgEvtHandler` | src/DkFork.c:335-372 | the handler computes the classification `ExceptionStep` |
| `DkFork.Forker.DispatchEvent` | src/DkFork.c:155-178 | the switch on the event code computes `Dispatch` |
| `DkFork.Forker.EventIteration` | src/DkFork.c:153-184 | one loop body: fRes is TRUE after a continue, fDbgOK is cleared exactly on a failed event, detach flag read after a continue |
| `DkFork.Forker.DebugEventLoop` | src/DkFork.c:152-186 | the do-while loop computes `Run`, stopping at the first iteration that was not a plain continue |
| `DkFork.Forker.DkFork` | src/DkFork.c:107-147 | the whole call computes `Fork` |
| `DkFork.Forker.LaunchAndDebug` | src/DkFork.c:131-192 | CreateProcess, the loop, DebugActiveProcessStop and the return value compute `Launched` |
| `ForkModel.LeadingFrames` | src/DkFork.c:239-263 | the recorded frame count: all counted calls succeeded, and below the cap the next call failed |
| `ForkModel.FramesWalkedIs` | src/DkFork.c:239-263 | a walk whose first k calls succeed and whose call k fails records exactly k frames |
| `ForkModel.FirstDataSection` | src/DkFork.c:294-300 | the first index named ".data", or none when no section has that name |
| `ForkModel.Run` | src/DkFork.c:152-186 | the loop runs at most one iteration per event, every iteration but the last continued, and it stops early only on a non-continue |
| `ForkModel.RunAdvance` | src/DkFork.c:152-186 | one more iteration either extends the run or ends it with that iteration's verdict |
| `Win32.Transferred` | src/DkFork.c:305-316 | the bytes that arrive are at most the requested size and at most the reported count |
| `Win32.WriteBytesAt` | src/DkFork.c:305-311 | a memory write stores the span byte for byte and leaves every other address as it was |
| `Win32.ReadSpanAt` | src/DkFork.c:414-420 | the bytes read from the parent at `addr` are the parent's bytes at `addr + i` |
| `Win32.ToU32` | src/DkFork.c:116 | a C conversion to a 32-bit unsigned value is congruent modulo 2^32 and keeps values in range |
| `Win32.ToInt32` | src/DkFork.c:192 | `(int)` of a DWORD is the signed 32-bit value congruent to it |
| `ForkProofs.PrepareStartsFresh` | src/DkFork.c:116-119 | after the reset every session field is zero except the main address (the truncated argument), the process pseudo-handle and the image name |
| `ForkProofs.ForkForgetsEarlierSessions` | src/DkFork.c:116-117 | two calls differing only in leftover statics behave identically |
| `ForkProofs.WalkFramesCount` | src/DkFork.c:239-267 | end bound from call 0, start bound from call k-1, result TRUE unless the cap was hit and the next call failed; nothing else changes |
| `ForkProofs.EmptyWalkSucceeds` | src/DkFork.c:255-265 | a walk with no successful frame still returns TRUE and changes nothing |
| `ForkProofs.CappedWalkReturnsLastCall` | src/DkFork.c:251-254 | a walk that reaches the cap keeps frames 0 and 64 and returns the result of call 65 |
| `ForkProofs.ReplicationOutcome` | src/DkFork.c:285-313 | TRUE exactly when kill-on-exit, the header, a `.data` section and a full write all succeed; earlier failures leave the child alone |
| `ForkProofs.ReplicationTerminatesOnBadWrite` | src/DkFork.c:312-325 | a failed or short write terminates the child with status -1; only memory and call log change |
| `ForkProofs.ReplicationCopiesSection` | src/DkFork.c:303-311 | after a successful copy the child holds the parent's bytes over the section, other bytes unchanged |
| `ForkProofs.FirstBreakpointPlantsInt3` | src/DkFork.c:402-411 | first trap: flag set, one byte 0xCC at the main address, result is the write's, nothing else changes |
| `ForkProofs.LaterBreakpointTransplants` | src/DkFork.c:412-432 | later trap: TRUE and detach exactly when copy, context read and write all succeed; then Eip is the stub and Esp the end bound |
| `ForkProofs.LaterBreakpointCopiesSpan` | src/DkFork.c:414-420 | later trap: the parent's bytes of `[end, start)` land at the same child addresses; nothing outside changes |
| `ForkProofs.ExceptionDisposition` | src/DkFork.c:341-371 | TRUE only for 0x406D1388 or a successful breakpoint; every FALSE terminates the child, with -1 after a breakpoint and with the code otherwise |
| `ForkProofs.ContinueOnlyOnSuccess` | src/DkFork.c:153-183 | continue is issued exactly when the wait and the handler succeeded, and the detach flag decides whether the loop stops |
| `ForkProofs.ExitEventFails` | src/DkFork.c:171-174 | an exit-process event ends the loop as a failure and changes nothing else |
| `ForkProofs.OtherEventsAreContinued` | src/DkFork.c:176-183 | any other event code is ignored and continued |
| `ForkProofs.BreakpointStepKeeps` | src/DkFork.c:396-436 | the breakpoint handler keeps the setup and a completed transplant, and sets the flag |
| `ForkProofs.DispatchKeeps` | src/DkFork.c:155-178 | a handler never resets the breakpoint flag and terminates at most once |
| `ForkProofs.EventStepKeeps` | src/DkFork.c:152-184 | one iteration keeps the setup and issues only continue or terminate calls |
| `ForkProofs.RunKeeps` | src/DkFork.c:152-186 | the whole loop never resets the breakpoint flag, never detaches and keeps a transplant |
| `ForkProofs.DetachedRunEndsContinued` | src/DkFork.c:180-182 | a loop that ends by detaching has the flag set and a continue as its last call |
| `ForkProofs.EarlyFailuresReturnMinusOne` | src/DkFork.c:126-147 | image name, walk or CreateProcess failure returns -1 with no child touched and no continue, terminate or detach |
| `ForkProofs.ForkOutcome` | src/DkFork.c:152-192 | after a launch: returns iff an iteration did not continue; then detaches last and returns -1 iff an iteration failed, else the child id |
| `ForkProofs.ForkCallLog` | src/DkFork.c:135-188 | the call log is CreateProcess, then only continues and terminations, then one detach |
| `ForkProofs.ForkDetachRedirectsChild` | src/DkFork.c:425-429 | a set detach flag means the child's Eip is the stub and its Esp the walk's end bound |
| `ForkFindings.SearchIndex` | src/DkFork.c:294-300 | the loop index left by the search: below the count exactly when a `.data` section exists |
| `ForkFindings.AsWrittenAgreesWithData` | src/DkFork.c:294-301 | with a `.data` section present the code as written and the corrected handler agree |
| `ForkFindings.AsWrittenCopiesPastTable` | src/DkFork.c:294-305 | without `.data` the code as written copies the header past the table, the corrected handler fails |
| `ForkFindings.MissingDataSectionAccepted` | src/DkFork.c:287-313 | a concrete image with no `.data` that the code as written accepts and the corrected handler rejects |

## Left out

- The Win32 and DbgHelp calls themselves are left out: `CreateProcess`, `WaitForDebugEvent`, `ContinueDebugEvent`, `WriteProcessMemory`, `Get/SetThreadContext`, `StackWalk64`, `ImageNtHeader`, `GetModuleFileNameEx`, `TerminateProcess`, `DebugActiveProcessStop`, `DebugSetProcessKillOnExit`, `RtlCaptureContext`. They are foreign OS calls. Their results are inputs, and the calls the parent issues are recorded in a log.
- `ChildForkProc` is an x86 inline-assembly stub. Its address is an opaque constant, and what it does once the child runs is not modelled.
- `DkOutDbg` / `DK_DBG` and `GetLastError` only produce debug output.
- The PE header layout is reduced to a list of (name, virtual address, virtual size). `lstrcmpA` on the 8-byte section name becomes string equality.
- StackWalk64 frame semantics are left out. The walk is reduced to the result and `AddrFrame.Offset` of each call.
- The child runs concurrently in reality. The model sees only the child's memory, as an address-to-byte map, and its main thread's control context. Nothing else of cross-process memory semantics is modelled.
- `Win32.Transferred`: a partial `WriteProcessMemory` is assumed to deliver a prefix of the span, as many bytes as it reports.
- `DkFork.Forker.DkFork`: `WaitForDebugEvent(INFINITE)` that never returns is the result `Blocked` when the event sequence runs out. The model does not say what happens after that.
- Addresses do not wrap at 2^32: a span that runs past the top of the 32-bit address space (a start bound below the end bound, or a reply reporting more bytes than fit) writes child bytes at addresses of 2^32 and above, where the real write would wrap or fail. Real stacks do not produce such walks.
- The parent's memory is one fixed snapshot for the whole call. In reality the parent's own session statics live in its `.data` and change while the loop runs, so the bytes copied are those of that snapshot, not of the moment of each copy.
- The sample programs under `samples/` only call `DkFork` and print, so they are not modelled.

## Findings

| source | as written | input that shows it | evidently intended | confidence | as-written member | corrected member |
|---|---|---|---|---|---|---|
| src/DkFork.c:294-303 | `fRes` is TRUE from `DebugSetProcessKillOnExit` before the search loop, so `if (!fRes) return FALSE;` never fires. With no `.data` section the code goes on to write using `pSecHdr[NumberOfSections]`, the header one past the table. | Image with sections `[".text"]`, an all-zero header after the table, and `WriteProcessMemory` reporting success for 0 bytes: the handler returns TRUE and the fork continues without copying the child's globals | Return FALSE when no section is named `.data` | high that the test is dead; not executed | `ForkFindings.MissingDataSectionAccepted` | `ForkProofs.ReplicationOutcome` |
