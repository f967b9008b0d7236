// The fork session of src/DkFork.c as values: the file-scope statics plus the
// parts of the child process the parent observes or changes, and one function
// per handler giving the state and BOOL result it produces. The class in
// dk_fork.dfy is proved to compute exactly these functions.
module ForkModel {
  import opened Wrappers
  import opened Win32

  /** What stays fixed during a fork: the parent's address space (the source
    * of both copies) and the address of the child's divergence stub
    * ChildForkProc. */
  datatype Env = Env(parent: AddressSpace, stubAddr: u32)

  /** The session statics, then the child as the model sees it: its memory,
    * its main thread's context, and the OS calls made so far. */
  datatype State = State(
    mainFuncAddr: u32,       // gdwMainFuncAddr
    imageName: string,       // gSzFullImgName
    parentProc: Handle,      // ghParProc
    dbgEvt: DebugEvent,      // gDbgEvt
    procInfo: CreateInfo,    // gProcDbgInf
    firstBreakpoint: bool,   // gfFirstBreakpoint
    startFrame: u64,         // gulStartBaseFrameAddr
    endFrame: u64,           // gulEndBaseFrameAddr
    detachChild: bool,       // gfDetachChild
    childMem: Memory,
    childCtx: Context,
    calls: seq<OsCall>)

  /** The session as the program starts it: every static zero, no child. */
  const INITIAL_STATE := State(0, "", 0, ZERO_EVENT, ZERO_CREATE_INFO, false, 0, 0, false, map[], ZERO_CONTEXT, [])

  /** The name of the section holding the initialised globals. */
  const DATA_SECTION := ".data"

  /** The stack walk stops, marked not OK, once more than this many frames
    * have been recorded. */
  const FRAME_LIMIT: nat := 64

  /** InitStaticVars: every session static except the main-function address
    * is zeroed; the child side is not touched. */
  function InitSession(s: State): State
  {
    s.(imageName := "", parentProc := 0, dbgEvt := ZERO_EVENT, procInfo := ZERO_CREATE_INFO,
       firstBreakpoint := false, endFrame := 0, startFrame := 0, detachChild := false)
  }

  /** TerminateProcess on the child's process handle. */
  function Terminate(s: State, exitCode: u32): State
  {
    s.(calls := s.calls + [TerminateCall(s.procInfo.hProcess, exitCode)])
  }

  // ---------------------------------------------------------------------
  // GetStartAndEndFrame

  /** The number of consecutive successful walk calls from call `i` on,
    * counting no further than FRAME_LIMIT + 1. */
  function LeadingFrames(walk: StackWalker, i: nat): (n: nat)
    requires i <= FRAME_LIMIT + 1
    ensures i <= n <= FRAME_LIMIT + 1
    ensures forall j :: i <= j < n ==> walk(j).ok
    ensures n <= FRAME_LIMIT ==> !walk(n).ok
    decreases FRAME_LIMIT + 1 - i
  {
    if i == FRAME_LIMIT + 1 || !walk(i).ok then i else LeadingFrames(walk, i + 1)
  }

  /** The number of frames GetStartAndEndFrame records. */
  function FramesWalked(walk: StackWalker): nat
  {
    LeadingFrames(walk, 0)
  }

  /** A walk whose first `k` calls succeed and whose call `k` fails (or that
    * reached the cap) records exactly `k` frames. */
  lemma FramesWalkedIs(walk: StackWalker, k: nat)
    requires k <= FRAME_LIMIT + 1
    requires forall j :: 0 <= j < k ==> walk(j).ok
    requires k <= FRAME_LIMIT ==> !walk(k).ok
    ensures FramesWalked(walk) == k
  {
  }

  /** GetStartAndEndFrame: the first recorded frame gives the end bound, the
    * last of two or more gives the start bound. The result is TRUE when the
    * walk stopped by itself; when it reached the cap it is the result of the
    * call made after the cap was reached. */
  function WalkFrames(s: State, walk: StackWalker): (State, bool)
  {
    var n := FramesWalked(walk);
    (s.(endFrame := if n >= 1 then walk(0).frame else s.endFrame,
        startFrame := if n >= 2 then walk(n - 1).frame else s.startFrame),
     n <= FRAME_LIMIT || walk(FRAME_LIMIT + 1).ok)
  }

  // ---------------------------------------------------------------------
  // CreateProcDbgEvtHandler

  /** The index of the first section from `from` on named ".data". */
  function FirstDataSection(sections: seq<Section>, from: nat): (r: Option<nat>)
    requires from <= |sections|
    ensures r.Some? ==> from <= r.value < |sections| && sections[r.value].name == DATA_SECTION
    ensures r.Some? ==> forall j :: from <= j < r.value ==> sections[j].name != DATA_SECTION
    ensures r.None? ==> forall j :: from <= j < |sections| ==> sections[j].name != DATA_SECTION
    decreases |sections| - from
  {
    if from == |sections| then None
    else if sections[from].name == DATA_SECTION then Some(from)
    else FirstDataSection(sections, from + 1)
  }

  /** Where the data section sits in the child: image base plus the
    * section's virtual address, as a 32-bit pointer. */
  function DataAddress(base: u32, sec: Section): u32
  {
    ToU32(base + sec.virtualAddress)
  }

  /** The copy of one section from the parent into the child at the same
    * address, image base plus the section's virtual address; a failed or
    * short WriteProcessMemory terminates the child. */
  function CopySection(s: State, env: Env, sec: Section, w: WriteReply): (State, bool)
  {
    var addr := DataAddress(s.procInfo.baseOfImage, sec);
    var s1 := s.(childMem := AfterWrite(s.childMem, addr, ReadSpan(env.parent, addr, sec.virtualSize), w));
    if w.ok && w.written == sec.virtualSize then (s1, true)
    else (Terminate(s1, EXIT_MINUS_ONE), false)
  }

  /** CreateProcDbgEvtHandler: record the create-process info, then copy the
    * parent's ".data" section into the child. A missing section returns
    * FALSE at the point the source's section check stands (findings.dfy
    * models the code as written there). */
  function CreateProcStep(s: State, env: Env, r: CreateReplies): (State, bool)
  {
    var s1 := s.(procInfo := s.dbgEvt.createInfo);
    if !r.killOnExitOk then (s1, false)
    else match r.sections
      case None => (s1, false)
      case Some(sections) =>
        match FirstDataSection(sections, 0)
        case None => (s1, false)
        case Some(k) => CopySection(s1, env, sections[k], r.write)
  }

  // ---------------------------------------------------------------------
  // BreakpointExcHandler and ExcDbgEvtHandler

  /** The child address the stack span is copied to and from: the end bound
    * as a 32-bit pointer. */
  function SpanAddress(s: State): u32
  {
    ToU32(s.endFrame)
  }

  /** The length of the copied span: start minus end in 64-bit unsigned
    * arithmetic, then narrowed to a 32-bit SIZE_T. */
  function SpanLength(s: State): u32
  {
    ToU32(s.startFrame - s.endFrame)
  }

  /** BreakpointExcHandler. First trap: plant INT3 at the main function.
    * Later trap: copy the stack span, then point Eip at the stub and Esp at
    * the end bound; the detach flag is set only when all three calls
    * succeed. */
  function BreakpointStep(s: State, env: Env, r: BreakpointReplies): (State, bool)
  {
    if !s.firstBreakpoint then
      (s.(firstBreakpoint := true, childMem := AfterWrite(s.childMem, s.mainFuncAddr, [INT3], r.write)),
       r.write.ok)
    else
      var addr := SpanAddress(s);
      var s1 := s.(childMem := AfterWrite(s.childMem, addr, ReadSpan(env.parent, addr, SpanLength(s)), r.write));
      if !r.write.ok || !r.getContextOk || !r.setContextOk then (s1, false)
      else (s1.(childCtx := s1.childCtx.(eip := env.stubAddr, esp := ToU32(s1.endFrame)), detachChild := true), true)
  }

  /** ExcDbgEvtHandler: dispatch on the exception code of the current
    * event. */
  function ExceptionStep(s: State, env: Env, r: BreakpointReplies): (State, bool)
  {
    var code := s.dbgEvt.excCode;
    if code == EXCEPTION_BREAKPOINT then
      var (s1, ok) := BreakpointStep(s, env, r);
      if ok then (s1, true) else (Terminate(s1, EXIT_MINUS_ONE), false)
    else if code == EXCEPTION_ACCESS_VIOLATION then (Terminate(s, EXCEPTION_ACCESS_VIOLATION), false)
    else if code == EXCEPTION_ILLEGAL_INSTRUCTION then (Terminate(s, EXCEPTION_ILLEGAL_INSTRUCTION), false)
    else if code == VS_DEBUG_EXCEPTION then (s, true)
    else (Terminate(s, code), false)
  }

  // ---------------------------------------------------------------------
  // The debug-event loop of DkFork

  /** How one loop iteration ends: the wait failed; the event failed (a
    * handler returned FALSE or the child exited); the child was continued;
    * or it was continued with the detach flag set. */
  datatype Verdict = WaitFailed | Failed | Continued | Detached

  /** The switch on the event code of the current event. */
  function Dispatch(s: State, env: Env, w: Wakeup): (State, bool)
  {
    var code := s.dbgEvt.code;
    if code == CREATE_PROCESS_DEBUG_EVENT then CreateProcStep(s, env, w.create)
    else if code == EXCEPTION_DEBUG_EVENT then ExceptionStep(s, env, w.breakpoint)
    else if code == EXIT_PROCESS_DEBUG_EVENT then (s, false)
    else (s, true)
  }

  /** One iteration of the loop: wait, dispatch, and continue the child's
    * main thread when the event succeeded. */
  function EventStep(s: State, env: Env, pi: ProcessInfo, w: Wakeup): (State, Verdict)
  {
    if !w.waitOk then (s, WaitFailed)
    else
      var (s1, ok) := Dispatch(s.(dbgEvt := w.event), env, w);
      if !ok then (s1, Failed)
      else
        var s2 := s1.(calls := s1.calls + [ContinueCall(pi.pid, pi.tid)]);
        (s2, if s2.detachChild then Detached else Continued)
  }

  /** The loop over the wakeups the OS delivers: the final state and the
    * verdict of every iteration run. It stops at the first verdict other
    * than Continued; if every wakeup is used up first, the next wait never
    * returns. */
  function Run(s: State, env: Env, pi: ProcessInfo, ws: seq<Wakeup>): (r: (State, seq<Verdict>))
    ensures |r.1| <= |ws|
    ensures forall k :: 0 <= k < |r.1| - 1 ==> r.1[k] == Continued
    ensures |r.1| < |ws| ==> |r.1| > 0 && r.1[|r.1| - 1] != Continued
    ensures ws != [] ==> |r.1| > 0
    decreases |ws|
  {
    if ws == [] then (s, [])
    else
      var (s1, v) := EventStep(s, env, pi, ws[0]);
      if v == Continued then
        var (s2, vs) := Run(s1, env, pi, ws[1..]);
        (s2, [v] + vs)
      else (s1, [v])
  }

  /** One more iteration of the loop, seen from the start of the run: if
    * the run so far consumed `ws[..i]` with verdicts `done` and reached
    * `cur`, the next wakeup either extends the run or ends it. */
  lemma RunAdvance(start: State, cur: State, env: Env, pi: ProcessInfo, ws: seq<Wakeup>,
                   i: nat, done: seq<Verdict>)
    requires i < |ws|
    requires Run(start, env, pi, ws) == (Run(cur, env, pi, ws[i..]).0, done + Run(cur, env, pi, ws[i..]).1)
    ensures var (s1, v) := EventStep(cur, env, pi, ws[i]);
            if v == Continued then
              Run(start, env, pi, ws) == (Run(s1, env, pi, ws[i + 1..]).0, done + [v] + Run(s1, env, pi, ws[i + 1..]).1)
            else
              Run(start, env, pi, ws) == (s1, done + [v])
  {
    assert ws[i..][0] == ws[i] && ws[i..][1..] == ws[i + 1..];
    var (s1, v) := EventStep(cur, env, pi, ws[i]);
    var rest := Run(s1, env, pi, ws[i + 1..]).1;
    assert done + ([v] + rest) == done + [v] + rest;
  }

  /** What DkFork hands back: an int, or nothing because the parent waits
    * forever for an event that never comes. */
  datatype ForkResult = Returned(value: int) | Blocked

  /** The session just before the stack walk: main address stored, statics
    * reset, current-process pseudo-handle and image name recorded. */
  function Prepare(s: State, mainArg: i64, moduleName: string): State
  {
    InitSession(s.(mainFuncAddr := ToU32(mainArg))).(parentProc := CURRENT_PROCESS, imageName := moduleName)
  }

  /** DkFork. `moduleName` is what GetModuleFileNameEx stores (empty when it
    * fails), `walk` answers the stack walk, `launch` is CreateProcess's
    * outcome and `ws` the events the child raises. */
  function Fork(s: State, env: Env, mainArg: i64, moduleName: string, walk: StackWalker,
                launch: Option<Launch>, ws: seq<Wakeup>): (State, ForkResult)
  {
    var s0 := Prepare(s, mainArg, moduleName);
    if |moduleName| == 0 then (s0, Returned(-1))
    else
      var (s1, walkOk) := WalkFrames(s0, walk);
      if !walkOk then (s1, Returned(-1))
      else
        Launched(s1, env, launch, ws)
  }

  /** CreateProcess of the image and, if it succeeds, the debugging of the
    * new child. */
  function Launched(s: State, env: Env, launch: Option<Launch>, ws: seq<Wakeup>): (State, ForkResult)
  {
    var s1 := s.(calls := s.calls + [CreateProcessCall(s.imageName)]);
    match launch
    case None => (s1, Returned(-1))
    case Some(l) => Conclude(Run(WithChild(s1, l), env, l.info, ws), l.info)
  }

  /** The session once CreateProcess has produced the child. */
  function WithChild(s: State, l: Launch): State
  {
    s.(childMem := l.mem, childCtx := l.ctx)
  }

  /** What follows the loop: wait forever if the events ran out, otherwise
    * detach from the child and return -1 after a failure or the child's
    * process id. */
  function Conclude(run: (State, seq<Verdict>), pi: ProcessInfo): (State, ForkResult)
  {
    var (s, vs) := run;
    if vs == [] || vs[|vs| - 1] == Continued then (s, Blocked)
    else
      (s.(calls := s.calls + [DetachCall(pi.pid)]),
       Returned(if vs[|vs| - 1] == Failed then -1 else ToInt32(pi.pid)))
  }
}
