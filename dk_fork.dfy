// src/DkFork.c as an object: the file-scope statics are the fields of one
// Forker, each static function is a method that updates them in place, and
// every method is proved to compute the matching function of ForkModel.
// One deliberate difference: CreateProcDbgEvtHandler returns FALSE when the
// image has no ".data" section, where the code's test for that can never
// fire (findings.dfy models the code as written).
module DkFork {
  import opened Wrappers
  import opened Win32
  import opened ForkModel

  /** The linear search of CreateProcDbgEvtHandler for the section named
    * ".data": found, and if so the index of the first such section. */
  method FindDataSection(sections: seq<Section>) returns (found: bool, index: nat)
    ensures found <==> exists j :: 0 <= j < |sections| && sections[j].name == DATA_SECTION
    ensures found ==> index < |sections| && sections[index].name == DATA_SECTION
    ensures found ==> forall j :: 0 <= j < index ==> sections[j].name != DATA_SECTION
    ensures !found ==> index == |sections|
  {
    found := false;
    index := 0;
    while index < |sections|
      invariant index <= |sections|
      invariant forall j :: 0 <= j < index ==> sections[j].name != DATA_SECTION
    {
      if sections[index].name == DATA_SECTION {
        found := true;
        return;
      }
      index := index + 1;
    }
  }

  class Forker {
    // The session statics.
    var mainFuncAddr: u32
    var imageName: string
    var parentProc: Handle
    var dbgEvt: DebugEvent
    var procInfo: CreateInfo
    var firstBreakpoint: bool
    var startFrame: u64
    var endFrame: u64
    var detachChild: bool

    // The child as the parent sees it through the debugging interface.
    var childMem: Memory
    var childCtx: Context
    var calls: seq<OsCall>

    // The parent's address space and the address of ChildForkProc.
    const parentMem: AddressSpace
    const stubAddr: u32

    function Model(): State
      reads this
    {
      State(mainFuncAddr, imageName, parentProc, dbgEvt, procInfo, firstBreakpoint,
            startFrame, endFrame, detachChild, childMem, childCtx, calls)
    }

    function Env(): ForkModel.Env
    {
      ForkModel.Env(parentMem, stubAddr)
    }

    /** The statics as the program starts: all zero, and no child yet. */
    constructor (parentMem: AddressSpace, stubAddr: u32)
      ensures Model() == INITIAL_STATE
      ensures Env() == ForkModel.Env(parentMem, stubAddr)
    {
      this.parentMem := parentMem;
      this.stubAddr := stubAddr;
      mainFuncAddr := 0;
      imageName := "";
      parentProc := 0;
      dbgEvt := ZERO_EVENT;
      procInfo := ZERO_CREATE_INFO;
      firstBreakpoint := false;
      startFrame := 0;
      endFrame := 0;
      detachChild := false;
      childMem := map[];
      childCtx := ZERO_CONTEXT;
      calls := [];
    }

    /** Zero every session static except the main-function address. */
    method InitStaticVars()
      modifies this`imageName, this`parentProc, this`dbgEvt, this`procInfo,
               this`firstBreakpoint, this`endFrame, this`startFrame, this`detachChild
      ensures Model() == InitSession(old(Model()))
    {
      ghost var s0 := Model();
      imageName := "";
      parentProc := 0;
      dbgEvt := ZERO_EVENT;
      procInfo := ZERO_CREATE_INFO;
      firstBreakpoint := false;
      endFrame := 0;
      startFrame := 0;
      detachChild := false;
      assert Model() == State(s0.mainFuncAddr, "", 0, ZERO_EVENT, ZERO_CREATE_INFO, false, 0, 0, false,
                              s0.childMem, s0.childCtx, s0.calls);
    }

    /** Walk the parent's stack, recording the end and start frame bounds.
      * The loop only goes round after a successful call, so the number of
      * calls made so far equals the frame count and indexes the next
      * call's answer. */
    method GetStartAndEndFrame(walk: StackWalker) returns (fRes: bool)
      modifies this`endFrame, this`startFrame
      ensures (Model(), fRes) == WalkFrames(old(Model()), walk)
    {
      var stackWalkOK := true;
      var count: nat := 0;
      while true
        invariant count <= FRAME_LIMIT + 1
        invariant forall j :: 0 <= j < count ==> walk(j).ok
        invariant endFrame == if count >= 1 then walk(0).frame else old(endFrame)
        invariant startFrame == if count >= 2 then walk(count - 1).frame else old(startFrame)
        decreases FRAME_LIMIT + 1 - count
      {
        var step := walk(count);
        fRes := step.ok;
        if count > FRAME_LIMIT {
          stackWalkOK := false;
          break;
        }
        if fRes {
          if count == 0 {
            endFrame := step.frame;
          } else {
            startFrame := step.frame;
          }
          count := count + 1;
        } else {
          break;
        }
      }
      FramesWalkedIs(walk, count);
      if stackWalkOK {
        fRes := true;
      }
    }

    /** Copy the parent's ".data" section into the child created by the
      * current event. A missing ".data" section returns FALSE here; in the
      * code the test for it never fires (see findings.dfy). */
    method CreateProcDbgEvtHandler(r: CreateReplies) returns (fRes: bool)
      modifies this`procInfo, this`childMem, this`calls
      ensures (Model(), fRes) == CreateProcStep(old(Model()), Env(), r)
    {
      procInfo := dbgEvt.createInfo;
      fRes := r.killOnExitOk;
      if !fRes {
        return false;
      }
      if r.sections.None? {
        return false;
      }
      var sections := r.sections.value;
      var found, k := FindDataSection(sections);
      if !found {
        return false;
      }
      var addr := DataAddress(procInfo.baseOfImage, sections[k]);
      var size := sections[k].virtualSize;
      childMem := AfterWrite(childMem, addr, ReadSpan(parentMem, addr, size), r.write);
      fRes := r.write.ok;
      if fRes {
        if r.write.written != size {
          fRes := false;
        }
      }
      if !fRes {
        calls := calls + [TerminateCall(procInfo.hProcess, EXIT_MINUS_ONE)];
      }
    }

    /** Handle a breakpoint trap: plant INT3 at main on the first, transplant
      * the stack and registers on the next. */
    method BreakpointExcHandler(r: BreakpointReplies) returns (fRes: bool)
      modifies this`firstBreakpoint, this`childMem, this`childCtx, this`detachChild
      ensures (Model(), fRes) == BreakpointStep(old(Model()), Env(), r)
    {
      if !firstBreakpoint {
        firstBreakpoint := true;
        childMem := AfterWrite(childMem, mainFuncAddr, [INT3], r.write);
        fRes := r.write.ok;
      } else {
        var addr := ToU32(endFrame);
        childMem := AfterWrite(childMem, addr, ReadSpan(parentMem, addr, ToU32(startFrame - endFrame)), r.write);
        fRes := r.write.ok;
        if fRes {
          fRes := r.getContextOk;
          if fRes {
            var ctx := childCtx;
            ctx := ctx.(eip := stubAddr);
            ctx := ctx.(esp := ToU32(endFrame));
            fRes := r.setContextOk;
            if fRes {
              childCtx := ctx;
              detachChild := true;
            }
          }
        }
      }
    }

    /** Handle an exception event according to its exception code. */
    method ExcDbgEvtHandler(r: BreakpointReplies) returns (fRes: bool)
      modifies this`firstBreakpoint, this`childMem, this`childCtx, this`detachChild, this`calls
      ensures (Model(), fRes) == ExceptionStep(old(Model()), Env(), r)
    {
      var code := dbgEvt.excCode;
      fRes := false;
      if code == EXCEPTION_BREAKPOINT {
        fRes := BreakpointExcHandler(r);
        if !fRes {
          calls := calls + [TerminateCall(procInfo.hProcess, EXIT_MINUS_ONE)];
        }
      } else if code == EXCEPTION_ACCESS_VIOLATION {
        calls := calls + [TerminateCall(procInfo.hProcess, EXCEPTION_ACCESS_VIOLATION)];
      } else if code == EXCEPTION_ILLEGAL_INSTRUCTION {
        calls := calls + [TerminateCall(procInfo.hProcess, EXCEPTION_ILLEGAL_INSTRUCTION)];
      } else if code == VS_DEBUG_EXCEPTION {
        fRes := true;
      } else {
        calls := calls + [TerminateCall(procInfo.hProcess, code)];
      }
    }

    /** The switch of DkFork's loop on the code of the event just received. */
    method DispatchEvent(w: Wakeup) returns (fRes: bool)
      modifies this`dbgEvt, this`procInfo, this`firstBreakpoint, this`childMem,
               this`childCtx, this`detachChild, this`calls
      ensures (Model(), fRes) == Dispatch(old(Model()).(dbgEvt := w.event), Env(), w)
    {
      dbgEvt := w.event;
      var code := dbgEvt.code;
      fRes := true;
      if code == CREATE_PROCESS_DEBUG_EVENT {
        fRes := CreateProcDbgEvtHandler(w.create);
      } else if code == EXCEPTION_DEBUG_EVENT {
        fRes := ExcDbgEvtHandler(w.breakpoint);
      } else if code == EXIT_PROCESS_DEBUG_EVENT {
        fRes := false;
      }
    }

    /** The body of DkFork's do-while loop up to its detach test: wait,
      * dispatch, and continue the child's main thread when the event
      * succeeded. `fRes` is the loop's fRes afterwards; `failed` says that
      * the body cleared fDbgOK. */
    method EventIteration(pi: ProcessInfo, w: Wakeup) returns (fRes: bool, failed: bool)
      modifies this`dbgEvt, this`procInfo, this`firstBreakpoint, this`childMem,
               this`childCtx, this`detachChild, this`calls
      ensures var (s, v) := EventStep(old(Model()), Env(), pi, w);
              Model() == s && fRes == (v == Continued || v == Detached) && failed == (v == Failed)
              && (fRes ==> (detachChild <==> v == Detached))
    {
      failed := false;
      fRes := w.waitOk;
      if fRes {
        fRes := DispatchEvent(w);
        if !fRes {
          failed := true;
        }
        if fRes {
          calls := calls + [ContinueCall(pi.pid, pi.tid)];
        }
      }
    }

    /** The do-while loop of DkFork: run iterations while they succeed,
      * leaving it once the detach flag is set after a continue. `dbgOK` is
      * the loop's fDbgOK; `blocked` says that the events ran out, so the
      * next wait would never return. */
    method DebugEventLoop(pi: ProcessInfo, ws: seq<Wakeup>) returns (dbgOK: bool, blocked: bool)
      modifies this`dbgEvt, this`procInfo, this`firstBreakpoint, this`childMem,
               this`childCtx, this`detachChild, this`calls
      ensures var (s, vs) := Run(old(Model()), Env(), pi, ws);
              Model() == s && blocked == (vs == [] || vs[|vs| - 1] == Continued) &&
              (!blocked ==> dbgOK == (vs[|vs| - 1] != Failed))
    {
      ghost var start := Model();
      ghost var cur := start;
      ghost var done: seq<Verdict> := [];
      ghost var env := Env();
      dbgOK := true;
      var i := 0;
      assert ws[i..] == ws;
      assert done + Run(start, env, pi, ws).1 == Run(start, env, pi, ws).1;
      while true
        invariant i <= |ws|
        invariant |done| == i && dbgOK
        invariant Model() == cur
        invariant forall k :: 0 <= k < |done| ==> done[k] == Continued
        invariant Run(start, env, pi, ws) == (Run(cur, env, pi, ws[i..]).0, done + Run(cur, env, pi, ws[i..]).1)
        decreases |ws| - i
      {
        if i == |ws| {
          // WaitForDebugEvent(INFINITE) would never return.
          return dbgOK, true;
        }
        RunAdvance(start, cur, env, pi, ws, i, done);
        ghost var step := EventStep(cur, env, pi, ws[i]);
        var fRes, failed := EventIteration(pi, ws[i]);
        cur := step.0;
        done := done + [step.1];
        i := i + 1;
        if failed {
          dbgOK := false;
        }
        if !fRes || detachChild {
          assert step.1 != Continued && dbgOK == (step.1 != Failed);
          assert Run(start, env, pi, ws) == (cur, done);
          break;
        }
      }
      blocked := false;
    }

    /** DkFork: launch the program image as a debuggee and drive it through
      * the debug events until it is transplanted, fails or exits. */
    method DkFork(lMainProgAddr: i64, moduleName: string, walk: StackWalker,
                  launch: Option<Launch>, ws: seq<Wakeup>) returns (r: ForkResult)
      modifies this
      ensures (Model(), r) == Fork(old(Model()), Env(), lMainProgAddr, moduleName, walk, launch, ws)
    {
      mainFuncAddr := ToU32(lMainProgAddr);
      InitStaticVars();
      parentProc := CURRENT_PROCESS;
      imageName := moduleName;
      assert Model() == Prepare(old(Model()), lMainProgAddr, moduleName);
      if |moduleName| == 0 {
        return Returned(-1);
      }
      var fRes := GetStartAndEndFrame(walk);
      if !fRes {
        return Returned(-1);
      }
      r := LaunchAndDebug(launch, ws);
    }

    /** The second half of DkFork: CreateProcess with the debug flag, the
      * event loop, DebugActiveProcessStop and the return value. */
    method LaunchAndDebug(launch: Option<Launch>, ws: seq<Wakeup>) returns (r: ForkResult)
      modifies this`dbgEvt, this`procInfo, this`firstBreakpoint, this`childMem,
               this`childCtx, this`detachChild, this`calls
      ensures (Model(), r) == Launched(old(Model()), Env(), launch, ws)
    {
      calls := calls + [CreateProcessCall(imageName)];
      if launch.None? {
        return Returned(-1);
      }
      var pi := launch.value.info;
      childMem := launch.value.mem;
      childCtx := launch.value.ctx;
      ghost var s1 := Model();
      assert s1 == old(Model()).(calls := old(calls) + [CreateProcessCall(imageName)], childMem := launch.value.mem, childCtx := launch.value.ctx);
      assert Launched(old(Model()), Env(), launch, ws) == Conclude(Run(s1, Env(), pi, ws), pi);
      var dbgOK, blocked := DebugEventLoop(pi, ws);
      assert (Model(), dbgOK, blocked) == (Run(s1, Env(), pi, ws).0, dbgOK, blocked);
      if blocked {
        return Blocked;
      }
      calls := calls + [DetachCall(pi.pid)];
      if !dbgOK {
        return Returned(-1);
      }
      return Returned(ToInt32(pi.pid));
    }
  }
}
