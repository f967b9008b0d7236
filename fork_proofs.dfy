// What src/DkFork.c promises, stated and proved about the functions of
// ForkModel (and so, through the methods of DkFork.Forker, about the code).
module ForkProofs {
  import opened Wrappers
  import opened Win32
  import opened ForkModel

  // ---------------------------------------------------------------------
  // Session reset

  /** Whatever an earlier DkFork call left in the statics, a new call behaves
    * the same: only the child record and the call log carry over. */
  lemma ForkForgetsEarlierSessions(s: State, t: State, env: Env, mainArg: i64, moduleName: string,
                                   walk: StackWalker, launch: Option<Launch>, ws: seq<Wakeup>)
    requires s.childMem == t.childMem && s.childCtx == t.childCtx && s.calls == t.calls
    ensures Fork(s, env, mainArg, moduleName, walk, launch, ws) == Fork(t, env, mainArg, moduleName, walk, launch, ws)
  {
    assert Prepare(s, mainArg, moduleName) == Prepare(t, mainArg, moduleName);
  }

  /** The reset zeroes the image name, the handles, the event, the
    * create-process info, both frame bounds and both flags, and keeps the
    * main-function address stored just before it. */
  lemma PrepareStartsFresh(s: State, mainArg: i64, moduleName: string)
    ensures var p := Prepare(s, mainArg, moduleName);
            p.mainFuncAddr == ToU32(mainArg) && p.imageName == moduleName &&
            p.parentProc == CURRENT_PROCESS && p.dbgEvt == ZERO_EVENT &&
            p.procInfo == ZERO_CREATE_INFO && !p.firstBreakpoint && !p.detachChild &&
            p.startFrame == 0 && p.endFrame == 0 &&
            p.childMem == s.childMem && p.childCtx == s.childCtx && p.calls == s.calls
  {
  }

  // ---------------------------------------------------------------------
  // GetStartAndEndFrame

  /** A walk whose calls 0 .. k-1 succeed and whose call k fails (or whose
    * count reached the cap, k = 65) records call 0's frame as the end bound
    * and call k-1's as the start bound, and succeeds unless the cap was hit
    * and the call after it failed. */
  lemma WalkFramesCount(s: State, walk: StackWalker, k: nat)
    requires k <= FRAME_LIMIT + 1
    requires forall j :: 0 <= j < k ==> walk(j).ok
    requires k <= FRAME_LIMIT ==> !walk(k).ok
    ensures var (t, ok) := WalkFrames(s, walk);
            t.endFrame == (if k >= 1 then walk(0).frame else s.endFrame) &&
            t.startFrame == (if k >= 2 then walk(k - 1).frame else s.startFrame) &&
            ok == (k <= FRAME_LIMIT || walk(FRAME_LIMIT + 1).ok) &&
            t == s.(endFrame := t.endFrame, startFrame := t.startFrame)
  {
    FramesWalkedIs(walk, k);
  }

  /** A walk that records no frame at all still reports success. */
  lemma EmptyWalkSucceeds(s: State, walk: StackWalker)
    requires !walk(0).ok
    ensures WalkFrames(s, walk) == (s, true)
  {
    WalkFramesCount(s, walk, 0);
  }

  /** A walk that reaches the cap records frames 0 and 64 and returns the
    * result of the call made after the cap. */
  lemma CappedWalkReturnsLastCall(s: State, walk: StackWalker)
    requires forall j :: 0 <= j <= FRAME_LIMIT ==> walk(j).ok
    ensures WalkFrames(s, walk) ==
            (s.(endFrame := walk(0).frame, startFrame := walk(FRAME_LIMIT).frame), walk(FRAME_LIMIT + 1).ok)
  {
    WalkFramesCount(s, walk, FRAME_LIMIT + 1);
  }

  // ---------------------------------------------------------------------
  // CreateProcDbgEvtHandler

  /** The handler succeeds exactly when kill-on-exit could be disabled, the
    * image has a header and a ".data" section, and the whole of the first
    * such section was written; the create-process info is always recorded;
    * the failures before the write leave the child alone. */
  lemma ReplicationOutcome(s: State, env: Env, r: CreateReplies)
    ensures var (t, ok) := CreateProcStep(s, env, r);
            t.procInfo == s.dbgEvt.createInfo &&
            (ok <==> r.killOnExitOk && r.sections.Some? &&
                     (exists j :: 0 <= j < |r.sections.value| && r.sections.value[j].name == DATA_SECTION) &&
                     r.write.ok &&
                     r.write.written == r.sections.value[FirstDataSection(r.sections.value, 0).value].virtualSize) &&
            (!r.killOnExitOk || r.sections.None? || FirstDataSection(r.sections.value, 0).None? ==>
               t == s.(procInfo := s.dbgEvt.createInfo))
  {
    if r.killOnExitOk && r.sections.Some? {
      var sections := r.sections.value;
      var found := FirstDataSection(sections, 0);
      if exists j :: 0 <= j < |sections| && sections[j].name == DATA_SECTION {
        var j :| 0 <= j < |sections| && sections[j].name == DATA_SECTION;
        assert found.Some?;
      }
    }
  }

  /** Once the write was issued, only its outcome decides: success leaves
    * the child running, a failed or short write terminates it with exit
    * status -1; nothing but the child memory and the call log changes. */
  lemma ReplicationTerminatesOnBadWrite(s: State, env: Env, sec: Section, w: WriteReply)
    ensures var (t, ok) := CopySection(s, env, sec, w);
            ok == (w.ok && w.written == sec.virtualSize) &&
            t.calls == (if ok then s.calls else s.calls + [TerminateCall(s.procInfo.hProcess, EXIT_MINUS_ONE)]) &&
            t == s.(childMem := t.childMem, calls := t.calls)
  {
  }

  /** A successful copy places the parent's bytes of the section at the same
    * addresses of the child and leaves every other known byte as it was. */
  lemma ReplicationCopiesSection(s: State, env: Env, sec: Section, w: WriteReply, a: nat)
    requires CopySection(s, env, sec, w).1
    ensures var addr := DataAddress(s.procInfo.baseOfImage, sec);
            var mem := CopySection(s, env, sec, w).0.childMem;
            (InSpan(a, addr, sec.virtualSize) ==> a in mem && mem[a] == env.parent(a)) &&
            (a in s.childMem && !InSpan(a, addr, sec.virtualSize) ==> a in mem && mem[a] == s.childMem[a])
  {
    var addr := DataAddress(s.procInfo.baseOfImage, sec);
    var bytes := ReadSpan(env.parent, addr, sec.virtualSize);
    assert bytes[..Transferred(w, |bytes|)] == bytes;
    WriteBytesAt(s.childMem, addr, bytes, a);
    if InSpan(a, addr, sec.virtualSize) {
      ReadSpanAt(env.parent, addr, sec.virtualSize, a - addr);
    }
  }

  // ---------------------------------------------------------------------
  // BreakpointExcHandler

  /** First trap: the flag is set and the one byte 0xCC lands at the main
    * address if the OS wrote it; the context, the detach flag and every
    * other byte stay as they were, and the result is the write's. */
  lemma FirstBreakpointPlantsInt3(s: State, env: Env, r: BreakpointReplies)
    requires !s.firstBreakpoint
    ensures var (t, ok) := BreakpointStep(s, env, r);
            ok == r.write.ok && t.firstBreakpoint &&
            t.childMem == (if r.write.written >= 1 then s.childMem[s.mainFuncAddr := INT3] else s.childMem) &&
            t == s.(firstBreakpoint := true, childMem := t.childMem)
  {
    if r.write.written >= 1 {
      assert [INT3][..Transferred(r.write, 1)] == [INT3];
      assert WriteBytes(s.childMem, s.mainFuncAddr, [INT3])
          == WriteBytes(s.childMem[s.mainFuncAddr := INT3], s.mainFuncAddr + 1, []);
    } else {
      assert [INT3][..Transferred(r.write, 1)] == [];
    }
  }

  /** Later trap: the result is TRUE and the detach flag is set exactly when
    * the span write, GetThreadContext and SetThreadContext all succeed; then
    * Eip holds the stub and Esp the end bound. Otherwise the context and
    * the detach flag are untouched. Nothing but memory, context and detach
    * flag changes. */
  lemma LaterBreakpointTransplants(s: State, env: Env, r: BreakpointReplies)
    requires s.firstBreakpoint
    ensures var (t, ok) := BreakpointStep(s, env, r);
            (ok <==> r.write.ok && r.getContextOk && r.setContextOk) &&
            (ok ==> t.detachChild &&
                    t.childCtx == s.childCtx.(eip := env.stubAddr, esp := SpanAddress(s))) &&
            (!ok ==> t.detachChild == s.detachChild && t.childCtx == s.childCtx) &&
            t == s.(childMem := t.childMem, childCtx := t.childCtx, detachChild := t.detachChild)
  {
  }

  /** Later trap: the bytes that arrive are the parent's bytes of the span
    * [end, end + (start - end)) at the same addresses; all of them arrive
    * when the OS wrote the whole span; nothing outside the span changes. */
  lemma LaterBreakpointCopiesSpan(s: State, env: Env, r: BreakpointReplies, a: nat)
    requires s.firstBreakpoint
    ensures var mem := BreakpointStep(s, env, r).0.childMem;
            var k := Transferred(r.write, SpanLength(s));
            (InSpan(a, SpanAddress(s), k) ==> a in mem && mem[a] == env.parent(a)) &&
            (a in s.childMem && !InSpan(a, SpanAddress(s), k) ==> a in mem && mem[a] == s.childMem[a]) &&
            (r.write.written >= SpanLength(s) ==> k == SpanLength(s))
  {
    var addr := SpanAddress(s);
    var bytes := ReadSpan(env.parent, addr, SpanLength(s));
    var k := Transferred(r.write, SpanLength(s));
    WriteBytesAt(s.childMem, addr, bytes[..k], a);
    if InSpan(a, addr, k) {
      ReadSpanAt(env.parent, addr, SpanLength(s), a - addr);
    }
  }

  // ---------------------------------------------------------------------
  // ExcDbgEvtHandler

  /** The classification: TRUE for the Visual Studio exception and for a
    * breakpoint whose handler succeeds, FALSE otherwise; every FALSE
    * terminates the child, with status -1 after a breakpoint and with the
    * exception code itself otherwise; TRUE issues no call. Any exception
    * other than a breakpoint changes nothing but the call log. */
  lemma ExceptionDisposition(s: State, env: Env, r: BreakpointReplies)
    ensures var (t, ok) := ExceptionStep(s, env, r);
            var code := s.dbgEvt.excCode;
            var bp := BreakpointStep(s, env, r);
            (ok <==> code == VS_DEBUG_EXCEPTION || (code == EXCEPTION_BREAKPOINT && bp.1)) &&
            (code == EXCEPTION_BREAKPOINT ==>
               t.calls == bp.0.calls + (if ok then [] else [TerminateCall(s.procInfo.hProcess, EXIT_MINUS_ONE)]) &&
               t == bp.0.(calls := t.calls)) &&
            (code != EXCEPTION_BREAKPOINT ==>
               t.calls == s.calls + (if ok then [] else [TerminateCall(s.procInfo.hProcess, code)]) &&
               t == s.(calls := t.calls))
  {
  }

  // ---------------------------------------------------------------------
  // One iteration of the loop

  /** The child is continued exactly when the wait succeeded and the
    * handler of the event returned TRUE, and then ContinueDebugEvent is the
    * last call made; a failed wait changes nothing. */
  lemma ContinueOnlyOnSuccess(s: State, env: Env, pi: ProcessInfo, w: Wakeup)
    ensures var (t, v) := EventStep(s, env, pi, w);
            var d := Dispatch(s.(dbgEvt := w.event), env, w);
            (v == Continued || v == Detached <==> w.waitOk && d.1) &&
            (v == WaitFailed <==> !w.waitOk) &&
            (v == WaitFailed ==> t == s) &&
            (v == Failed ==> t == d.0) &&
            (w.waitOk && d.1 ==> t == d.0.(calls := d.0.calls + [ContinueCall(pi.pid, pi.tid)]) &&
                                 (v == Detached <==> t.detachChild))
  {
  }

  /** An exit-process event ends the loop as a failure and changes nothing
    * but the recorded event. */
  lemma ExitEventFails(s: State, env: Env, pi: ProcessInfo, w: Wakeup)
    requires w.waitOk && w.event.code == EXIT_PROCESS_DEBUG_EVENT
    ensures EventStep(s, env, pi, w) == (s.(dbgEvt := w.event), Failed)
  {
  }

  /** An event of any code other than create-process, exception and
    * exit-process is ignored and the child continued. */
  lemma OtherEventsAreContinued(s: State, env: Env, pi: ProcessInfo, w: Wakeup)
    requires w.waitOk
    requires w.event.code !in {CREATE_PROCESS_DEBUG_EVENT, EXCEPTION_DEBUG_EVENT, EXIT_PROCESS_DEBUG_EVENT}
    ensures var t := s.(dbgEvt := w.event, calls := s.calls + [ContinueCall(pi.pid, pi.tid)]);
            EventStep(s, env, pi, w) == (t, if s.detachChild then Detached else Continued)
  {
  }

  // ---------------------------------------------------------------------
  // Facts the loop keeps

  /** The calls appended to `before` are only ContinueDebugEvent on the
    * child's main thread and TerminateProcess. */
  predicate DebugCalls(before: seq<OsCall>, after: seq<OsCall>, pi: ProcessInfo)
  {
    before <= after &&
    forall k :: |before| <= k < |after| ==> after[k] == ContinueCall(pi.pid, pi.tid) || after[k].TerminateCall?
  }

  /** A set detach flag is backed by a planted breakpoint and a context
    * redirected to the stub with Esp at the end bound. */
  predicate Transplanted(env: Env, s: State)
  {
    s.detachChild ==> s.firstBreakpoint && s.childCtx.eip == env.stubAddr && s.childCtx.esp == ToU32(s.endFrame)
  }

  /** The fields the loop never writes. */
  predicate SameSetup(s: State, t: State)
  {
    t.mainFuncAddr == s.mainFuncAddr && t.imageName == s.imageName && t.parentProc == s.parentProc &&
    t.startFrame == s.startFrame && t.endFrame == s.endFrame
  }

  /** `after` is `before` with one TerminateProcess appended. */
  predicate Terminated(before: seq<OsCall>, after: seq<OsCall>)
  {
    |after| == |before| + 1 && after[..|before|] == before && after[|before|].TerminateCall?
  }

  /** The breakpoint handler keeps the setup and a transplant, sets the flag
    * and issues no call. */
  lemma BreakpointStepKeeps(s: State, env: Env, r: BreakpointReplies)
    ensures var t := BreakpointStep(s, env, r).0;
            SameSetup(s, t) && t.firstBreakpoint && t.calls == s.calls &&
            (Transplanted(env, s) ==> Transplanted(env, t))
  {
    if s.firstBreakpoint {
      LaterBreakpointTransplants(s, env, r);
    } else {
      FirstBreakpointPlantsInt3(s, env, r);
    }
  }

  /** Each handler keeps the setup, never clears the breakpoint flag, keeps
    * a transplant intact, and terminates the child at most once. */
  lemma DispatchKeeps(s: State, env: Env, w: Wakeup)
    ensures var t := Dispatch(s, env, w).0;
            SameSetup(s, t) && (s.firstBreakpoint ==> t.firstBreakpoint) &&
            (Transplanted(env, s) ==> Transplanted(env, t)) &&
            (t.calls == s.calls || Terminated(s.calls, t.calls))
  {
    var code := s.dbgEvt.code;
    if code == CREATE_PROCESS_DEBUG_EVENT {
      ReplicationOutcome(s, env, w.create);
      var s1 := s.(procInfo := s.dbgEvt.createInfo);
      if w.create.killOnExitOk && w.create.sections.Some? {
        var sections := w.create.sections.value;
        if FirstDataSection(sections, 0).Some? {
          var k := FirstDataSection(sections, 0).value;
          ReplicationTerminatesOnBadWrite(s1, env, sections[k], w.create.write);
        }
      }
    } else if code == EXCEPTION_DEBUG_EVENT {
      ExceptionDisposition(s, env, w.breakpoint);
      if s.dbgEvt.excCode == EXCEPTION_BREAKPOINT {
        BreakpointStepKeeps(s, env, w.breakpoint);
      }
    }
  }

  /** One iteration keeps the setup, never clears the breakpoint flag, keeps
    * a transplant intact, and issues at most one continue or terminate. */
  lemma EventStepKeeps(s: State, env: Env, pi: ProcessInfo, w: Wakeup)
    ensures var t := EventStep(s, env, pi, w).0;
            SameSetup(s, t) && (s.firstBreakpoint ==> t.firstBreakpoint) &&
            (Transplanted(env, s) ==> Transplanted(env, t)) &&
            DebugCalls(s.calls, t.calls, pi)
  {
    if w.waitOk {
      var s0 := s.(dbgEvt := w.event);
      DispatchKeeps(s0, env, w);
      ContinueOnlyOnSuccess(s, env, pi, w);
      var d := Dispatch(s0, env, w).0;
      var t := EventStep(s, env, pi, w).0;
      assert t.calls == d.calls || t.calls == d.calls + [ContinueCall(pi.pid, pi.tid)];
    }
  }

  /** The whole loop keeps the same facts: in particular the breakpoint flag
    * is never reset and DebugActiveProcessStop is never called inside it. */
  lemma {:induction false} RunKeeps(s: State, env: Env, pi: ProcessInfo, ws: seq<Wakeup>)
    ensures var t := Run(s, env, pi, ws).0;
            SameSetup(s, t) && (s.firstBreakpoint ==> t.firstBreakpoint) &&
            (Transplanted(env, s) ==> Transplanted(env, t)) &&
            DebugCalls(s.calls, t.calls, pi)
    decreases |ws|
  {
    if ws != [] {
      EventStepKeeps(s, env, pi, ws[0]);
      var (s1, v) := EventStep(s, env, pi, ws[0]);
      if v == Continued {
        RunKeeps(s1, env, pi, ws[1..]);
        var t := Run(s1, env, pi, ws[1..]).0;
        assert Run(s, env, pi, ws).0 == t;
        forall k | |s.calls| <= k < |t.calls|
          ensures t.calls[k] == ContinueCall(pi.pid, pi.tid) || t.calls[k].TerminateCall?
        {
          if k >= |s1.calls| {
          } else {
            assert t.calls[k] == s1.calls[k];
          }
        }
      }
    }
  }

  /** A loop that ends with a detach ends with the detach flag set, after a
    * continue of the main thread. */
  lemma {:induction false} DetachedRunEndsContinued(s: State, env: Env, pi: ProcessInfo, ws: seq<Wakeup>)
    ensures var (t, vs) := Run(s, env, pi, ws);
            vs != [] && vs[|vs| - 1] == Detached ==>
              t.detachChild && t.calls != [] && t.calls[|t.calls| - 1] == ContinueCall(pi.pid, pi.tid)
    decreases |ws|
  {
    if ws != [] {
      var (s1, v) := EventStep(s, env, pi, ws[0]);
      ContinueOnlyOnSuccess(s, env, pi, ws[0]);
      if v == Continued {
        DetachedRunEndsContinued(s1, env, pi, ws[1..]);
      }
    }
  }

  // ---------------------------------------------------------------------
  // DkFork

  /** When the image name, the stack walk or CreateProcess fails, DkFork
    * returns -1 without entering the loop: the child record is untouched
    * and nothing is continued, terminated or detached. */
  lemma EarlyFailuresReturnMinusOne(s: State, env: Env, mainArg: i64, moduleName: string,
                                    walk: StackWalker, launch: Option<Launch>, ws: seq<Wakeup>)
    requires |moduleName| == 0 || !WalkFrames(Prepare(s, mainArg, moduleName), walk).1 || launch.None?
    ensures var (t, r) := Fork(s, env, mainArg, moduleName, walk, launch, ws);
            r == Returned(-1) && t.childMem == s.childMem && t.childCtx == s.childCtx &&
            (t.calls == s.calls || t.calls == s.calls + [CreateProcessCall(moduleName)])
  {
  }

  /** After a launch, DkFork returns exactly when the loop left (rather than
    * waiting forever), and then it has detached from the child as its last
    * call; it returns -1 when an iteration failed — a handler returned
    * FALSE or the child exited — and the child's process id otherwise. */
  lemma ForkOutcome(s: State, env: Env, mainArg: i64, moduleName: string,
                    walk: StackWalker, l: Launch, ws: seq<Wakeup>)
    requires |moduleName| > 0 && WalkFrames(Prepare(s, mainArg, moduleName), walk).1
    ensures var walked := WalkFrames(Prepare(s, mainArg, moduleName), walk).0;
            var start := WithChild(walked.(calls := walked.calls + [CreateProcessCall(moduleName)]), l);
            var (u, vs) := Run(start, env, l.info, ws);
            var (t, r) := Fork(s, env, mainArg, moduleName, walk, Some(l), ws);
            (r.Blocked? <==> forall k :: 0 <= k < |vs| ==> vs[k] == Continued) &&
            (r.Returned? ==> t.calls == u.calls + [DetachCall(l.info.pid)] &&
                             r.value == (if Failed in vs then -1 else ToInt32(l.info.pid))) &&
            (r.Blocked? ==> t == u)
  {
    var walked := WalkFrames(Prepare(s, mainArg, moduleName), walk).0;
    var start := WithChild(walked.(calls := walked.calls + [CreateProcessCall(moduleName)]), l);
    var (u, vs) := Run(start, env, l.info, ws);
    if vs != [] && vs[|vs| - 1] != Continued {
      assert !(forall k :: 0 <= k < |vs| ==> vs[k] == Continued);
      if vs[|vs| - 1] != Failed {
        assert Failed !in vs;
      }
    }
  }

  /** The call log of a launched DkFork: CreateProcess of the image, then
    * only continues and terminations, then (unless it waits forever) one
    * detach. */
  lemma ForkCallLog(s: State, env: Env, mainArg: i64, moduleName: string,
                    walk: StackWalker, l: Launch, ws: seq<Wakeup>)
    requires |moduleName| > 0 && WalkFrames(Prepare(s, mainArg, moduleName), walk).1
    ensures var (t, r) := Fork(s, env, mainArg, moduleName, walk, Some(l), ws);
            var c := s.calls + [CreateProcessCall(moduleName)];
            var body := if r.Returned? then t.calls[..|t.calls| - 1] else t.calls;
            (r.Returned? ==> |t.calls| > 0 && t.calls[|t.calls| - 1] == DetachCall(l.info.pid)) &&
            DebugCalls(c, body, l.info)
  {
    var p := Prepare(s, mainArg, moduleName);
    WalkFramesCount(p, walk, FramesWalked(walk));
    var walked := WalkFrames(p, walk).0;
    var start := WithChild(walked.(calls := walked.calls + [CreateProcessCall(moduleName)]), l);
    RunKeeps(start, env, l.info, ws);
    ForkOutcome(s, env, mainArg, moduleName, walk, l, ws);
    var (t, r) := Fork(s, env, mainArg, moduleName, walk, Some(l), ws);
    var u := Run(start, env, l.info, ws).0;
    if r.Returned? {
      assert t.calls[..|t.calls| - 1] == u.calls;
    }
  }

  /** Whenever DkFork leaves the detach flag set — in particular whenever
    * its loop ended with a detach — the child has reached the planted
    * breakpoint and its context points at the stub with Esp at the end
    * bound of the walk. */
  lemma ForkDetachRedirectsChild(s: State, env: Env, mainArg: i64, moduleName: string,
                                 walk: StackWalker, launch: Option<Launch>, ws: seq<Wakeup>)
    ensures var (t, r) := Fork(s, env, mainArg, moduleName, walk, launch, ws);
            t.detachChild ==> t.firstBreakpoint && t.childCtx.eip == env.stubAddr &&
                              t.childCtx.esp == ToU32(WalkFrames(Prepare(s, mainArg, moduleName), walk).0.endFrame)
  {
    var p := Prepare(s, mainArg, moduleName);
    var walked := WalkFrames(p, walk).0;
    WalkFramesCount(p, walk, FramesWalked(walk));
    if launch.Some? && |moduleName| > 0 && WalkFrames(p, walk).1 {
      var l := launch.value;
      var start := WithChild(walked.(calls := walked.calls + [CreateProcessCall(moduleName)]), l);
      RunKeeps(start, env, l.info, ws);
    }
  }
}
