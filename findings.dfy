// CreateProcDbgEvtHandler as src/DkFork.c writes it, beside the corrected
// ForkModel.CreateProcStep that the rest of the model uses.
//
// The handler reuses `fRes` for the section search: it is TRUE when the loop
// starts (DebugSetProcessKillOnExit succeeded, or the handler had already
// returned), the loop only ever sets it to TRUE, so the "not found" test after
// the loop never fires. With no ".data" section the loop index equals the
// section count and the handler goes on to copy whatever header follows the
// section table.
module ForkFindings {
  import opened Wrappers
  import opened Win32
  import opened ForkModel

  /** The loop index after the section search: the first ".data" section,
    * or the section count when there is none. */
  function SearchIndex(sections: seq<Section>): (k: nat)
    ensures k <= |sections|
    ensures k < |sections| <==> exists j :: 0 <= j < |sections| && sections[j].name == DATA_SECTION
    ensures k < |sections| ==> sections[k].name == DATA_SECTION
  {
    match FirstDataSection(sections, 0)
    case None => |sections|
    case Some(k) => k
  }

  /** CreateProcDbgEvtHandler as written. `pastTable` is the header the
    * program reads at index NumberOfSections, one past the section table. */
  function CreateProcStepAsWritten(s: State, env: Env, r: CreateReplies, pastTable: Section): (State, bool)
  {
    var s1 := s.(procInfo := s.dbgEvt.createInfo);
    var fRes := r.killOnExitOk;
    if !fRes then (s1, false)
    else match r.sections
      case None => (s1, false)
      case Some(sections) =>
        var k := SearchIndex(sections);
        var fRes' := fRes || k < |sections|;
        if !fRes' then (s1, false)
        else CopySection(s1, env, if k < |sections| then sections[k] else pastTable, r.write)
  }

  /** With a ".data" section present the code as written and the corrected
    * handler agree. */
  lemma AsWrittenAgreesWithData(s: State, env: Env, r: CreateReplies, pastTable: Section)
    requires r.sections.Some?
    requires exists j :: 0 <= j < |r.sections.value| && r.sections.value[j].name == DATA_SECTION
    ensures CreateProcStepAsWritten(s, env, r, pastTable) == CreateProcStep(s, env, r)
  {
    var sections := r.sections.value;
    var j :| 0 <= j < |sections| && sections[j].name == DATA_SECTION;
    assert FirstDataSection(sections, 0).Some?;
  }

  /** Without a ".data" section the code as written copies the header past
    * the table and succeeds whenever that write does, while the corrected
    * handler reports failure and leaves the child untouched. */
  lemma AsWrittenCopiesPastTable(s: State, env: Env, r: CreateReplies, pastTable: Section)
    requires r.killOnExitOk && r.sections.Some?
    requires forall j :: 0 <= j < |r.sections.value| ==> r.sections.value[j].name != DATA_SECTION
    ensures CreateProcStepAsWritten(s, env, r, pastTable) ==
            CopySection(s.(procInfo := s.dbgEvt.createInfo), env, pastTable, r.write)
    ensures CreateProcStep(s, env, r) == (s.(procInfo := s.dbgEvt.createInfo), false)
  {
    assert SearchIndex(r.sections.value) == |r.sections.value|;
  }

  /** A concrete image: one ".text" section, a zero header after the table
    * and a write of zero bytes that the OS reports as done. The handler as
    * written returns TRUE, so DkFork carries on with the child's globals not
    * copied; the corrected handler returns FALSE. */
  lemma MissingDataSectionAccepted(s: State, env: Env)
    ensures var r := CreateReplies(true, Some([Section(".text", 0x1000, 0x200)]), WriteReply(true, 0));
            CreateProcStepAsWritten(s, env, r, Section("", 0, 0)).1 &&
            !CreateProcStep(s, env, r).1
  {
    var r := CreateReplies(true, Some([Section(".text", 0x1000, 0x200)]), WriteReply(true, 0));
    assert Section(".text", 0x1000, 0x200).name != DATA_SECTION;
    AsWrittenCopiesPastTable(s, env, r, Section("", 0, 0));
  }
}
