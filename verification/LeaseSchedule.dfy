/**
 A schedule that is enough for exclusion: reconciliations of one workspace do not overlap, and no
 record changes while a reconciliation inspects it. The code enforces neither; `LeaseHazards` shows
 that dropping either one is enough for two live owners.
 */
module LeaseSchedule {
  import opened Prelude
  import opened WorkspaceLease
  import opened WorkspaceReconcile
  import opened LeaseProtocol
  import opened LeaseSafety

  /** A reconciliation between its look and its verdict. */
  predicate Inspecting(op: Op) {
    (op.Looking? || op.Probing?) && op.call.Reconciling?
  }

  /** A reconciliation that has not unlinked and still may. */
  predicate BeforeUnlink(op: Op) {
    Inspecting(op) || op.Clearing?
  }

  predicate NoOverlap(w: World, s: Step) {
    s.Begin? && s.call.Reconciling? ==> forall p :: p in w.ops ==> !BeforeUnlink(w.ops[p])
  }

  predicate NoChangeUnderInspection(w: World, s: Step)
    requires Enabled(w, s)
  {
    Apply(w, s).file != w.file ==> forall p :: p in w.ops ==> !Inspecting(w.ops[p])
  }

  ghost predicate NonOverlapping(w: World, steps: seq<Step>)
    requires IsRun(w, steps)
    decreases steps
  {
    steps == [] || (NoOverlap(w, steps[0]) && NonOverlapping(Apply(w, steps[0]), steps[1..]))
  }

  ghost predicate Undisturbed(w: World, steps: seq<Step>)
    requires IsRun(w, steps)
    decreases steps
  {
    steps == [] || (NoChangeUnderInspection(w, steps[0]) && Undisturbed(Apply(w, steps[0]), steps[1..]))
  }

  ghost predicate Apart(w: World, steps: seq<Step>)
    requires IsRun(w, steps)
  {
    NonOverlapping(w, steps) && Undisturbed(w, steps)
  }

  lemma {:induction false} AppendSchedule(w: World, first: seq<Step>, second: seq<Step>)
    requires IsRun(w, first) && IsRun(After(w, first), second)
    ensures IsRun(w, first + second)
    ensures NonOverlapping(w, first + second) <==> NonOverlapping(w, first) && NonOverlapping(After(w, first), second)
    ensures Undisturbed(w, first + second) <==> Undisturbed(w, first) && Undisturbed(After(w, first), second)
    decreases first
  {
    hide Apply, Enabled, NoOverlap, NoChangeUnderInspection;
    AppendRun(w, first, second);
    if first == [] {
      assert first + second == second;
    } else {
      AppendSchedule(Apply(w, first[0]), first[1..], second);
      assert (first + second)[1..] == first[1..] + second;
    }
  }

  /** The schedule of a run given by its worlds. */
  lemma {:induction false} ChainSchedule(w: World, steps: seq<Step>, worlds: seq<World>)
    requires |worlds| == |steps| + 1 && worlds[0] == w
    requires forall i :: 0 <= i < |steps| ==>
               Enabled(worlds[i], steps[i]) && worlds[i + 1] == Apply(worlds[i], steps[i])
    ensures IsRun(w, steps) && After(w, steps) == worlds[|steps|]
    ensures (forall i :: 0 <= i < |steps| ==> NoOverlap(worlds[i], steps[i])) ==> NonOverlapping(w, steps)
    ensures (forall i :: 0 <= i < |steps| ==> NoChangeUnderInspection(worlds[i], steps[i])) ==> Undisturbed(w, steps)
    decreases steps
  {
    hide Apply, Enabled, NoOverlap, NoChangeUnderInspection;
    if steps != [] {
      ChainSchedule(Apply(w, steps[0]), steps[1..], worlds[1..]);
    }
  }

  /** What a reconciliation saw is what stands. */
  ghost predicate SawWhatStands(w: World, op: Op) {
    match op
    case Looking(call, stood) => call.Reconciling? ==> w.file == stood
    case Probing(call, stood, saw) => call.Reconciling? ==> w.file == saw
    case Clearing(record) =>
      w.file.Published? && record.observed.Uncertain? && record.observed.found == Some(w.file.lease)
    case _ => true
  }

  ghost predicate ApartInv(w: World) {
    && Inv(w)
    && (forall p :: p in w.ops ==> SawWhatStands(w, w.ops[p]))
    && (forall p, q :: p in w.ops && q in w.ops && BeforeUnlink(w.ops[p]) && BeforeUnlink(w.ops[q]) ==> p == q)
  }

  /** An unlink of the very record that was judged removes a dead holder's. */
  lemma ClearsTheDeadHolder(w: World, s: Step)
    requires ApartInv(w) && Enabled(w, s) && s.CommitClear?
    ensures w.file.Published? && !w.LiveRecord()
  {
    assert OpInv(w, s.p) && SawWhatStands(w, w.ops[s.p]);
  }

  /** Under a reconciliation in flight nothing but its own unlink changes the record. */
  lemma RecordStands(w: World, s: Step, q: HolderProcess)
    requires ApartInv(w) && Enabled(w, s) && NoChangeUnderInspection(w, s)
    requires q in w.ops && BeforeUnlink(w.ops[q]) && !(s.CommitClear? && s.p == q)
    ensures Apply(w, s).file == w.file
  {
    hide Apply, Inv;
    if w.ops[q].Clearing? {
      RecordOfClearingIsDead(w, q);
      OnlyItselfClears(w, s, q);
      DeadHoldersRecordStays(w, s);
    }
  }

  lemma RecordOfClearingIsDead(w: World, q: HolderProcess)
    requires ApartInv(w) && q in w.ops && w.ops[q].Clearing?
    ensures w.file.Published? && !w.LiveRecord()
  {
    assert OpInv(w, q) && SawWhatStands(w, w.ops[q]);
  }

  lemma OnlyItselfClears(w: World, s: Step, q: HolderProcess)
    requires ApartInv(w) && Enabled(w, s) && q in w.ops && BeforeUnlink(w.ops[q])
    ensures s.CommitClear? ==> s.p == q
  {
  }

  /** The operation of a process that does not step stays. */
  lemma OtherOpsStay(w: World, s: Step, q: HolderProcess)
    requires Enabled(w, s) && q in Apply(w, s).ops && !IsStepOf(s, q)
    ensures q in w.ops && Apply(w, s).ops[q] == w.ops[q]
  {
    hide Judged;
    if s.Begin? {
      JudgedLeavesTheWorld(w, s.p, s.call, Absent);
    } else if s.Judge? {
      JudgedLeavesTheWorld(w, s.p, w.ops[s.p].call, w.ops[s.p].saw);
    }
  }

  /** A process's own step: it is before its unlink only if it was, or has just begun. */
  lemma OwnStepKeepsSight(w: World, s: Step, q: HolderProcess)
    requires ApartInv(w) && Enabled(w, s) && IsStepOf(s, q) && q in Apply(w, s).ops
    ensures SawWhatStands(Apply(w, s), Apply(w, s).ops[q])
    ensures BeforeUnlink(Apply(w, s).ops[q]) ==>
              (q in w.ops && BeforeUnlink(w.ops[q])) || (s.Begin? && s.call.Reconciling?)
  {
    hide Judged;
    if s.Begin? {
      if w.file.Absent? {
        JudgedSight(w, q, s.call, Absent);
      }
    } else if s.Judge? {
      assert OpInv(w, q) && SawWhatStands(w, w.ops[q]);
      JudgedSight(w, q, w.ops[q].call, w.ops[q].saw);
    } else {
      assert q in w.ops ==> OpInv(w, q) && SawWhatStands(w, w.ops[q]);
    }
  }

  lemma JudgedSight(w: World, p: HolderProcess, call: Call, saw: LeaseFile)
    requires call.Reconciling? ==> saw == w.file
    requires !w.file.Unreadable?
    requires p in Judged(w, p, call, saw).ops
    ensures var w' := Judged(w, p, call, saw);
            && SawWhatStands(w', w'.ops[p])
            && (BeforeUnlink(w'.ops[p]) ==> call.Reconciling? && saw.Published?)
  {
    if call.Reconciling? && Resolves(Verdict(w, call, saw)) {
      ClearingSawNoLiveHolder(w, call, saw);
    }
  }

  lemma StepKeepsApart(w: World, s: Step)
    requires ApartInv(w) && Enabled(w, s) && NoOverlap(w, s) && NoChangeUnderInspection(w, s)
    ensures ClearsNoLiveRecord(w, s) && ApartInv(Apply(w, s))
  {
    hide Apply, Inv, SawWhatStands, Enabled;
    var w' := Apply(w, s);
    if s.CommitClear? {
      ClearsTheDeadHolder(w, s);
    }
    StepKeepsInv(w, s);
    forall q | q in w'.ops
      ensures SawWhatStands(w', w'.ops[q])
      ensures BeforeUnlink(w'.ops[q]) ==>
                (q in w.ops && BeforeUnlink(w.ops[q])) || (s.Begin? && s.call.Reconciling? && s.p == q)
    {
      if IsStepOf(s, q) {
        OwnStepKeepsSight(w, s, q);
      } else {
        OtherOpsStay(w, s, q);
        if BeforeUnlink(w.ops[q]) {
          RecordStands(w, s, q);
        }
        SightOfTheFile(w, w', w.ops[q]);
      }
    }
  }

  lemma SightOfTheFile(w: World, w': World, op: Op)
    requires SawWhatStands(w, op) && (BeforeUnlink(op) ==> w'.file == w.file)
    ensures SawWhatStands(w', op)
  {
  }

  lemma {:induction false} RunKeepsApart(w: World, steps: seq<Step>)
    requires ApartInv(w) && IsRun(w, steps) && Apart(w, steps)
    ensures Careful(w, steps) && ApartInv(After(w, steps))
    decreases steps
  {
    hide ApartInv, Apply, Enabled, NoOverlap, NoChangeUnderInspection, ClearsNoLiveRecord;
    if steps != [] {
      StepKeepsApart(w, steps[0]);
      RunKeepsApart(Apply(w, steps[0]), steps[1..]);
    }
  }

  lemma StartIsApart()
    ensures ApartInv(START)
  {
    StartIsGood();
  }

  /** Such a schedule is careful, so exclusion holds at each of its steps. */
  lemma ApartRunsKeepExclusion(steps: seq<Step>)
    requires IsRun(START, steps) && Apart(START, steps)
    ensures Careful(START, steps) && AlwaysExclusive(START, steps)
  {
    StartIsApart();
    StartIsGood();
    RunKeepsApart(START, steps);
    ExclusionExactlyWhenCareful(START, steps);
  }
}
