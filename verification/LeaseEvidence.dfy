/**
 Reconciliation conserves evidence: along every careful run, what was freed from a dead holder,
 plus what was cleared when nothing stood, is what the log records, plus what a process is still
 about to record, plus what a crash or a failing append kept from being recorded. The last term is
 real: the source unlinks the lease before it appends to the log.
 */
module LeaseEvidence {
  import opened Prelude
  import opened WorkspaceLease
  import opened WorkspaceReconcile
  import opened LeaseProtocol
  import opened LeaseSafety
  import opened LeaseSchedule

  /** Records of the log that freed the workspace: applied `safe_free` or `superseded`. */
  function ResolvingRecords(log: seq<ReconciliationRecord>): nat {
    if log == [] then 0
    else ResolvingRecords(log[..|log| - 1]) + (if Resolves(log[|log| - 1]) then 1 else 0)
  }

  /** Processes that have unlinked and not yet appended. */
  function Unrecorded(w: World): set<HolderProcess> {
    set p | p in w.ops && w.ops[p].Recording? && Resolves(w.ops[p].record)
  }

  /** The step removes an orphaned record. */
  function FreedBy(w: World, s: Step): nat
    requires Enabled(w, s)
  {
    if Abstraction(w).Orphaned? && Apply(w, s).file.Absent? then 1 else 0
  }

  /** The step is a reconciliation's unlink that finds no dead holder's record to remove. */
  function MissedBy(w: World, s: Step): nat {
    if s.CommitClear? && !Abstraction(w).Orphaned? then 1 else 0
  }

  /** The step keeps an unlink from being recorded: its process dies, or its append fails. */
  function LostBy(w: World, s: Step): nat {
    if (s.Crash? || s.AppendFails?) && s.p in Unrecorded(w) then 1 else 0
  }

  /** Times an uncertain workspace became free. */
  ghost function Freed(w: World, steps: seq<Step>): nat
    requires IsRun(w, steps)
    decreases steps
  {
    if steps == [] then 0
    else FreedBy(w, steps[0]) + Freed(Apply(w, steps[0]), steps[1..])
  }

  ghost function Missed(w: World, steps: seq<Step>): nat
    requires IsRun(w, steps)
    decreases steps
  {
    if steps == [] then 0
    else MissedBy(w, steps[0]) + Missed(Apply(w, steps[0]), steps[1..])
  }

  ghost function Lost(w: World, steps: seq<Step>): nat
    requires IsRun(w, steps)
    decreases steps
  {
    if steps == [] then 0
    else LostBy(w, steps[0]) + Lost(Apply(w, steps[0]), steps[1..])
  }

  predicate TouchesRecording(s: Step) {
    s.CommitClear? || s.CommitRecord? || s.AppendFails? || s.Crash?
  }

  /** A verdict that is recorded without an unlink resolves nothing. */
  lemma OtherStepsLeaveEvidence(w: World, s: Step)
    requires Inv(w) && Enabled(w, s) && !TouchesRecording(s)
    ensures Unrecorded(Apply(w, s)) == Unrecorded(w)
    ensures Apply(w, s).log == w.log
  {
    hide Judged, Inv;
    var w' := Apply(w, s);
    if s.Begin? && w.file.Absent? {
      JudgedLeavesTheWorld(w, s.p, s.call, Absent);
      JudgedRecordsNothing(w, s.p, s.call, Absent);
    } else if s.Judge? {
      JudgedLeavesTheWorld(w, s.p, w.ops[s.p].call, w.ops[s.p].saw);
      JudgedRecordsNothing(w, s.p, w.ops[s.p].call, w.ops[s.p].saw);
    }
    forall p
      ensures p in Unrecorded(w) <==> p in Unrecorded(w')
    {
      assert p in w.ops && p in w'.ops && w.ops[p] == w'.ops[p] ==> (p in Unrecorded(w) <==> p in Unrecorded(w'));
    }
  }

  lemma JudgedRecordsNothing(w: World, p: HolderProcess, call: Call, saw: LeaseFile)
    ensures var w' := Judged(w, p, call, saw);
            p in w'.ops && w'.ops[p].Recording? ==> !Resolves(w'.ops[p].record)
  {
  }

  /** Only a reconciliation's unlink frees an orphaned record. */
  lemma OnlyClearingFrees(w: World, s: Step)
    requires Inv(w) && Enabled(w, s) && !s.CommitClear?
    ensures !(Abstraction(w).Orphaned? && Apply(w, s).file.Absent?)
  {
    hide Inv, Apply;
    if Abstraction(w).Orphaned? {
      DeadHoldersRecordStays(w, s);
    }
  }

  /** The four steps that move a decision: unlinked, appended, or kept from its append. */
  lemma UnrecordedMoves(w: World, s: Step)
    requires Inv(w) && Enabled(w, s)
    ensures s.CommitClear? ==>
              Unrecorded(Apply(w, s)) == Unrecorded(w) + {s.p} && s.p !in Unrecorded(w) && Apply(w, s).log == w.log
    ensures s.CommitRecord? || s.AppendFails? || s.Crash? ==> Unrecorded(Apply(w, s)) == Unrecorded(w) - {s.p}
    ensures s.AppendFails? || s.Crash? ==> Apply(w, s).log == w.log
  {
    if s.CommitClear? {
      assert OpInv(w, s.p);
    }
  }

  lemma StepConservesEvidence(w: World, s: Step)
    requires Inv(w) && Enabled(w, s)
    ensures ResolvingRecords(w.log) + |Unrecorded(w)| + FreedBy(w, s) + MissedBy(w, s)
         == ResolvingRecords(Apply(w, s).log) + |Unrecorded(Apply(w, s))| + LostBy(w, s)
    ensures w.log <= Apply(w, s).log
  {
    hide Inv, Judged;
    UnrecordedMoves(w, s);
    if s.CommitRecord? {
      assert (w.log + [w.ops[s.p].record])[..|w.log|] == w.log;
    }
    if !s.CommitClear? {
      OnlyClearingFrees(w, s);
    }
    if !TouchesRecording(s) {
      OtherStepsLeaveEvidence(w, s);
    }
  }

  lemma {:induction false} RunConservesEvidence(w: World, steps: seq<Step>)
    requires Inv(w) && IsRun(w, steps) && Careful(w, steps)
    ensures var end := After(w, steps);
            && ResolvingRecords(w.log) + |Unrecorded(w)| + Freed(w, steps) + Missed(w, steps)
                 == ResolvingRecords(end.log) + |Unrecorded(end)| + Lost(w, steps)
            && w.log <= end.log
    decreases steps
  {
    hide Inv, Apply, Enabled, FreedBy, MissedBy, LostBy, Unrecorded, ResolvingRecords;
    if steps != [] {
      StepConservesEvidence(w, steps[0]);
      StepKeepsInv(w, steps[0]);
      RunConservesEvidence(Apply(w, steps[0]), steps[1..]);
    }
  }

  /**
   From the start, the log holds one resolving record per freed workspace exactly when as many
   unlinks found nothing to free as are unrecorded: pending, or lost to a crash or a failed append.
   */
  lemma EveryFreeIsOnRecordExactlyWhen(steps: seq<Step>)
    requires IsRun(START, steps) && Careful(START, steps)
    ensures var end := After(START, steps);
            (ResolvingRecords(end.log) == Freed(START, steps))
            <==> (|Unrecorded(end)| + Lost(START, steps) == Missed(START, steps))
  {
    StartIsGood();
    RunConservesEvidence(START, steps);
    assert Unrecorded(START) == {};
  }

  lemma {:induction false} ApartRunsMissNothing(w: World, steps: seq<Step>)
    requires ApartInv(w) && IsRun(w, steps) && Apart(w, steps)
    ensures Missed(w, steps) == 0
    decreases steps
  {
    hide ApartInv, Apply, Enabled, NoOverlap, NoChangeUnderInspection;
    if steps != [] {
      if steps[0].CommitClear? {
        ClearsTheDeadHolder(w, steps[0]);
      }
      StepKeepsApart(w, steps[0]);
      ApartRunsMissNothing(Apply(w, steps[0]), steps[1..]);
    }
  }

  /**
   While reconciliations keep apart no unlink misses. Then the log never runs ahead, and it is
   complete exactly when no process is between its unlink and its append, and none was kept from it.
   */
  lemma ApartLogIsCompleteExactlyWhen(steps: seq<Step>)
    requires IsRun(START, steps) && Apart(START, steps)
    ensures var end := After(START, steps);
            && ResolvingRecords(end.log) <= Freed(START, steps)
            && ((ResolvingRecords(end.log) == Freed(START, steps))
                 <==> (Unrecorded(end) == {} && Lost(START, steps) == 0))
  {
    hide Apart;
    StartIsApart();
    StartIsGood();
    RunKeepsApart(START, steps);
    ApartRunsMissNothing(START, steps);
    RunConservesEvidence(START, steps);
    assert Unrecorded(START) == {};
  }
}
