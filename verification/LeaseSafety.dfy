/**
 What the runs of the lease protocol keep: exactly the careful ones refine an atomic lease machine
 and keep at most one live owner, and a dead holder's record stays until a reconciliation
 resolves it.
 */
module LeaseSafety {
  import opened Prelude
  import opened WorkspaceLease
  import opened WorkspaceReconcile
  import opened WorkspaceStore
  import opened LeaseProtocol

  // ------------------------------------------------------------------ the atomic machine

  datatype Atomic =
    | Vacant
    | Owned(lease: Lease)
    | Orphaned(lease: Lease)

  /** What an outside observer sees of a step. */
  datatype Label =
    | Silent
    | Granted(lease: Lease)
    | Resumed(a: ActivationId, attempt: AttemptId)
    | Denied(a: ActivationId)
    | Released(a: ActivationId)
    | HolderDied(p: HolderProcess)
    | Resolved

  /** The atomic machine; `None` where it has no such transition. */
  function AtomicStep(s: Atomic, l: Label): Option<Atomic> {
    match (s, l)
    case (_, Silent) => Some(s)
    case (Vacant, Granted(lease)) => Some(Owned(lease))
    case (Owned(held), Resumed(a, attempt)) =>
      if held.activationId == a then Some(Owned(held.(attemptId := attempt))) else None
    case (Owned(held), Denied(a)) => if held.activationId != a then Some(s) else None
    case (Orphaned(held), Denied(a)) => if held.activationId != a then Some(s) else None
    case (Owned(held), Released(a)) => if held.activationId == a then Some(Vacant) else None
    case (Owned(held), HolderDied(p)) => if held.holder == p then Some(Orphaned(held)) else None
    case (Orphaned(_), Resolved) => Some(Vacant)
    case _ => None
  }

  function AtomicRun(s: Atomic, labels: seq<Label>): Option<Atomic>
    decreases labels
  {
    if labels == [] then Some(s)
    else
      var next := AtomicStep(s, labels[0]);
      if next.None? then None else AtomicRun(next.value, labels[1..])
  }

  function Abstraction(w: World): Atomic {
    match w.file
    case Published(lease) => if w.Alive(lease.holder) then Owned(lease) else Orphaned(lease)
    case _ => Vacant
  }

  /**
   An acquire that finds another's record standing is denied at that look: `RefusedAtTheLook` shows
   that nothing later changes its answer.
   */
  function LabelOf(w: World, s: Step): Label
    requires Enabled(w, s)
  {
    match s
    case Begin(_, Acquiring(request, _)) =>
      if w.file.Published? && !Names(w.file, request.activationId) then Denied(request.activationId) else Silent
    case CommitLink(p) =>
      var lease := w.ops[p].lease;
      if AcquireEffect(Publish(lease), w.file).0.Done? then Granted(lease) else Denied(lease.activationId)
    case CommitRename(p) => Resumed(w.ops[p].lease.activationId, w.ops[p].lease.attemptId)
    case CommitUnlink(p) => Released(w.ops[p].activationId)
    case CommitClear(_) => if w.file.Published? then Resolved else Silent
    case Crash(p) =>
      if w.file.Published? && w.file.lease.holder == p then HolderDied(p) else Silent
    case _ => Silent
  }

  ghost function Labels(w: World, steps: seq<Step>): seq<Label>
    requires IsRun(w, steps)
    decreases steps
  {
    if steps == [] then [] else [LabelOf(w, steps[0])] + Labels(Apply(w, steps[0]), steps[1..])
  }

  /** An acquire is refused exactly if another's record stood at its look, or its own cannot be verified. */
  lemma RefusedAtTheLook(w: World, p: HolderProcess)
    requires Inv(w) && p in w.ops && w.ops[p].Probing? && w.ops[p].call.Acquiring?
    ensures var op := w.ops[p];
            Plan(w, p, op.call, op.saw).Refuse? <==>
            !Names(op.stood, op.call.request.activationId) || !w.probeWorks
  {
    assert OpInv(w, p);
    InspectVerdict(w.ops[p].saw, w.Sight());
  }

  lemma InspectionRefines(w: World, s: Step)
    requires Inv(w) && Enabled(w, s) && IsInspection(s)
    ensures AtomicStep(Abstraction(w), LabelOf(w, s)) == Some(Abstraction(Apply(w, s)))
  {
    hide Judged;
    if s.Begin? {
      JudgedLeavesTheWorld(w, s.p, s.call, Absent);
    } else if s.Judge? {
      JudgedLeavesTheWorld(w, s.p, w.ops[s.p].call, w.ops[s.p].saw);
    }
  }

  /** One step is one transition of the atomic machine, or none; a live record's clear is not one. */
  lemma StepRefines(w: World, s: Step)
    requires Inv(w) && Enabled(w, s)
    ensures AtomicStep(Abstraction(w), LabelOf(w, s))
         == if ClearsNoLiveRecord(w, s) then Some(Abstraction(Apply(w, s))) else None
  {
    if IsInspection(s) {
      InspectionRefines(w, s);
    } else if IsCommit(s) {
      CommitRefines(w, s);
    } else {
      WorldStepRefines(w, s);
    }
  }

  lemma CommitRefines(w: World, s: Step)
    requires Inv(w) && Enabled(w, s) && IsCommit(s)
    ensures AtomicStep(Abstraction(w), LabelOf(w, s))
         == if ClearsNoLiveRecord(w, s) then Some(Abstraction(Apply(w, s))) else None
  {
    hide Judged;
    assert OpInv(w, s.p);
  }

  lemma WorldStepRefines(w: World, s: Step)
    requires Inv(w) && Enabled(w, s) && !IsCommit(s) && !IsInspection(s)
    ensures AtomicStep(Abstraction(w), LabelOf(w, s)) == Some(Abstraction(Apply(w, s)))
  {
    hide Judged, OpInv;
  }

  /** A run is a run of the atomic machine exactly when it is careful, and then ends where the file says. */
  lemma {:induction false} RunRefinesExactlyWhenCareful(w: World, steps: seq<Step>)
    requires Inv(w) && IsRun(w, steps)
    ensures AtomicRun(Abstraction(w), Labels(w, steps))
         == if Careful(w, steps) then Some(Abstraction(After(w, steps))) else None
    decreases steps
  {
    hide Inv, Apply, Enabled, Abstraction, LabelOf, AtomicStep, ClearsNoLiveRecord;
    if steps != [] {
      var s := steps[0];
      StepRefines(w, s);
      assert Labels(w, steps)[1..] == Labels(Apply(w, s), steps[1..]);
      if ClearsNoLiveRecord(w, s) {
        StepKeepsInv(w, s);
        RunRefinesExactlyWhenCareful(Apply(w, s), steps[1..]);
      }
    }
  }

  /** From the start. */
  lemma ProtocolRefinesAtomicLease(steps: seq<Step>)
    requires IsRun(START, steps)
    ensures AtomicRun(Vacant, Labels(START, steps))
         == if Careful(START, steps) then Some(Abstraction(After(START, steps))) else None
  {
    StartIsGood();
    RunRefinesExactlyWhenCareful(START, steps);
  }

  // ------------------------------------------------------------------------------- safety

  /**
   The live activations that acquired and have not released are exactly the activation a live-held
   record names: so there is at most one, and it is on record.
   */
  ghost predicate Exclusive(w: World) {
    w.owners == match Abstraction(w)
                case Owned(lease) => {lease.activationId}
                case _ => {}
  }

  ghost predicate AlwaysExclusive(w: World, steps: seq<Step>)
    requires IsRun(w, steps)
    decreases steps
  {
    Exclusive(w) && (steps == [] || AlwaysExclusive(Apply(w, steps[0]), steps[1..]))
  }

  lemma InvIsExclusive(w: World)
    requires Inv(w)
    ensures Exclusive(w)
  {
    forall a | a in w.owners
      ensures Abstraction(w).Owned? && Abstraction(w).lease.activationId == a
    {
      assert w.minted[a] == w.file.lease.holder;
    }
  }

  /** A live record's clear leaves its owner without a record. */
  lemma ClearingALiveRecordStrandsItsOwner(w: World, s: Step)
    requires Inv(w) && Enabled(w, s) && !ClearsNoLiveRecord(w, s)
    ensures !Exclusive(Apply(w, s)) && Apply(w, s).owners == {w.file.lease.activationId}
  {
    InvIsExclusive(w);
  }

  /** The exact condition: a run keeps exclusion at every step exactly when no step clears a live record. */
  lemma {:induction false} ExclusionExactlyWhenCareful(w: World, steps: seq<Step>)
    requires Inv(w) && IsRun(w, steps)
    ensures AlwaysExclusive(w, steps) <==> Careful(w, steps)
    decreases steps
  {
    hide Inv, Apply, Enabled, Exclusive, ClearsNoLiveRecord;
    InvIsExclusive(w);
    if steps != [] {
      var s := steps[0];
      if ClearsNoLiveRecord(w, s) {
        StepKeepsInv(w, s);
        ExclusionExactlyWhenCareful(Apply(w, s), steps[1..]);
      } else {
        ClearingALiveRecordStrandsItsOwner(w, s);
      }
    }
  }

  /**
   And the harm is done at once: after such a clear any idle process with an activation of its own
   is granted the workspace beside the live owner.
   */
  lemma ClearingALiveRecordAdmitsASecondOwner(w: World, s: Step, q: HolderProcess, call: Call)
    requires Inv(w) && Enabled(w, s) && !ClearsNoLiveRecord(w, s) && w.probeWorks
    requires w.Idle(q) && call.Acquiring? && w.Minted(q, call.request.activationId)
    requires w.file.lease.activationId != call.request.activationId
    ensures var more := [s, Begin(q, call), CommitLink(q)];
            && IsRun(w, more)
            && After(w, more).owners == {w.file.lease.activationId, call.request.activationId}
            && After(w, more).Alive(w.file.lease.holder) && After(w, more).Alive(q)
  {
    var more := [s, Begin(q, call), CommitLink(q)];
    ClearingALiveRecordStrandsItsOwner(w, s);
    var w1 := Apply(w, s);
    var w2 := Apply(w1, more[1]);
    assert w2.ops[q].Linking?;
    var w3 := Apply(w2, more[2]);
    Chain(w, more, [w, w1, w2, w3]);
  }

  lemma OwnerIsTheOneOnRecord(steps: seq<Step>)
    requires IsRun(START, steps) && Careful(START, steps)
    ensures Exclusive(After(START, steps))
  {
    StartIsGood();
    RunKeepsInv(START, steps);
    InvIsExclusive(After(START, steps));
  }

  /** What a call sees that is not interleaved. */
  lemma VerdictInSight(w: World)
    ensures Inspect(w.file, w.Sight()).Held? <==> w.probeWorks && w.LiveRecord()
    ensures Inspect(w.file, w.Sight()).Held? ==> Inspect(w.file, w.Sight()).lease == w.file.lease
    ensures Inspect(w.file, w.Sight()).Free? <==> w.file.Absent?
  {
    InspectVerdict(w.file, w.Sight());
  }

  /** While the probe works, the parties admitted to mutate are the owner, or the coordinator if none. */
  lemma AdmissionFollowsOwnership(w: World, toolName: string, party: Party)
    requires Inv(w) && IsMutatingTool(toolName)
    ensures Admitted(party, toolName, w.file, w.Sight()) && party.Activation? ==> w.owners == {party.id}
    ensures Admitted(party, toolName, w.file, w.Sight()) && party.Coordinator? ==> w.owners == {} && w.file.Absent?
    ensures w.probeWorks && party.Activation? && party.id in w.owners ==>
              Admitted(party, toolName, w.file, w.Sight())
  {
    hide Inv, Inspect, IsMutatingTool;
    InvIsExclusive(w);
    VerdictInSight(w);
    assert Admitted(party, toolName, w.file, w.Sight()) ==
      match party
      case Coordinator => Inspect(w.file, w.Sight()).Free?
      case Activation(id) =>
        Inspect(w.file, w.Sight()).Held? && Inspect(w.file, w.Sight()).lease.activationId == id;
  }

  /** The states of the protocol's careful runs. */
  ghost predicate Reachable(w: World) {
    exists steps :: IsRun(START, steps) && Careful(START, steps) && After(START, steps) == w
  }

  lemma ReachableIsGood(w: World)
    requires Reachable(w)
    ensures Inv(w)
  {
    var steps :| IsRun(START, steps) && Careful(START, steps) && After(START, steps) == w;
    StartIsGood();
    RunKeepsInv(START, steps);
  }

  // ------------------------------------------------------------- admission across its two reads

  /** A step of this process: its own call, or its death. */
  predicate IsStepOf(s: Step, p: HolderProcess) {
    match s
    case ProbeLost => false
    case ProbeRestored => false
    case Spawn(_) => false
    case _ => s.p == p
  }

  lemma DeadStaysDead(w: World, s: Step, p: HolderProcess)
    requires Enabled(w, s) && p in w.used && !w.Alive(p)
    ensures p in Apply(w, s).used && !Apply(w, s).Alive(p)
  {
    hide Judged;
    if s.Begin? {
      JudgedLeavesTheWorld(w, s.p, s.call, Absent);
    } else if s.Judge? {
      JudgedLeavesTheWorld(w, s.p, w.ops[s.p].call, w.ops[s.p].saw);
    }
  }

  /** While its holder lives and takes no step, a record stays as it is. */
  lemma UntouchedWhileHolderRests(w: World, s: Step)
    requires Inv(w) && Enabled(w, s) && ClearsNoLiveRecord(w, s)
    requires w.LiveRecord() && !IsStepOf(s, w.file.lease.holder)
    ensures Apply(w, s).file == w.file && Apply(w, s).LiveRecord()
  {
    hide Judged;
    if s.Begin? {
      JudgedLeavesTheWorld(w, s.p, s.call, Absent);
    } else if s.Judge? {
      JudgedLeavesTheWorld(w, s.p, w.ops[s.p].call, w.ops[s.p].saw);
    }
    assert IsCommit(s) ==> OpInv(w, s.p);
  }

  lemma {:induction false} RecordOutlivesTheRun(w: World, steps: seq<Step>)
    requires Inv(w) && IsRun(w, steps) && Careful(w, steps) && w.file.Published?
    requires forall s :: s in steps ==> !IsStepOf(s, w.file.lease.holder)
    ensures After(w, steps).Alive(w.file.lease.holder) ==> After(w, steps).file == w.file
    decreases steps
  {
    hide Inv, Apply, Enabled, IsStepOf;
    if steps != [] {
      var s := steps[0];
      assert s in steps;
      StepKeepsInv(w, s);
      if w.LiveRecord() {
        UntouchedWhileHolderRests(w, s);
        RecordOutlivesTheRun(Apply(w, s), steps[1..]);
      } else {
        HolderWasUsed(w);
        DeadForTheRest(w, steps, w.file.lease.holder);
      }
    }
  }

  lemma HolderWasUsed(w: World)
    requires Inv(w) && w.file.Published?
    ensures w.file.lease.holder in w.used
  {
  }

  lemma {:induction false} DeadForTheRest(w: World, steps: seq<Step>, p: HolderProcess)
    requires IsRun(w, steps) && p in w.used && !w.Alive(p)
    ensures !After(w, steps).Alive(p)
    decreases steps
  {
    hide Apply, Enabled;
    if steps != [] {
      DeadStaysDead(w, steps[0], p);
      DeadForTheRest(Apply(w, steps[0]), steps[1..], p);
    }
  }

  /**
   An admission reads the record and then the probe. However other processes step in between, an
   activation it admits owns the workspace, alone, when the verdict is given.
   */
  lemma AdmissionOutlivesItsRead(w: World, between: seq<Step>, toolName: string, a: ActivationId)
    requires Inv(w) && IsRun(w, between) && Careful(w, between) && IsMutatingTool(toolName)
    requires a in w.minted && forall s :: s in between ==> !IsStepOf(s, w.minted[a])
    ensures AdmitToolCall(toolName, w.file, After(w, between).Sight(), a) ==> After(w, between).owners == {a}
  {
    var w' := After(w, between);
    if AdmitToolCall(toolName, w.file, w'.Sight(), a) {
      InspectVerdict(w.file, w'.Sight());
      assert w.file.lease.holder == w.minted[a];
      RecordOutlivesTheRun(w, between);
      RunKeepsInv(w, between);
      InvIsExclusive(w');
    }
  }

  // ---------------------------------------------------------------------------- absorption

  /** A dead holder's record, and no reconciliation between its decision and its unlink. */
  ghost predicate Stranded(w: World, lease: Lease) {
    && w.file == Published(lease)
    && lease.holder in w.used
    && !w.Alive(lease.holder)
    && (forall p :: p in w.ops ==> !w.ops[p].Clearing?)
  }

  /** The step decides to free the workspace. */
  predicate DecidesToClear(w: World, s: Step)
    requires Enabled(w, s)
  {
    IsInspection(s) && s.p in Apply(w, s).ops && Apply(w, s).ops[s.p].Clearing?
  }

  ghost predicate NoResolution(w: World, steps: seq<Step>)
    requires IsRun(w, steps)
    decreases steps
  {
    steps == [] || (!DecidesToClear(w, steps[0]) && NoResolution(Apply(w, steps[0]), steps[1..]))
  }

  ghost predicate ProbeStaysLost(steps: seq<Step>) {
    forall s :: s in steps ==> !s.ProbeRestored?
  }

  lemma StrandedStaysStranded(w: World, s: Step, lease: Lease)
    requires Inv(w) && Stranded(w, lease) && Enabled(w, s) && !DecidesToClear(w, s)
    ensures Inv(Apply(w, s)) && Stranded(Apply(w, s), lease)
  {
    hide Inv, Apply, Judged;
    StepKeepsInv(w, s);
    DeadStaysDead(w, s, lease.holder);
    DeadHoldersRecordStays(w, s);
    NoneStartsClearing(w, s);
  }

  /** Without a reconciliation's unlink a dead holder's record stays as it is. */
  lemma DeadHoldersRecordStays(w: World, s: Step)
    requires Inv(w) && Enabled(w, s) && !s.CommitClear? && w.file.Published? && !w.LiveRecord()
    ensures Apply(w, s).file == w.file
  {
    hide Judged;
    if s.Begin? {
      JudgedLeavesTheWorld(w, s.p, s.call, Absent);
    } else if s.Judge? {
      JudgedLeavesTheWorld(w, s.p, w.ops[s.p].call, w.ops[s.p].saw);
    }
    assert IsCommit(s) ==> OpInv(w, s.p);
  }

  lemma NoneStartsClearing(w: World, s: Step)
    requires Enabled(w, s) && !DecidesToClear(w, s)
    requires forall p :: p in w.ops ==> !w.ops[p].Clearing?
    ensures forall p :: p in Apply(w, s).ops ==> !Apply(w, s).ops[p].Clearing?
  {
    hide Judged;
    if s.Begin? {
      JudgedLeavesTheWorld(w, s.p, s.call, Absent);
    } else if s.Judge? {
      JudgedLeavesTheWorld(w, s.p, w.ops[s.p].call, w.ops[s.p].saw);
    }
  }

  /**
   `uncertain` is absorbing: whatever acquires, releases, resumes, crashes and spawns follow, the
   record stays byte for byte, nobody may mutate, and every acquire and release is refused.
   */
  lemma {:induction false} UncertainIsAbsorbing(
      w: World, steps: seq<Step>, lease: Lease, party: Party, toolName: string, request: AcquireRequest, pid: nat, now: int)
    requires Inv(w) && Stranded(w, lease) && IsRun(w, steps) && NoResolution(w, steps)
    ensures var end := After(w, steps);
            && Inv(end) && Stranded(end, lease)
            && Inspect(end.file, end.Sight()).Uncertain?
            && (IsMutatingTool(toolName) ==> !Admitted(party, toolName, end.file, end.Sight()))
            && PlanAcquire(end.file, end.Sight(), request, pid, now) == Refuse(LeaseUncertain)
            && PlanRelease(end.file, end.Sight(), request.activationId) == RefuseRelease(LeaseUncertain)
    decreases steps
  {
    if steps == [] {
      InspectVerdict(w.file, w.Sight());
      UncertainRefusesEverything(w.file, w.Sight(), party, toolName, request, pid, now);
    } else {
      hide Inv, Apply, Enabled, Stranded;
      StrandedStaysStranded(w, steps[0], lease);
      UncertainIsAbsorbing(Apply(w, steps[0]), steps[1..], lease, party, toolName, request, pid, now);
    }
  }

  /** No call past its look can still replace or remove the record, or has missed it. */
  ghost predicate NoWriteInFlight(w: World) {
    forall p :: p in w.ops ==>
      || w.ops[p].Looking? || (w.ops[p].Probing? && w.ops[p].saw.Published?)
      || w.ops[p].Linking? || w.ops[p].Recording?
  }

  /** Unseen, a read record is uncertain, and no call may act on it. */
  lemma UnverifiableJudgesNothing(w: World, p: HolderProcess, call: Call, saw: LeaseFile)
    requires saw.Published? && !w.probeWorks
    ensures var w' := Judged(w, p, call, saw);
            w'.file == w.file && w'.probeWorks == w.probeWorks && (p in w'.ops ==> w'.ops[p].Recording?)
  {
    if call.Reconciling? {
      ResolvesExactlyWhen(call.proposal, Inspect(saw, w.Sight()), call.now);
    }
  }

  lemma UnverifiableStepLeavesRecord(w: World, s: Step)
    requires Inv(w) && w.file.Published? && !w.probeWorks && NoWriteInFlight(w)
    requires Enabled(w, s) && !s.ProbeRestored?
    ensures var w' := Apply(w, s);
            w'.file == w.file && !w'.probeWorks && NoWriteInFlight(w')
  {
    hide Judged;
    if s.Read? {
      assert OpInv(w, s.p);
    } else if s.Judge? {
      var call, saw := w.ops[s.p].call, w.ops[s.p].saw;
      assert saw.Published?;
      UnverifiableJudgesNothing(w, s.p, call, saw);
      JudgedLeavesTheWorld(w, s.p, call, saw);
      var w' := Apply(w, s);
      forall q | q in w'.ops
        ensures w'.ops[q].Looking? || (w'.ops[q].Probing? && w'.ops[q].saw.Published?)
             || w'.ops[q].Linking? || w'.ops[q].Recording?
      {
        if q != s.p {
          assert w'.ops[q] == w.ops[q];
        }
      }
    }
  }

  /**
   On a host that cannot see processes a published record is permanent: no release, resume or
   reconciliation of any kind removes or changes it, whether its holder lives or not.
   */
  lemma {:induction false} UnverifiableRecordIsPermanent(w: World, steps: seq<Step>)
    requires Inv(w) && w.file.Published? && !w.probeWorks && NoWriteInFlight(w)
    requires IsRun(w, steps) && ProbeStaysLost(steps)
    ensures After(w, steps).file == w.file
    ensures Inspect(w.file, After(w, steps).Sight()) == Uncertain(LivenessUnverifiable, Some(w.file.lease))
    decreases steps
  {
    if steps != [] {
      hide Inv, Apply, Enabled, NoWriteInFlight;
      var s := steps[0];
      assert s in steps;
      UnverifiableStepLeavesRecord(w, s);
      NoWriteIsCareful(w, s);
      StepKeepsInv(w, s);
      UnverifiableRecordIsPermanent(Apply(w, s), steps[1..]);
    }
  }

  lemma NoWriteIsCareful(w: World, s: Step)
    requires NoWriteInFlight(w) && Enabled(w, s)
    ensures ClearsNoLiveRecord(w, s)
  {
  }
}
