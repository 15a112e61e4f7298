/**
 Calls of many processes on one workspace's lease file, as a transition system.

 Every access to the file is a step of its own: a call looks whether a record stands, reads it,
 judges it with the probe, and then links, renames or unlinks. A reconciliation that unlinked has
 one more step, its append to the log. Steps of other processes may come between any two.

 What the steps assume of the world, as their guards say:
  - a (pid, start ticks) pair never recurs (`Spawn`);
  - only the process that minted an activation id calls with it (`Mint`, `Begin`);
  - calls inside one process are synchronous, so a process has one call in flight (`Idle`);
  - a probe that answers tells the truth of one moment (`Judge`), and it may stop answering
    (`ProbeLost`);
  - all parties use one lease path.
 */
module LeaseProtocol {
  import opened Prelude
  import opened WorkspaceLease
  import opened WorkspaceReconcile
  import opened WorkspaceStore

  datatype Call =
    | Acquiring(request: AcquireRequest, now: int)
    | Releasing(activationId: ActivationId)
    | Reconciling(proposal: ReconciliationRequest, now: int)

  /** The activation a call is made for; a reconciliation is made for none. */
  function OwnOf(call: Call): Option<ActivationId> {
    match call
    case Acquiring(request, _) => Some(request.activationId)
    case Releasing(a) => Some(a)
    case Reconciling(_, _) => None
  }

  /**
   A call in flight. `Looking` found a record standing, `Probing` has read it; `stood` is what
   stood at the look, and is history: no step reads it.
   */
  datatype Op =
    | Looking(call: Call, stood: LeaseFile)
    | Probing(call: Call, stood: LeaseFile, saw: LeaseFile)
    | Linking(lease: Lease)
    | Renaming(lease: Lease)
    | Unlinking(activationId: ActivationId)
    | Clearing(record: ReconciliationRecord)
    | Recording(record: ReconciliationRecord)

  /**
   `owners` are the live activations whose acquire has returned and that have not released;
   it is history, and no step reads it.
   */
  datatype World = World(
    file: LeaseFile,
    probeWorks: bool,
    running: map<nat, nat>,
    used: set<HolderProcess>,
    minted: map<ActivationId, HolderProcess>,
    ops: map<HolderProcess, Op>,
    owners: set<ActivationId>,
    log: seq<ReconciliationRecord>)
  {
    predicate Alive(p: HolderProcess) {
      p.pid in running && running[p.pid] == p.startTicks
    }

    predicate Idle(p: HolderProcess) {
      Alive(p) && p !in ops
    }

    predicate Minted(p: HolderProcess, a: ActivationId) {
      a in minted && minted[a] == p
    }

    function Sight(): Probe {
      Probe(probeWorks, running)
    }

    /** The record on file names a live holder. */
    predicate LiveRecord() {
      file.Published? && Alive(file.lease.holder)
    }
  }

  const START := World(Absent, true, map[], {}, map[], map[], {}, [])

  datatype Step =
    | Spawn(p: HolderProcess)
    | Crash(p: HolderProcess)
    | Mint(p: HolderProcess, a: ActivationId)
    | ProbeLost
    | ProbeRestored
    | Begin(p: HolderProcess, call: Call)
    | Read(p: HolderProcess)
    | Judge(p: HolderProcess)
    | CommitLink(p: HolderProcess)
    | CommitRename(p: HolderProcess)
    | CommitUnlink(p: HolderProcess)
    | CommitClear(p: HolderProcess)
    | CommitRecord(p: HolderProcess)
    | AppendFails(p: HolderProcess)

  predicate Enabled(w: World, s: Step) {
    match s
    case Spawn(p) => p.pid !in w.running && p !in w.used
    case Crash(p) => w.Alive(p)
    case Mint(p, a) => w.Alive(p) && a !in w.minted
    case ProbeLost => true
    case ProbeRestored => true
    case Begin(p, call) => w.Idle(p) && (OwnOf(call).Some? ==> w.Minted(p, OwnOf(call).value))
    case Read(p) => p in w.ops && w.ops[p].Looking?
    case Judge(p) => p in w.ops && w.ops[p].Probing?
    case CommitLink(p) => p in w.ops && w.ops[p].Linking?
    case CommitRename(p) => p in w.ops && w.ops[p].Renaming?
    case CommitUnlink(p) => p in w.ops && w.ops[p].Unlinking?
    case CommitClear(p) => p in w.ops && w.ops[p].Clearing?
    case CommitRecord(p) => p in w.ops && w.ops[p].Recording?
    case AppendFails(p) => p in w.ops && w.ops[p].Recording?
  }

  function Plan(w: World, p: HolderProcess, call: Call, saw: LeaseFile): AcquirePlan
    requires call.Acquiring?
  {
    PlanAcquire(saw, w.Sight(), call.request, p.pid, call.now)
  }

  function Verdict(w: World, call: Call, saw: LeaseFile): ReconciliationRecord
    requires call.Reconciling?
  {
    Decide(call.proposal, Inspect(saw, w.Sight()), call.now)
  }

  /** How a call goes on once it has judged what it saw. */
  function Judged(w: World, p: HolderProcess, call: Call, saw: LeaseFile): World {
    match call
    case Acquiring(_, _) =>
      (match Plan(w, p, call, saw)
       case Refuse(_) => w.(ops := w.ops - {p})
       case Replace(lease) => w.(ops := w.ops[p := Renaming(lease)])
       case Publish(lease) => w.(ops := w.ops[p := Linking(lease)]))
    case Releasing(a) =>
      (match PlanRelease(saw, w.Sight(), a)
       case Nothing => w.(ops := w.ops - {p}, owners := w.owners - {a})
       case RefuseRelease(_) => w.(ops := w.ops - {p})
       case Remove => w.(ops := w.ops[p := Unlinking(a)]))
    case Reconciling(_, _) =>
      var record := Verdict(w, call, saw);
      w.(ops := w.ops[p := if Resolves(record) then Clearing(record) else Recording(record)])
  }

  function Apply(w: World, s: Step): World
    requires Enabled(w, s)
  {
    match s
    case Spawn(p) => w.(running := w.running[p.pid := p.startTicks], used := w.used + {p})
    case Crash(p) =>
      w.(running := w.running - {p.pid},
         ops := w.ops - {p},
         owners := set a | a in w.owners && !w.Minted(p, a))
    case Mint(p, a) => w.(minted := w.minted[a := p])
    case ProbeLost => w.(probeWorks := false)
    case ProbeRestored => w.(probeWorks := true)
    case Begin(p, call) =>
      if w.file.Absent? then Judged(w, p, call, Absent)
      else w.(ops := w.ops[p := Looking(call, w.file)])
    case Read(p) =>
      var op := w.ops[p];
      w.(ops := w.ops[p := Probing(op.call, op.stood, Seen(op.stood, w.file))])
    case Judge(p) => Judged(w, p, w.ops[p].call, w.ops[p].saw)
    case CommitLink(p) =>
      var lease := w.ops[p].lease;
      var (result, file) := AcquireEffect(Publish(lease), w.file);
      w.(file := file, ops := w.ops - {p},
         owners := if result.Done? then w.owners + {lease.activationId} else w.owners)
    case CommitRename(p) =>
      var lease := w.ops[p].lease;
      var (_, file) := AcquireEffect(Replace(lease), w.file);
      w.(file := file, ops := w.ops - {p}, owners := w.owners + {lease.activationId})
    case CommitUnlink(p) =>
      var (_, file) := ReleaseEffect(Remove, w.file);
      w.(file := file, ops := w.ops - {p}, owners := w.owners - {w.ops[p].activationId})
    case CommitClear(p) => w.(file := Absent, ops := w.ops[p := Recording(w.ops[p].record)])
    case CommitRecord(p) => w.(ops := w.ops - {p}, log := w.log + [w.ops[p].record])
    case AppendFails(p) => w.(ops := w.ops - {p})
  }

  ghost predicate IsRun(w: World, steps: seq<Step>)
    decreases steps
  {
    steps == [] || (Enabled(w, steps[0]) && IsRun(Apply(w, steps[0]), steps[1..]))
  }

  ghost function After(w: World, steps: seq<Step>): World
    requires IsRun(w, steps)
    decreases steps
  {
    if steps == [] then w else After(Apply(w, steps[0]), steps[1..])
  }

  /**
   The guard the code lacks: an unlink by a reconciliation never removes a live holder's record.
   `LeaseSafety` shows that exclusion holds of a run exactly when all its steps meet it.
   */
  predicate ClearsNoLiveRecord(w: World, s: Step) {
    s.CommitClear? ==> !w.LiveRecord()
  }

  ghost predicate Careful(w: World, steps: seq<Step>)
    requires IsRun(w, steps)
    decreases steps
  {
    steps == [] || (ClearsNoLiveRecord(w, steps[0]) && Careful(Apply(w, steps[0]), steps[1..]))
  }

  lemma {:induction false} AppendRun(w: World, first: seq<Step>, second: seq<Step>)
    requires IsRun(w, first) && IsRun(After(w, first), second)
    ensures IsRun(w, first + second) && After(w, first + second) == After(After(w, first), second)
    ensures Careful(w, first + second) <==> Careful(w, first) && Careful(After(w, first), second)
    decreases first
  {
    if first == [] {
      assert first + second == second;
    } else {
      AppendRun(Apply(w, first[0]), first[1..], second);
      assert (first + second)[1..] == first[1..] + second;
    }
  }

  /** A list of worlds, each the one before after its step, is a run. */
  lemma {:induction false} Chain(w: World, steps: seq<Step>, worlds: seq<World>)
    requires |worlds| == |steps| + 1 && worlds[0] == w
    requires forall i :: 0 <= i < |steps| ==>
               Enabled(worlds[i], steps[i]) && worlds[i + 1] == Apply(worlds[i], steps[i])
    ensures IsRun(w, steps) && After(w, steps) == worlds[|steps|]
    decreases steps
  {
    hide Apply, Enabled;
    if steps != [] {
      Chain(Apply(w, steps[0]), steps[1..], worlds[1..]);
    }
  }

  // ---------------------------------------------------------------------------- invariant

  predicate Names(file: LeaseFile, a: ActivationId) {
    file.Published? && file.lease.activationId == a
  }

  ghost predicate WorldInv(w: World) {
    && !w.file.Unreadable?
    && (forall p :: p in w.ops ==> w.Alive(p))
    && (forall pid :: pid in w.running ==> HolderProcess(pid, w.running[pid]) in w.used)
    && (forall a :: a in w.minted ==> w.minted[a] in w.used)
  }

  ghost predicate FileInv(w: World) {
    && (w.file.Published? ==> w.Minted(w.file.lease.holder, w.file.lease.activationId))
    && (w.LiveRecord() ==> w.file.lease.activationId in w.owners)
    && (forall a :: a in w.owners ==> Names(w.file, a) && a in w.minted && w.Alive(w.minted[a]))
  }

  /** A call before its judgement: its own record stands unchanged since the look, or never stood. */
  ghost predicate CallInv(w: World, p: HolderProcess, call: Call, stood: LeaseFile) {
    && stood.Published? && w.Minted(stood.lease.holder, stood.lease.activationId)
    && (OwnOf(call).Some? ==>
          && w.Minted(p, OwnOf(call).value)
          && (if Names(stood, OwnOf(call).value) then w.file == stood else !Names(w.file, OwnOf(call).value)))
  }

  ghost predicate OpInv(w: World, p: HolderProcess)
    requires p in w.ops
  {
    match w.ops[p]
    case Looking(call, stood) => CallInv(w, p, call, stood)
    case Probing(call, stood, saw) =>
      && CallInv(w, p, call, stood)
      && !saw.Absent?
      && (saw.Published? ==> w.Minted(saw.lease.holder, saw.lease.activationId))
      && (OwnOf(call).Some? ==>
            if Names(stood, OwnOf(call).value) then saw == stood else !Names(saw, OwnOf(call).value))
    case Linking(lease) =>
      lease.holder == p && w.Minted(p, lease.activationId) && !Names(w.file, lease.activationId)
    case Renaming(lease) =>
      && lease.holder == p && w.Minted(p, lease.activationId)
      && w.file.Published? && lease == w.file.lease.(attemptId := lease.attemptId)
    case Unlinking(a) => w.Minted(p, a) && Names(w.file, a)
    case Clearing(record) =>
      && Resolves(record) && record.observed.Uncertain?
      && (record.observed.found.Some? ==>
            var holder := record.observed.found.value.holder; holder in w.used && !w.Alive(holder))
    case Recording(_) => true
  }

  ghost predicate Inv(w: World) {
    && WorldInv(w)
    && FileInv(w)
    && forall p :: p in w.ops ==> OpInv(w, p)
  }

  predicate IsCommit(s: Step) {
    s.CommitLink? || s.CommitRename? || s.CommitUnlink? || s.CommitClear? || s.CommitRecord? || s.AppendFails?
  }

  predicate IsInspection(s: Step) {
    s.Begin? || s.Read? || s.Judge?
  }

  /** A reconciliation that goes on to unlink read a holder that is gone, or read no holder. */
  lemma ClearingSawNoLiveHolder(w: World, call: Call, saw: LeaseFile)
    requires call.Reconciling? && Resolves(Verdict(w, call, saw))
    ensures var record := Verdict(w, call, saw);
            && record.observed == Inspect(saw, w.Sight()) && record.observed.Uncertain?
            && (record.observed.found.Some? <==> saw.Published?)
            && (saw.Published? ==> w.probeWorks && !w.Alive(saw.lease.holder) && record.observed.found == Some(saw.lease))
  {
    ResolvesExactlyWhen(call.proposal, Inspect(saw, w.Sight()), call.now);
  }

  /** Judging moves no record: it only ends the call or says what it will write. */
  lemma JudgedLeavesTheWorld(w: World, p: HolderProcess, call: Call, saw: LeaseFile)
    ensures var w' := Judged(w, p, call, saw);
            && w' == w.(ops := w'.ops, owners := w'.owners)
            && (w'.owners == w.owners || (call.Releasing? && saw.Absent? && w'.owners == w.owners - {call.activationId}))
            && (forall q :: q != p ==> (q in w'.ops <==> q in w.ops))
            && (forall q :: q != p && q in w.ops ==> w'.ops[q] == w.ops[q])
  {
  }

  lemma InspectionKeepsWorldInv(w: World, s: Step)
    requires Inv(w) && Enabled(w, s) && IsInspection(s)
    ensures WorldInv(Apply(w, s))
  {
    hide Judged, OpInv, FileInv;
    if s.Begin? {
      JudgedLeavesTheWorld(w, s.p, s.call, Absent);
    } else if s.Judge? {
      JudgedLeavesTheWorld(w, s.p, w.ops[s.p].call, w.ops[s.p].saw);
    }
  }

  lemma OtherStepKeepsWorldInv(w: World, s: Step)
    requires Inv(w) && Enabled(w, s) && !IsInspection(s)
    ensures WorldInv(Apply(w, s))
  {
    hide Judged, OpInv, FileInv;
  }

  lemma CommitKeepsFileInv(w: World, s: Step)
    requires Inv(w) && Enabled(w, s) && IsCommit(s) && ClearsNoLiveRecord(w, s)
    ensures FileInv(Apply(w, s))
  {
    assert OpInv(w, s.p);
  }

  lemma InspectionKeepsFileInv(w: World, s: Step)
    requires Inv(w) && Enabled(w, s) && IsInspection(s)
    ensures FileInv(Apply(w, s))
  {
    hide Judged;
    if s.Begin? {
      JudgedLeavesTheWorld(w, s.p, s.call, Absent);
    } else if s.Judge? {
      assert OpInv(w, s.p);
      JudgedLeavesTheWorld(w, s.p, w.ops[s.p].call, w.ops[s.p].saw);
    }
  }

  lemma OtherStepKeepsFileInv(w: World, s: Step)
    requires Inv(w) && Enabled(w, s) && !IsCommit(s) && !IsInspection(s)
    ensures FileInv(Apply(w, s))
  {
  }

  /** What the judging call itself becomes. */
  lemma JudgedKeepsOwnOp(w: World, p: HolderProcess, call: Call, saw: LeaseFile)
    requires Inv(w) && w.Alive(p) && p in Judged(w, p, call, saw).ops
    requires OwnOf(call).Some? ==> w.Minted(p, OwnOf(call).value)
    requires saw.Published? ==> w.Minted(saw.lease.holder, saw.lease.activationId)
    requires OwnOf(call).Some? && Names(saw, OwnOf(call).value) ==> w.file == saw
    requires OwnOf(call).Some? && saw.Absent? ==> w.file.Absent?
    ensures OpInv(Judged(w, p, call, saw), p)
  {
    InspectVerdict(saw, w.Sight());
    if call.Reconciling? && Resolves(Verdict(w, call, saw)) {
      ClearingSawNoLiveHolder(w, call, saw);
    }
  }

  lemma InspectionKeepsOpInv(w: World, s: Step, q: HolderProcess)
    requires Inv(w) && Enabled(w, s)
    requires IsInspection(s) && q in Apply(w, s).ops
    ensures OpInv(Apply(w, s), q)
  {
    hide Judged, OpInv;
    assert q in w.ops ==> OpInv(w, q);
    if s.Begin? {
      BeginKeepsOpInv(w, s, q);
    } else if s.Read? {
      ReadKeepsOpInv(w, s, q);
    } else {
      JudgeKeepsOpInv(w, s, q);
    }
  }

  /** Another process's call, while neither the file nor who lives changes. */
  lemma OthersAreLeftAlone(w: World, w': World, q: HolderProcess)
    requires q in w.ops && OpInv(w, q)
    requires w'.file == w.file && w'.running == w.running && w'.used == w.used && w'.minted == w.minted
    requires q in w'.ops && w'.ops[q] == w.ops[q]
    ensures OpInv(w', q)
  {
  }

  lemma BeginKeepsOpInv(w: World, s: Step, q: HolderProcess)
    requires Inv(w) && Enabled(w, s) && s.Begin? && q in Apply(w, s).ops
    ensures OpInv(Apply(w, s), q)
  {
    hide Judged;
    if w.file.Absent? {
      JudgedLeavesTheWorld(w, s.p, s.call, Absent);
      if q == s.p {
        JudgedKeepsOwnOp(w, s.p, s.call, Absent);
      }
    }
    if q != s.p {
      OthersAreLeftAlone(w, Apply(w, s), q);
    }
  }

  lemma ReadKeepsOpInv(w: World, s: Step, q: HolderProcess)
    requires Inv(w) && Enabled(w, s) && s.Read? && q in Apply(w, s).ops
    ensures OpInv(Apply(w, s), q)
  {
    assert OpInv(w, s.p) && OpInv(w, q);
  }

  lemma JudgeKeepsOpInv(w: World, s: Step, q: HolderProcess)
    requires Inv(w) && Enabled(w, s) && s.Judge? && q in Apply(w, s).ops
    ensures OpInv(Apply(w, s), q)
  {
    hide Judged;
    var call, saw := w.ops[s.p].call, w.ops[s.p].saw;
    assert OpInv(w, s.p);
    JudgedLeavesTheWorld(w, s.p, call, saw);
    if q == s.p {
      JudgedKeepsOwnOp(w, s.p, call, saw);
    } else {
      OthersAreLeftAlone(w, Apply(w, s), q);
    }
  }

  lemma CommitKeepsOpInv(w: World, s: Step, q: HolderProcess)
    requires Inv(w) && Enabled(w, s) && ClearsNoLiveRecord(w, s)
    requires IsCommit(s) && q in Apply(w, s).ops
    ensures OpInv(Apply(w, s), q)
  {
    hide OpInv;
    if s.CommitLink? || s.CommitRename? {
      PublishKeepsOpInv(w, s, q);
    } else if s.CommitUnlink? {
      UnlinkKeepsOpInv(w, s, q);
    } else if s.CommitClear? {
      ClearKeepsOpInv(w, s, q);
    } else {
      OthersAreLeftAlone(w, Apply(w, s), q);
    }
  }

  lemma PublishKeepsOpInv(w: World, s: Step, q: HolderProcess)
    requires Inv(w) && Enabled(w, s) && (s.CommitLink? || s.CommitRename?) && q in Apply(w, s).ops
    ensures OpInv(Apply(w, s), q)
  {
    assert OpInv(w, s.p) && OpInv(w, q);
  }

  lemma UnlinkKeepsOpInv(w: World, s: Step, q: HolderProcess)
    requires Inv(w) && Enabled(w, s) && s.CommitUnlink? && q in Apply(w, s).ops
    ensures OpInv(Apply(w, s), q)
  {
    assert OpInv(w, s.p) && OpInv(w, q);
  }

  lemma ClearKeepsOpInv(w: World, s: Step, q: HolderProcess)
    requires Inv(w) && Enabled(w, s) && s.CommitClear? && !w.LiveRecord() && q in Apply(w, s).ops
    ensures OpInv(Apply(w, s), q)
  {
    assert OpInv(w, s.p) && OpInv(w, q);
  }

  lemma OtherStepKeepsOpInv(w: World, s: Step, q: HolderProcess)
    requires Inv(w) && Enabled(w, s)
    requires !IsInspection(s) && !IsCommit(s) && q in Apply(w, s).ops
    ensures OpInv(Apply(w, s), q)
  {
    assert OpInv(w, q);
  }

  lemma StepKeepsInv(w: World, s: Step)
    requires Inv(w) && Enabled(w, s) && ClearsNoLiveRecord(w, s)
    ensures Inv(Apply(w, s))
  {
    hide OpInv, FileInv, WorldInv, Judged;
    if IsInspection(s) {
      InspectionKeepsWorldInv(w, s);
      InspectionKeepsFileInv(w, s);
    } else {
      OtherStepKeepsWorldInv(w, s);
      if IsCommit(s) {
        CommitKeepsFileInv(w, s);
      } else {
        OtherStepKeepsFileInv(w, s);
      }
    }
    forall q | q in Apply(w, s).ops
      ensures OpInv(Apply(w, s), q)
    {
      if IsInspection(s) {
        InspectionKeepsOpInv(w, s, q);
      } else if IsCommit(s) {
        CommitKeepsOpInv(w, s, q);
      } else {
        OtherStepKeepsOpInv(w, s, q);
      }
    }
  }

  lemma {:induction false} RunKeepsInv(w: World, steps: seq<Step>)
    requires Inv(w) && IsRun(w, steps) && Careful(w, steps)
    ensures Inv(After(w, steps))
    decreases steps
  {
    hide Inv, Apply, Enabled;
    if steps != [] {
      StepKeepsInv(w, steps[0]);
      RunKeepsInv(Apply(w, steps[0]), steps[1..]);
    }
  }

  lemma StartIsGood()
    ensures Inv(START)
  {
  }
}
