/**
 The workspace writer lease: one record per mutable workspace, a liveness verdict that never
 trusts the record's author, and the admission verdicts built on it.

 The verdicts only read, so they are functions. What `acquire`, `release` and `reconcile` do to
 the record file is in `WorkspaceStore`; how calls of different processes interleave is in
 `LeaseProtocol`.
 */
module WorkspaceLease {
  import opened Prelude
  import opened Text

  type ActivationId = string
  type AttemptId = string

  /** A process as the record names it: start ticks tell a reused PID from the holder. */
  datatype HolderProcess = HolderProcess(pid: nat, startTicks: nat)

  datatype Lease = Lease(
    worktreePath: string,
    activationId: ActivationId,
    attemptId: AttemptId,
    specialist: Option<string>,
    holder: HolderProcess,
    acquiredAtMs: int)

  /** What stands at the lease path. `Unreadable` is a file that does not parse to a holder. */
  datatype LeaseFile = Absent | Unreadable | Published(lease: Lease)

  datatype UncertainReason =
    | HolderProcessGone
    | HolderStartMismatch
    | LivenessUnverifiable
    | UnreadableRecord

  datatype LeaseStatus =
    | Free
    | Held(lease: Lease)
    | Uncertain(reason: UncertainReason, found: Option<Lease>)

  /** What a process can see of its host: nothing at all, or every running PID's start time. */
  datatype Probe = Probe(canVerify: bool, running: map<nat, nat>) {
    function StartTicks(pid: nat): Option<nat> {
      if canVerify && pid in running then Some(running[pid]) else None
    }

    /** The process itself, not merely its PID, is running. */
    predicate Sees(p: HolderProcess) {
      StartTicks(p.pid) == Some(p.startTicks)
    }
  }

  function Inspect(file: LeaseFile, probe: Probe): LeaseStatus {
    match file
    case Absent => Free
    case Unreadable => Uncertain(UnreadableRecord, None)
    case Published(lease) =>
      if !probe.canVerify then Uncertain(LivenessUnverifiable, Some(lease))
      else match probe.StartTicks(lease.holder.pid)
        case None => Uncertain(HolderProcessGone, Some(lease))
        case Some(actual) =>
          if actual != lease.holder.startTicks
          then Uncertain(HolderStartMismatch, Some(lease))
          else Held(lease)
  }

  /**
   What an inspection has to judge. It looks whether a file stands, then reads it, and only then
   asks the probe; a file gone between look and read does not parse.
   */
  function Seen(stood: LeaseFile, read: LeaseFile): LeaseFile {
    if stood.Absent? then Absent
    else if read.Absent? then Unreadable
    else read
  }

  /** A record is `Held` exactly when its holder is seen running; only a missing file is free. */
  lemma InspectVerdict(file: LeaseFile, probe: Probe)
    ensures Inspect(file, probe).Free? <==> file.Absent?
    ensures Inspect(file, probe).Held? <==> file.Published? && probe.Sees(file.lease.holder)
    ensures Inspect(file, probe).Held? ==> Inspect(file, probe).lease == file.lease
    ensures Inspect(file, probe).Uncertain? && Inspect(file, probe).reason == UnreadableRecord
       <==> file.Unreadable?
  {
  }

  /** Why a record is uncertain: nobody can be seen, its process is gone, or its PID is another's. */
  lemma UncertainForItsReason(lease: Lease, probe: Probe)
    ensures var status, pid := Inspect(Published(lease), probe), lease.holder.pid;
            && (status == Uncertain(LivenessUnverifiable, Some(lease)) <==> !probe.canVerify)
            && (status == Uncertain(HolderProcessGone, Some(lease)) <==> probe.canVerify && pid !in probe.running)
            && (status == Uncertain(HolderStartMismatch, Some(lease)) <==>
                  probe.canVerify && pid in probe.running && probe.running[pid] != lease.holder.startTicks)
            && (status == Held(lease) <==>
                  probe.canVerify && pid in probe.running && probe.running[pid] == lease.holder.startTicks)
  {
  }

  // ------------------------------------------------------------------ acquire and release

  datatype AcquireRequest = AcquireRequest(
    worktreePath: string,
    activationId: ActivationId,
    attemptId: AttemptId,
    specialist: Option<string>)

  datatype Refusal =
    | HeldByAnotherWriter
    | LeaseUncertain
    | NotHeldByCaller
    | StartTimeUnreadable

  /** What `acquire` does after its inspection: refuse, `rename` over its own record, or `link`. */
  datatype AcquirePlan = Refuse(refusal: Refusal) | Replace(lease: Lease) | Publish(lease: Lease)

  function PlanAcquire(file: LeaseFile, probe: Probe, request: AcquireRequest, pid: nat, now: int): AcquirePlan {
    match Inspect(file, probe)
    case Held(lease) =>
      if lease.activationId == request.activationId
      then Replace(lease.(attemptId := request.attemptId))
      else Refuse(HeldByAnotherWriter)
    case Uncertain(_, _) => Refuse(LeaseUncertain)
    case Free =>
      match probe.StartTicks(pid)
      case None => Refuse(StartTimeUnreadable)
      case Some(ticks) =>
        Publish(Lease(request.worktreePath, request.activationId, request.attemptId,
                      request.specialist, HolderProcess(pid, ticks), now))
  }

  datatype ReleasePlan = Nothing | RefuseRelease(refusal: Refusal) | Remove

  function PlanRelease(file: LeaseFile, probe: Probe, activationId: ActivationId): ReleasePlan {
    match Inspect(file, probe)
    case Free => Nothing
    case Uncertain(_, _) => RefuseRelease(LeaseUncertain)
    case Held(lease) =>
      if lease.activationId != activationId then RefuseRelease(NotHeldByCaller) else Remove
  }

  // ---------------------------------------------------------------------------- admission

  const NON_MUTATING_TOOLS: set<string> :=
    {"read", "grep", "glob", "ls", "list", "search", "view", "todowrite", "websearch", "webfetch"}

  /** An unrecognised tool mutates. */
  predicate IsMutatingTool(toolName: string) {
    ToLower(Trim(toolName)) !in NON_MUTATING_TOOLS
  }

  datatype Party = Coordinator | Activation(id: ActivationId)

  predicate AdmitToolCall(toolName: string, file: LeaseFile, probe: Probe, activationId: ActivationId) {
    if !IsMutatingTool(toolName) then true
    else match Inspect(file, probe)
      case Held(lease) => lease.activationId == activationId
      case Uncertain(_, _) => false
      case Free => false
  }

  predicate AdmitCoordinatorToolCall(toolName: string, file: LeaseFile, probe: Probe) {
    if !IsMutatingTool(toolName) then true
    else match Inspect(file, probe)
      case Held(_) => false
      case Uncertain(_, _) => false
      case Free => true
  }

  predicate Admitted(party: Party, toolName: string, file: LeaseFile, probe: Probe) {
    match party
    case Coordinator => AdmitCoordinatorToolCall(toolName, file, probe)
    case Activation(id) => AdmitToolCall(toolName, file, probe, id)
  }

  /** The ten read-only names, in any case and with any space around them. */
  lemma ReadOnlyNames(toolName: string)
    ensures !IsMutatingTool(toolName) <==>
      var key := ToLower(Trim(toolName));
      || key == "read" || key == "grep" || key == "glob" || key == "ls" || key == "list"
      || key == "search" || key == "view" || key == "todowrite" || key == "websearch" || key == "webfetch"
  {
  }

  /**
   Who may call what: a read-only tool, anyone; a mutating one, the activation on a record whose
   process is seen running, or the coordinator where no record stands.
   */
  lemma AdmittedExactlyWhen(party: Party, toolName: string, file: LeaseFile, probe: Probe)
    ensures Admitted(party, toolName, file, probe) <==>
            || !IsMutatingTool(toolName)
            || match party
               case Coordinator => file.Absent?
               case Activation(id) =>
                 file.Published? && probe.Sees(file.lease.holder) && file.lease.activationId == id
  {
    hide IsMutatingTool;
    InspectVerdict(file, probe);
  }

  /** For one workspace at one moment, two parties are never both admitted for a mutating tool. */
  lemma AtMostOneParty(a: Party, b: Party, toolA: string, toolB: string, file: LeaseFile, probe: Probe)
    requires IsMutatingTool(toolA) && IsMutatingTool(toolB)
    requires Admitted(a, toolA, file, probe) && Admitted(b, toolB, file, probe)
    ensures a == b
  {
  }

  /** An uncertain workspace admits nobody to mutate, and refuses every acquire and release. */
  lemma UncertainRefusesEverything(
      file: LeaseFile, probe: Probe, party: Party, toolName: string, request: AcquireRequest, pid: nat, now: int)
    requires Inspect(file, probe).Uncertain?
    ensures IsMutatingTool(toolName) ==> !Admitted(party, toolName, file, probe)
    ensures PlanAcquire(file, probe, request, pid, now) == Refuse(LeaseUncertain)
    ensures PlanRelease(file, probe, request.activationId) == RefuseRelease(LeaseUncertain)
  {
  }
}
