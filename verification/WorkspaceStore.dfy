/**
 The lease file and its reconciliation log, updated by one call at a time.

 Each method takes the file as other processes leave it between this call's look and its read
 (`read`), and between its inspection and its own file operation (`meanwhile`): `link`, `rename`
 and `unlink` act on that file, not on the one inspected. Passing the current file is the call
 nobody interrupts.
 */
module WorkspaceStore {
  import opened Prelude
  import opened WorkspaceLease
  import opened WorkspaceReconcile

  datatype Outcome<+T> = Done(value: T) | Rejected(refusal: Refusal)

  /** What an acquire returns and leaves behind, given the file inspected and the file acted on. */
  function AcquireEffect(plan: AcquirePlan, meanwhile: LeaseFile): (Outcome<Lease>, LeaseFile) {
    match plan
    case Refuse(refusal) => (Rejected(refusal), meanwhile)
    case Replace(lease) => (Done(lease), Published(lease))
    case Publish(lease) =>
      if meanwhile.Absent? then (Done(lease), Published(lease)) else (Rejected(HeldByAnotherWriter), meanwhile)
  }

  function ReleaseEffect(plan: ReleasePlan, meanwhile: LeaseFile): (Outcome<()>, LeaseFile) {
    match plan
    case Nothing => (Done(()), meanwhile)
    case RefuseRelease(refusal) => (Rejected(refusal), meanwhile)
    case Remove => (Done(()), Absent)
  }

  /** The record names this activation, and its process is seen running. */
  predicate IsOwn(file: LeaseFile, probe: Probe, activationId: ActivationId) {
    file.Published? && probe.Sees(file.lease.holder) && file.lease.activationId == activationId
  }

  class Store {
    var file: LeaseFile
    var log: seq<ReconciliationRecord>

    constructor ()
      ensures file == Absent && log == []
    {
      file, log := Absent, [];
    }

    /** `link(2)`: create, or fail because something stands there. */
    method Link(lease: Lease) returns (created: bool)
      modifies this`file
      ensures created <==> old(file).Absent?
      ensures file == if created then Published(lease) else old(file)
    {
      created := file.Absent?;
      if created { file := Published(lease); }
    }

    method Acquire(request: AcquireRequest, pid: nat, now: int, probe: Probe, read: LeaseFile, meanwhile: LeaseFile)
        returns (result: Outcome<Lease>)
      modifies this`file
      ensures (result, file) == AcquireEffect(PlanAcquire(Seen(old(file), read), probe, request, pid, now), meanwhile)
      ensures result.Done? ==>
        && file == Published(result.value)
        && result.value.activationId == request.activationId
        && result.value.attemptId == request.attemptId
        && (old(file).Absent? ==>
              && meanwhile.Absent? && probe.Sees(result.value.holder) && result.value.holder.pid == pid
              && result.value.worktreePath == request.worktreePath && result.value.specialist == request.specialist
              && result.value.acquiredAtMs == now)
        && (!old(file).Absent? ==>
              && read.Published? && probe.Sees(read.lease.holder)
              && result.value == read.lease.(attemptId := request.attemptId))
      ensures result.Rejected? ==> file == meanwhile
      ensures var saw := Seen(old(file), read);
              var own := IsOwn(saw, probe, request.activationId);
              && (result.Done? <==> own || (saw.Absent? && probe.StartTicks(pid).Some? && meanwhile.Absent?))
              && (result == Rejected(StartTimeUnreadable) <==> saw.Absent? && probe.StartTicks(pid).None?)
              && (result == Rejected(HeldByAnotherWriter) <==>
                    || (saw.Published? && probe.Sees(saw.lease.holder) && !own)
                    || (saw.Absent? && probe.StartTicks(pid).Some? && !meanwhile.Absent?))
              && (result == Rejected(LeaseUncertain) <==>
                    saw.Unreadable? || (saw.Published? && !probe.Sees(saw.lease.holder)))
    {
      var status := Inspect(Seen(file, read), probe);
      if status.Held? {
        if status.lease.activationId == request.activationId {
          file := meanwhile;
          var lease := status.lease.(attemptId := request.attemptId);
          file := Published(lease);
          return Done(lease);
        }
        file := meanwhile;
        return Rejected(HeldByAnotherWriter);
      }
      if status.Uncertain? {
        file := meanwhile;
        return Rejected(LeaseUncertain);
      }
      var self := probe.StartTicks(pid);
      file := meanwhile;
      if self.None? { return Rejected(StartTimeUnreadable); }
      var lease := Lease(request.worktreePath, request.activationId, request.attemptId,
                         request.specialist, HolderProcess(pid, self.value), now);
      var created := Link(lease);
      if !created { return Rejected(HeldByAnotherWriter); }
      return Done(lease);
    }

    method Release(activationId: ActivationId, probe: Probe, read: LeaseFile, meanwhile: LeaseFile) returns (result: Outcome<()>)
      modifies this`file
      ensures (result, file) == ReleaseEffect(PlanRelease(Seen(old(file), read), probe, activationId), meanwhile)
      ensures var saw := Seen(old(file), read);
              var own := IsOwn(saw, probe, activationId);
              && file == (if own then Absent else meanwhile)
              && (result.Done? <==> saw.Absent? || own)
              && (result == Rejected(NotHeldByCaller) <==> saw.Published? && probe.Sees(saw.lease.holder) && !own)
              && (result == Rejected(LeaseUncertain) <==>
                    saw.Unreadable? || (saw.Published? && !probe.Sees(saw.lease.holder)))
    {
      var status := Inspect(Seen(file, read), probe);
      file := meanwhile;
      if status.Free? { return Done(()); }
      if status.Uncertain? { return Rejected(LeaseUncertain); }
      if status.lease.activationId != activationId { return Rejected(NotHeldByCaller); }
      file := Absent;
      return Done(());
    }

    /** Every call leaves exactly one record behind; only a resolving one touches the file. */
    method Reconcile(request: ReconciliationRequest, at: int, probe: Probe, read: LeaseFile, meanwhile: LeaseFile)
        returns (record: ReconciliationRecord)
      modifies this
      ensures record == Decide(request, Inspect(Seen(old(file), read), probe), at)
      ensures log == old(log) + [record]
      ensures file == if Resolves(record) then Absent else meanwhile
      ensures record.observed == Inspect(Seen(old(file), read), probe) && record.proposedOutcome == request.outcome
      ensures record.decidedBy == request.decidedBy && record.basis == request.basis
      ensures record.supersededBy == request.supersededBy && record.decidedAtMs == at
      ensures record.applied <==> record.refusal.None?
      ensures record.outcome == if record.applied then Proposed(request.outcome)
                                else if record.observed.Held? then RecoveredHolder
                                else Proposed(ManualAttentionRequired)
      ensures record.refusal.Some? ==>
                match record.refusal.value
                case HolderIsLive => record.observed.Held?
                case WorkspaceNotUncertain => record.observed.Free?
                case InsufficientEvidence => record.observed.Uncertain? && request.basis == []
                case ReasonForbidsOutcome =>
                  record.observed.Uncertain? && request.basis != [] && request.outcome !in Permitted(record.observed.reason)
                case SuccessorNotNamed =>
                  && record.observed.Uncertain? && request.basis != [] && Superseded in Permitted(record.observed.reason)
                  && request.outcome == Superseded && (request.supersededBy == None || request.supersededBy == Some(""))
    {
      var status := Inspect(Seen(file, read), probe);
      file := meanwhile;
      record := Decide(request, status, at);
      if record.applied && record.outcome != Proposed(ManualAttentionRequired) {
        assert record.outcome == Proposed(request.outcome);
        file := Absent;
      }
      log := log + [record];
    }
  }

  /** A refused or lost acquire changes nothing, and a `link` never replaces a standing record. */
  lemma OnlyTheHolderIsReplaced(
      stood: LeaseFile, read: LeaseFile, meanwhile: LeaseFile, probe: Probe, request: AcquireRequest, pid: nat, now: int)
    ensures var (result, after) := AcquireEffect(PlanAcquire(Seen(stood, read), probe, request, pid, now), meanwhile);
            && (result.Rejected? ==> after == meanwhile)
            && (result.Done? && meanwhile.Published? ==>
                  read.Published? && probe.Sees(read.lease.holder)
                  && read.lease.activationId == request.activationId
                  && after == Published(read.lease.(attemptId := request.attemptId)))
  {
    InspectVerdict(Seen(stood, read), probe);
  }

  /** Uninterrupted, a call that took a free workspace is undone by its own release. */
  lemma AcquireThenRelease(probe: Probe, request: AcquireRequest, pid: nat, now: int)
    ensures var (result, held) := AcquireEffect(PlanAcquire(Absent, probe, request, pid, now), Absent);
            && (result.Done? <==> probe.StartTicks(pid).Some?)
            && (result.Done? ==>
                  Inspect(held, probe) == Held(result.value)
                  && ReleaseEffect(PlanRelease(held, probe, request.activationId), held) == (Done(()), Absent))
  {
  }
}
