/**
 Reconciliation of an uncertain workspace: the decision table, the record of each attempt, and
 the status projection that tells an operator which outcomes are open.
 */
module WorkspaceReconcile {
  import opened Prelude
  import opened WorkspaceLease

  datatype ProposedOutcome = SafeFree | Superseded | ManualAttentionRequired

  /** `RecoveredHolder` is computed by the decision, never proposed. */
  datatype RecordedOutcome = Proposed(outcome: ProposedOutcome) | RecoveredHolder

  datatype RefusalReason =
    | WorkspaceNotUncertain
    | HolderIsLive
    | InsufficientEvidence
    | ReasonForbidsOutcome
    | SuccessorNotNamed

  datatype ReconciliationRequest = ReconciliationRequest(
    outcome: ProposedOutcome,
    decidedBy: string,
    basis: seq<string>,
    supersededBy: Option<ActivationId>)

  datatype ReconciliationRecord = ReconciliationRecord(
    applied: bool,
    outcome: RecordedOutcome,
    proposedOutcome: ProposedOutcome,
    refusal: Option<RefusalReason>,
    observed: LeaseStatus,
    decidedBy: string,
    basis: seq<string>,
    supersededBy: Option<ActivationId>,
    decidedAtMs: int)

  function Permitted(reason: UncertainReason): set<ProposedOutcome> {
    match reason
    case HolderProcessGone => {SafeFree, Superseded, ManualAttentionRequired}
    case HolderStartMismatch => {SafeFree, Superseded, ManualAttentionRequired}
    case UnreadableRecord => {Superseded, ManualAttentionRequired}
    case LivenessUnverifiable => {ManualAttentionRequired}
  }

  /** The source treats an empty successor id as no successor. */
  predicate NamesSuccessor(request: ReconciliationRequest) {
    request.supersededBy.Some? && request.supersededBy.value != ""
  }

  function Refused(
      request: ReconciliationRequest, status: LeaseStatus, at: int, why: RefusalReason, outcome: RecordedOutcome)
      : ReconciliationRecord {
    ReconciliationRecord(false, outcome, request.outcome, Some(why), status,
                         request.decidedBy, request.basis, request.supersededBy, at)
  }

  /** The branches of `decide`, in their order. */
  function Decide(request: ReconciliationRequest, status: LeaseStatus, at: int): ReconciliationRecord {
    var manual := Proposed(ManualAttentionRequired);
    if status.Held? then Refused(request, status, at, HolderIsLive, RecoveredHolder)
    else if status.Free? then Refused(request, status, at, WorkspaceNotUncertain, manual)
    else if |request.basis| == 0 then Refused(request, status, at, InsufficientEvidence, manual)
    else if request.outcome !in Permitted(status.reason) then
      Refused(request, status, at, ReasonForbidsOutcome, manual)
    else if request.outcome == Superseded && !NamesSuccessor(request) then
      Refused(request, status, at, SuccessorNotNamed, manual)
    else
      ReconciliationRecord(true, Proposed(request.outcome), request.outcome, None, status,
                           request.decidedBy, request.basis, request.supersededBy, at)
  }

  /** The record removes the lease file. */
  predicate Resolves(record: ReconciliationRecord) {
    record.applied && record.outcome in {Proposed(SafeFree), Proposed(Superseded)}
  }

  /**
   A decision frees a workspace exactly when the holder was observed gone or there is no holder
   to read, a basis is stated, and the proposal is a resolving one that this observation permits.
   Never on a held or free workspace, and never on a host that cannot see processes.
   */
  lemma ResolvesExactlyWhen(request: ReconciliationRequest, status: LeaseStatus, at: int)
    ensures Resolves(Decide(request, status, at)) <==>
      && status.Uncertain?
      && request.basis != []
      && (|| (request.outcome == SafeFree && status.reason in {HolderProcessGone, HolderStartMismatch})
          || (request.outcome == Superseded && request.supersededBy.Some? && request.supersededBy.value != ""
              && status.reason in {HolderProcessGone, HolderStartMismatch, UnreadableRecord}))
  {
    var d := Decide(request, status, at);
    if d.applied {
      assert d.outcome == Proposed(request.outcome);
    }
  }

  /**
   What no wording can change: on a held or free workspace every request is refused, and on an
   uncertain one a resolving request is open exactly when liveness could be established or the
   record not be read.
   */
  lemma SomeRequestIsAppliedExactlyWhen(status: LeaseStatus, at: int)
    ensures (exists r :: Decide(r, status, at).applied) <==> status.Uncertain?
    ensures (exists r :: Resolves(Decide(r, status, at))) <==>
            status.Uncertain? && status.reason != LivenessUnverifiable
  {
    var note := ReconciliationRequest(ManualAttentionRequired, "operator", ["evidence"], None);
    var hand := ReconciliationRequest(Superseded, "operator", ["evidence"], Some("act:successor"));
    assert status.Uncertain? ==> Decide(note, status, at).applied;
    ResolvesExactlyWhen(hand, status, at);
    forall r
      ensures Resolves(Decide(r, status, at)) ==> status.Uncertain? && status.reason != LivenessUnverifiable
    {
      ResolvesExactlyWhen(r, status, at);
    }
  }

  // ---------------------------------------------------------------------- status projection

  /**
   One file of the lease directory. `PathMissing` is a record with a holder but without a
   worktree path: `inspect` reads it, the projection does not.
   */
  datatype Entry = WellFormed(lease: Lease) | PathMissing(lease: Lease) | Garbage

  function EntryFile(entry: Entry): LeaseFile {
    match entry
    case WellFormed(lease) => Published(lease)
    case PathMissing(lease) => Published(lease)
    case Garbage => Unreadable
  }

  datatype Projection = Projection(
    workspaceKey: string,
    lease: Option<Lease>,
    reason: UncertainReason,
    permittedOutcomes: set<ProposedOutcome>,
    attempts: nat,
    last: Option<ReconciliationRecord>)

  /** The lease directory, and the key a worktree path leads to: a hash of its resolved form. */
  datatype Scope = Scope(files: map<string, Entry>, keyOf: string -> string)

  function FileAt(scope: Scope, key: string): LeaseFile {
    if key in scope.files then EntryFile(scope.files[key]) else Absent
  }

  /** The projection inspects the file that the recorded worktree path leads to, if one is recorded. */
  function ProjectedStatus(scope: Scope, key: string, probe: Probe): LeaseStatus
    requires key in scope.files
  {
    match scope.files[key]
    case WellFormed(lease) => Inspect(FileAt(scope, scope.keyOf(lease.worktreePath)), probe)
    case PathMissing(_) => Uncertain(UnreadableRecord, None)
    case Garbage => Uncertain(UnreadableRecord, None)
  }

  function LogOf(logs: map<string, seq<ReconciliationRecord>>, key: string): seq<ReconciliationRecord> {
    if key in logs then logs[key] else []
  }

  function ProjectEntry(scope: Scope, key: string, probe: Probe, log: seq<ReconciliationRecord>): seq<Projection>
    requires key in scope.files
  {
    var status := ProjectedStatus(scope, key, probe);
    if !status.Uncertain? then []
    else [Projection(key,
                     if scope.files[key].WellFormed? then Some(scope.files[key].lease) else None,
                     status.reason, Permitted(status.reason), |log|,
                     if log == [] then None else Some(log[|log| - 1]))]
  }

  /** The names a directory lists are names of its files. */
  predicate Lists(scope: Scope, names: seq<string>) {
    forall name :: name in names ==> name in scope.files
  }

  function Project(
      scope: Scope, names: seq<string>, probe: Probe, logs: map<string, seq<ReconciliationRecord>>): seq<Projection>
    requires Lists(scope, names)
  {
    if names == [] then []
    else
      var last := |names| - 1;
      Project(scope, names[..last], probe, logs)
        + ProjectEntry(scope, names[last], probe, LogOf(logs, names[last]))
  }

  method ProjectUncertainWorkspaces(
      scope: Scope, names: seq<string>, probe: Probe, logs: map<string, seq<ReconciliationRecord>>)
      returns (out: seq<Projection>)
    requires Lists(scope, names)
    ensures out == Project(scope, names, probe, logs)
  {
    out := [];
    for i := 0 to |names|
      invariant out == Project(scope, names[..i], probe, logs)
    {
      assert names[..i + 1][..i] == names[..i];
      var key := names[i];
      var entry := scope.files[key];
      var status := ProjectedStatus(scope, key, probe);
      if !status.Uncertain? { continue; }
      var log := LogOf(logs, key);
      out := out + [Projection(key, if entry.WellFormed? then Some(entry.lease) else None,
                               status.reason, Permitted(status.reason), |log|,
                               if log == [] then None else Some(log[|log| - 1]))];
    }
    assert names[..|names|] == names;
  }

  /** Every row speaks of a listed file, and every file projected as uncertain has its row. */
  lemma {:induction false} ProjectionIsComplete(
      scope: Scope, names: seq<string>, probe: Probe, logs: map<string, seq<ReconciliationRecord>>, key: string)
    requires Lists(scope, names) && key in names
    ensures ProjectedStatus(scope, key, probe).Uncertain? <==>
            exists row :: row in Project(scope, names, probe, logs) && [row] == ProjectEntry(scope, key, probe, LogOf(logs, key))
  {
    var last := |names| - 1;
    if ProjectedStatus(scope, key, probe).Uncertain? {
      var row := ProjectEntry(scope, key, probe, LogOf(logs, key))[0];
      if key != names[last] {
        assert key in names[..last];
        ProjectionIsComplete(scope, names[..last], probe, logs, key);
      }
      assert row in Project(scope, names, probe, logs);
    }
  }

  lemma RowsOneMore(
      scope: Scope, front: seq<string>, last: string, probe: Probe, logs: map<string, seq<ReconciliationRecord>>)
    requires Lists(scope, front) && last in scope.files
    ensures Lists(scope, front + [last])
    ensures Project(scope, front + [last], probe, logs) ==
            Project(scope, front, probe, logs) + ProjectEntry(scope, last, probe, LogOf(logs, last))
  {
    hide ProjectEntry, LogOf;
    assert (front + [last])[..|front|] == front;
  }

  lemma NoRows(scope: Scope, probe: Probe, logs: map<string, seq<ReconciliationRecord>>)
    ensures Project(scope, [], probe, logs) == []
  {
  }

  /** Rows stand in the order of the directory. */
  lemma {:induction false} RowsKeepTheDirectorysOrder(
      scope: Scope, before: seq<string>, after: seq<string>, probe: Probe, logs: map<string, seq<ReconciliationRecord>>)
    requires Lists(scope, before) && Lists(scope, after)
    ensures Lists(scope, before + after)
    ensures Project(scope, before + after, probe, logs) ==
            Project(scope, before, probe, logs) + Project(scope, after, probe, logs)
    decreases |after|
  {
    hide Project;
    if after == [] {
      assert before + after == before;
      NoRows(scope, probe, logs);
    } else {
      var front, last := after[..|after| - 1], after[|after| - 1];
      RowsKeepTheDirectorysOrder(scope, before, front, probe, logs);
      RowsOneMore(scope, before + front, last, probe, logs);
      RowsOneMore(scope, front, last, probe, logs);
      assert before + after == before + front + [last] && after == front + [last];
    }
  }

  /** A file whose record's status is uncertain has one row, with its own log; any other has none. */
  lemma OneRowEach(scope: Scope, name: string, probe: Probe, logs: map<string, seq<ReconciliationRecord>>)
    requires name in scope.files
    ensures var rows := Project(scope, [name], probe, logs);
            && |rows| == (if ProjectedStatus(scope, name, probe).Uncertain? then 1 else 0)
            && forall row :: row in rows ==> row.attempts == if name in logs then |logs[name]| else 0
  {
    assert [name][..0] == [];
  }

  /** A row carries its file's own record, the number of attempts logged and the latest of them. */
  lemma RowCarriesTheLog(scope: Scope, key: string, probe: Probe, log: seq<ReconciliationRecord>, row: Projection)
    requires key in scope.files && row in ProjectEntry(scope, key, probe, log)
    ensures row.workspaceKey == key && row.attempts == |log|
    ensures log == [] ==> row.last.None?
    ensures forall before, r :: log == before + [r] ==> row.last == Some(r)
    ensures row.lease.Some? <==> scope.files[key].WellFormed?
    ensures row.lease.Some? ==> scope.files[key] == WellFormed(row.lease.value)
    ensures ProjectedStatus(scope, key, probe).Uncertain? && row.reason == ProjectedStatus(scope, key, probe).reason
  {
  }

  /** A proposal `reconcile` would apply to this file, given a stated basis and a named successor. */
  predicate WouldApply(scope: Scope, key: string, probe: Probe, outcome: ProposedOutcome) {
    Decide(ReconciliationRequest(outcome, "operator", ["evidence"], Some("act:successor")),
           Inspect(FileAt(scope, key), probe), 0).applied
  }

  /** The record stands in the file its own worktree path leads to. */
  predicate FiledUnderItsPath(scope: Scope, key: string)
    requires key in scope.files
  {
    scope.files[key].WellFormed? ==> scope.keyOf(scope.files[key].lease.worktreePath) == key
  }

  /** The outcomes offered for a file are the proposals that would be applied to it. */
  ghost predicate ProjectedRight(scope: Scope, key: string, probe: Probe, log: seq<ReconciliationRecord>)
    requires key in scope.files
  {
    var rows := ProjectEntry(scope, key, probe, log);
    && (rows == [] <==> forall o :: !WouldApply(scope, key, probe, o))
    && (rows != [] ==> forall o :: o in rows[0].permittedOutcomes <==> WouldApply(scope, key, probe, o))
  }

  /** The file the projection inspects for a key: its record's path leads there, or there is no path. */
  function Shown(scope: Scope, key: string): LeaseFile
    requires key in scope.files
  {
    match scope.files[key]
    case WellFormed(lease) => FileAt(scope, scope.keyOf(lease.worktreePath))
    case _ => Unreadable
  }

  /** What a file and a probe leave open: nothing, or what follows from why it is uncertain. */
  datatype Kind = Settled | Blind | Gone | Unread

  function KindOf(file: LeaseFile, probe: Probe): Kind {
    match file
    case Absent => Settled
    case Unreadable => Unread
    case Published(lease) => if !probe.canVerify then Blind else if probe.Sees(lease.holder) then Settled else Gone
  }

  lemma KindDecides(file: LeaseFile, probe: Probe)
    ensures var status, kind := Inspect(file, probe), KindOf(file, probe);
            && (kind == Settled <==> !status.Uncertain?)
            && (kind == Blind ==> status.Uncertain? && status.reason == LivenessUnverifiable)
            && (kind == Gone ==> status.Uncertain? && status.reason in {HolderProcessGone, HolderStartMismatch})
            && (kind == Unread ==> status.Uncertain? && status.reason == UnreadableRecord)
  {
    InspectVerdict(file, probe);
  }

  /** What would be applied is what the reason permits. */
  lemma AppliesWhatIsPermitted(scope: Scope, key: string, probe: Probe, outcome: ProposedOutcome)
    ensures var status := Inspect(FileAt(scope, key), probe);
            WouldApply(scope, key, probe, outcome) <==> status.Uncertain? && outcome in Permitted(status.reason)
  {
  }

  /**
   The projection is right about a file exactly when the file it inspects in its place is of the same
   kind: both settled, both blind, both with a holder gone, or both unreadable.
   */
  lemma ProjectedRightExactlyWhen(scope: Scope, key: string, probe: Probe, log: seq<ReconciliationRecord>)
    requires key in scope.files
    ensures ProjectedRight(scope, key, probe, log) <==>
            KindOf(Shown(scope, key), probe) == KindOf(FileAt(scope, key), probe)
  {
    hide WouldApply, Inspect;
    var shown, own := Shown(scope, key), FileAt(scope, key);
    KindDecides(shown, probe);
    KindDecides(own, probe);
    assert ProjectedStatus(scope, key, probe).Uncertain? <==> Inspect(shown, probe).Uncertain? by {
      InspectVerdict(shown, probe);
    }
    assert ProjectedStatus(scope, key, probe).Uncertain? ==>
        ProjectedStatus(scope, key, probe).reason == Inspect(shown, probe).reason by {
      InspectVerdict(shown, probe);
    }
    forall o
      ensures WouldApply(scope, key, probe, o) <==>
              Inspect(own, probe).Uncertain? && o in Permitted(Inspect(own, probe).reason)
    {
      AppliesWhatIsPermitted(scope, key, probe, o);
    }
    OutcomesTellKinds(scope, key, probe);
  }

  /** Three outcomes tell the four kinds apart. */
  lemma OutcomesTellKinds(scope: Scope, key: string, probe: Probe)
    ensures var kind := KindOf(FileAt(scope, key), probe);
            && (WouldApply(scope, key, probe, ManualAttentionRequired) <==> kind != Settled)
            && (WouldApply(scope, key, probe, Superseded) <==> kind in {Gone, Unread})
            && (WouldApply(scope, key, probe, SafeFree) <==> kind == Gone)
  {
    KindDecides(FileAt(scope, key), probe);
    AppliesWhatIsPermitted(scope, key, probe, ManualAttentionRequired);
    AppliesWhatIsPermitted(scope, key, probe, Superseded);
    AppliesWhatIsPermitted(scope, key, probe, SafeFree);
  }

  /** For a record filed under its path, and for a wholly unreadable file, the projection is right. */
  lemma ProjectedOutcomesAreTheApplicableOnes(scope: Scope, key: string, probe: Probe, log: seq<ReconciliationRecord>)
    requires key in scope.files && !scope.files[key].PathMissing? && FiledUnderItsPath(scope, key)
    ensures ProjectedRight(scope, key, probe, log)
  {
    ProjectedRightExactlyWhen(scope, key, probe, log);
  }

  /**
   A record whose worktree path leads to a key without a file is never listed: so the projection is
   right about it exactly when its holder is seen alive.
   */
  lemma StrayRecordIsNeverListed(scope: Scope, key: string, probe: Probe, log: seq<ReconciliationRecord>)
    requires key in scope.files && scope.files[key].WellFormed?
    requires scope.keyOf(scope.files[key].lease.worktreePath) !in scope.files
    ensures ProjectEntry(scope, key, probe, log) == []
    ensures ProjectedRight(scope, key, probe, log) <==> probe.Sees(scope.files[key].lease.holder)
  {
    ProjectedRightExactlyWhen(scope, key, probe, log);
  }

  /**
   A record whose path leads to the file of another key is shown with that file's status: under an
   unreadable one it is always listed as unreadable, and always wrongly.
   */
  lemma StrayRecordTakesAnothersStatus(scope: Scope, key: string, probe: Probe, log: seq<ReconciliationRecord>)
    requires key in scope.files && scope.files[key].WellFormed?
    requires FileAt(scope, scope.keyOf(scope.files[key].lease.worktreePath)).Unreadable?
    ensures |ProjectEntry(scope, key, probe, log)| == 1
    ensures ProjectEntry(scope, key, probe, log)[0].workspaceKey == key
    ensures ProjectEntry(scope, key, probe, log)[0].reason == UnreadableRecord
    ensures !ProjectedRight(scope, key, probe, log)
  {
    ProjectedRightExactlyWhen(scope, key, probe, log);
  }

  /** On a record without a worktree path the projection is always wrong. */
  lemma PathMissingIsMisprojected(scope: Scope, key: string, probe: Probe, log: seq<ReconciliationRecord>)
    requires key in scope.files && scope.files[key].PathMissing?
    ensures ProjectEntry(scope, key, probe, log) != [] && !ProjectedRight(scope, key, probe, log)
  {
    ProjectedRightExactlyWhen(scope, key, probe, log);
  }
}
