/**
 Runs that go wrong. Each of the two parts of `LeaseSchedule.Apart`, dropped alone, admits a run
 that ends with two live owners; and a crash or a failing append after the unlink frees a workspace
 with an empty log.
 */
module LeaseHazards {
  import opened Prelude
  import opened WorkspaceLease
  import opened WorkspaceReconcile
  import opened LeaseProtocol
  import opened LeaseSafety
  import opened LeaseSchedule
  import opened LeaseEvidence

  // ------------------------------------------------------------------------------- scripts

  function LeaseOf(p: HolderProcess, request: AcquireRequest, now: int): Lease {
    Lease(request.worktreePath, request.activationId, request.attemptId, request.specialist, p, now)
  }

  /** An uninterrupted acquire of a free workspace. */
  lemma AcquireFree(w: World, p: HolderProcess, request: AcquireRequest, now: int)
    requires w.file.Absent? && w.probeWorks && w.Idle(p) && w.Minted(p, request.activationId)
    ensures var steps := [Begin(p, Acquiring(request, now)), CommitLink(p)];
            && IsRun(w, steps)
            && After(w, steps) == w.(file := Published(LeaseOf(p, request, now)),
                                     owners := w.owners + {request.activationId})
            && NonOverlapping(w, steps)
            && ((forall q :: q in w.ops ==> !Inspecting(w.ops[q])) ==> Undisturbed(w, steps))
  {
    var steps := [Begin(p, Acquiring(request, now)), CommitLink(p)];
    var w1 := w.(ops := w.ops[p := Linking(LeaseOf(p, request, now))]);
    assert w1 == Apply(w, steps[0]);
    var w2 := Apply(w1, steps[1]);
    assert w2.ops == w.ops;
    ChainSchedule(w, steps, [w, w1, w2]);
  }

  /** A reconciliation that looks and reads. */
  lemma ReadRecord(w: World, p: HolderProcess, call: Call)
    requires w.file.Published? && w.Idle(p) && (OwnOf(call).Some? ==> w.Minted(p, OwnOf(call).value))
    ensures var steps := [Begin(p, call), Read(p)];
            && IsRun(w, steps)
            && After(w, steps) == w.(ops := w.ops[p := Probing(call, w.file, w.file)])
            && (call.Reconciling? && (forall q :: q in w.ops ==> !BeforeUnlink(w.ops[q])) ==> NonOverlapping(w, steps))
            && (!call.Reconciling? ==> NonOverlapping(w, steps))
            && Undisturbed(w, steps)
  {
    hide Judged;
    var steps := [Begin(p, call), Read(p)];
    var w1 := w.(ops := w.ops[p := Looking(call, w.file)]);
    assert w1 == Apply(w, steps[0]);
    var w2 := Apply(w1, steps[1]);
    assert w2.ops == w.ops[p := Probing(call, w.file, w.file)];
    ChainSchedule(w, steps, [w, w1, w2]);
  }

  const FREE_IT := ReconciliationRequest(SafeFree, "operator", ["worktree is clean"], None)
  const FREEING := Reconciling(FREE_IT, 1)

  /** What such a reconciliation decides of a record whose process is gone. */
  function Decided(lease: Lease): ReconciliationRecord {
    Decide(FREE_IT, Uncertain(HolderProcessGone, Some(lease)), 1)
  }

  /** A verdict on a record read before, given on a host where its process is gone. */
  lemma JudgeGone(w: World, p: HolderProcess, stood: LeaseFile, lease: Lease)
    requires p in w.ops && w.ops[p] == Probing(FREEING, stood, Published(lease))
    requires w.probeWorks && lease.holder.pid !in w.running
    ensures IsRun(w, [Judge(p)]) && After(w, [Judge(p)]) == w.(ops := w.ops[p := Clearing(Decided(lease))])
    ensures NonOverlapping(w, [Judge(p)]) && Undisturbed(w, [Judge(p)])
    ensures Resolves(Decided(lease))
  {
    ChainSchedule(w, [Judge(p)], [w, Apply(w, Judge(p))]);
  }

  /** The unlink, whatever stands by then, and its append. */
  lemma ClearAndRecord(w: World, p: HolderProcess, record: ReconciliationRecord)
    requires p in w.ops && w.ops[p] == Clearing(record)
    ensures var steps := [CommitClear(p), CommitRecord(p)];
            && IsRun(w, steps)
            && After(w, steps) == w.(file := Absent, ops := w.ops - {p}, log := w.log + [record])
            && NonOverlapping(w, steps)
            && ((forall q :: q in w.ops ==> !Inspecting(w.ops[q])) ==> Undisturbed(w, steps))
  {
    var steps := [CommitClear(p), CommitRecord(p)];
    var w1 := w.(file := Absent, ops := w.ops[p := Recording(record)]);
    assert w1 == Apply(w, steps[0]);
    var w2 := Apply(w1, steps[1]);
    assert w2.ops == w.ops - {p};
    ChainSchedule(w, steps, [w, w1, w2]);
  }

  /** The live holder, reading its own record, releases it. */
  lemma ReleaseOwn(w: World, p: HolderProcess)
    requires w.file.Published? && w.file.lease.holder == p && w.probeWorks && w.Idle(p)
    requires w.Minted(p, w.file.lease.activationId)
    ensures var a := w.file.lease.activationId;
            var steps := [Begin(p, Releasing(a)), Read(p)] + [Judge(p), CommitUnlink(p)];
            && IsRun(w, steps)
            && After(w, steps) == w.(file := Absent, owners := w.owners - {a})
            && NonOverlapping(w, steps)
  {
    var a := w.file.lease.activationId;
    var look, act := [Begin(p, Releasing(a)), Read(p)], [Judge(p), CommitUnlink(p)];
    ReadRecord(w, p, Releasing(a));
    var w2 := After(w, look);
    var w3 := w.(ops := w.ops[p := Unlinking(a)]);
    JudgeOwnRelease(w2, p, a);
    assert w3.ops == w2.ops[p := Unlinking(a)];
    var w4 := Apply(w3, act[1]);
    assert w4.ops == w.ops;
    ChainSchedule(w2, act, [w2, w3, w4]);
    Then(w, look, act);
  }

  lemma JudgeOwnRelease(w: World, p: HolderProcess, a: ActivationId)
    requires w.file.Published? && w.file.lease.holder == p && w.probeWorks && w.Alive(p)
    requires p in w.ops && w.ops[p] == Probing(Releasing(a), w.file, w.file) && w.file.lease.activationId == a
    ensures Enabled(w, Judge(p)) && Apply(w, Judge(p)) == w.(ops := w.ops[p := Unlinking(a)])
  {
    VerdictInSight(w);
  }

  /** Two scripts, one after the other. */
  lemma Then(w: World, first: seq<Step>, second: seq<Step>)
    requires IsRun(w, first) && IsRun(After(w, first), second)
    ensures IsRun(w, first + second) && After(w, first + second) == After(After(w, first), second)
    ensures NonOverlapping(w, first) && NonOverlapping(After(w, first), second) ==> NonOverlapping(w, first + second)
    ensures Undisturbed(w, first) && Undisturbed(After(w, first), second) ==> Undisturbed(w, first + second)
  {
    hide IsRun, After, NonOverlapping, Undisturbed;
    AppendRun(w, first, second);
    AppendSchedule(w, first, second);
  }

  // ------------------------------------------------------------------------------- the stage

  const P1 := HolderProcess(1, 10)
  const P2 := HolderProcess(2, 20)
  const P3 := HolderProcess(3, 30)

  function Ask(a: ActivationId): AcquireRequest {
    AcquireRequest("/w", a, "att:1", None)
  }

  const RECORD_1 := LeaseOf(P1, Ask("a1"), 0)
  const RECORD_2 := LeaseOf(P2, Ask("a2"), 2)

  /** Three processes, an activation each. */
  const STAGE := World(Absent, true, map[1 := 10, 2 := 20, 3 := 30], {P1, P2, P3},
                       map["a1" := P1, "a2" := P2, "a3" := P3], map[], {}, [])
  const HELD_1 := STAGE.(file := Published(RECORD_1), owners := {"a1"})
  const CAST: seq<Step> := [Spawn(P1), Spawn(P2), Spawn(P3), Mint(P1, "a1"), Mint(P2, "a2"), Mint(P3, "a3")]

  lemma StageIsSet()
    ensures IsRun(START, CAST) && After(START, CAST) == STAGE && NonOverlapping(START, CAST) && Undisturbed(START, CAST)
  {
    hide Judged;
    var w1 := START.(running := map[1 := 10], used := {P1});
    var w2 := w1.(running := map[1 := 10, 2 := 20], used := {P1, P2});
    var w3 := w2.(running := map[1 := 10, 2 := 20, 3 := 30], used := {P1, P2, P3});
    var w4 := w3.(minted := map["a1" := P1]);
    var w5 := w4.(minted := map["a1" := P1, "a2" := P2]);
    assert w1 == Apply(START, CAST[0]);
    assert w2 == Apply(w1, CAST[1]);
    assert w3 == Apply(w2, CAST[2]);
    assert w4 == Apply(w3, CAST[3]);
    assert w5 == Apply(w4, CAST[4]);
    assert STAGE == Apply(w5, CAST[5]);
    ChainSchedule(START, CAST, [START, w1, w2, w3, w4, w5, STAGE]);
  }

  /** `P1` takes the workspace. */
  lemma FirstHolder() returns (steps: seq<Step>)
    ensures IsRun(START, steps) && After(START, steps) == HELD_1
    ensures NonOverlapping(START, steps) && Undisturbed(START, steps)
  {
    hide IsRun, After, NonOverlapping, Undisturbed;
    var take := [Begin(P1, Acquiring(Ask("a1"), 0)), CommitLink(P1)];
    StageIsSet();
    AcquireFree(STAGE, P1, Ask("a1"), 0);
    assert STAGE.owners + {"a1"} == {"a1"};
    Then(START, CAST, take);
    steps := CAST + take;
  }

  /** Its process dies. */
  lemma HolderDies(w: World)
    requires w.running == map[1 := 10, 2 := 20, 3 := 30] && P1 !in w.ops && w.minted == STAGE.minted
    requires w.owners <= {"a1"}
    ensures IsRun(w, [Crash(P1)])
    ensures After(w, [Crash(P1)]) == w.(running := map[2 := 20, 3 := 30], owners := {})
    ensures NonOverlapping(w, [Crash(P1)]) && Undisturbed(w, [Crash(P1)])
  {
    var w' := Apply(w, Crash(P1));
    assert w'.running == map[2 := 20, 3 := 30];
    assert w'.ops == w.ops;
    assert w'.owners == {};
    ChainSchedule(w, [Crash(P1)], [w, w']);
  }

  const DEAD_1 := STAGE.(file := Published(RECORD_1), running := map[2 := 20, 3 := 30])

  // --------------------------------------------------------------- a reconciliation straddles

  /** `P3` has read the record of `P1`; `P1` releases and dies; `P2` takes the workspace. */
  const STRADDLED := STAGE.(file := Published(RECORD_2), running := map[2 := 20, 3 := 30], owners := {"a2"},
                            ops := map[P3 := Probing(FREEING, Published(RECORD_1), Published(RECORD_1))])

  lemma RecordChangesUnderInspection() returns (steps: seq<Step>)
    ensures IsRun(START, steps) && After(START, steps) == STRADDLED && NonOverlapping(START, steps)
  {
    hide IsRun, After, NonOverlapping, Undisturbed;
    steps := FirstHolder();
    ReadRecord(HELD_1, P3, FREEING);
    Then(START, steps, [Begin(P3, FREEING), Read(P3)]);
    steps := steps + [Begin(P3, FREEING), Read(P3)];
    var w1 := HELD_1.(ops := STRADDLED.ops);
    ReleaseOwn(w1, P1);
    var release := [Begin(P1, Releasing("a1")), Read(P1)] + [Judge(P1), CommitUnlink(P1)];
    Then(START, steps, release);
    steps := steps + release;
    var w2 := w1.(file := Absent, owners := w1.owners - {"a1"});
    HolderDies(w2);
    Then(START, steps, [Crash(P1)]);
    steps := steps + [Crash(P1)];
    var w3 := w2.(running := map[2 := 20, 3 := 30], owners := {});
    AcquireFree(w3, P2, Ask("a2"), 2);
    var take := [Begin(P2, Acquiring(Ask("a2"), 2)), CommitLink(P2)];
    Then(START, steps, take);
    steps := steps + take;
    assert w3.owners + {"a2"} == {"a2"};
  }

  /** From a world where `a2` owns and `P3` is about to unlink, `P3` does, and takes the workspace too. */
  lemma SecondOwner(w: World, record: ReconciliationRecord)
    requires w.file == Published(RECORD_2) && w.owners == {"a2"} && w.probeWorks
    requires w.Alive(P3) && w.minted == STAGE.minted
    requires w.ops == map[P3 := Clearing(record)]
    ensures var steps := [CommitClear(P3), CommitRecord(P3)] + [Begin(P3, Acquiring(Ask("a3"), 3)), CommitLink(P3)];
            && IsRun(w, steps) && NonOverlapping(w, steps) && Undisturbed(w, steps)
            && var end := After(w, steps);
               end.owners == {"a2", "a3"} && end.running == w.running && end.minted == w.minted
  {
    hide IsRun, After, NonOverlapping, Undisturbed;
    ClearAndRecord(w, P3, record);
    var w1 := w.(file := Absent, ops := w.ops - {P3}, log := w.log + [record]);
    assert w1.ops == map[];
    AcquireFree(w1, P3, Ask("a3"), 3);
    assert w1.owners + {"a3"} == {"a2", "a3"};
    Then(w, [CommitClear(P3), CommitRecord(P3)], [Begin(P3, Acquiring(Ask("a3"), 3)), CommitLink(P3)]);
  }

  /** Two activations own the workspace, each with its process alive. */
  ghost predicate TwoLiveOwners(w: World) {
    exists a, b :: a in w.owners && b in w.owners && a != b
      && a in w.minted && b in w.minted && w.Alive(w.minted[a]) && w.Alive(w.minted[b])
  }

  lemma TwoOwnersAreNotCareful(steps: seq<Step>)
    requires IsRun(START, steps) && TwoLiveOwners(After(START, steps))
    ensures !Careful(START, steps)
  {
    if Careful(START, steps) {
      OwnerIsTheOneOnRecord(steps);
    }
  }

  /**
   One reconciliation is enough. It reads the record of a live holder; the holder releases and
   exits, and another writer takes the workspace; only then does it probe, find the holder it read
   gone, and unlink the new writer's record.
   */
  lemma SingleReconciliationBreaksExclusion() returns (steps: seq<Step>)
    ensures IsRun(START, steps) && NonOverlapping(START, steps) && !Careful(START, steps)
    ensures TwoLiveOwners(After(START, steps))
  {
    hide IsRun, After, NonOverlapping, Undisturbed, Careful;
    steps := RecordChangesUnderInspection();
    JudgeGone(STRADDLED, P3, Published(RECORD_1), RECORD_1);
    Then(START, steps, [Judge(P3)]);
    steps := steps + [Judge(P3)];
    var w1 := STRADDLED.(ops := STRADDLED.ops[P3 := Clearing(Decided(RECORD_1))]);
    assert w1.ops == map[P3 := Clearing(Decided(RECORD_1))];
    SecondOwner(w1, Decided(RECORD_1));
    var more := [CommitClear(P3), CommitRecord(P3)] + [Begin(P3, Acquiring(Ask("a3"), 3)), CommitLink(P3)];
    Then(START, steps, more);
    steps := steps + more;
    assert TwoLiveOwners(After(START, steps)) by {
      var end := After(START, steps);
      assert "a2" in end.owners && "a3" in end.owners;
    }
    TwoOwnersAreNotCareful(steps);
  }

  const SUPERSEDE := ReconciliationRequest(Superseded, "operator", ["handed over"], Some("a3"))
  const SUPERSEDING := Reconciling(SUPERSEDE, 1)
  const UNREAD := Decide(SUPERSEDE, Uncertain(UnreadableRecord, None), 1)

  /** `P3` looked while the record of `P1` stood, and read when it was released. */
  const MISSED_1 := STAGE.(ops := map[P3 := Probing(SUPERSEDING, Published(RECORD_1), Unreadable)])

  lemma RecordGoesBetweenLookAndRead() returns (steps: seq<Step>)
    ensures IsRun(START, steps) && After(START, steps) == MISSED_1 && NonOverlapping(START, steps)
  {
    hide IsRun, After, NonOverlapping, Undisturbed, Judged;
    steps := FirstHolder();
    var w1 := HELD_1.(ops := map[P3 := Looking(SUPERSEDING, Published(RECORD_1))]);
    assert w1 == Apply(HELD_1, Begin(P3, SUPERSEDING));
    ChainSchedule(HELD_1, [Begin(P3, SUPERSEDING)], [HELD_1, w1]);
    Then(START, steps, [Begin(P3, SUPERSEDING)]);
    steps := steps + [Begin(P3, SUPERSEDING)];
    ReleaseOwn(w1, P1);
    var release := [Begin(P1, Releasing("a1")), Read(P1)] + [Judge(P1), CommitUnlink(P1)];
    Then(START, steps, release);
    steps := steps + release;
    var w2 := w1.(file := Absent, owners := w1.owners - {"a1"});
    assert w2.owners == {};
    assert MISSED_1.ops == w2.ops[P3 := Probing(SUPERSEDING, Published(RECORD_1), Unreadable)];
    ChainSchedule(w2, [Read(P3)], [w2, MISSED_1]);
    Then(START, steps, [Read(P3)]);
    steps := steps + [Read(P3)];
  }

  lemma JudgeUnread(w: World)
    requires w.ops == MISSED_1.ops
    ensures IsRun(w, [Judge(P3)]) && After(w, [Judge(P3)]) == w.(ops := map[P3 := Clearing(UNREAD)])
    ensures NonOverlapping(w, [Judge(P3)])
  {
    var w' := Apply(w, Judge(P3));
    assert w'.ops == map[P3 := Clearing(UNREAD)];
    ChainSchedule(w, [Judge(P3)], [w, w']);
  }

  /**
   Nor need anyone die. A record released between a reconciliation's look and its read counts as
   unreadable, which permits `superseded`; and that unlinks whatever stands by then.
   */
  lemma GapBeforeTheReadBreaksExclusion() returns (steps: seq<Step>)
    ensures IsRun(START, steps) && NonOverlapping(START, steps) && !Careful(START, steps)
    ensures TwoLiveOwners(After(START, steps)) && After(START, steps).Alive(P1)
  {
    hide IsRun, After, NonOverlapping, Undisturbed, Careful;
    steps := RecordGoesBetweenLookAndRead();
    AcquireFree(MISSED_1, P2, Ask("a2"), 2);
    var take := [Begin(P2, Acquiring(Ask("a2"), 2)), CommitLink(P2)];
    Then(START, steps, take);
    steps := steps + take;
    var w1 := MISSED_1.(file := Published(RECORD_2), owners := MISSED_1.owners + {"a2"});
    assert w1.owners == {"a2"};
    JudgeUnread(w1);
    Then(START, steps, [Judge(P3)]);
    steps := steps + [Judge(P3)];
    var w2 := w1.(ops := map[P3 := Clearing(UNREAD)]);
    SecondOwner(w2, UNREAD);
    var more := [CommitClear(P3), CommitRecord(P3)] + [Begin(P3, Acquiring(Ask("a3"), 3)), CommitLink(P3)];
    Then(START, steps, more);
    steps := steps + more;
    assert TwoLiveOwners(After(START, steps)) by {
      var end := After(START, steps);
      assert "a2" in end.owners && "a3" in end.owners;
    }
    TwoOwnersAreNotCareful(steps);
  }

  // --------------------------------------------------------------- two reconciliations overlap

  lemma HolderIsDead() returns (steps: seq<Step>)
    ensures IsRun(START, steps) && After(START, steps) == DEAD_1
    ensures NonOverlapping(START, steps) && Undisturbed(START, steps)
  {
    hide IsRun, After, NonOverlapping, Undisturbed;
    steps := FirstHolder();
    HolderDies(HELD_1);
    Then(START, steps, [Crash(P1)]);
    steps := steps + [Crash(P1)];
  }

  /** An idle process inspects the dead holder's record without interruption, and decides to free it. */
  lemma DecideToFree(w: World, p: HolderProcess)
    requires w.file == Published(RECORD_1) && w.probeWorks && 1 !in w.running && w.Idle(p)
    ensures var steps := [Begin(p, FREEING), Read(p)] + [Judge(p)];
            && IsRun(w, steps)
            && After(w, steps) == w.(ops := w.ops[p := Clearing(Decided(RECORD_1))])
            && Undisturbed(w, steps)
            && ((forall q :: q in w.ops ==> !BeforeUnlink(w.ops[q])) ==> NonOverlapping(w, steps))
  {
    hide IsRun, After, NonOverlapping, Undisturbed;
    ReadRecord(w, p, FREEING);
    var w1 := w.(ops := w.ops[p := Probing(FREEING, w.file, w.file)]);
    JudgeGone(w1, p, w.file, RECORD_1);
    Then(w, [Begin(p, FREEING), Read(p)], [Judge(p)]);
    assert w1.ops[p := Clearing(Decided(RECORD_1))] == w.ops[p := Clearing(Decided(RECORD_1))];
  }

  /**
   Two may both see the dead holder, each without interruption. The first frees the workspace, a
   new writer takes it, and the second unlinks the new writer's record.
   */
  lemma OverlappingReconciliationsBreakExclusion() returns (steps: seq<Step>)
    ensures IsRun(START, steps) && Undisturbed(START, steps) && !Careful(START, steps)
    ensures TwoLiveOwners(After(START, steps))
  {
    hide IsRun, After, NonOverlapping, Undisturbed, Careful;
    steps := HolderIsDead();
    DecideToFree(DEAD_1, P3);
    var w1 := DEAD_1.(ops := DEAD_1.ops[P3 := Clearing(Decided(RECORD_1))]);
    Then(START, steps, [Begin(P3, FREEING), Read(P3)] + [Judge(P3)]);
    steps := steps + ([Begin(P3, FREEING), Read(P3)] + [Judge(P3)]);
    DecideToFree(w1, P2);
    var w2 := w1.(ops := w1.ops[P2 := Clearing(Decided(RECORD_1))]);
    Then(START, steps, [Begin(P2, FREEING), Read(P2)] + [Judge(P2)]);
    steps := steps + ([Begin(P2, FREEING), Read(P2)] + [Judge(P2)]);
    ClearAndRecord(w2, P2, Decided(RECORD_1));
    var w3 := w2.(file := Absent, ops := w2.ops - {P2}, log := w2.log + [Decided(RECORD_1)]);
    assert w3.ops == map[P3 := Clearing(Decided(RECORD_1))];
    Then(START, steps, [CommitClear(P2), CommitRecord(P2)]);
    steps := steps + [CommitClear(P2), CommitRecord(P2)];
    AcquireFree(w3, P2, Ask("a2"), 2);
    var take := [Begin(P2, Acquiring(Ask("a2"), 2)), CommitLink(P2)];
    Then(START, steps, take);
    steps := steps + take;
    var w4 := w3.(file := Published(RECORD_2), owners := w3.owners + {"a2"});
    assert w4.owners == {"a2"};
    SecondOwner(w4, Decided(RECORD_1));
    var more := [CommitClear(P3), CommitRecord(P3)] + [Begin(P3, Acquiring(Ask("a3"), 3)), CommitLink(P3)];
    Then(START, steps, more);
    steps := steps + more;
    assert TwoLiveOwners(After(START, steps)) by {
      var end := After(START, steps);
      assert "a2" in end.owners && "a3" in end.owners;
    }
    TwoOwnersAreNotCareful(steps);
  }

  // ------------------------------------------------------------------------- evidence is lost

  lemma {:induction false} FreedAppends(w: World, first: seq<Step>, second: seq<Step>)
    requires IsRun(w, first) && IsRun(After(w, first), second) && IsRun(w, first + second)
    ensures Freed(w, first + second) == Freed(w, first) + Freed(After(w, first), second)
    decreases first
  {
    hide Apply, Enabled, FreedBy;
    if first == [] {
      assert first + second == second;
    } else {
      assert (first + second)[1..] == first[1..] + second;
      FreedAppends(Apply(w, first[0]), first[1..], second);
    }
  }

  const DECIDING := DEAD_1.(ops := map[P3 := Clearing(Decided(RECORD_1))])
  const UNLINKED := DEAD_1.(file := Absent, ops := map[P3 := Recording(Decided(RECORD_1))])

  lemma Unlink()
    ensures var steps := [CommitClear(P3)];
            && IsRun(DECIDING, steps) && After(DECIDING, steps) == UNLINKED
            && NonOverlapping(DECIDING, steps) && Undisturbed(DECIDING, steps) && Freed(DECIDING, steps) == 1
  {
    hide Judged;
    assert UNLINKED == Apply(DECIDING, CommitClear(P3));
    ChainSchedule(DECIDING, [CommitClear(P3)], [DECIDING, UNLINKED]);
  }

  /** The append does not come: its process dies, or it fails. */
  lemma NoAppend(last: Step)
    requires last == Crash(P3) || last == AppendFails(P3)
    ensures var steps := [last];
            && IsRun(UNLINKED, steps) && After(UNLINKED, steps).file.Absent? && After(UNLINKED, steps).log == []
            && NonOverlapping(UNLINKED, steps) && Undisturbed(UNLINKED, steps)
  {
    hide Judged;
    ChainSchedule(UNLINKED, [last], [UNLINKED, Apply(UNLINKED, last)]);
  }

  /**
   Evidence can be lost, on the best of schedules: the reconciler unlinks, and dies or fails to
   append. The workspace is free and no record says why.
   */
  lemma UnlinkBeforeAppendLosesEvidence(last: Step) returns (steps: seq<Step>)
    requires last == Crash(P3) || last == AppendFails(P3)
    ensures steps != [] && steps[|steps| - 1] == last
    ensures IsRun(START, steps) && Apart(START, steps)
    ensures After(START, steps).file.Absent? && After(START, steps).log == [] && Freed(START, steps) >= 1
  {
    hide IsRun, After, NonOverlapping, Undisturbed, Freed;
    steps := HolderIsDead();
    DecideToFree(DEAD_1, P3);
    assert DEAD_1.ops[P3 := Clearing(Decided(RECORD_1))] == DECIDING.ops;
    Then(START, steps, [Begin(P3, FREEING), Read(P3)] + [Judge(P3)]);
    steps := steps + ([Begin(P3, FREEING), Read(P3)] + [Judge(P3)]);
    Unlink();
    Then(START, steps, [CommitClear(P3)]);
    FreedAppends(START, steps, [CommitClear(P3)]);
    steps := steps + [CommitClear(P3)];
    NoAppend(last);
    Then(START, steps, [last]);
    FreedAppends(START, steps, [last]);
    steps := steps + [last];
  }
}
