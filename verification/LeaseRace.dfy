/**
 Any number of processes race to acquire one free workspace, and more may arrive: exactly one
 activation wins, every call of another is refused, and the winner's record is never replaced by a
 loser's.
 */
module LeaseRace {
  import opened Prelude
  import opened WorkspaceLease
  import opened WorkspaceStore
  import opened LeaseProtocol
  import opened LeaseSafety

  /** A race: no release, reconciliation or crash, on a host that keeps seeing its processes. */
  predicate RaceStep(s: Step) {
    match s
    case Spawn(_) => true
    case Mint(_, _) => true
    case Begin(_, call) => call.Acquiring?
    case Read(_) => true
    case Judge(_) => true
    case CommitLink(_) => true
    case CommitRename(_) => true
    case _ => false
  }

  ghost predicate IsRace(w: World, steps: seq<Step>) {
    IsRun(w, steps) && forall s :: s in steps ==> RaceStep(s)
  }

  predicate IsAcquire(op: Op) {
    match op
    case Looking(call, _) => call.Acquiring?
    case Probing(call, _, _) => call.Acquiring?
    case Linking(_) => true
    case Renaming(_) => true
    case _ => false
  }

  /** Only acquires are in flight, and none has found a record while there is none. */
  predicate Racing(w: World) {
    forall p :: p in w.ops ==> IsAcquire(w.ops[p]) && (w.file.Absent? ==> w.ops[p].Linking?)
  }

  datatype Verdict = Verdict(a: ActivationId, granted: bool)

  /** The answers a step returns to its caller; a call answers in its last step. */
  function Answers(w: World, s: Step): seq<Verdict>
    requires Enabled(w, s)
  {
    match s
    case Begin(p, Acquiring(request, now)) =>
      if w.file.Absent? && Plan(w, p, s.call, Absent).Refuse? then [Verdict(request.activationId, false)] else []
    case Judge(p) =>
      var op := w.ops[p];
      if op.call.Acquiring? && Plan(w, p, op.call, op.saw).Refuse?
      then [Verdict(op.call.request.activationId, false)] else []
    case CommitLink(p) => [Verdict(w.ops[p].lease.activationId, w.file.Absent?)]
    case CommitRename(p) => [Verdict(w.ops[p].lease.activationId, true)]
    case _ => []
  }

  ghost function Verdicts(w: World, steps: seq<Step>): seq<Verdict>
    requires IsRun(w, steps)
    decreases steps
  {
    if steps == [] then [] else Answers(w, steps[0]) + Verdicts(Apply(w, steps[0]), steps[1..])
  }

  function Calls(steps: seq<Step>): nat {
    if steps == [] then 0 else (if steps[0].Begin? then 1 else 0) + Calls(steps[1..])
  }

  lemma RaceStepKeeps(w: World, s: Step)
    requires Inv(w) && Racing(w) && Enabled(w, s) && RaceStep(s)
    ensures Inv(Apply(w, s)) && Apply(w, s).probeWorks == w.probeWorks
  {
    hide Inv, Judged;
    StepKeepsInv(w, s);
    if s.Begin? {
      JudgedLeavesTheWorld(w, s.p, s.call, Absent);
    } else if s.Judge? {
      JudgedLeavesTheWorld(w, s.p, w.ops[s.p].call, w.ops[s.p].saw);
    }
  }

  lemma JudgedStaysAcquire(w: World, p: HolderProcess, call: Call, saw: LeaseFile)
    requires call.Acquiring? && p in Judged(w, p, call, saw).ops
    requires p in w.ops ==> IsAcquire(w.ops[p])
    ensures IsAcquire(Judged(w, p, call, saw).ops[p])
    ensures saw.Absent? ==> Judged(w, p, call, saw).ops[p].Linking?
  {
  }

  /** Nothing but acquires comes in flight, and records once there stay there. */
  lemma RaceStepKeepsRacing(w: World, s: Step)
    requires Inv(w) && Racing(w) && Enabled(w, s) && RaceStep(s)
    ensures Racing(Apply(w, s))
    ensures w.file.Published? ==> Apply(w, s).file.Published?
  {
    hide Judged, WorldInv, FileInv, OpInv;
    var w' := Apply(w, s);
    if s.Begin? {
      JudgedLeavesTheWorld(w, s.p, s.call, Absent);
    } else if s.Judge? {
      JudgedLeavesTheWorld(w, s.p, w.ops[s.p].call, w.ops[s.p].saw);
    }
    forall p | p in w'.ops
      ensures IsAcquire(w'.ops[p]) && (w'.file.Absent? ==> w'.ops[p].Linking?)
    {
      assert p in w.ops ==> IsAcquire(w.ops[p]);
      if s.Begin? && w.file.Absent? && p == s.p {
        JudgedStaysAcquire(w, p, s.call, Absent);
      } else if s.Judge? && p == s.p {
        JudgedStaysAcquire(w, p, w.ops[p].call, w.ops[p].saw);
      }
    }
  }

  lemma StepAnswers(w: World, s: Step)
    requires Racing(w) && Enabled(w, s) && RaceStep(s)
    ensures |w.ops| + (if s.Begin? then 1 else 0) == |Answers(w, s)| + |Apply(w, s).ops|
  {
    var w' := Apply(w, s);
    if s.Begin? {
      BeginOps(w, s);
    } else if s.Read? {
      assert w'.ops.Keys == w.ops.Keys;
    } else if s.Judge? {
      assert IsAcquire(w.ops[s.p]);
      assert w'.ops.Keys == if Answers(w, s) == [] then w.ops.Keys else w.ops.Keys - {s.p};
    } else if s.CommitLink? || s.CommitRename? {
      assert w'.ops.Keys == w.ops.Keys - {s.p};
    }
  }

  lemma BeginOps(w: World, s: Step)
    requires Enabled(w, s) && s.Begin? && RaceStep(s)
    ensures Apply(w, s).ops.Keys == if Answers(w, s) == [] then w.ops.Keys + {s.p} else w.ops.Keys
  {
  }

  /** Every call is answered once: calls made are answers given plus calls still in flight. */
  lemma {:induction false} EveryCallAnswersOnce(w: World, steps: seq<Step>)
    requires Inv(w) && Racing(w) && IsRace(w, steps)
    ensures |w.ops| + Calls(steps) == |Verdicts(w, steps)| + |After(w, steps).ops|
    decreases steps
  {
    hide Apply, Enabled, Answers, Inv, Racing, RaceStep;
    if steps != [] {
      assert steps[0] in steps;
      StepAnswers(w, steps[0]);
      RaceStepKeeps(w, steps[0]);
      RaceStepKeepsRacing(w, steps[0]);
      EveryCallAnswersOnce(Apply(w, steps[0]), steps[1..]);
    }
  }

  /** A judgement in a race changes no record, and grants nothing by itself. */
  lemma JudgementAnswers(w: World, s: Step)
    requires Inv(w) && Racing(w) && w.probeWorks && Enabled(w, s) && s.Judge?
    ensures Apply(w, s).file == w.file
    ensures forall v :: v in Answers(w, s) ==> !v.granted && !Names(w.file, v.a)
  {
    assert OpInv(w, s.p) && IsAcquire(w.ops[s.p]);
    RefusedAtTheLook(w, s.p);
    JudgedLeavesTheWorld(w, s.p, w.ops[s.p].call, w.ops[s.p].saw);
  }

  /** Facts about one step taken while a live holder's record stands. */
  lemma StandingRecordAnswers(w: World, s: Step)
    requires Inv(w) && Racing(w) && w.probeWorks && Enabled(w, s) && RaceStep(s)
    requires w.file.Published?
    ensures var w' := Apply(w, s);
            w'.file.Published? && w'.file.lease.activationId == w.file.lease.activationId
            && w'.file.lease.holder == w.file.lease.holder
    ensures forall v :: v in Answers(w, s) ==> (v.granted <==> v.a == w.file.lease.activationId)
  {
    hide Judged;
    if IsCommit(s) {
      assert OpInv(w, s.p);
    }
    if s.Judge? {
      JudgementAnswers(w, s);
    }
  }

  /** Once a record stands in a race, it names its holder to the end and only it is granted. */
  lemma {:induction false} RecordDecidesTheRest(w: World, steps: seq<Step>)
    requires Inv(w) && Racing(w) && w.probeWorks && IsRace(w, steps)
    requires w.file.Published?
    ensures var end := After(w, steps);
            end.file.Published? && end.file.lease.activationId == w.file.lease.activationId
            && end.file.lease.holder == w.file.lease.holder
    ensures forall v :: v in Verdicts(w, steps) ==> (v.granted <==> v.a == w.file.lease.activationId)
    decreases steps
  {
    hide Apply, Enabled, Answers, Inv, Racing, RaceStep;
    if steps != [] {
      assert steps[0] in steps;
      RaceStepKeeps(w, steps[0]);
      RaceStepKeepsRacing(w, steps[0]);
      StandingRecordAnswers(w, steps[0]);
      RecordDecidesTheRest(Apply(w, steps[0]), steps[1..]);
    }
  }

  /** A step on a free workspace answers nobody, or is the link that decides. */
  lemma FreeStepAnswers(w: World, s: Step)
    requires Inv(w) && Racing(w) && w.probeWorks && Enabled(w, s) && RaceStep(s) && w.file.Absent?
    ensures var w' := Apply(w, s);
            if w'.file.Absent? then Answers(w, s) == []
            else w'.file.Published? && Answers(w, s) == [Verdict(w'.file.lease.activationId, true)]
  {
    if IsCommit(s) {
      assert OpInv(w, s.p);
    }
    if s.Begin? {
      JudgedLeavesTheWorld(w, s.p, s.call, Absent);
    }
  }

  /** While no record stands nobody has been answered; the first answer is the first link's. */
  lemma {:induction false} FirstLinkDecides(w: World, steps: seq<Step>)
    requires Inv(w) && Racing(w) && w.probeWorks && IsRace(w, steps) && w.file.Absent?
    ensures After(w, steps).file.Absent? ==> Verdicts(w, steps) == []
    ensures !After(w, steps).file.Absent? ==>
              && After(w, steps).file.Published?
              && (forall v :: v in Verdicts(w, steps) ==>
                    (v.granted <==> v.a == After(w, steps).file.lease.activationId))
              && Verdict(After(w, steps).file.lease.activationId, true) in Verdicts(w, steps)
    decreases steps
  {
    hide Apply, Enabled, Answers, Inv, Racing, RaceStep;
    if steps != [] {
      var s, w' := steps[0], Apply(w, steps[0]);
      assert s in steps;
      RaceStepKeeps(w, s);
      RaceStepKeepsRacing(w, s);
      FreeStepAnswers(w, s);
      if w'.file.Absent? {
        FirstLinkDecides(w', steps[1..]);
      } else {
        RecordDecidesTheRest(w', steps[1..]);
      }
    }
  }

  /**
   The race theorem. From a free workspace with nothing in flight, when every call has answered:
   one activation stands on record and owns the workspace, a call was granted exactly if it is that
   activation's, and at every moment from the winning link on the record names the winner.
   */
  lemma RaceHasExactlyOneWinner(w: World, steps: seq<Step>, k: nat)
    requires Inv(w) && w.probeWorks && w.file.Absent? && w.ops == map[]
    requires IsRace(w, steps) && Calls(steps) > 0 && After(w, steps).ops == map[]
    requires k <= |steps|
    ensures var end := After(w, steps);
            && end.file.Published?
            && |Verdicts(w, steps)| == Calls(steps)
            && (forall v :: v in Verdicts(w, steps) ==> (v.granted <==> v.a == end.file.lease.activationId))
            && Verdict(end.file.lease.activationId, true) in Verdicts(w, steps)
            && end.owners == {end.file.lease.activationId}
    ensures IsRun(w, steps[..k])
    ensures After(w, steps[..k]).file.Published? ==>
              After(w, steps[..k]).file.lease.activationId == After(w, steps).file.lease.activationId
  {
    hide Inv, Apply, Enabled, RaceStep, Answers;
    EveryCallAnswersOnce(w, steps);
    FirstLinkDecides(w, steps);
    RaceKeepsInv(w, steps);
    WinnerOwns(w, steps);
    SplitRun(w, steps, k);
    FirstLinkDecides(w, steps[..k]);
    RaceKeepsInv(w, steps[..k]);
    if After(w, steps[..k]).file.Published? {
      RecordDecidesTheRest(After(w, steps[..k]), steps[k..]);
    }
  }

  lemma WinnerOwns(w: World, steps: seq<Step>)
    requires Inv(w) && Racing(w) && w.file.Absent? && IsRace(w, steps) && After(w, steps).file.Published?
    ensures After(w, steps).owners == {After(w, steps).file.lease.activationId}
  {
    hide Inv, Apply, Enabled, RaceStep;
    RaceKeepsInv(w, steps);
    InvIsExclusive(After(w, steps));
  }

  lemma {:induction false} RaceKeepsInv(w: World, steps: seq<Step>)
    requires Inv(w) && Racing(w) && IsRace(w, steps)
    ensures Inv(After(w, steps)) && Racing(After(w, steps)) && After(w, steps).probeWorks == w.probeWorks
    ensures w.file.Absent? || w.LiveRecord() ==> After(w, steps).file.Absent? || After(w, steps).LiveRecord()
    decreases steps
  {
    hide Apply, Enabled, Inv, Racing, RaceStep;
    if steps != [] {
      assert steps[0] in steps;
      RaceStepKeeps(w, steps[0]);
      RaceStepKeepsRacing(w, steps[0]);
      RecordsStayLive(w, steps[0]);
      RaceKeepsInv(Apply(w, steps[0]), steps[1..]);
    }
  }

  lemma RecordsStayLive(w: World, s: Step)
    requires Inv(w) && Racing(w) && Enabled(w, s) && RaceStep(s)
    ensures w.file.Absent? || w.LiveRecord() ==> Apply(w, s).file.Absent? || Apply(w, s).LiveRecord()
  {
    hide Judged;
    if s.Begin? {
      JudgedLeavesTheWorld(w, s.p, s.call, Absent);
    } else if s.Judge? {
      JudgedLeavesTheWorld(w, s.p, w.ops[s.p].call, w.ops[s.p].saw);
    }
    assert IsCommit(s) ==> OpInv(w, s.p);
  }

  lemma {:induction false} SplitRun(w: World, steps: seq<Step>, k: nat)
    requires IsRun(w, steps) && k <= |steps|
    ensures IsRun(w, steps[..k]) && IsRun(After(w, steps[..k]), steps[k..])
    ensures After(After(w, steps[..k]), steps[k..]) == After(w, steps)
    decreases k
  {
    hide Apply, Enabled;
    if k > 0 {
      SplitRun(Apply(w, steps[0]), steps[1..], k - 1);
      assert steps[..k][1..] == steps[1..][..k - 1];
      assert steps[1..][k - 1..] == steps[k..];
    } else {
      assert steps[..0] == [] && steps[0..] == steps;
    }
  }
}
