/**
 Attempts under one activation: resume and retry keep the activation id and advance the printed
 attempt number.
 */
module Attempts {
  import opened Prelude
  import opened Decimal
  import opened ActivationHost

  type ActivationId = string
  type AttemptId = string

  // -------------------------------------------------------------------------- attempt ids

  predicate IsLineTerminator(c: char) {
    c == '\n' || c == '\r' || c == '\U{2028}' || c == '\U{2029}'
  }

  predicate OneLine(s: string) {
    forall c :: c in s ==> !IsLineTerminator(c)
  }

  function LastColon(s: string): (k: nat)
    requires ':' in s
    ensures k < |s| && s[k] == ':' && forall i :: k < i < |s| ==> s[i] != ':'
  {
    if s[|s| - 1] == ':' then |s| - 1 else LastColon(s[..|s| - 1])
  }

  /** The pattern `^(.*):(\d+)$`: everything after the last colon is digits, and `.` crosses no line. */
  predicate Numbered(s: string) {
    ':' in s && s[LastColon(s) + 1..] != "" && AllDigits(s[LastColon(s) + 1..]) && OneLine(s[..LastColon(s)])
  }

  function NextAttemptId(current: AttemptId): AttemptId {
    if !Numbered(current) then current + ":2"
    else
      var k := LastColon(current);
      current[..k] + ":" + Print(Parse(current[k + 1..]) + 1)
  }

  /** `att:<suffix>:<n>`, as dispatch prints it. */
  function AttemptIdOf(suffix: string, n: nat): AttemptId {
    "att:" + suffix + ":" + Print(n)
  }

  lemma ColonBeforeDigits(prefix: string, digits: string)
    requires AllDigits(digits)
    ensures ':' in prefix + ":" + digits && LastColon(prefix + ":" + digits) == |prefix|
  {
    var s := prefix + ":" + digits;
    assert s[|prefix|] == ':';
    assert s[|prefix| + 1..] == digits;
    forall i | |prefix| < i < |s|
      ensures s[i] != ':'
    {
      assert IsDigit(digits[i - |prefix| - 1]);
    }
  }

  lemma NextAfter(prefix: string, n: nat)
    requires OneLine(prefix)
    ensures NextAttemptId(prefix + ":" + Print(n)) == prefix + ":" + Print(n + 1)
  {
    var s := prefix + ":" + Print(n);
    ColonBeforeDigits(prefix, Print(n));
    assert s[|prefix| + 1..] == Print(n) && s[..|prefix|] == prefix;
    ParsePrint(n);
  }

  /** Parsing undoes printing: the attempt after number `n` is number `n + 1`, suffix kept. */
  lemma NextIsOneMore(suffix: string, n: nat)
    requires OneLine(suffix)
    ensures NextAttemptId(AttemptIdOf(suffix, n)) == AttemptIdOf(suffix, n + 1)
  {
    assert OneLine("att:" + suffix);
    NextAfter("att:" + suffix, n);
  }

  /** A number behind a line break is no attempt number: the pattern's `.` stops there. */
  lemma NumbersStopAtLineBreaks(prefix: string, n: nat)
    requires exists c :: c in prefix && (c == '\n' || c == '\r' || c == '\U{2028}' || c == '\U{2029}')
    ensures NextAttemptId(prefix + ":" + Print(n)) == prefix + ":" + Print(n) + ":2"
  {
    var s := prefix + ":" + Print(n);
    ColonBeforeDigits(prefix, Print(n));
    assert s[..|prefix|] == prefix;
  }

  /** An id without a number counts as attempt one: two and three come after it. */
  lemma UnnumberedCountsAsOne(current: AttemptId)
    requires OneLine(current) && !Numbered(current)
    ensures NextAttemptId(current) == current + ":" + Print(2)
    ensures NextAttemptId(NextAttemptId(current)) == current + ":" + Print(3)
  {
    assert Print(2) == "2";
    NextAfter(current, 2);
  }

  lemma AttemptIdsAreInjective(suffix: string, m: nat, n: nat)
    requires AttemptIdOf(suffix, m) == AttemptIdOf(suffix, n)
    ensures m == n
  {
    var prefix := "att:" + suffix + ":";
    assert AttemptIdOf(suffix, m)[|prefix|..] == Print(m);
    assert AttemptIdOf(suffix, n)[|prefix|..] == Print(n);
    PrintIsInjective(m, n);
  }

  // -------------------------------------------------------------------- resume and retry

  datatype ActivationState =
    | StateStarting | StateRunning | StateWaiting | StateNeedsReply | StateEscalated
    | StateSettled | StateStopping | StateStopped | StateFailed | StateUncertain

  const RESUMABLE_STATES: set<ActivationState> := {StateSettled, StateWaiting, StateNeedsReply, StateEscalated}
  const RETRYABLE_STATES: set<ActivationState> := {StateFailed}

  datatype Snapshot = Snapshot(
    activationId: ActivationId,
    attemptId: AttemptId,
    state: ActivationState,
    writes: bool,
    requestedModel: Option<ModelName>,
    resolvedModel: ModelName,
    modelOverride: bool,
    session: SessionId)

  datatype RefusalReason = UnknownActivation | NotResumable | OverrideUnavailable | LeaseRefused

  /**
   `Rejected` is a `DispatchRejectedError`; `SessionNotCreated` any other error, from session
   creation; `Awaiting` is a retry that has not returned.
   */
  datatype Outcome = Accepted(attemptId: AttemptId) | Rejected(reason: RefusalReason) | SessionNotCreated | Awaiting

  /** A retry at one of its two awaits: its model being validated, its session being created. */
  datatype Flight = Validating(name: ModelName) | Creating(name: ModelName, resolved: ModelName, attemptId: AttemptId)

  type CallId = nat

  /** An activation's record, and the retries of it in flight. */
  datatype Activation = Activation(snapshot: Snapshot, flights: map<CallId, Flight>)

  function Begins(s: Snapshot): Snapshot {
    s.(attemptId := NextAttemptId(s.attemptId), state := StateStarting)
  }

  function Resumed(a: Activation, leaseGranted: bool): (Outcome, Activation) {
    var s := a.snapshot;
    if s.state !in RESUMABLE_STATES then (Rejected(NotResumable), a)
    else if s.writes && !leaseGranted then (Rejected(LeaseRefused), a)
    else (Accepted(NextAttemptId(s.attemptId)), a.(snapshot := Begins(s)))
  }

  /** An empty override is no override. */
  predicate Overrides(modelOverride: Option<ModelName>) {
    modelOverride.Some? && modelOverride.value != ""
  }

  /** A retry to its first await, which only an override has. */
  function RetryBegun(a: Activation, call: CallId, modelOverride: Option<ModelName>, leaseGranted: bool): (Outcome, Activation) {
    var s := a.snapshot;
    if s.state !in RETRYABLE_STATES then (Rejected(NotResumable), a)
    else if Overrides(modelOverride) then
      (Awaiting, a.(flights := a.flights[call := Validating(modelOverride.value)]))
    else if s.writes && !leaseGranted then (Rejected(LeaseRefused), a)
    else (Accepted(NextAttemptId(s.attemptId)), a.(snapshot := Begins(s)))
  }

  /** From the validation's answer to the session's creation. The state is not looked at again. */
  function RetryValidated(a: Activation, call: CallId, check: Check, leaseGranted: bool): (Outcome, Activation)
    requires call in a.flights && a.flights[call].Validating?
  {
    var name, landed := a.flights[call].name, a.(flights := a.flights - {call});
    if check.Unavailable? then (Rejected(OverrideUnavailable), landed)
    else if a.snapshot.writes && !leaseGranted then (Rejected(LeaseRefused), landed)
    else
      var next := Begins(a.snapshot);
      (Awaiting, Activation(next, a.flights[call := Creating(name, ResolvedName(name, check), next.attemptId)]))
  }

  function RetryCreated(a: Activation, call: CallId, created: Option<SessionId>): (Outcome, Activation)
    requires call in a.flights && a.flights[call].Creating?
  {
    var flight, landed := a.flights[call], a.(flights := a.flights - {call});
    if created.None? then (SessionNotCreated, landed)
    else
      (Accepted(flight.attemptId),
       landed.(snapshot := a.snapshot.(requestedModel := Some(flight.name), resolvedModel := flight.resolved,
                                       modelOverride := true, session := created.value)))
  }

  /** The fleet: its registry map, and the two calls that start a new attempt. */
  class FleetHost {
    var records: map<ActivationId, Activation>

    /** Each record stands under its own id. */
    predicate Valid()
      reads this
    {
      forall id :: id in records ==> records[id].snapshot.activationId == id
    }

    constructor ()
      ensures Valid() && records == map[]
    {
      records := map[];
    }

    method Register(activation: Activation)
      requires Valid()
      modifies this
      ensures Valid()
      ensures records == old(records)[activation.snapshot.activationId := activation]
    {
      records := records[activation.snapshot.activationId := activation];
    }

    method Remove(activationId: ActivationId)
      requires Valid()
      modifies this
      ensures Valid()
      ensures records == old(records) - {activationId}
    {
      records := records - {activationId};
    }

    method Resume(activationId: ActivationId, leaseGranted: bool) returns (outcome: Outcome)
      requires Valid()
      modifies this
      ensures Valid()
      ensures activationId !in old(records) ==> outcome == Rejected(UnknownActivation) && records == old(records)
      ensures activationId in old(records) ==>
                (outcome, records) == var (o, a) := Resumed(old(records)[activationId], leaseGranted);
                                      (o, old(records)[activationId := a])
      ensures outcome.Rejected? ==> records == old(records)
      ensures outcome.Accepted? <==>
              && activationId in old(records)
              && var s := old(records)[activationId].snapshot;
                 && (s.state.StateSettled? || s.state.StateWaiting? || s.state.StateNeedsReply? || s.state.StateEscalated?)
                 && (s.writes ==> leaseGranted)
      ensures outcome.Accepted? ==>
                && records.Keys == old(records.Keys)
                && outcome.attemptId == NextAttemptId(old(records)[activationId].snapshot.attemptId)
                && records[activationId].snapshot ==
                     old(records)[activationId].snapshot.(attemptId := outcome.attemptId, state := StateStarting)
    {
      if activationId !in records { return Rejected(UnknownActivation); }
      var record := records[activationId];
      assert records[activationId := record] == records;
      if record.snapshot.state !in RESUMABLE_STATES { return Rejected(NotResumable); }
      var attemptId := NextAttemptId(record.snapshot.attemptId);
      if record.snapshot.writes && !leaseGranted { return Rejected(LeaseRefused); }
      record := record.(snapshot := record.snapshot.(attemptId := attemptId));
      record := record.(snapshot := record.snapshot.(state := StateStarting));
      records := records[activationId := record];
      return Accepted(attemptId);
    }

    method Retry(activationId: ActivationId, call: CallId, modelOverride: Option<ModelName>, leaseGranted: bool)
        returns (outcome: Outcome)
      requires Valid()
      modifies this
      ensures Valid()
      ensures activationId !in old(records) ==> outcome == Rejected(UnknownActivation) && records == old(records)
      ensures activationId in old(records) ==>
                (outcome, records) == var (o, a) := RetryBegun(old(records)[activationId], call, modelOverride, leaseGranted);
                                      (o, old(records)[activationId := a])
      ensures outcome.Rejected? ==> records == old(records)
      ensures !outcome.Rejected? ==>
                && activationId in old(records) && old(records)[activationId].snapshot.state.StateFailed?
                && (outcome.Awaiting? <==> modelOverride.Some? && modelOverride.value != "")
      ensures activationId in old(records) && old(records)[activationId].snapshot.state.StateFailed? ==>
                (outcome.Rejected? <==>
                   (modelOverride == None || modelOverride == Some(""))
                   && old(records)[activationId].snapshot.writes && !leaseGranted)
      ensures outcome.Accepted? ==>
                && outcome.attemptId == NextAttemptId(old(records)[activationId].snapshot.attemptId)
                && activationId in records
                && records[activationId].snapshot ==
                     old(records)[activationId].snapshot.(attemptId := outcome.attemptId, state := StateStarting)
    {
      if activationId !in records { return Rejected(UnknownActivation); }
      var record := records[activationId];
      assert records[activationId := record] == records;
      if record.snapshot.state !in RETRYABLE_STATES { return Rejected(NotResumable); }
      if Overrides(modelOverride) {
        records := records[activationId := record.(flights := record.flights[call := Validating(modelOverride.value)])];
        return Awaiting;
      }
      var attemptId := NextAttemptId(record.snapshot.attemptId);
      if record.snapshot.writes && !leaseGranted { return Rejected(LeaseRefused); }
      record := record.(snapshot := record.snapshot.(attemptId := attemptId, state := StateStarting));
      records := records[activationId := record];
      return Accepted(attemptId);
    }

    method ModelValidated(activationId: ActivationId, call: CallId, check: Check, leaseGranted: bool)
        returns (outcome: Outcome)
      requires activationId in records && call in records[activationId].flights
      requires Valid() && records[activationId].flights[call].Validating?
      modifies this
      ensures Valid()
      ensures (outcome, records) == var (o, a) := RetryValidated(old(records)[activationId], call, check, leaseGranted);
                                    (o, old(records)[activationId := a])
      ensures activationId in records
      ensures outcome.Rejected? ==> records[activationId].snapshot == old(records)[activationId].snapshot
      ensures outcome.Rejected? <==>
              check.Unavailable? || (old(records)[activationId].snapshot.writes && !leaseGranted)
      ensures outcome == Rejected(OverrideUnavailable) <==> check.Unavailable?
      ensures !outcome.Rejected? ==>
                && outcome.Awaiting?
                && var before := old(records)[activationId].snapshot;
                   records[activationId].snapshot ==
                     before.(attemptId := NextAttemptId(before.attemptId), state := StateStarting)
    {
      var record := records[activationId];
      var name := record.flights[call].name;
      var landed := record.(flights := record.flights - {call});
      if check.Unavailable? {
        records := records[activationId := landed];
        return Rejected(OverrideUnavailable);
      }
      var attemptId := NextAttemptId(record.snapshot.attemptId);
      if record.snapshot.writes && !leaseGranted {
        records := records[activationId := landed];
        return Rejected(LeaseRefused);
      }
      record := record.(snapshot := record.snapshot.(attemptId := attemptId, state := StateStarting));
      record := record.(flights := record.flights[call := Creating(name, ResolvedName(name, check), attemptId)]);
      records := records[activationId := record];
      return Awaiting;
    }

    method SessionCreated(activationId: ActivationId, call: CallId, created: Option<SessionId>) returns (outcome: Outcome)
      requires activationId in records && call in records[activationId].flights
      requires Valid() && records[activationId].flights[call].Creating?
      modifies this
      ensures Valid()
      ensures (outcome, records) == var (o, a) := RetryCreated(old(records)[activationId], call, created);
                                    (o, old(records)[activationId := a])
      ensures activationId in records && call !in records[activationId].flights
      ensures created.None? ==>
                outcome == SessionNotCreated && records[activationId].snapshot == old(records)[activationId].snapshot
      ensures created.Some? ==>
                var flight := old(records)[activationId].flights[call];
                && outcome == Accepted(flight.attemptId)
                && records[activationId].snapshot == old(records)[activationId].snapshot.(
                     requestedModel := Some(flight.name), resolvedModel := flight.resolved, modelOverride := true,
                     session := created.value)
    {
      var record := records[activationId];
      var flight := record.flights[call];
      record := record.(flights := record.flights - {call});
      if created.Some? {
        record := record.(snapshot := record.snapshot.(session := created.value, requestedModel := Some(flight.name)));
        record := record.(snapshot := record.snapshot.(resolvedModel := flight.resolved, modelOverride := true));
      }
      records := records[activationId := record];
      return if created.Some? then Accepted(flight.attemptId) else SessionNotCreated;
    }
  }

  // ------------------------------------------------------------------------------- theorems

  /**
   What runs between two awaits, or a state the session's events put the record in. A fallback walk
   begun by dispatch may still be at its own awaits; `WalkInstalls` is what it does after them.
   */
  datatype Step =
    | DoResume(leaseGranted: bool)
    | DoRetry(call: CallId, modelOverride: Option<ModelName>, leaseGranted: bool)
    | DoValidated(call: CallId, check: Check, leaseGranted: bool)
    | DoCreated(call: CallId, created: Option<SessionId>)
    | Became(state: ActivationState)
    | WalkInstalls(session: SessionId, model: ModelName)

  predicate Enabled(a: Activation, step: Step) {
    match step
    case DoRetry(call, _, _) => call !in a.flights
    case DoValidated(call, _, _) => call in a.flights && a.flights[call].Validating?
    case DoCreated(call, _) => call in a.flights && a.flights[call].Creating?
    case _ => true
  }

  function Apply(a: Activation, step: Step): Activation
    requires Enabled(a, step)
  {
    match step
    case DoResume(granted) => Resumed(a, granted).1
    case DoRetry(call, name, granted) => RetryBegun(a, call, name, granted).1
    case DoValidated(call, check, granted) => RetryValidated(a, call, check, granted).1
    case DoCreated(call, created) => RetryCreated(a, call, created).1
    case Became(state) => a.(snapshot := a.snapshot.(state := state))
    case WalkInstalls(session, model) =>
      a.(snapshot := a.snapshot.(session := session, resolvedModel := model, state := StateStarting))
  }

  ghost predicate IsRun(a: Activation, steps: seq<Step>)
    decreases steps
  {
    steps == [] || (Enabled(a, steps[0]) && IsRun(Apply(a, steps[0]), steps[1..]))
  }

  ghost function After(a: Activation, steps: seq<Step>): Activation
    requires IsRun(a, steps)
    decreases steps
  {
    if steps == [] then a else After(Apply(a, steps[0]), steps[1..])
  }

  /**
   The call's step is accepted so far as to begin an attempt: a resume, a retry without override, or a
   validation that passes, each with its lease.
   */
  predicate BeginsAttempt(a: Activation, step: Step) {
    match step
    case DoResume(granted) => a.snapshot.state in RESUMABLE_STATES && (a.snapshot.writes ==> granted)
    case DoRetry(_, name, granted) =>
      a.snapshot.state in RETRYABLE_STATES && !Overrides(name) && (a.snapshot.writes ==> granted)
    case DoValidated(_, check, granted) => check.Available? && (a.snapshot.writes ==> granted)
    case _ => false
  }

  /** The ids of the attempts begun. */
  ghost function Begun(a: Activation, steps: seq<Step>): seq<AttemptId>
    requires IsRun(a, steps)
    decreases steps
  {
    if steps == [] then []
    else
      var next := Apply(a, steps[0]);
      (if BeginsAttempt(a, steps[0]) then [next.snapshot.attemptId] else []) + Begun(next, steps[1..])
  }

  lemma NextIsAnother(suffix: string, n: nat)
    requires OneLine(suffix)
    ensures NextAttemptId(AttemptIdOf(suffix, n)) == AttemptIdOf(suffix, n + 1) != AttemptIdOf(suffix, n)
  {
    NextIsOneMore(suffix, n);
    if AttemptIdOf(suffix, n + 1) == AttemptIdOf(suffix, n) {
      AttemptIdsAreInjective(suffix, n + 1, n);
    }
  }

  /** A step changes the attempt id exactly if it begins an attempt, and then to the next number. */
  lemma IdChangesExactlyWhenBegun(a: Activation, step: Step, suffix: string, n: nat)
    requires OneLine(suffix) && a.snapshot.attemptId == AttemptIdOf(suffix, n) && Enabled(a, step)
    ensures var next := Apply(a, step).snapshot.attemptId;
            && (next != a.snapshot.attemptId <==> BeginsAttempt(a, step))
            && next == AttemptIdOf(suffix, if BeginsAttempt(a, step) then n + 1 else n)
  {
    hide NextAttemptId, AttemptIdOf, OneLine;
    NextIsAnother(suffix, n);
  }

  /**
   However resumes, retries and a fallback walk interleave at their awaits, the activation id never
   changes, the attempt number counts the attempts begun, and the k-th of them has the k-th number.
   */
  lemma {:induction false} AttemptNumberCountsAttempts(a: Activation, steps: seq<Step>, suffix: string, n: nat)
    requires OneLine(suffix) && a.snapshot.attemptId == AttemptIdOf(suffix, n) && IsRun(a, steps)
    ensures After(a, steps).snapshot.activationId == a.snapshot.activationId
    ensures After(a, steps).snapshot.attemptId == AttemptIdOf(suffix, n + |Begun(a, steps)|)
    ensures forall k :: 0 <= k < |Begun(a, steps)| ==> Begun(a, steps)[k] == AttemptIdOf(suffix, n + 1 + k)
    decreases steps
  {
    hide NextAttemptId, AttemptIdOf, OneLine, BeginsAttempt;
    if steps != [] {
      IdChangesExactlyWhenBegun(a, steps[0], suffix, n);
      AttemptNumberCountsAttempts(Apply(a, steps[0]), steps[1..], suffix, if BeginsAttempt(a, steps[0]) then n + 1 else n);
    }
  }

  lemma NumberedIdsDiffer(ids: seq<AttemptId>, suffix: string, n: nat)
    requires forall k :: 0 <= k < |ids| ==> ids[k] == AttemptIdOf(suffix, n + 1 + k)
    ensures AttemptIdOf(suffix, n) !in ids
    ensures forall i, j :: 0 <= i < j < |ids| ==> ids[i] != ids[j]
  {
    hide AttemptIdOf;
    forall i, j | 0 <= i < j < |ids|
      ensures ids[i] != ids[j]
    {
      if ids[i] == ids[j] {
        AttemptIdsAreInjective(suffix, n + 1 + i, n + 1 + j);
      }
    }
    forall i | 0 <= i < |ids|
      ensures ids[i] != AttemptIdOf(suffix, n)
    {
      if ids[i] == AttemptIdOf(suffix, n) {
        AttemptIdsAreInjective(suffix, n + 1 + i, n);
      }
    }
  }

  /** Attempt ids never collide: not with each other, not with the one dispatch began with. */
  lemma AttemptIdsNeverCollide(a: Activation, steps: seq<Step>, suffix: string, n: nat)
    requires OneLine(suffix) && a.snapshot.attemptId == AttemptIdOf(suffix, n) && IsRun(a, steps)
    ensures a.snapshot.attemptId !in Begun(a, steps)
    ensures forall i, j :: 0 <= i < j < |Begun(a, steps)| ==> Begun(a, steps)[i] != Begun(a, steps)[j]
  {
    hide AttemptIdOf, Begun, After, IsRun, OneLine;
    AttemptNumberCountsAttempts(a, steps, suffix, n);
    NumberedIdsDiffer(Begun(a, steps), suffix, n);
  }

  /** What the world answers one retry. */
  datatype RetryRequest = RetryRequest(modelOverride: Option<ModelName>, check: Check, leaseGranted: bool, created: Option<SessionId>)

  /** A retry nothing comes between. */
  function Retried(s: Snapshot, r: RetryRequest): (Outcome, Snapshot) {
    var (outcome, a) := RetryBegun(Activation(s, map[]), 0, r.modelOverride, r.leaseGranted);
    if !outcome.Awaiting? then (outcome, a.snapshot)
    else
      var (outcome', a') := RetryValidated(a, 0, r.check, r.leaseGranted);
      if !outcome'.Awaiting? then (outcome', a'.snapshot)
      else
        var (outcome'', a'') := RetryCreated(a', 0, r.created);
        (outcome'', a''.snapshot)
  }

  /**
   A retry that is not accepted leaves the snapshot as it was, except exactly when an available
   override passed the lease and its session could not be created. Then the attempt is begun and
   nothing runs it, in a state neither call accepts.
   */
  lemma RetryIsHalfDoneExactlyWhen(s: Snapshot, r: RetryRequest, granted: bool, r': RetryRequest)
    ensures var (outcome, next) := Retried(s, r);
            !outcome.Accepted? ==>
              && (next != s <==>
                    s.state == StateFailed && Overrides(r.modelOverride) && r.check.Available?
                    && (s.writes ==> r.leaseGranted) && r.created.None?)
              && (next != s ==>
                    next.attemptId == NextAttemptId(s.attemptId)
                    && Resumed(Activation(next, map[]), granted) == (Rejected(NotResumable), Activation(next, map[]))
                    && Retried(next, r') == (Rejected(NotResumable), next))
  {
  }

  // --------------------------------------------------------------------------- overlapping calls

  /** The states a call may start an attempt in. */
  function MayStartIn(step: Step): set<ActivationState> {
    match step
    case DoResume(_) => RESUMABLE_STATES
    case DoRetry(_, _, _) => RETRYABLE_STATES
    case DoValidated(_, _, _) => RETRYABLE_STATES
    case _ => {}
  }

  /** Whatever moves the attempt id is a call that may start an attempt in the state it finds. */
  ghost predicate StartsRightly(a: Activation, steps: seq<Step>)
    requires IsRun(a, steps)
    decreases steps
  {
    steps == []
    || (var next := Apply(a, steps[0]);
        && (next.snapshot.attemptId != a.snapshot.attemptId ==> a.snapshot.state in MayStartIn(steps[0]))
        && StartsRightly(next, steps[1..]))
  }

  /** A check the code lacks: a validated retry finds the activation still failed. */
  predicate StillFailed(a: Activation, step: Step) {
    step.DoValidated? && BeginsAttempt(a, step) ==> a.snapshot.state in RETRYABLE_STATES
  }

  ghost predicate AlwaysStillFailed(a: Activation, steps: seq<Step>)
    requires IsRun(a, steps)
    decreases steps
  {
    steps == [] || (StillFailed(a, steps[0]) && AlwaysStillFailed(Apply(a, steps[0]), steps[1..]))
  }

  /**
   Only a failed activation is retried and only a resumable one resumed, over a whole run, exactly when
   each validated retry finds the activation still failed.
   */
  lemma {:induction false} AttemptsStartRightlyExactlyWhen(a: Activation, steps: seq<Step>, suffix: string, n: nat)
    requires OneLine(suffix) && a.snapshot.attemptId == AttemptIdOf(suffix, n) && IsRun(a, steps)
    ensures StartsRightly(a, steps) <==> AlwaysStillFailed(a, steps)
    decreases steps
  {
    hide AttemptIdOf, OneLine, Apply, Enabled;
    if steps != [] {
      IdChangesExactlyWhenBegun(a, steps[0], suffix, n);
      AttemptsStartRightlyExactlyWhen(Apply(a, steps[0]), steps[1..], suffix, if BeginsAttempt(a, steps[0]) then n + 1 else n);
    }
  }

  /** A schedule that ensures it: while a retry is being validated, nothing moves the state but its answer. */
  predicate Held(a: Activation, step: Step)
    requires Enabled(a, step)
  {
    forall call :: call in a.flights && a.flights[call].Validating? && !(step.DoValidated? && step.call == call) ==>
      Apply(a, step).snapshot.state == a.snapshot.state
  }

  ghost predicate AlwaysHeld(a: Activation, steps: seq<Step>)
    requires IsRun(a, steps)
    decreases steps
  {
    steps == [] || (Held(a, steps[0]) && AlwaysHeld(Apply(a, steps[0]), steps[1..]))
  }

  ghost predicate ValidatesFailed(a: Activation) {
    forall call :: call in a.flights && a.flights[call].Validating? ==> a.snapshot.state in RETRYABLE_STATES
  }

  lemma HeldKeepsFailed(a: Activation, step: Step)
    requires ValidatesFailed(a) && Enabled(a, step) && Held(a, step)
    ensures ValidatesFailed(Apply(a, step)) && StillFailed(a, step)
  {
    hide NextAttemptId;
    var next := Apply(a, step);
    forall call | call in next.flights && next.flights[call].Validating?
      ensures next.snapshot.state in RETRYABLE_STATES
    {
      assert call in a.flights || step.DoRetry?;
    }
  }

  lemma {:induction false} HeldRunsStartRightly(a: Activation, steps: seq<Step>)
    requires ValidatesFailed(a) && IsRun(a, steps) && AlwaysHeld(a, steps)
    ensures AlwaysStillFailed(a, steps)
    decreases steps
  {
    hide Apply, Enabled, Held, StillFailed, ValidatesFailed;
    if steps != [] {
      HeldKeepsFailed(a, steps[0]);
      HeldRunsStartRightly(Apply(a, steps[0]), steps[1..]);
    }
  }

  /**
   Otherwise, of two overlapping retries with overrides both begin an attempt, the second of an
   activation already starting, and both are accepted.
   */
  lemma OverlappingRetriesBothBegin(s: Snapshot, first: ModelName, second: ModelName, check: Check, x: SessionId, y: SessionId)
    requires s.state == StateFailed && first != "" && second != "" && check.Available?
    ensures var a0 := Activation(s, map[]);
            var a1 := RetryBegun(a0, 1, Some(first), true).1;
            var a2 := RetryBegun(a1, 2, Some(second), true).1;
            var a3 := RetryValidated(a2, 1, check, true).1;
            var a4 := RetryValidated(a3, 2, check, true).1;
            var a5 := RetryCreated(a4, 1, Some(x)).1;
            && a3.snapshot.state !in RETRYABLE_STATES
            && a4.snapshot.attemptId == NextAttemptId(NextAttemptId(s.attemptId))
            && RetryCreated(a4, 1, Some(x)).0 == Accepted(NextAttemptId(s.attemptId))
            && RetryCreated(a5, 2, Some(y)).0 == Accepted(a4.snapshot.attemptId)
            && RetryCreated(a5, 2, Some(y)).1.snapshot.session == y
  {
  }

  /**
   And if the second session is created first, the first one is installed last: the snapshot names the
   second attempt with the session and the model of the first.
   */
  lemma LateSessionTakesTheLaterAttempt(s: Snapshot, first: ModelName, second: ModelName, check: Check, x: SessionId, y: SessionId)
    requires s.state == StateFailed && first != "" && second != "" && check.Available?
    ensures var a0 := Activation(s, map[]);
            var steps := [ DoRetry(1, Some(first), true), DoRetry(2, Some(second), true),
                           DoValidated(1, check, true), DoValidated(2, check, true),
                           DoCreated(2, Some(y)), DoCreated(1, Some(x)) ];
            && IsRun(a0, steps)
            && var end := After(a0, steps).snapshot;
               && end.attemptId == NextAttemptId(NextAttemptId(s.attemptId))
               && end.session == x && end.requestedModel == Some(first)
               && end.resolvedModel == ResolvedName(first, check)
  {
    hide NextAttemptId;
    var a0 := Activation(s, map[]);
    var steps := [ DoRetry(1, Some(first), true), DoRetry(2, Some(second), true),
                   DoValidated(1, check, true), DoValidated(2, check, true),
                   DoCreated(2, Some(y)), DoCreated(1, Some(x)) ];
    var a1 := RetryBegun(a0, 1, Some(first), true).1;
    var a2 := RetryBegun(a1, 2, Some(second), true).1;
    var a3 := RetryValidated(a2, 1, check, true).1;
    var a4 := RetryValidated(a3, 2, check, true).1;
    var a5 := RetryCreated(a4, 2, Some(y)).1;
    var a6 := RetryCreated(a5, 1, Some(x)).1;
    Chain(a0, steps, [a0, a1, a2, a3, a4, a5, a6]);
  }

  /** A list of records, each the one before after its step, is a run. */
  lemma {:induction false} Chain(a: Activation, steps: seq<Step>, records: seq<Activation>)
    requires |records| == |steps| + 1 && records[0] == a
    requires forall i :: 0 <= i < |steps| ==>
               Enabled(records[i], steps[i]) && records[i + 1] == Apply(records[i], steps[i])
    ensures IsRun(a, steps) && After(a, steps) == records[|steps|]
    decreases steps
  {
    hide Apply, Enabled;
    if steps != [] {
      Chain(Apply(a, steps[0]), steps[1..], records[1..]);
    }
  }

  /** Only its own creation step lands a retry that is creating its session. */
  lemma {:induction false} FlightStays(a: Activation, steps: seq<Step>, call: CallId)
    requires IsRun(a, steps) && call in a.flights && a.flights[call].Creating?
    requires forall step :: step in steps ==> !(step.DoCreated? && step.call == call)
    ensures call in After(a, steps).flights && After(a, steps).flights[call] == a.flights[call]
    decreases steps
  {
    hide NextAttemptId;
    if steps != [] {
      assert steps[0] in steps;
      FlightStays(Apply(a, steps[0]), steps[1..], call);
    }
  }

  /**
   A retry's session is installed under the retry's own attempt exactly when no attempt was begun
   while the session was being created.
   */
  lemma SessionIsItsAttemptsExactlyWhen(
      a: Activation, steps: seq<Step>, call: CallId, x: SessionId, suffix: string, n: nat)
    requires OneLine(suffix) && a.snapshot.attemptId == AttemptIdOf(suffix, n) && IsRun(a, steps)
    requires call in a.flights && a.flights[call].Creating? && a.flights[call].attemptId == a.snapshot.attemptId
    requires forall step :: step in steps ==> !(step.DoCreated? && step.call == call)
    ensures var end := After(a, steps);
            && Enabled(end, DoCreated(call, Some(x)))
            && var last := Apply(end, DoCreated(call, Some(x))).snapshot;
               && last.session == x
               && RetryCreated(end, call, Some(x)).0 == Accepted(a.flights[call].attemptId)
               && (last.attemptId == a.flights[call].attemptId <==> Begun(a, steps) == [])
  {
    hide AttemptIdOf, OneLine, Begun, After, IsRun;
    FlightStays(a, steps, call);
    AttemptStandsExactlyWhen(a, steps, suffix, n);
  }

  /** The attempt on record is the one of before exactly when none was begun since. */
  lemma AttemptStandsExactlyWhen(a: Activation, steps: seq<Step>, suffix: string, n: nat)
    requires OneLine(suffix) && a.snapshot.attemptId == AttemptIdOf(suffix, n) && IsRun(a, steps)
    ensures After(a, steps).snapshot.attemptId == a.snapshot.attemptId <==> Begun(a, steps) == []
  {
    hide AttemptIdOf, OneLine, Begun, After, IsRun;
    AttemptNumberCountsAttempts(a, steps, suffix, n);
    if AttemptIdOf(suffix, n + |Begun(a, steps)|) == AttemptIdOf(suffix, n) {
      AttemptIdsAreInjective(suffix, n + |Begun(a, steps)|, n);
    }
  }

  /** A walk that awaited since `a` installs its session under its own attempt on the same condition. */
  lemma WalkKeepsItsAttemptExactlyWhen(
      a: Activation, steps: seq<Step>, walked: SessionId, model: ModelName, suffix: string, n: nat)
    requires OneLine(suffix) && a.snapshot.attemptId == AttemptIdOf(suffix, n) && IsRun(a, steps)
    ensures var last := Apply(After(a, steps), WalkInstalls(walked, model)).snapshot;
            && last == After(a, steps).snapshot.(session := walked, resolvedModel := model, state := StateStarting)
            && (last.attemptId == a.snapshot.attemptId <==> Begun(a, steps) == [])
  {
    hide AttemptIdOf, OneLine, Begun, After, IsRun;
    AttemptStandsExactlyWhen(a, steps, suffix, n);
  }

  /**
   A turn that fails leaves the state `failed` while the fallback walk awaits its next model. A retry
   accepted then begins an attempt, and the walk installs its own session and model under it.
   */
  lemma RetryInsideTheWalkLosesItsSession(s: Snapshot, walked: SessionId, model: ModelName)
    requires s.state == StateFailed
    ensures var steps := [DoRetry(1, None, true), WalkInstalls(walked, model)];
            var a := Activation(s, map[]);
            && IsRun(a, steps) && Begun(a, steps) == [NextAttemptId(s.attemptId)]
            && var end := After(a, steps).snapshot;
               end.attemptId == NextAttemptId(s.attemptId) && end.session == walked && end.resolvedModel == model
  {
    hide NextAttemptId;
    var a := Activation(s, map[]);
    var steps := [DoRetry(1, None, true), WalkInstalls(walked, model)];
    var a1 := RetryBegun(a, 1, None, true).1;
    var a2 := Apply(a1, WalkInstalls(walked, model));
    Chain(a, steps, [a, a1, a2]);
    assert Begun(a1, steps[1..]) == [] + Begun(a2, steps[1..][1..]);
    assert Begun(a2, steps[1..][1..]) == [];
  }

  /** What a step of a call answers. */
  function Answer(a: Activation, step: Step): Outcome
    requires Enabled(a, step)
  {
    match step
    case DoResume(granted) => Resumed(a, granted).0
    case DoRetry(call, name, granted) => RetryBegun(a, call, name, granted).0
    case DoValidated(call, check, granted) => RetryValidated(a, call, check, granted).0
    case DoCreated(call, created) => RetryCreated(a, call, created).0
    case _ => Awaiting
  }

  /** Every retry creating its session has begun its attempt. */
  lemma {:induction false} CreatingHasBegun(a: Activation, steps: seq<Step>, call: CallId)
    requires IsRun(a, steps) && call in After(a, steps).flights && After(a, steps).flights[call].Creating?
    ensures After(a, steps).flights[call].attemptId in Begun(a, steps)
         || (call in a.flights && After(a, steps).flights[call] == a.flights[call])
    decreases steps
  {
    hide NextAttemptId;
    if steps != [] {
      CreatingHasBegun(Apply(a, steps[0]), steps[1..], call);
    }
  }

  /**
   However calls interleave, one that ends unaccepted changes nothing in its last step; and it leaves
   an attempt begun behind exactly when it is a retry whose session was not created.
   */
  lemma UnacceptedCallsLeaveAnAttemptExactlyWhen(a: Activation, steps: seq<Step>, last: Step)
    requires a.flights == map[] && IsRun(a, steps) && Enabled(After(a, steps), last)
    requires Answer(After(a, steps), last).Rejected? || Answer(After(a, steps), last).SessionNotCreated?
    ensures var end := After(a, steps);
            && Apply(end, last).snapshot == end.snapshot
            && (last.DoCreated? <==> Answer(end, last).SessionNotCreated?)
            && (last.DoCreated? ==> end.flights[last.call].attemptId in Begun(a, steps))
            && (last.DoValidated? ==> end.flights[last.call].Validating?)
  {
    hide NextAttemptId, Begun, IsRun, After;
    if last.DoCreated? {
      CreatingHasBegun(a, steps, last.call);
    }
  }
}
