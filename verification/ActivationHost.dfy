/**
 Model selection over a configured chain: the skip loop before dispatch and the fallback walk
 after it. Model validation, session creation and the turn itself are oracles, asked at most once
 per chain index in each loop; no `stop` lands inside an iteration's awaits.
 */
module ActivationHost {
  import opened Prelude

  type ModelName = string
  type SessionId = nat

  /** `resolved` is the provider's canonical name, when it gives one; it is never empty. */
  datatype Check = Available(resolved: Option<ModelName>) | Unavailable

  datatype ErrorClass = RateLimit | Timeout | Transient | Auth | Aborted | Unknown

  datatype TurnOutcome = TurnCompleted(output: string) | TurnFailed(errorClass: ErrorClass)

  predicate Retryable(errorClass: ErrorClass) {
    errorClass in {RateLimit, Timeout, Transient}
  }

  // ---------------------------------------------------------------------- before dispatch

  /** An override is a chain of one. */
  function ModelChain(fullChain: seq<ModelName>, modelOverride: Option<ModelName>): seq<ModelName> {
    if modelOverride.Some? && modelOverride.value != "" then [modelOverride.value] else fullChain
  }

  /**
   What was asked for: the override if there is one, else the configured model. An empty override is
   one here, though `ModelChain` passes it over; it asks for nothing.
   */
  function Requested(fullChain: seq<ModelName>, modelOverride: Option<ModelName>): ModelName {
    match modelOverride
    case Some(name) => name
    case None => if fullChain == [] then "" else fullChain[0]
  }

  /** `index` counts along the chain: the override alone, or the models configured. */
  datatype Dispatch = NoModelConfigured | ModelUnavailable(index: nat) | Dispatched(index: nat, model: ModelName)

  /** `check(j, name)` is the answer to the validation of `name` made as the `j`-th. */
  method SelectModel(fullChain: seq<ModelName>, modelOverride: Option<ModelName>, check: (nat, ModelName) -> Check)
      returns (d: Dispatch)
    ensures d.NoModelConfigured? <==>
            modelOverride == Some("") || (modelOverride.None? && (fullChain == [] || fullChain[0] == ""))
    ensures modelOverride.None? && !d.NoModelConfigured? ==>
              && (d.Dispatched? ==>
                    d.index < |fullChain| && check(d.index, fullChain[d.index]).Available?
                    && d.model == ResolvedName(fullChain[d.index], check(d.index, fullChain[d.index])))
              && (d.Dispatched? ==> forall j :: 0 <= j < d.index ==> check(j, fullChain[j]).Unavailable?)
              && (d.ModelUnavailable? ==> d.index == |fullChain| - 1)
              && (d.ModelUnavailable? <==> forall j :: 0 <= j < |fullChain| ==> check(j, fullChain[j]).Unavailable?)
    ensures modelOverride.Some? && modelOverride.value != "" ==>
              var answer := check(0, modelOverride.value);
              d == if answer.Available? then Dispatched(0, ResolvedName(modelOverride.value, answer)) else ModelUnavailable(0)
  {
    var chain := ModelChain(fullChain, modelOverride);
    var requestedModel := Requested(fullChain, modelOverride);
    if requestedModel == "" { return NoModelConfigured; }
    var modelIndex := 0;
    var modelCheck := check(0, chain[0]);
    while modelCheck.Unavailable? && modelIndex < |chain| - 1
      invariant modelIndex < |chain| && modelCheck == check(modelIndex, chain[modelIndex])
      invariant forall j :: 0 <= j < modelIndex ==> check(j, chain[j]).Unavailable?
    {
      modelIndex := modelIndex + 1;
      modelCheck := check(modelIndex, chain[modelIndex]);
    }
    if modelCheck.Unavailable? { return ModelUnavailable(modelIndex); }
    return Dispatched(modelIndex, ResolvedName(chain[modelIndex], modelCheck));
  }

  /** The provider's name for a model, if it gave one, or the name asked for. */
  function ResolvedName(name: ModelName, check: Check): (resolved: ModelName)
    ensures forall canonical :: check == Available(Some(canonical)) ==> resolved == canonical
    ensures check == Available(None) ==> resolved == name
  {
    match check
    case Available(Some(canonical)) => canonical
    case _ => name
  }

  // ------------------------------------------------------------------------ after dispatch

  /** What the world answers at chain index `i`, of the model named there. */
  datatype Oracles = Oracles(
    run: nat -> TurnOutcome,
    registered: nat -> bool,
    check: (nat, ModelName) -> Check,
    createSession: (nat, ModelName) -> Option<SessionId>)

  /** The walk moves on from index `i`. */
  predicate Advances(chain: seq<ModelName>, o: Oracles, i: nat) {
    && i + 1 < |chain|
    && o.run(i).TurnFailed? && Retryable(o.run(i).errorClass)
    && o.registered(i)
    && o.check(i + 1, chain[i + 1]).Available?
    && o.createSession(i + 1, chain[i + 1]).Some?
  }

  /** `k` is where a walk from `start` ends. */
  ghost predicate EndsAt(chain: seq<ModelName>, o: Oracles, start: nat, k: nat) {
    && start <= k < |chain|
    && (forall j :: start <= j < k ==> Advances(chain, o, j))
    && !Advances(chain, o, k)
  }

  /** The end of a walk is determined: it is the first index that does not move on. */
  lemma WalkEndsOnce(chain: seq<ModelName>, o: Oracles, start: nat, k: nat, k': nat)
    requires EndsAt(chain, o, start, k) && EndsAt(chain, o, start, k')
    ensures k == k'
  {
  }

  datatype State = Starting | Settled | Failed

  datatype Result = Result(completed: bool, resolvedModel: ModelName, session: SessionId, fallbackUsed: bool)

  /** The sessions a walk has prompted: the dispatched one, and one created for each later index. */
  ghost predicate Prompts(chain: seq<ModelName>, o: Oracles, start: nat, k: nat, first: SessionId, prompted: seq<SessionId>) {
    && start <= k < |chain| && |prompted| == k - start + 1 && prompted[0] == first
    && forall i :: 0 < i < |prompted| ==> o.createSession(start + i, chain[start + i]) == Some(prompted[i])
  }

  lemma PromptsFirst(chain: seq<ModelName>, o: Oracles, start: nat, first: SessionId)
    requires start < |chain|
    ensures Prompts(chain, o, start, start, first, [first])
  {
  }

  lemma PromptsOneMore(chain: seq<ModelName>, o: Oracles, start: nat, k: nat, first: SessionId,
                       prompted: seq<SessionId>, next: SessionId)
    requires Prompts(chain, o, start, k, first, prompted) && k + 1 < |chain|
    requires o.createSession(k + 1, chain[k + 1]) == Some(next)
    ensures Prompts(chain, o, start, k + 1, first, prompted + [next])
  {
  }

  lemma AdvancesFurther(chain: seq<ModelName>, o: Oracles, start: nat, k: nat)
    requires (forall j :: start <= j < k ==> Advances(chain, o, j)) && Advances(chain, o, k)
    ensures forall j :: start <= j < k + 1 ==> Advances(chain, o, j)
  {
  }

  /** The record the walk mutates in place. `prompted` and `disposed` are the sessions it did so to. */
  class ActivationRecord {
    var session: SessionId
    var resolvedModel: ModelName
    var state: State
    var prompted: seq<SessionId>
    var disposed: seq<SessionId>

    constructor (session: SessionId, resolvedModel: ModelName)
      ensures this.session == session && this.resolvedModel == resolvedModel
      ensures state == Starting && prompted == [] && disposed == []
    {
      this.session, this.resolvedModel := session, resolvedModel;
      state, prompted, disposed := Starting, [], [];
    }

    method RunToSettled(index: nat, o: Oracles) returns (result: Result, outcome: TurnOutcome)
      modifies this`prompted, this`state
      ensures prompted == old(prompted) + [session] && outcome == o.run(index)
      ensures result == Result(outcome.TurnCompleted?, resolvedModel, session, false)
      ensures state == if outcome.TurnCompleted? then Settled else Failed
    {
      prompted := prompted + [session];
      outcome := o.run(index);
      state := if outcome.TurnCompleted? then Settled else Failed;
      return Result(outcome.TurnCompleted?, resolvedModel, session, false), outcome;
    }

    /**
     The walk. It prompts one session an index, from the dispatched one to the one it ends at;
     disposes of every session it prompted but the last; and reports the model, the session and the
     fallback flag of that last index.
     */
    method RunWithFallback(chain: seq<ModelName>, modelIndex: nat, o: Oracles) returns (result: Result, ghost k: nat)
      requires modelIndex < |chain| && prompted == [] && disposed == []
      modifies this
      ensures EndsAt(chain, o, modelIndex, k)
      ensures Prompts(chain, o, modelIndex, k, old(session), prompted)
      ensures disposed + [session] == prompted
      ensures resolvedModel == if k == modelIndex then old(resolvedModel) else ResolvedName(chain[k], o.check(k, chain[k]))
      ensures result == Result(o.run(k).TurnCompleted?, resolvedModel, session, k > 0)
      ensures state == if result.completed then Settled else Failed
    {
      hide Prompts, ResolvedName;
      var index: nat := modelIndex;
      var fallbackUsed := index > 0;
      var outcome: TurnOutcome;
      result, outcome := RunToSettled(index, o);
      PromptsFirst(chain, o, modelIndex, old(session));
      assert [] + [old(session)] == [old(session)];
      while !result.completed && index < |chain| - 1
        invariant modelIndex <= index < |chain|
        invariant Prompts(chain, o, modelIndex, index, old(session), prompted)
        invariant forall j :: modelIndex <= j < index ==> Advances(chain, o, j)
        invariant disposed + [session] == prompted
        invariant resolvedModel == if index == modelIndex then old(resolvedModel)
                                   else ResolvedName(chain[index], o.check(index, chain[index]))
        invariant outcome == o.run(index) && fallbackUsed == (index > 0)
        invariant result == Result(outcome.TurnCompleted?, resolvedModel, session, false)
        invariant state == if result.completed then Settled else Failed
      {
        if !o.registered(index) { break; }
        if !Retryable(outcome.errorClass) { break; }
        var nextModel := chain[index + 1];
        var check := o.check(index + 1, nextModel);
        if check.Unavailable? { break; }
        var nextSession := o.createSession(index + 1, nextModel);
        if nextSession.None? { break; }
        PromptsOneMore(chain, o, modelIndex, index, old(session), prompted, nextSession.value);
        AdvancesFurther(chain, o, modelIndex, index);
        disposed := disposed + [session];
        session := nextSession.value;
        resolvedModel := ResolvedName(nextModel, check);
        state := Starting;
        index := index + 1;
        fallbackUsed := true;
        result, outcome := RunToSettled(index, o);
      }
      k := index;
      result := result.(fallbackUsed := fallbackUsed);
    }
  }

  /**
   From dispatch to result: every model of the chain before the last one tried was unavailable at
   dispatch, or failed its turn by a rate limit, a timeout or a transient error; and the walk stopped
   where it did for a stated reason.
   */
  lemma EarlierModelsWereExhausted(
      chain: seq<ModelName>, dispatchCheck: (nat, ModelName) -> Check, o: Oracles, start: nat, k: nat)
    requires start < |chain| && (forall j :: 0 <= j < start ==> dispatchCheck(j, chain[j]).Unavailable?)
    requires EndsAt(chain, o, start, k)
    ensures forall j :: 0 <= j < k ==>
              || dispatchCheck(j, chain[j]).Unavailable?
              || o.run(j) == TurnFailed(RateLimit) || o.run(j) == TurnFailed(Timeout) || o.run(j) == TurnFailed(Transient)
    ensures || o.run(k).TurnCompleted?
            || k == |chain| - 1
            || !o.registered(k)
            || o.run(k) == TurnFailed(Auth) || o.run(k) == TurnFailed(Aborted) || o.run(k) == TurnFailed(Unknown)
            || o.check(k + 1, chain[k + 1]).Unavailable?
            || o.createSession(k + 1, chain[k + 1]).None?
  {
    forall j | 0 <= j < k
      ensures || dispatchCheck(j, chain[j]).Unavailable?
              || o.run(j) == TurnFailed(RateLimit) || o.run(j) == TurnFailed(Timeout) || o.run(j) == TurnFailed(Transient)
    {
      if j >= start {
        assert Advances(chain, o, j);
        RetryableClasses(o.run(j).errorClass);
      }
    }
    if o.run(k).TurnFailed? {
      RetryableClasses(o.run(k).errorClass);
    }
  }

  lemma RetryableClasses(errorClass: ErrorClass)
    ensures Retryable(errorClass) <==> errorClass.RateLimit? || errorClass.Timeout? || errorClass.Transient?
    ensures !Retryable(errorClass) <==> errorClass.Auth? || errorClass.Aborted? || errorClass.Unknown?
  {
  }

  /** A chain of one, which an explicit override is, never reads as a fallback. */
  lemma OverrideNeverFallsBack(fullChain: seq<ModelName>, modelOverride: ModelName, o: Oracles, start: nat, k: nat)
    requires modelOverride != ""
    requires EndsAt(ModelChain(fullChain, Some(modelOverride)), o, start, k)
    ensures k == 0 && ModelChain(fullChain, Some(modelOverride))[k] == modelOverride
  {
  }

  /** Without an override the chain walked is the one configured. */
  lemma ConfiguredChainIsWalked(fullChain: seq<ModelName>)
    ensures ModelChain(fullChain, None) == fullChain
  {
  }
}
