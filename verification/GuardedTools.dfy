/** The mutating builtins of an allowlist, each rebuilt behind a lease check made at call time. */
module GuardedTools {
  import opened Prelude
  import opened Sequences
  import opened Text
  import opened WorkspaceLease
  import LeaseProtocol
  import LeaseSafety

  /** The builtins that can mutate a workspace, each with a factory the SDK may export. */
  datatype Builtin = Edit | Write | Bash | PowerShell

  /**
   What looking a key up in the factory table yields. The table is a JavaScript object, so two
   lower-case keys it does not hold are still answered by inheritance, with no factory's name.
   */
  datatype Lookup = Missing | Inherited | Factory(builtin: Builtin)

  predicate IsInheritedKey(key: string) {
    key == "constructor" || key == "__proto__"
  }

  function LookUp(key: string): Lookup {
    if key == "edit" then Factory(Edit)
    else if key == "write" then Factory(Write)
    else if key == "bash" then Factory(Bash)
    else if key == "powershell" then Factory(PowerShell)
    else if IsInheritedKey(key) then Inherited
    else Missing
  }

  function KeyOf(name: string): string {
    ToLower(Trim(name))
  }

  predicate IsMutatingBuiltin(name: string) {
    LookUp(KeyOf(name)).Factory?
  }

  datatype Classification = Ignored | Unguardable | Guardable

  /** `sdk` is the set of factories this runtime exports. */
  function Classify(name: string, sdk: set<Builtin>): Classification {
    match LookUp(KeyOf(name))
    case Missing => Ignored
    case Inherited => Unguardable
    case Factory(builtin) => if builtin in sdk then Guardable else Unguardable
  }

  function Classified(sdk: set<Builtin>, kind: Classification): string -> bool {
    name => Classify(name, sdk) == kind
  }

  function Select(names: seq<string>, sdk: set<Builtin>, kind: Classification): seq<string> {
    Filter(names, Classified(sdk, kind))
  }

  /** The names of the four builtins that mutate. */
  predicate IsBuiltinName(name: string) {
    var key := ToLower(Trim(name));
    key == "edit" || key == "write" || key == "bash" || key == "powershell"
  }

  /** The builtin a name stands for. */
  predicate Stands(name: string, builtin: Builtin) {
    var key := ToLower(Trim(name));
    match builtin
    case Edit => key == "edit"
    case Write => key == "write"
    case Bash => key == "bash"
    case PowerShell => key == "powershell"
  }

  /** The table holds exactly those names, each with its own factory. */
  lemma TableHoldsTheBuiltins(name: string)
    ensures IsMutatingBuiltin(name) <==> IsBuiltinName(name)
    ensures forall builtin :: LookUp(KeyOf(name)) == Factory(builtin) <==> Stands(name, builtin)
  {
    KeysOfTheBuiltins(ToLower(Trim(name)));
    forall builtin
      ensures LookUp(KeyOf(name)) == Factory(builtin) <==> Stands(name, builtin)
    {
      match builtin
      case Edit =>
      case Write =>
      case Bash =>
      case PowerShell =>
    }
  }

  lemma KeysOfTheBuiltins(key: string)
    ensures LookUp(key) == Factory(Edit) <==> key == "edit"
    ensures LookUp(key) == Factory(Write) <==> key == "write"
    ensures LookUp(key) == Factory(Bash) <==> key == "bash"
    ensures LookUp(key) == Factory(PowerShell) <==> key == "powershell"
  {
  }

  /** A tool rebuilt from `builtin`'s factory, answering for `name`. */
  datatype GuardedTool = GuardedTool(name: string, builtin: Builtin)

  const EVERY_FACTORY: set<Builtin> := {Edit, Write, Bash, PowerShell}

  /**
   On a runtime that exports every factory, the names of an allowlist reported unguardable are exactly
   the spellings of the two a plain object inherits; both count as mutating.
   */
  lemma InheritedNamesAreUnguardable(names: seq<string>, name: string)
    ensures name in Select(names, EVERY_FACTORY, Unguardable) <==> name in names && IsInheritedKey(KeyOf(name))
    ensures IsInheritedKey(KeyOf(name)) ==> IsMutatingTool(name) && !IsMutatingBuiltin(name)
  {
    hide KeyOf, IsMutatingTool, LookUp, IsInheritedKey;
    FilterFinds(names, Classified(EVERY_FACTORY, Unguardable), name);
    InheritedKeys(KeyOf(name));
    KeyDecidesMutation(name);
    match LookUp(KeyOf(name))
    case Factory(builtin) => EveryBuiltinHasAFactory(builtin);
    case _ =>
  }

  lemma EveryBuiltinHasAFactory(builtin: Builtin)
    ensures builtin in EVERY_FACTORY
  {
  }

  lemma InheritedKeys(key: string)
    ensures LookUp(key).Inherited? <==> IsInheritedKey(key)
    ensures IsInheritedKey(key) ==> key !in NON_MUTATING_TOOLS
  {
  }

  lemma KeyDecidesMutation(name: string)
    ensures IsMutatingTool(name) <==> KeyOf(name) !in NON_MUTATING_TOOLS
  {
  }

  /** The replacement pushed for a guardable name: the factory its key stands for. */
  predicate Replaces(tool: GuardedTool, name: string, sdk: set<Builtin>) {
    tool.name == name && tool.builtin in sdk && LookUp(KeyOf(name)) == Factory(tool.builtin)
  }

  /** Each builtin's name is guarded or reported, never both, and guarded exactly if its factory is exported. */
  ghost predicate Partitions(names: seq<string>, sdk: set<Builtin>, guarded: seq<string>, unguardable: seq<string>) {
    && (forall name :: name in names && IsBuiltinName(name) ==> (name in guarded <==> name !in unguardable))
    && (forall name, builtin :: name in names && Stands(name, builtin) ==> (name in guarded <==> builtin in sdk))
  }

  /** Each guarded name has its own builtin's tool. */
  ghost predicate Rebuilds(tools: seq<GuardedTool>, guarded: seq<string>) {
    && |tools| == |guarded|
    && forall i :: 0 <= i < |tools| ==> tools[i].name == guarded[i] && Stands(guarded[i], tools[i].builtin)
  }

  method CreateGuardedTools(toolNames: seq<string>, sdk: set<Builtin>)
      returns (tools: seq<GuardedTool>, guarded: seq<string>, unguardable: seq<string>)
    ensures guarded == Select(toolNames, sdk, Guardable)
    ensures unguardable == Select(toolNames, sdk, Unguardable)
    ensures |tools| == |guarded| && forall i :: 0 <= i < |tools| ==> Replaces(tools[i], guarded[i], sdk)
    ensures Partitions(toolNames, sdk, guarded, unguardable)
    ensures Rebuilds(tools, guarded)
  {
    hide LookUp, KeyOf, IsBuiltinName, Stands;
    tools, guarded, unguardable := [], [], [];
    for i := 0 to |toolNames|
      invariant guarded == Select(toolNames[..i], sdk, Guardable)
      invariant unguardable == Select(toolNames[..i], sdk, Unguardable)
      invariant |tools| == |guarded| && forall j :: 0 <= j < |tools| ==> Replaces(tools[j], guarded[j], sdk)
    {
      FilterStep(toolNames, i, Classified(sdk, Guardable));
      FilterStep(toolNames, i, Classified(sdk, Unguardable));
      var name := toolNames[i];
      var found := LookUp(KeyOf(name));
      if found.Missing? { continue; }
      if found.Inherited? || found.builtin !in sdk {
        unguardable := unguardable + [name];
        continue;
      }
      tools := tools + [GuardedTool(name, found.builtin)];
      guarded := guarded + [name];
    }
    assert toolNames[..|toolNames|] == toolNames;
    NamesArePartitioned(toolNames, sdk);
    ToolsAreTheNamed(tools, guarded, sdk);
  }

  lemma NamesArePartitioned(names: seq<string>, sdk: set<Builtin>)
    ensures Partitions(names, sdk, Select(names, sdk, Guardable), Select(names, sdk, Unguardable))
  {
    hide LookUp, KeyOf, IsBuiltinName, Stands;
    forall name
      ensures name in Select(names, sdk, Guardable) <==> name in names && Classify(name, sdk) == Guardable
      ensures name in Select(names, sdk, Unguardable) <==> name in names && Classify(name, sdk) == Unguardable
      ensures IsMutatingBuiltin(name) <==> IsBuiltinName(name)
      ensures forall builtin :: LookUp(KeyOf(name)) == Factory(builtin) <==> Stands(name, builtin)
    {
      TableHoldsTheBuiltins(name);
      FilterFinds(names, Classified(sdk, Guardable), name);
      FilterFinds(names, Classified(sdk, Unguardable), name);
    }
  }

  lemma ToolsAreTheNamed(tools: seq<GuardedTool>, guarded: seq<string>, sdk: set<Builtin>)
    requires |tools| == |guarded| && forall i :: 0 <= i < |tools| ==> Replaces(tools[i], guarded[i], sdk)
    ensures Rebuilds(tools, guarded)
  {
    hide LookUp, KeyOf, IsBuiltinName, Stands;
    forall i | 0 <= i < |tools|
      ensures tools[i].name == guarded[i] && Stands(guarded[i], tools[i].builtin)
    {
      TableHoldsTheBuiltins(guarded[i]);
    }
  }

  /** No spelling of a mutating builtin is waved through as read-only. */
  lemma BuiltinsMutate(name: string)
    requires IsMutatingBuiltin(name)
    ensures IsMutatingTool(name)
  {
    assert KeyOf(name) in {"edit", "write", "bash", "powershell"};
  }

  /**
   Every mutating builtin of an allowlist is guarded or reported unguardable, never both; and a
   guarded one is admitted only for the activation named by a record whose holder is seen alive.
   */
  lemma NoMutatorPassesUnguarded(
      names: seq<string>, sdk: set<Builtin>, name: string, file: LeaseFile, probe: Probe, a: ActivationId)
    requires name in names && IsBuiltinName(name)
    ensures name in Select(names, sdk, Guardable) <==> name !in Select(names, sdk, Unguardable)
    ensures AdmitToolCall(name, file, probe, a) <==>
            file.Published? && probe.Sees(file.lease.holder) && file.lease.activationId == a
  {
    hide LookUp, KeyOf, IsMutatingTool, IsBuiltinName, Stands;
    TableHoldsTheBuiltins(name);
    FilterFinds(names, Classified(sdk, Guardable), name);
    FilterFinds(names, Classified(sdk, Unguardable), name);
    BuiltinsMutate(name);
    InspectVerdict(file, probe);
  }

  /**
   Dispatch refuses an allowlist with an unguardable name. So in every reachable state of the lease
   protocol each mutating builtin of a dispatched allowlist is guarded, and a call of it runs only
   for the one activation that owns the workspace.
   */
  lemma DispatchedMutatorsRunForTheOwnerOnly(
      names: seq<string>, sdk: set<Builtin>, name: string, a: ActivationId, w: LeaseProtocol.World)
    requires name in names && IsBuiltinName(name)
    requires LeaseSafety.Reachable(w)
    ensures Select(names, sdk, Unguardable) == [] ==> name in Select(names, sdk, Guardable)
    ensures AdmitToolCall(name, w.file, w.Sight(), a) ==> w.owners == {a}
  {
    hide LookUp, KeyOf, IsMutatingTool, AdmitToolCall, LeaseSafety.Reachable, IsBuiltinName, Stands;
    TableHoldsTheBuiltins(name);
    NoMutatorPassesUnguarded(names, sdk, name, w.file, w.Sight(), a);
    BuiltinsMutate(name);
    LeaseSafety.ReachableIsGood(w);
    LeaseSafety.AdmissionFollowsOwnership(w, name, Activation(a));
    assert Admitted(Activation(a), name, w.file, w.Sight()) == AdmitToolCall(name, w.file, w.Sight(), a);
  }

  datatype ToolResult<+R> = Ran(result: R) | BlockedCall(tool: string)

  /** What is asked of an admission's two reads: careful steps of other processes between them. */
  ghost predicate OneCall(w: LeaseProtocol.World, between: seq<LeaseProtocol.Step>, a: ActivationId) {
    && LeaseSafety.Reachable(w)
    && LeaseProtocol.IsRun(w, between) && LeaseProtocol.Careful(w, between)
    && a in w.minted && forall s :: s in between ==> !LeaseSafety.IsStepOf(s, w.minted[a])
  }

  /** A tool rebuilt by `CreateGuardedTools` is admitted only for the sole owner, at its verdict. */
  lemma GuardedCallIsTheOwners(
      tool: GuardedTool, sdk: set<Builtin>, w: LeaseProtocol.World, between: seq<LeaseProtocol.Step>, a: ActivationId)
    requires Replaces(tool, tool.name, sdk) && OneCall(w, between, a)
    ensures var end := LeaseProtocol.After(w, between);
            && (AdmitToolCall(tool.name, w.file, end.Sight(), a) ==> end.owners == {a})
            && (a in w.owners && end.probeWorks && end.Alive(w.minted[a]) ==>
                  AdmitToolCall(tool.name, w.file, end.Sight(), a))
  {
    hide LookUp, KeyOf, IsMutatingTool, LeaseSafety.Reachable, LeaseProtocol.IsRun, LeaseProtocol.After,
         LeaseProtocol.Careful, LeaseProtocol.Inv;
    BuiltinsMutate(tool.name);
    LeaseSafety.ReachableIsGood(w);
    LeaseSafety.AdmissionOutlivesItsRead(w, between, tool.name, a);
    InspectVerdict(w.file, LeaseProtocol.After(w, between).Sight());
    if a in w.owners {
      OwnersRecord(w, a);
    }
  }

  lemma OwnersRecord(w: LeaseProtocol.World, a: ActivationId)
    requires LeaseProtocol.Inv(w) && a in w.owners
    ensures LeaseProtocol.Names(w.file, a) && a in w.minted && w.file.lease.holder == w.minted[a]
  {
  }

  /** The calls that reached the workspace through a session's guarded tools. */
  class Session {
    var calls: seq<Builtin>

    constructor ()
      ensures calls == []
    {
      calls := [];
    }

    /**
     The wrapper's `execute`: the verdict is read now, and a refusal is a result. The record is
     read in world `w`, the probe after the steps `between`.
     */
    method Execute(tool: GuardedTool, a: ActivationId, read: LeaseFile, probe: Probe, ghost sdk: set<Builtin>,
                   ghost w: LeaseProtocol.World, ghost between: seq<LeaseProtocol.Step>) returns (r: ToolResult<Builtin>)
      requires Replaces(tool, tool.name, sdk) && OneCall(w, between, a)
      requires read == w.file && probe == LeaseProtocol.After(w, between).Sight()
      modifies this`calls
      ensures r.Ran? ==> LeaseProtocol.After(w, between).owners == {a}
      ensures a in w.owners && probe.Sees(w.minted[a]) ==> r.Ran?
      ensures r.Ran? ==> Stands(tool.name, r.result) && calls == old(calls) + [r.result]
      ensures r.BlockedCall? ==> r.tool == tool.name && calls == old(calls)
    {
      hide LookUp, KeyOf, Stands, OneCall, LeaseProtocol.After;
      TableHoldsTheBuiltins(tool.name);
      GuardedCallIsTheOwners(tool, sdk, w, between, a);
      if AdmitToolCall(tool.name, read, probe, a) {
        calls := calls + [tool.builtin];
        return Ran(tool.builtin);
      }
      return BlockedCall(tool.name);
    }
  }
}
