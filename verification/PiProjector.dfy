/** Projection of the persisted timeline into pi's JSON event stream, one event at a time. */
module PiProjector {
  import opened Prelude
  import opened Decimal

  datatype Phase = PhaseStart | PhaseUpdate | PhaseEnd

  /** Timeline events; `Other` is any type the projector ignores. */
  datatype TimelineEvent =
    | Turn(t: nat, starts: bool)
    | Meta(t: nat, model: string, backend: string)
    | TokenUsage(t: nat, usage: string)
    | RunStart(t: nat)
    | MessageEdge(t: nat, starts: bool, assistant: bool)
    | Text(t: nat, content: string)
    | Tool(t: nat, seqNo: Option<nat>, tool: string, phase: Phase, callId: Option<string>,
           args: Option<string>, resultRaw: Option<string>, resultSummary: Option<string>, isError: Option<bool>)
    | Compaction(t: nat, starts: bool, summary: string)
    | Retry(t: nat, starts: bool, attempt: Option<nat>, error: string)
    | RunComplete(t: nat, runModel: Option<string>, runBackend: Option<string>,
                  runUsage: Option<string>, output: Option<string>)
    | Other(t: nat)

  datatype Message = Message(
    text: string, provider: Option<string>, model: Option<string>, usage: Option<string>, stopped: bool, timestamp: nat)

  datatype ToolResult = ToolResult(callId: string, tool: string, result: Option<string>, isError: bool, timestamp: nat)

  datatype UpdateKind = TextStart | TextDelta | TextEnd

  datatype PiEvent =
    | Session(id: string, timestamp: nat, cwd: Option<string>)
    | AgentStart
    | AgentEnd(messages: seq<Message>)
    | AgentSettled
    | TurnStart
    | TurnEnd(message: Message, toolResults: seq<ToolResult>)
    | MessageStart(message: Message)
    | MessageUpdate(kind: UpdateKind, content: string, message: Message)
    | MessageEnd(message: Message)
    | ToolExecutionStart(callId: string, tool: string, args: string)
    | ToolExecutionUpdate(callId: string, tool: string, args: string)
    | ToolExecutionEnd(callId: string, tool: string, result: Option<string>, isError: bool)
    | CompactionStart
    | CompactionEnd(summary: Option<string>)
    | AutoRetryStart(attempt: nat, error: string)
    | AutoRetryEnd(success: bool, attempt: nat, finalError: Option<string>)

  datatype Context = Context(
    jobId: string, sessionId: Option<string>, cwd: Option<string>, startedAtMs: Option<nat>,
    model: Option<string>, backend: Option<string>)

  /** The closure's variables. */
  datatype State = State(
    started: bool,
    cycleComplete: bool,
    messageOpen: bool,
    messageStarted: bool,
    text: string,
    model: Option<string>,
    backend: Option<string>,
    tokenUsage: Option<string>,
    messageTimestamp: nat,
    toolArgs: map<string, string>,
    toolResults: seq<ToolResult>)

  function Initial(ctx: Context): State {
    State(false, false, false, false, "", ctx.model, ctx.backend, None, Or(ctx.startedAtMs, 0), map[], [])
  }

  function Or<T>(o: Option<T>, otherwise: T): T {
    match o
    case Some(value) => value
    case None => otherwise
  }

  /** `??` on optionals. */
  function Else<T>(o: Option<T>, otherwise: Option<T>): Option<T> {
    if o.Some? then o else otherwise
  }

  /** An empty string is falsy. */
  function Truthy(o: Option<string>): Option<string> {
    if o == Some("") then None else o
  }

  function ModelName(model: Option<string>, backend: Option<string>): Option<string> {
    if Truthy(model).None? || Truthy(backend).None? then model
    else
      var prefix := backend.value + "/";
      if prefix <= model.value then Some(model.value[|prefix|..]) else model
  }

  function AssistantMessage(s: State, timestamp: nat): Message {
    Message(s.text, Truthy(s.backend), Truthy(ModelName(s.model, s.backend)), s.tokenUsage, s.cycleComplete, timestamp)
  }

  /** A stamp of zero is falsy, and the event's own time stands in for it. */
  function Stamp(s: State, t: nat): nat {
    if s.messageTimestamp == 0 then t else s.messageTimestamp
  }

  function EnsureStarted(ctx: Context, s: State, t: nat): (State, seq<PiEvent>) {
    if s.started then (s, [])
    else (s.(started := true),
          [Session(Or(ctx.sessionId, ctx.jobId), Or(ctx.startedAtMs, t), ctx.cwd), AgentStart])
  }

  function EnsureMessageStarted(s: State, t: nat): (State, seq<PiEvent>) {
    if s.messageStarted then (s, [])
    else
      var s' := s.(messageStarted := true, messageOpen := true, messageTimestamp := t);
      (s', [MessageStart(AssistantMessage(s', t))])
  }

  function EnsureBoth(ctx: Context, s: State, t: nat, stamp: nat): (State, seq<PiEvent>) {
    var (s1, out1) := EnsureStarted(ctx, s, t);
    var (s2, out2) := EnsureMessageStarted(s1, stamp);
    (s2, out1 + out2)
  }

  function ResetTurn(s: State): State {
    s.(messageOpen := false, messageStarted := false, text := "", tokenUsage := None, toolArgs := map[], toolResults := [])
  }

  function CallIdOf(e: TimelineEvent): string
    requires e.Tool?
  {
    match e.callId
    case Some(id) => id
    case None => "uncorrelated-" + Print(Or(e.seqNo, e.t))
  }

  function OnTool(s: State, e: TimelineEvent): (State, PiEvent)
    requires e.Tool?
  {
    var id := CallIdOf(e);
    match e.phase
    case PhaseStart =>
      var args := Or(e.args, "{}");
      (s.(toolArgs := s.toolArgs[id := args]), ToolExecutionStart(id, e.tool, args))
    case PhaseUpdate => (s, ToolExecutionUpdate(id, e.tool, if id in s.toolArgs then s.toolArgs[id] else "{}"))
    case PhaseEnd =>
      var result, isError := Else(e.resultRaw, e.resultSummary), Or(e.isError, false);
      (s.(toolResults := s.toolResults + [ToolResult(id, e.tool, result, isError, e.t)]),
       ToolExecutionEnd(id, e.tool, result, isError))
  }

  function OnRunComplete(ctx: Context, s: State, e: TimelineEvent): (State, seq<PiEvent>)
    requires e.RunComplete?
  {
    var (s1, out1) := EnsureStarted(ctx, s, e.t);
    var s2 := s1.(model := Else(e.runModel, s1.model), backend := Else(e.runBackend, s1.backend),
                  tokenUsage := Else(e.runUsage, s1.tokenUsage), text := Or(e.output, s1.text), cycleComplete := true);
    var message := AssistantMessage(s2, e.t);
    var (s3, out3) := if s2.messageOpen && !s2.messageStarted then EnsureMessageStarted(s2, Stamp(s2, e.t)) else (s2, []);
    (s3,
     out1 + out3
     + (if s3.messageOpen then [MessageEnd(message)] else [])
     + [AgentEnd(if s3.text == "" then [] else [message]), AgentSettled])
  }

  /** The projector on one event: the next state and what it emits. */
  function Project(ctx: Context, s: State, e: TimelineEvent): (State, seq<PiEvent>) {
    if e.Turn? && e.starts then
      var reset := ResetTurn(s.(cycleComplete := false));
      if s.cycleComplete then (reset, [AgentStart, TurnStart])
      else
        var (s', out) := EnsureStarted(ctx, reset, e.t);
        (s', out + [TurnStart])
    else if s.cycleComplete then (s, [])
    else match e
      case Meta(t, model, backend) =>
        var s' := s.(backend := if backend != "injected" then Some(backend) else s.backend,
                     model := if model != "meta" && model != "memory_injection" then Some(model) else s.model);
        if s'.messageOpen && !s'.messageStarted then EnsureBoth(ctx, s', t, t) else (s', [])
      case TokenUsage(_, usage) => (s.(tokenUsage := Some(usage)), [])
      case RunStart(t) => EnsureStarted(ctx, s, t)
      case Turn(t, _) =>
        var (s', out) := EnsureStarted(ctx, s, t);
        (s', out + [TurnEnd(AssistantMessage(s', t), s'.toolResults)])
      case MessageEdge(t, starts, assistant) =>
        if !assistant then (s, [])
        else if starts then (s.(messageOpen := true, messageTimestamp := t), [])
        else
          var (s', out) := EnsureBoth(ctx, s, t, Stamp(s, t));
          var closed := s'.(messageOpen := false);
          (closed, out + [MessageEnd(AssistantMessage(closed, t))])
      case Text(t, content) =>
        if content == "" then (s, [])
        else
          var (s', out) := EnsureBoth(ctx, s.(text := content), t, Stamp(s, t));
          var message := AssistantMessage(s', t);
          (s', out + [MessageUpdate(TextStart, "", message),
                      MessageUpdate(TextDelta, content, message),
                      MessageUpdate(TextEnd, content, message)])
      case Tool(t, _, _, _, _, _, _, _, _) =>
        var (s1, out) := EnsureStarted(ctx, s, t);
        var (s2, event) := OnTool(s1, e);
        (s2, out + [event])
      case Compaction(t, starts, summary) =>
        var (s', out) := EnsureStarted(ctx, s, t);
        (s', out + [if starts then CompactionStart else CompactionEnd(Truthy(Some(summary)))])
      case Retry(t, starts, attempt, error) =>
        var (s', out) := EnsureStarted(ctx, s, t);
        (s', out + [if starts then AutoRetryStart(Or(attempt, 1), error)
                    else AutoRetryEnd(error == "", Or(attempt, 1), Truthy(Some(error)))])
      case RunComplete(_, _, _, _, _) => OnRunComplete(ctx, s, e)
      case Other(_) => (s, [])
  }

  function Stream(ctx: Context, events: seq<TimelineEvent>): (State, seq<PiEvent>) {
    if events == [] then (Initial(ctx), [])
    else
      var (s, before) := Stream(ctx, events[..|events| - 1]);
      var (s', out) := Project(ctx, s, events[|events| - 1]);
      (s', before + out)
  }

  // ------------------------------------------------------------------------------- the closure

  class PiJsonProjector {
    const ctx: Context
    var started: bool
    var cycleComplete: bool
    var messageOpen: bool
    var messageStarted: bool
    var text: string
    var model: Option<string>
    var backend: Option<string>
    var tokenUsage: Option<string>
    var messageTimestamp: nat
    var toolArgs: map<string, string>
    var toolResults: seq<ToolResult>

    function View(): State
      reads this
    {
      State(started, cycleComplete, messageOpen, messageStarted, text, model, backend,
            tokenUsage, messageTimestamp, toolArgs, toolResults)
    }

    constructor (ctx: Context)
      ensures this.ctx == ctx && View() == Initial(ctx)
    {
      this.ctx := ctx;
      started, cycleComplete, messageOpen, messageStarted := false, false, false, false;
      text, model, backend, tokenUsage := "", ctx.model, ctx.backend, None;
      messageTimestamp := Or(ctx.startedAtMs, 0);
      toolArgs, toolResults := map[], [];
    }

    method Start(t: nat) returns (out: seq<PiEvent>)
      modifies this
      ensures (View(), out) == EnsureStarted(ctx, old(View()), t)
    {
      if started { return []; }
      started := true;
      return [Session(Or(ctx.sessionId, ctx.jobId), Or(ctx.startedAtMs, t), ctx.cwd), AgentStart];
    }

    method StartMessage(t: nat) returns (out: seq<PiEvent>)
      modifies this
      ensures (View(), out) == EnsureMessageStarted(old(View()), t)
    {
      if messageStarted { return []; }
      messageStarted, messageOpen, messageTimestamp := true, true, t;
      return [MessageStart(AssistantMessage(View(), t))];
    }

    method StartBoth(t: nat, stamp: nat) returns (out: seq<PiEvent>)
      modifies this
      ensures (View(), out) == EnsureBoth(ctx, old(View()), t, stamp)
    {
      out := Start(t);
      var more := StartMessage(stamp);
      out := out + more;
    }

    method BeginTurn(t: nat) returns (out: seq<PiEvent>)
      modifies this
      ensures (View(), out) == Project(ctx, old(View()), Turn(t, true))
    {
      var restarting := cycleComplete;
      cycleComplete := false;
      messageOpen, messageStarted, text, tokenUsage := false, false, "", None;
      toolArgs, toolResults := map[], [];
      if restarting { return [AgentStart, TurnStart]; }
      out := Start(t);
      out := out + [TurnStart];
    }

    method CompleteRun(e: TimelineEvent) returns (out: seq<PiEvent>)
      requires e.RunComplete?
      modifies this
      ensures (View(), out) == OnRunComplete(ctx, old(View()), e)
    {
      out := Start(e.t);
      model, backend := Else(e.runModel, model), Else(e.runBackend, backend);
      tokenUsage := Else(e.runUsage, tokenUsage);
      text := Or(e.output, text);
      cycleComplete := true;
      var message := AssistantMessage(View(), e.t);
      if messageOpen && !messageStarted {
        var more := StartMessage(Stamp(View(), e.t));
        out := out + more;
      } else {
        assert out + [] == out;
      }
      if messageOpen { out := out + [MessageEnd(message)]; } else { assert out + [] == out; }
      out := out + [AgentEnd(if text == "" then [] else [message]), AgentSettled];
    }

    method RunTool(e: TimelineEvent) returns (out: seq<PiEvent>)
      requires e.Tool? && !cycleComplete
      modifies this
      ensures (View(), out) == Project(ctx, old(View()), e)
    {
      out := Start(e.t);
      var id := CallIdOf(e);
      if e.phase.PhaseStart? {
        var args := Or(e.args, "{}");
        toolArgs := toolArgs[id := args];
        return out + [ToolExecutionStart(id, e.tool, args)];
      }
      if e.phase.PhaseUpdate? {
        return out + [ToolExecutionUpdate(id, e.tool, if id in toolArgs then toolArgs[id] else "{}")];
      }
      var result, isError := Else(e.resultRaw, e.resultSummary), Or(e.isError, false);
      toolResults := toolResults + [ToolResult(id, e.tool, result, isError, e.t)];
      return out + [ToolExecutionEnd(id, e.tool, result, isError)];
    }

    /** The returned closure: one event in, its projection out. */
    method OnEvent(e: TimelineEvent) returns (out: seq<PiEvent>)
      modifies this
      ensures (View(), out) == Project(ctx, old(View()), e)
    {
      if e.Turn? && e.starts {
        out := BeginTurn(e.t);
        return;
      }
      if cycleComplete { return []; }
      match e
      case Meta(t, newModel, newBackend) =>
        if newBackend != "injected" { backend := Some(newBackend); }
        if newModel != "meta" && newModel != "memory_injection" { model := Some(newModel); }
        if messageOpen && !messageStarted { out := StartBoth(t, t); } else { out := []; }
      case TokenUsage(_, usage) =>
        tokenUsage := Some(usage);
        out := [];
      case RunStart(t) => out := Start(t);
      case Turn(t, _) =>
        out := Start(t);
        out := out + [TurnEnd(AssistantMessage(View(), t), toolResults)];
      case MessageEdge(t, starts, assistant) =>
        out := [];
        if assistant && starts {
          messageOpen, messageTimestamp := true, t;
        } else if assistant {
          out := StartBoth(t, Stamp(View(), t));
          messageOpen := false;
          out := out + [MessageEnd(AssistantMessage(View(), t))];
        }
      case Text(t, content) =>
        out := [];
        if content != "" {
          text := content;
          out := StartBoth(t, Stamp(View(), t));
          var message := AssistantMessage(View(), t);
          out := out + [MessageUpdate(TextStart, "", message),
                        MessageUpdate(TextDelta, content, message),
                        MessageUpdate(TextEnd, content, message)];
        }
      case Tool(_, _, _, _, _, _, _, _, _) => out := RunTool(e);
      case Compaction(t, starts, summary) =>
        out := Start(t);
        out := out + [if starts then CompactionStart else CompactionEnd(Truthy(Some(summary)))];
      case Retry(t, starts, attempt, error) =>
        out := Start(t);
        out := out + [if starts then AutoRetryStart(Or(attempt, 1), error)
                      else AutoRetryEnd(error == "", Or(attempt, 1), Truthy(Some(error)))];
      case RunComplete(_, _, _, _, _) => out := CompleteRun(e);
      case Other(_) => out := [];
    }
  }

  // ------------------------------------------------------------------------------- the grammar

  /** Where the current turn segment starts: after the last `turn_start`, or at the beginning. */
  function SegmentStart(o: seq<PiEvent>): (k: nat)
    ensures k <= |o|
    ensures k > 0 ==> o[k - 1].TurnStart?
    ensures forall i :: k <= i < |o| ==> !o[i].TurnStart?
  {
    if o == [] then 0
    else if o[|o| - 1].TurnStart? then |o|
    else SegmentStart(o[..|o| - 1])
  }

  function Segment(o: seq<PiEvent>): seq<PiEvent> {
    o[SegmentStart(o)..]
  }

  predicate HasMessageStart(o: seq<PiEvent>) {
    exists e :: e in o && e.MessageStart?
  }

  /** The tool executions that ended in a stretch of the stream. */
  function Ended(o: seq<PiEvent>): seq<(string, string, Option<string>, bool)> {
    if o == [] then []
    else
      var last := o[|o| - 1];
      Ended(o[..|o| - 1])
        + (if last.ToolExecutionEnd? then [(last.callId, last.tool, last.result, last.isError)] else [])
  }

  function Briefs(results: seq<ToolResult>): seq<(string, string, Option<string>, bool)> {
    seq(|results|, i requires 0 <= i < |results| =>
      (results[i].callId, results[i].tool, results[i].result, results[i].isError))
  }

  /** What may come after a stream. */
  predicate MayFollow(o: seq<PiEvent>, e: PiEvent) {
    match e
    case Session(_, _, _) => o == []
    case AgentStart => o != [] && (o[|o| - 1].Session? || o[|o| - 1].AgentSettled?)
    case AgentSettled => o != [] && o[|o| - 1].AgentEnd?
    case _ =>
      && o != [] && !o[|o| - 1].Session? && !o[|o| - 1].AgentEnd? && !o[|o| - 1].AgentSettled?
      && (e.MessageStart? ==> !HasMessageStart(Segment(o)))
      && (e.MessageUpdate? || e.MessageEnd? ==> HasMessageStart(Segment(o)))
      && (e.TurnEnd? ==> Briefs(e.toolResults) == Ended(Segment(o)))
  }

  ghost predicate Grammatical(o: seq<PiEvent>) {
    forall i :: 0 <= i < |o| ==> MayFollow(o[..i], o[i])
  }

  /** An agent is running: neither just opened by `session` nor ended. */
  predicate Running(o: seq<PiEvent>) {
    o != [] && !o[|o| - 1].Session? && !o[|o| - 1].AgentEnd? && !o[|o| - 1].AgentSettled?
  }

  /** What the variables remember of the current segment. */
  ghost predicate RemembersSegment(s: State, o: seq<PiEvent>) {
    && s.messageStarted == HasMessageStart(Segment(o))
    && Briefs(s.toolResults) == Ended(Segment(o))
  }

  /** Between two events: nothing emitted yet, an agent running, or a settled one. */
  ghost predicate Good(s: State, o: seq<PiEvent>) {
    && Grammatical(o) && RemembersSegment(s, o)
    && (if !s.started then o == [] && !s.cycleComplete
        else if s.cycleComplete then o != [] && o[|o| - 1].AgentSettled?
        else Running(o))
  }

  /** Amid an event, with an agent running. */
  ghost predicate Midway(s: State, o: seq<PiEvent>) {
    Grammatical(o) && RemembersSegment(s, o) && s.started && Running(o)
  }

  lemma GrowGrammar(o: seq<PiEvent>, e: PiEvent)
    requires Grammatical(o) && MayFollow(o, e)
    ensures Grammatical(o + [e])
    ensures !e.TurnStart? ==> Segment(o + [e]) == Segment(o) + [e]
    ensures e.TurnStart? ==> Segment(o + [e]) == []
  {
    hide MayFollow, Segment;
    SegmentGrows(o, e);
    forall i | 0 <= i < |o + [e]|
      ensures MayFollow((o + [e])[..i], (o + [e])[i])
    {
      if i < |o| {
        assert (o + [e])[..i] == o[..i];
      } else {
        assert (o + [e])[..i] == o;
      }
    }
  }

  lemma SegmentGrows(o: seq<PiEvent>, e: PiEvent)
    ensures !e.TurnStart? ==> Segment(o + [e]) == Segment(o) + [e]
    ensures e.TurnStart? ==> Segment(o + [e]) == []
  {
    assert (o + [e])[..|o|] == o;
  }

  /** One more event: what it does to the two facts the state remembers of a segment. */
  lemma GrowSegment(o: seq<PiEvent>, e: PiEvent)
    ensures HasMessageStart(o + [e]) <==> HasMessageStart(o) || e.MessageStart?
    ensures Ended(o + [e]) == Ended(o) + (if e.ToolExecutionEnd? then [(e.callId, e.tool, e.result, e.isError)] else [])
    ensures !HasMessageStart([]) && Ended([]) == []
  {
    assert (o + [e])[..|o|] == o;
    assert forall x :: x in o + [e] <==> x in o || x == e;
  }

  /** The memory is four fields; the others may change under it. */
  lemma OtherFieldsAreFree(s: State, s': State, o: seq<PiEvent>)
    requires s'.started == s.started && s'.messageStarted == s.messageStarted && s'.toolResults == s.toolResults
    ensures Midway(s, o) ==> Midway(s', o)
    ensures Good(s, o) && s'.cycleComplete == s.cycleComplete ==> Good(s', o)
  {
  }

  lemma MidwayIsGood(s: State, o: seq<PiEvent>)
    requires Midway(s, o) && !s.cycleComplete
    ensures Good(s, o)
  {
  }

  /** Any event but the five that move the state's memory. */
  predicate IsPlain(e: PiEvent) {
    !e.Session? && !e.AgentStart? && !e.AgentEnd? && !e.AgentSettled? && !e.TurnStart?
    && !e.MessageStart? && !e.ToolExecutionEnd?
  }

  lemma EmitPlain(s: State, o: seq<PiEvent>, e: PiEvent)
    requires Midway(s, o) && IsPlain(e)
    requires e.MessageUpdate? || e.MessageEnd? ==> s.messageStarted
    requires e.TurnEnd? ==> e.toolResults == s.toolResults
    ensures Midway(s, o + [e])
  {
    GrowGrammar(o, e);
    GrowSegment(Segment(o), e);
  }

  lemma EmitStart(ctx: Context, s: State, o: seq<PiEvent>, t: nat)
    requires Good(s, o) && !s.cycleComplete
    ensures var (s', out) := EnsureStarted(ctx, s, t);
            Midway(s', o + out) && s' == s.(started := true)
  {
    hide Grammatical, Segment, SegmentStart, HasMessageStart, Ended, Briefs;
    var (s', out) := EnsureStarted(ctx, s, t);
    if s.started {
      assert o + out == o;
    } else {
      var begun := o + [out[0]];
      GrowGrammar(o, out[0]);
      GrowSegment(Segment(o), out[0]);
      GrowGrammar(begun, out[1]);
      GrowSegment(Segment(begun), out[1]);
      assert o + out == begun + [out[1]];
    }
  }

  lemma EmitMessageStart(s: State, o: seq<PiEvent>, t: nat)
    requires Midway(s, o)
    ensures var (s', out) := EnsureMessageStarted(s, t);
            Midway(s', o + out) && s'.messageStarted && s'.cycleComplete == s.cycleComplete
            && s'.toolResults == s.toolResults
  {
    var (s', out) := EnsureMessageStarted(s, t);
    if s.messageStarted {
      assert o + out == o;
    } else {
      GrowGrammar(o, out[0]);
      GrowSegment(Segment(o), out[0]);
    }
  }

  lemma EmitBoth(ctx: Context, s: State, o: seq<PiEvent>, t: nat, stamp: nat)
    requires Good(s, o) && !s.cycleComplete
    ensures var (s', out) := EnsureBoth(ctx, s, t, stamp);
            Midway(s', o + out) && s'.messageStarted && !s'.cycleComplete
  {
    hide Midway, Good, AssistantMessage;
    var (s1, out1) := EnsureStarted(ctx, s, t);
    var (s2, out2) := EnsureMessageStarted(s1, stamp);
    EmitStart(ctx, s, o, t);
    EmitMessageStart(s1, o + out1, stamp);
    assert o + (out1 + out2) == (o + out1) + out2;
  }

  lemma EmitTool(s: State, o: seq<PiEvent>, e: TimelineEvent)
    requires Midway(s, o) && e.Tool?
    ensures var (s', event) := OnTool(s, e);
            Midway(s', o + [event]) && s'.cycleComplete == s.cycleComplete
  {
    hide CallIdOf, Grammatical, Segment, SegmentStart, HasMessageStart, Ended;
    var (s', event) := OnTool(s, e);
    GrowGrammar(o, event);
    GrowSegment(Segment(o), event);
  }

  lemma EmitEnd(s: State, o: seq<PiEvent>, messages: seq<Message>)
    requires Midway(s, o) && s.cycleComplete
    ensures Good(s, o + [AgentEnd(messages), AgentSettled])
  {
    hide Grammatical, Segment, SegmentStart, HasMessageStart, Ended, Briefs;
    var ended := o + [AgentEnd(messages)];
    GrowGrammar(o, AgentEnd(messages));
    GrowSegment(Segment(o), AgentEnd(messages));
    GrowGrammar(ended, AgentSettled);
    GrowSegment(Segment(ended), AgentSettled);
    assert o + [AgentEnd(messages), AgentSettled] == ended + [AgentSettled];
  }

  /** The optional `message_start` and `message_end` of a completed run. */
  lemma EmitLastMessage(s: State, o: seq<PiEvent>, t: nat, message: Message)
    requires Midway(s, o)
    ensures var (s', out) := if s.messageOpen && !s.messageStarted then EnsureMessageStarted(s, t) else (s, []);
            var end := if s'.messageOpen then [MessageEnd(message)] else [];
            Midway(s', o + out + end) && s'.cycleComplete == s.cycleComplete
  {
    hide Midway, AssistantMessage;
    var (s', out) := if s.messageOpen && !s.messageStarted then EnsureMessageStarted(s, t) else (s, []);
    EmitMessageStart(s, o, t);
    assert o + [] == o;
    if s'.messageOpen {
      EmitPlain(s', o + out, MessageEnd(message));
    } else {
      assert o + out + [] == o + out;
    }
  }

  lemma EmitRunComplete(ctx: Context, s: State, o: seq<PiEvent>, e: TimelineEvent)
    requires Good(s, o) && !s.cycleComplete && e.RunComplete?
    ensures var (s', out) := OnRunComplete(ctx, s, e);
            Good(s', o + out)
  {
    hide Midway, Good, AssistantMessage, Stamp;
    var (s1, out1) := EnsureStarted(ctx, s, e.t);
    EmitStart(ctx, s, o, e.t);
    var s2 := s1.(model := Else(e.runModel, s1.model), backend := Else(e.runBackend, s1.backend),
                  tokenUsage := Else(e.runUsage, s1.tokenUsage), text := Or(e.output, s1.text), cycleComplete := true);
    var message := AssistantMessage(s2, e.t);
    var o1 := o + out1;
    OtherFieldsAreFree(s1, s2, o1);
    EmitLastMessage(s2, o1, Stamp(s2, e.t), message);
    var (s3, out3) := if s2.messageOpen && !s2.messageStarted then EnsureMessageStarted(s2, Stamp(s2, e.t)) else (s2, []);
    var end := if s3.messageOpen then [MessageEnd(message)] else [];
    var messages := if s3.text == "" then [] else [message];
    EmitEnd(s3, o1 + out3 + end, messages);
    assert o + (out1 + out3 + end + [AgentEnd(messages), AgentSettled])
        == o1 + out3 + end + [AgentEnd(messages), AgentSettled];
  }

  lemma OpenSegment(s: State, o: seq<PiEvent>)
    requires Grammatical(o) && MayFollow(o, TurnStart)
    requires s.started && !s.cycleComplete && !s.messageStarted && s.toolResults == []
    ensures Good(s, o + [TurnStart])
  {
    hide Grammatical, MayFollow;
    GrowGrammar(o, TurnStart);
    GrowSegment([], TurnStart);
  }

  /** A turn start in a running agent opens a new segment. */
  lemma EmitNextTurn(s: State, o: seq<PiEvent>)
    requires Midway(s, o) && !s.cycleComplete
    ensures Good(ResetTurn(s), o + [TurnStart])
  {
    hide Grammatical, Segment, HasMessageStart, Ended, Briefs, Good;
    OpenSegment(ResetTurn(s), o);
  }

  /** A turn start after a settled run opens the agent again. */
  lemma EmitRestart(s: State, o: seq<PiEvent>)
    requires Good(s, o) && s.cycleComplete
    ensures Good(ResetTurn(s.(cycleComplete := false)), o + [AgentStart, TurnStart])
  {
    hide Grammatical, Segment, HasMessageStart, Ended, Briefs;
    GrowGrammar(o, AgentStart);
    OpenSegment(ResetTurn(s.(cycleComplete := false)), o + [AgentStart]);
    assert o + [AgentStart, TurnStart] == o + [AgentStart] + [TurnStart];
  }

  lemma EmitTurnStart(ctx: Context, s: State, o: seq<PiEvent>, t: nat)
    requires Good(s, o)
    ensures var (s', out) := Project(ctx, s, Turn(t, true));
            Good(s', o + out)
  {
    hide Good, Midway;
    if s.cycleComplete {
      EmitRestart(s, o);
    } else {
      var (s1, out1) := EnsureStarted(ctx, s, t);
      EmitStart(ctx, s, o, t);
      EmitNextTurn(s1, o + out1);
      StartCommutesWithReset(ctx, s, t);
      assert o + (out1 + [TurnStart]) == o + out1 + [TurnStart];
    }
  }

  lemma StartCommutesWithReset(ctx: Context, s: State, t: nat)
    requires !s.cycleComplete
    ensures EnsureStarted(ctx, ResetTurn(s.(cycleComplete := false)), t)
         == (ResetTurn(EnsureStarted(ctx, s, t).0), EnsureStarted(ctx, s, t).1)
  {
  }

  /** Projecting one event keeps the grammar and the memory of it. */
  lemma ProjectKeepsGrammar(ctx: Context, s: State, o: seq<PiEvent>, e: TimelineEvent)
    requires Good(s, o)
    ensures var (s', out) := Project(ctx, s, e);
            Good(s', o + out)
  {
    assert o + [] == o;
    if e.Turn? && e.starts {
      EmitTurnStart(ctx, s, o, e.t);
    } else if !s.cycleComplete {
      ProjectRunning(ctx, s, o, e);
    }
  }

  /** The events that start the agent if need be and emit one plain event. */
  lemma ProjectPlain(ctx: Context, s: State, o: seq<PiEvent>, t: nat, last: PiEvent)
    requires Good(s, o) && !s.cycleComplete && IsPlain(last) && !last.MessageUpdate? && !last.MessageEnd?
    requires last.TurnEnd? ==> last.toolResults == s.toolResults
    ensures var (s', out) := EnsureStarted(ctx, s, t);
            Good(s', o + (out + [last]))
  {
    hide Midway, Good;
    var (s', out) := EnsureStarted(ctx, s, t);
    EmitStart(ctx, s, o, t);
    EmitPlain(s', o + out, last);
    MidwayIsGood(s', o + out + [last]);
    assert o + (out + [last]) == o + out + [last];
  }

  lemma ProjectMeta(ctx: Context, s: State, o: seq<PiEvent>, e: TimelineEvent)
    requires Good(s, o) && !s.cycleComplete && e.Meta?
    ensures var (s', out) := Project(ctx, s, e);
            Good(s', o + out)
  {
    hide Midway, Good, EnsureBoth;
    var s0 := s.(backend := if e.backend != "injected" then Some(e.backend) else s.backend,
                 model := if e.model != "meta" && e.model != "memory_injection" then Some(e.model) else s.model);
    OtherFieldsAreFree(s, s0, o);
    assert o + [] == o;
    var (s', out) := EnsureBoth(ctx, s0, e.t, e.t);
    EmitBoth(ctx, s0, o, e.t, e.t);
    MidwayIsGood(s', o + out);
  }

  lemma ProjectMessageEnd(ctx: Context, s: State, o: seq<PiEvent>, t: nat)
    requires Good(s, o) && !s.cycleComplete
    ensures var (s', out) := Project(ctx, s, MessageEdge(t, false, true));
            Good(s', o + out)
  {
    hide Midway, Good, EnsureBoth, Stamp, AssistantMessage;
    var (s', out) := EnsureBoth(ctx, s, t, Stamp(s, t));
    EmitBoth(ctx, s, o, t, Stamp(s, t));
    var closed := s'.(messageOpen := false);
    var last := MessageEnd(AssistantMessage(closed, t));
    OtherFieldsAreFree(s', closed, o + out);
    EmitPlain(closed, o + out, last);
    MidwayIsGood(closed, o + out + [last]);
    assert o + (out + [last]) == o + out + [last];
  }

  lemma ProjectText(ctx: Context, s: State, o: seq<PiEvent>, t: nat, content: string)
    requires Good(s, o) && !s.cycleComplete && content != ""
    ensures var (s', out) := Project(ctx, s, Text(t, content));
            Good(s', o + out)
  {
    hide Midway, Good, EnsureBoth, Stamp, AssistantMessage;
    var s0 := s.(text := content);
    OtherFieldsAreFree(s, s0, o);
    var (s', out) := EnsureBoth(ctx, s0, t, Stamp(s, t));
    EmitBoth(ctx, s0, o, t, Stamp(s, t));
    var message := AssistantMessage(s', t);
    var a, b, c := MessageUpdate(TextStart, "", message), MessageUpdate(TextDelta, content, message),
                   MessageUpdate(TextEnd, content, message);
    EmitPlain(s', o + out, a);
    EmitPlain(s', o + out + [a], b);
    EmitPlain(s', o + out + [a] + [b], c);
    MidwayIsGood(s', o + out + [a] + [b] + [c]);
    assert o + (out + [a, b, c]) == o + out + [a] + [b] + [c];
  }

  lemma ProjectTool(ctx: Context, s: State, o: seq<PiEvent>, e: TimelineEvent)
    requires Good(s, o) && !s.cycleComplete && e.Tool?
    ensures var (s', out) := Project(ctx, s, e);
            Good(s', o + out)
  {
    hide Midway, Good, OnTool;
    var (s1, out) := EnsureStarted(ctx, s, e.t);
    EmitStart(ctx, s, o, e.t);
    var (s2, last) := OnTool(s1, e);
    EmitTool(s1, o + out, e);
    MidwayIsGood(s2, o + out + [last]);
    assert o + (out + [last]) == o + out + [last];
  }

  lemma ProjectRunning(ctx: Context, s: State, o: seq<PiEvent>, e: TimelineEvent)
    requires Good(s, o) && !s.cycleComplete && !(e.Turn? && e.starts)
    ensures var (s', out) := Project(ctx, s, e);
            Good(s', o + out)
  {
    hide Midway, Good, EnsureBoth, OnTool, OnRunComplete, Stamp, AssistantMessage, Truthy;
    assert o + [] == o;
    match e
    case Meta(_, _, _) => ProjectMeta(ctx, s, o, e);
    case TokenUsage(_, usage) => OtherFieldsAreFree(s, s.(tokenUsage := Some(usage)), o);
    case RunStart(t) =>
      EmitStart(ctx, s, o, t);
      MidwayIsGood(EnsureStarted(ctx, s, t).0, o + EnsureStarted(ctx, s, t).1);
    case Turn(t, _) =>
      var s' := EnsureStarted(ctx, s, t).0;
      ProjectPlain(ctx, s, o, t, TurnEnd(AssistantMessage(s', t), s'.toolResults));
    case MessageEdge(t, starts, assistant) =>
      if assistant && !starts {
        ProjectMessageEnd(ctx, s, o, t);
      } else {
        OtherFieldsAreFree(s, s.(messageOpen := true, messageTimestamp := t), o);
      }
    case Text(t, content) =>
      if content != "" {
        ProjectText(ctx, s, o, t, content);
      }
    case Tool(_, _, _, _, _, _, _, _, _) => ProjectTool(ctx, s, o, e);
    case Compaction(t, starts, summary) =>
      ProjectPlain(ctx, s, o, t, if starts then CompactionStart else CompactionEnd(Truthy(Some(summary))));
    case Retry(t, starts, attempt, error) =>
      ProjectPlain(ctx, s, o, t, if starts then AutoRetryStart(Or(attempt, 1), error)
                                 else AutoRetryEnd(error == "", Or(attempt, 1), Truthy(Some(error))));
    case RunComplete(_, _, _, _, _) => EmitRunComplete(ctx, s, o, e);
    case Other(_) =>
  }

  lemma {:induction false} StreamKeepsGrammar(ctx: Context, events: seq<TimelineEvent>)
    ensures var (s, o) := Stream(ctx, events);
            Good(s, o)
  {
    if events != [] {
      StreamKeepsGrammar(ctx, events[..|events| - 1]);
      var (s, o) := Stream(ctx, events[..|events| - 1]);
      ProjectKeepsGrammar(ctx, s, o, events[|events| - 1]);
    }
  }

  // ------------------------------------------------------------------------------- theorems

  /**
   The grammar, for every sequence of timeline events: one `session`, first; the next event after
   it is `agent_start`; every `agent_end` is at once followed by `agent_settled`, and nothing but
   `agent_start` comes after that.
   */
  lemma RunsAlternate(ctx: Context, events: seq<TimelineEvent>, i: nat)
    requires i < |Stream(ctx, events).1|
    ensures var o := Stream(ctx, events).1;
            && (o[i].Session? <==> i == 0)
            && (o[i].AgentStart? <==> i > 0 && (o[i - 1].Session? || o[i - 1].AgentSettled?))
            && (o[i].AgentSettled? <==> i > 0 && o[i - 1].AgentEnd?)
            && (o[i].AgentEnd? ==> i + 1 < |o|)
  {
    hide Stream, Segment, HasMessageStart, Ended, Briefs, RemembersSegment;
    StreamKeepsGrammar(ctx, events);
    var (s, o) := Stream(ctx, events);
    assert MayFollow(o[..i], o[i]);
    if i > 0 {
      assert MayFollow(o[..i - 1], o[i - 1]);
    }
  }

  /** The start of a message is in a segment, seen from the whole stream. */
  lemma MessageStartsIn(o: seq<PiEvent>, from: nat)
    requires from <= |o|
    ensures HasMessageStart(o[from..]) <==> exists j :: from <= j < |o| && o[j].MessageStart?
  {
    if HasMessageStart(o[from..]) {
      var k :| 0 <= k < |o[from..]| && o[from..][k].MessageStart?;
      assert o[from + k].MessageStart?;
    }
    forall j | from <= j < |o| && o[j].MessageStart?
      ensures HasMessageStart(o[from..])
    {
      assert o[from..][j - from] == o[j];
    }
  }

  /**
   Within a turn segment a message starts at most once, and no update or end comes before it starts.
   */
  lemma MessagesStartOncePerSegment(ctx: Context, events: seq<TimelineEvent>, i: nat)
    requires i < |Stream(ctx, events).1|
    ensures var o := Stream(ctx, events).1;
            var from := SegmentStart(o[..i]);
            && (o[i].MessageStart? ==> forall j :: from <= j < i ==> !o[..i][j].MessageStart?)
            && (o[i].MessageUpdate? || o[i].MessageEnd? ==> exists j :: from <= j < i && o[..i][j].MessageStart?)
  {
    hide Stream, HasMessageStart, SegmentStart, Ended, Briefs;
    StreamKeepsGrammar(ctx, events);
    var o := Stream(ctx, events).1;
    assert MayFollow(o[..i], o[i]);
    MessageStartsIn(o[..i], SegmentStart(o[..i]));
  }

  /** A `turn_end` carries exactly the tool results since the last turn start, in their order. */
  lemma TurnEndsCarryTheirResults(ctx: Context, events: seq<TimelineEvent>, i: nat)
    requires i < |Stream(ctx, events).1| && Stream(ctx, events).1[i].TurnEnd?
    ensures var o := Stream(ctx, events).1;
            Briefs(o[i].toolResults) == Ended(o[SegmentStart(o[..i])..i])
  {
    StreamKeepsGrammar(ctx, events);
    var (s, o) := Stream(ctx, events);
    assert MayFollow(o[..i], o[i]);
    assert Segment(o[..i]) == o[SegmentStart(o[..i])..i];
  }

  // ------------------------------------------------------------------------- nothing live is lost

  /** What an event means to a reader of either stream, without the brackets around it. */
  datatype Mark =
    | TurnEdge(starts: bool)
    | Spoke(content: string)
    | ToolStep(callId: string, tool: string, phase: Phase)
    | CompactionEdge(starts: bool)
    | RetryEdge(starts: bool, attempt: nat)
    | RunEnded

  function MarkOf(e: PiEvent): seq<Mark> {
    match e
    case TurnStart => [TurnEdge(true)]
    case TurnEnd(_, _) => [TurnEdge(false)]
    case MessageUpdate(TextDelta, content, _) => [Spoke(content)]
    case ToolExecutionStart(id, tool, _) => [ToolStep(id, tool, PhaseStart)]
    case ToolExecutionUpdate(id, tool, _) => [ToolStep(id, tool, PhaseUpdate)]
    case ToolExecutionEnd(id, tool, _, _) => [ToolStep(id, tool, PhaseEnd)]
    case CompactionStart => [CompactionEdge(true)]
    case CompactionEnd(_) => [CompactionEdge(false)]
    case AutoRetryStart(attempt, _) => [RetryEdge(true, attempt)]
    case AutoRetryEnd(_, attempt, _) => [RetryEdge(false, attempt)]
    case AgentSettled => [RunEnded]
    case _ => []
  }

  function Marks(o: seq<PiEvent>): seq<Mark> {
    if o == [] then [] else Marks(o[..|o| - 1]) + MarkOf(o[|o| - 1])
  }

  /** A run is settled from its completion to the next turn start. */
  predicate Settled(events: seq<TimelineEvent>) {
    events != []
    && var last := events[|events| - 1];
       last.RunComplete? || (!(last.Turn? && last.starts) && Settled(events[..|events| - 1]))
  }

  /** The meaning of a timeline event outside a settled run. */
  function Meaning(e: TimelineEvent): seq<Mark> {
    match e
    case Turn(_, starts) => [TurnEdge(starts)]
    case Text(_, content) => if content == "" then [] else [Spoke(content)]
    case Tool(_, _, tool, phase, _, _, _, _, _) => [ToolStep(CallIdOf(e), tool, phase)]
    case Compaction(_, starts, _) => [CompactionEdge(starts)]
    case Retry(_, starts, attempt, _) => [RetryEdge(starts, Or(attempt, 1))]
    case RunComplete(_, _, _, _, _) => [RunEnded]
    case _ => []
  }

  /** The meanings of the live events: of a settled run's leftovers only a turn start counts. */
  function Meanings(events: seq<TimelineEvent>): seq<Mark> {
    if events == [] then []
    else
      var front, last := events[..|events| - 1], events[|events| - 1];
      Meanings(front) + (if Settled(front) && !(last.Turn? && last.starts) then [] else Meaning(last))
  }

  lemma {:induction false} MarksAppend(a: seq<PiEvent>, b: seq<PiEvent>)
    ensures Marks(a + b) == Marks(a) + Marks(b)
  {
    hide MarkOf;
    if b == [] {
      assert a + b == a;
    } else {
      MarksAppend(a, b[..|b| - 1]);
      assert (a + b)[..|a + b| - 1] == a + b[..|b| - 1];
    }
  }

  lemma MarksGrow(o: seq<PiEvent>, e: PiEvent)
    ensures Marks(o + [e]) == Marks(o) + MarkOf(e)
  {
    assert (o + [e])[..|o|] == o;
  }

  lemma MarksOfNone()
    ensures Marks([]) == []
  {
  }

  /** The brackets around a run and a message mean nothing by themselves. */
  lemma BracketsAreSilent(ctx: Context, s: State, t: nat, stamp: nat)
    ensures Marks(EnsureStarted(ctx, s, t).1) == [] && EnsureStarted(ctx, s, t).0.cycleComplete == s.cycleComplete
    ensures Marks(EnsureMessageStarted(s, t).1) == [] && EnsureMessageStarted(s, t).0.cycleComplete == s.cycleComplete
    ensures Marks(EnsureBoth(ctx, s, t, stamp).1) == [] && EnsureBoth(ctx, s, t, stamp).0.cycleComplete == s.cycleComplete
  {
    hide Marks, AssistantMessage;
    MarksOfNone();
    StartIsSilent(ctx, s, t);
    MessageStartIsSilent(s, t);
    MessageStartIsSilent(EnsureStarted(ctx, s, t).0, stamp);
    MarksAppend(EnsureStarted(ctx, s, t).1, EnsureMessageStarted(EnsureStarted(ctx, s, t).0, stamp).1);
  }

  lemma StartIsSilent(ctx: Context, s: State, t: nat)
    ensures Marks(EnsureStarted(ctx, s, t).1) == [] && EnsureStarted(ctx, s, t).0.cycleComplete == s.cycleComplete
  {
    hide Marks;
    MarksOfNone();
    var out := EnsureStarted(ctx, s, t).1;
    if out != [] {
      assert out == ([] + [out[0]]) + [out[1]];
      MarksGrow([] + [out[0]], out[1]);
      MarksGrow([], out[0]);
    }
  }

  lemma MessageStartIsSilent(s: State, t: nat)
    ensures Marks(EnsureMessageStarted(s, t).1) == [] && EnsureMessageStarted(s, t).0.cycleComplete == s.cycleComplete
  {
    hide Marks, AssistantMessage;
    MarksOfNone();
    var out := EnsureMessageStarted(s, t).1;
    if out != [] {
      assert out == [] + [out[0]];
      MarksGrow([], out[0]);
    }
  }

  lemma RunCompleteKeepsMeaning(ctx: Context, s: State, e: TimelineEvent)
    requires e.RunComplete?
    ensures var (s', out) := OnRunComplete(ctx, s, e);
            Marks(out) == [RunEnded] && s'.cycleComplete
  {
    hide Marks, EnsureStarted, EnsureMessageStarted, AssistantMessage, Stamp;
    var (s1, out1) := EnsureStarted(ctx, s, e.t);
    BracketsAreSilent(ctx, s, e.t, e.t);
    var s2 := s1.(model := Else(e.runModel, s1.model), backend := Else(e.runBackend, s1.backend),
                  tokenUsage := Else(e.runUsage, s1.tokenUsage), text := Or(e.output, s1.text), cycleComplete := true);
    var message := AssistantMessage(s2, e.t);
    BracketsAreSilent(ctx, s2, Stamp(s2, e.t), e.t);
    MarksOfNone();
    var (s3, out3) := if s2.messageOpen && !s2.messageStarted then EnsureMessageStarted(s2, Stamp(s2, e.t)) else (s2, []);
    var end := if s3.messageOpen then [MessageEnd(message)] else [];
    var ended := AgentEnd(if s3.text == "" then [] else [message]);
    MarksAppend(out1, out3);
    MarksGrow([], MessageEnd(message));
    assert [] + [MessageEnd(message)] == [MessageEnd(message)];
    MarksAppend(out1 + out3, end);
    MarksGrow(out1 + out3 + end, ended);
    MarksGrow(out1 + out3 + end + [ended], AgentSettled);
    assert out1 + out3 + end + [ended, AgentSettled] == out1 + out3 + end + [ended] + [AgentSettled];
  }

  lemma TextKeepsMeaning(out: seq<PiEvent>, content: string, message: Message)
    requires Marks(out) == []
    ensures Marks(out + [MessageUpdate(TextStart, "", message),
                         MessageUpdate(TextDelta, content, message),
                         MessageUpdate(TextEnd, content, message)]) == [Spoke(content)]
  {
    hide Marks;
    var a, b, c := MessageUpdate(TextStart, "", message), MessageUpdate(TextDelta, content, message),
                   MessageUpdate(TextEnd, content, message);
    MarksGrow(out, a);
    MarksGrow(out + [a], b);
    MarksGrow(out + [a] + [b], c);
    assert out + [a, b, c] == out + [a] + [b] + [c];
  }

  lemma TurnStartKeepsMeaning(ctx: Context, s: State, t: nat)
    ensures var (s', out) := Project(ctx, s, Turn(t, true));
            Marks(out) == [TurnEdge(true)] && !s'.cycleComplete
  {
    hide Marks, EnsureStarted;
    var reset := ResetTurn(s.(cycleComplete := false));
    BracketsAreSilent(ctx, reset, t, t);
    MarksGrow(EnsureStarted(ctx, reset, t).1, TurnStart);
    MarksOfNone();
    MarksGrow([], AgentStart);
    MarksGrow([] + [AgentStart], TurnStart);
    assert [AgentStart, TurnStart] == [] + [AgentStart] + [TurnStart];
  }

  /** One event's projection means what the event means. */
  lemma ProjectKeepsMeaning(ctx: Context, s: State, e: TimelineEvent)
    ensures var (s', out) := Project(ctx, s, e);
            && Marks(out) == (if s.cycleComplete && !(e.Turn? && e.starts) then [] else Meaning(e))
            && (s'.cycleComplete <==> e.RunComplete? || (!(e.Turn? && e.starts) && s.cycleComplete))
  {
    hide Marks;
    if e.Turn? && e.starts {
      TurnStartKeepsMeaning(ctx, s, e.t);
    } else if s.cycleComplete {
      MarksOfNone();
    } else {
      RunningKeepsMeaning(ctx, s, e);
    }
  }

  lemma RunningKeepsMeaning(ctx: Context, s: State, e: TimelineEvent)
    requires !s.cycleComplete && !(e.Turn? && e.starts)
    ensures var (s', out) := Project(ctx, s, e);
            Marks(out) == Meaning(e) && s'.cycleComplete == e.RunComplete?
  {
    hide Marks, EnsureStarted, EnsureMessageStarted, EnsureBoth, OnRunComplete, AssistantMessage, Stamp, CallIdOf, Truthy;
    MarksOfNone();
    BracketsAreSilent(ctx, s, e.t, e.t);
    var (s1, out) := EnsureStarted(ctx, s, e.t);
    match e
    case Meta(t, model, backend) =>
      var s' := s.(backend := if backend != "injected" then Some(backend) else s.backend,
                   model := if model != "meta" && model != "memory_injection" then Some(model) else s.model);
      BracketsAreSilent(ctx, s', t, t);
    case Turn(t, _) => MarksGrow(out, TurnEnd(AssistantMessage(s1, t), s1.toolResults));
    case MessageEdge(t, _, _) =>
      var (s', both) := EnsureBoth(ctx, s, t, Stamp(s, t));
      BracketsAreSilent(ctx, s, t, Stamp(s, t));
      MarksGrow(both, MessageEnd(AssistantMessage(s'.(messageOpen := false), t)));
    case Text(t, content) =>
      var (s', both) := EnsureBoth(ctx, s.(text := content), t, Stamp(s, t));
      BracketsAreSilent(ctx, s.(text := content), t, Stamp(s, t));
      TextKeepsMeaning(both, content, AssistantMessage(s', t));
    case Tool(_, _, _, _, _, _, _, _, _) => MarksGrow(out, OnTool(s1, e).1);
    case Compaction(_, starts, summary) =>
      MarksGrow(out, if starts then CompactionStart else CompactionEnd(Truthy(Some(summary))));
    case Retry(_, starts, attempt, error) =>
      MarksGrow(out, if starts then AutoRetryStart(Or(attempt, 1), error)
                     else AutoRetryEnd(error == "", Or(attempt, 1), Truthy(Some(error))));
    case RunComplete(_, _, _, _, _) => RunCompleteKeepsMeaning(ctx, s, e);
    case _ =>
  }

  lemma {:induction false} NothingLiveIsLost(ctx: Context, events: seq<TimelineEvent>)
    ensures var (s, o) := Stream(ctx, events);
            Marks(o) == Meanings(events) && s.cycleComplete == Settled(events)
  {
    hide Project, Marks, Meaning;
    if events != [] {
      var front, e := events[..|events| - 1], events[|events| - 1];
      var (s, o) := Stream(ctx, front);
      NothingLiveIsLost(ctx, front);
      ProjectKeepsMeaning(ctx, s, e);
      MarksAppend(o, Project(ctx, s, e).1);
    } else {
      MarksOfNone();
    }
  }

  // ------------------------------------------------------------------------------- content

  /** A provider's name before the model's is taken off, once; any other name is shown whole. */
  lemma ModelLosesItsBackend(model: string, backend: string)
    requires backend != ""
    ensures ModelName(Some(backend + "/" + model), Some(backend)) == Some(model)
    ensures !(backend + "/" <= model) ==> ModelName(Some(model), Some(backend)) == Some(model)
    ensures ModelName(Some(model), None) == Some(model)
  {
    var whole := backend + "/" + model;
    assert backend + "/" <= whole;
    assert whole[|backend + "/"|..] == model;
  }

  /** An event agrees with the message it carries. */
  predicate Truthful(e: PiEvent) {
    match e
    case MessageUpdate(TextStart, content, message) => content == "" && message.text != ""
    case MessageUpdate(_, content, message) => content == message.text != ""
    case AgentEnd(messages) => messages == [] || (|messages| == 1 && messages[0].text != "" && messages[0].stopped)
    case TurnEnd(message, _) => !message.stopped
    case _ => true
  }

  predicate AllTruthful(o: seq<PiEvent>) {
    forall x :: x in o ==> Truthful(x)
  }

  lemma BracketsAreTruthful(ctx: Context, s: State, t: nat, stamp: nat)
    ensures var (s', out) := EnsureStarted(ctx, s, t);
            AllTruthful(out) && s'.text == s.text && s'.cycleComplete == s.cycleComplete
    ensures var (s', out) := EnsureMessageStarted(s, t);
            AllTruthful(out) && s'.text == s.text && s'.cycleComplete == s.cycleComplete
    ensures var (s', out) := EnsureBoth(ctx, s, t, stamp);
            AllTruthful(out) && s'.text == s.text && s'.cycleComplete == s.cycleComplete
  {
    hide AssistantMessage;
  }

  lemma RunCompleteIsTruthful(ctx: Context, s: State, e: TimelineEvent)
    requires e.RunComplete?
    ensures AllTruthful(OnRunComplete(ctx, s, e).1)
  {
    hide EnsureStarted, EnsureMessageStarted, ModelName, Stamp, Truthy;
    var (s1, _) := EnsureStarted(ctx, s, e.t);
    BracketsAreTruthful(ctx, s, e.t, e.t);
    var s2 := s1.(model := Else(e.runModel, s1.model), backend := Else(e.runBackend, s1.backend),
                  tokenUsage := Else(e.runUsage, s1.tokenUsage), text := Or(e.output, s1.text), cycleComplete := true);
    BracketsAreTruthful(ctx, s2, Stamp(s2, e.t), e.t);
  }

  lemma ProjectIsTruthful(ctx: Context, s: State, e: TimelineEvent)
    ensures AllTruthful(Project(ctx, s, e).1)
  {
    hide EnsureStarted, EnsureMessageStarted, EnsureBoth, OnRunComplete, ModelName, CallIdOf, Stamp, Truthy;
    BracketsAreTruthful(ctx, s, e.t, e.t);
    match e
    case Turn(t, _) => BracketsAreTruthful(ctx, ResetTurn(s.(cycleComplete := false)), t, t);
    case Meta(t, model, backend) =>
      var s' := s.(backend := if backend != "injected" then Some(backend) else s.backend,
                   model := if model != "meta" && model != "memory_injection" then Some(model) else s.model);
      BracketsAreTruthful(ctx, s', t, t);
    case MessageEdge(t, _, _) => BracketsAreTruthful(ctx, s, t, Stamp(s, t));
    case Text(t, content) => BracketsAreTruthful(ctx, s.(text := content), t, Stamp(s, t));
    case RunComplete(_, _, _, _, _) => RunCompleteIsTruthful(ctx, s, e);
    case _ =>
  }

  /**
   Over the whole stream: a text update carries the text of its message, an ended agent at most one
   message, which is stopped and not empty, and an ended turn a message not yet stopped.
   */
  lemma {:induction false} StreamIsTruthful(ctx: Context, events: seq<TimelineEvent>)
    ensures AllTruthful(Stream(ctx, events).1)
  {
    hide Project, Truthful;
    if events != [] {
      StreamIsTruthful(ctx, events[..|events| - 1]);
      ProjectIsTruthful(ctx, Stream(ctx, events[..|events| - 1]).0, events[|events| - 1]);
    }
  }

  // ------------------------------------------------------------------ what each event hands over

  /** The last event of a projection. */
  function LastOf(out: seq<PiEvent>): PiEvent
    requires out != []
  {
    out[|out| - 1]
  }

  /** The id of a tool call, or its place in the timeline for one without. */
  lemma CallsAreIdentified(e: TimelineEvent)
    requires e.Tool?
    ensures e.callId.Some? ==> CallIdOf(e) == e.callId.value
    ensures e.callId.None? && e.seqNo.Some? ==> CallIdOf(e) == "uncorrelated-" + Print(e.seqNo.value)
    ensures e.callId.None? && e.seqNo.None? ==> CallIdOf(e) == "uncorrelated-" + Print(e.t)
  {
  }

  /**
   A tool's start hands over its arguments, an update those of the call's latest start, and an end its
   raw result, or for want of one its summary, with its error flag; the end is also what the next
   `turn_end` will carry.
   */
  lemma ToolsHandOver(ctx: Context, s: State, e: TimelineEvent)
    requires !s.cycleComplete && e.Tool?
    ensures var (s', out) := Project(ctx, s, e);
            var id := CallIdOf(e);
            && out != []
            && (e.phase.PhaseStart? ==>
                  && LastOf(out) == ToolExecutionStart(id, e.tool, if e.args.Some? then e.args.value else "{}")
                  && s'.toolArgs == s.toolArgs[id := if e.args.Some? then e.args.value else "{}"]
                  && s'.toolResults == s.toolResults)
            && (e.phase.PhaseUpdate? ==>
                  && LastOf(out) == ToolExecutionUpdate(id, e.tool, if id in s.toolArgs then s.toolArgs[id] else "{}")
                  && s'.toolArgs == s.toolArgs && s'.toolResults == s.toolResults)
            && (e.phase.PhaseEnd? ==>
                  var result := if e.resultRaw.Some? then e.resultRaw else e.resultSummary;
                  var failed := e.isError == Some(true);
                  && LastOf(out) == ToolExecutionEnd(id, e.tool, result, failed)
                  && s'.toolResults == s.toolResults + [ToolResult(id, e.tool, result, failed, e.t)]
                  && s'.toolArgs == s.toolArgs)
  {
    hide CallIdOf;
  }

  /** The arguments of the latest start of each call in the current turn. */
  function LatestArgs(o: seq<PiEvent>): map<string, string> {
    if o == [] then map[]
    else
      var before, last := LatestArgs(o[..|o| - 1]), o[|o| - 1];
      match last
      case TurnStart => map[]
      case ToolExecutionStart(id, _, args) => before[id := args]
      case _ => before
  }

  /** The text of the current turn: what its latest update brought. */
  function LatestText(o: seq<PiEvent>): string {
    if o == [] then ""
    else
      var before, last := LatestText(o[..|o| - 1]), o[|o| - 1];
      match last
      case TurnStart => ""
      case MessageUpdate(TextDelta, content, _) => content
      case _ => before
  }

  /** An event agrees with the turn so far: an update's arguments, and the text of a running message. */
  predicate FitsTurn(o: seq<PiEvent>, e: PiEvent) {
    match e
    case ToolExecutionUpdate(id, _, args) =>
      args == if id in LatestArgs(o) then LatestArgs(o)[id] else "{}"
    case TurnEnd(message, _) => message.text == LatestText(o)
    case MessageEnd(message) => !message.stopped ==> message.text == LatestText(o)
    case _ => true
  }

  ghost predicate AllFit(o: seq<PiEvent>) {
    forall i :: 0 <= i < |o| ==> FitsTurn(o[..i], o[i])
  }

  /** What the variables remember of the turn; a settled run's text is its output. */
  ghost predicate RemembersTurn(s: State, o: seq<PiEvent>) {
    s.toolArgs == LatestArgs(o) && (!s.cycleComplete ==> s.text == LatestText(o))
  }

  /** Events that leave the turn's arguments and text alone. */
  predicate LeavesTurn(e: PiEvent) {
    !e.TurnStart? && !e.ToolExecutionStart? && !(e.MessageUpdate? && e.kind == TextDelta)
  }

  lemma FitOneMore(o: seq<PiEvent>, e: PiEvent)
    requires AllFit(o) && FitsTurn(o, e)
    ensures AllFit(o + [e])
    ensures LeavesTurn(e) ==> LatestArgs(o + [e]) == LatestArgs(o) && LatestText(o + [e]) == LatestText(o)
    ensures e.TurnStart? ==> LatestArgs(o + [e]) == map[] && LatestText(o + [e]) == ""
    ensures e.ToolExecutionStart? ==>
              LatestArgs(o + [e]) == LatestArgs(o)[e.callId := e.args] && LatestText(o + [e]) == LatestText(o)
    ensures e.MessageUpdate? && e.kind == TextDelta ==>
              LatestArgs(o + [e]) == LatestArgs(o) && LatestText(o + [e]) == e.content
  {
    assert (o + [e])[..|o|] == o;
    forall i | 0 <= i < |o + [e]|
      ensures FitsTurn((o + [e])[..i], (o + [e])[i])
    {
      if i < |o| {
        assert (o + [e])[..i] == o[..i];
      }
    }
  }

  /** Events that neither move the turn nor have to fit it. */
  predicate Passes(e: PiEvent) {
    LeavesTurn(e) && !e.ToolExecutionUpdate? && !e.TurnEnd? && !e.MessageEnd?
  }

  lemma {:induction false} PassingFits(o: seq<PiEvent>, out: seq<PiEvent>)
    requires AllFit(o) && forall e :: e in out ==> Passes(e)
    ensures AllFit(o + out) && LatestArgs(o + out) == LatestArgs(o) && LatestText(o + out) == LatestText(o)
    decreases |out|
  {
    hide FitsTurn, LatestArgs, LatestText, AllFit;
    if out == [] {
      assert o + out == o;
    } else {
      var front, last := out[..|out| - 1], out[|out| - 1];
      PassingFits(o, front);
      assert Passes(last);
      AnyPassingFits(o + front, last);
      FitOneMore(o + front, last);
      assert o + out == o + front + [last];
    }
  }

  lemma AnyPassingFits(o: seq<PiEvent>, e: PiEvent)
    requires Passes(e)
    ensures FitsTurn(o, e)
  {
  }

  /** The brackets pass, and touch neither arguments nor text. */
  lemma BracketsPass(ctx: Context, s: State, t: nat, stamp: nat)
    ensures var (s', out) := EnsureStarted(ctx, s, t);
            (forall e :: e in out ==> Passes(e)) && s'.text == s.text && s'.toolArgs == s.toolArgs
            && s'.cycleComplete == s.cycleComplete
    ensures var (s', out) := EnsureMessageStarted(s, t);
            (forall e :: e in out ==> Passes(e)) && s'.text == s.text && s'.toolArgs == s.toolArgs
            && s'.cycleComplete == s.cycleComplete
    ensures var (s', out) := EnsureBoth(ctx, s, t, stamp);
            (forall e :: e in out ==> Passes(e)) && s'.text == s.text && s'.toolArgs == s.toolArgs
            && s'.cycleComplete == s.cycleComplete
  {
    hide AssistantMessage;
  }

  lemma TurnStartFits(ctx: Context, s: State, o: seq<PiEvent>, t: nat)
    requires AllFit(o)
    ensures var (s', out) := Project(ctx, s, Turn(t, true));
            AllFit(o + out) && RemembersTurn(s', o + out)
  {
    hide EnsureStarted, AllFit, LatestArgs, LatestText;
    var reset := ResetTurn(s.(cycleComplete := false));
    BracketsPass(ctx, reset, t, t);
    var opening := if s.cycleComplete then [AgentStart] else EnsureStarted(ctx, reset, t).1;
    PassingFits(o, opening);
    FitOneMore(o + opening, TurnStart);
    assert o + (opening + [TurnStart]) == o + opening + [TurnStart];
    assert [AgentStart, TurnStart] == [AgentStart] + [TurnStart];
  }

  /** The agent opened if need be, and then one event that fits. */
  lemma OneEventFits(o: seq<PiEvent>, out: seq<PiEvent>, e: PiEvent)
    requires AllFit(o) && (forall x :: x in out ==> Passes(x))
    requires LatestArgs(o + out) == LatestArgs(o) && LatestText(o + out) == LatestText(o) ==> FitsTurn(o + out, e)
    ensures AllFit(o + (out + [e]))
    ensures LeavesTurn(e) ==> LatestArgs(o + (out + [e])) == LatestArgs(o) && LatestText(o + (out + [e])) == LatestText(o)
    ensures e.ToolExecutionStart? ==>
              LatestArgs(o + (out + [e])) == LatestArgs(o)[e.callId := e.args] && LatestText(o + (out + [e])) == LatestText(o)
  {
    hide AllFit, FitsTurn, LatestArgs, LatestText;
    PassingFits(o, out);
    FitOneMore(o + out, e);
    assert o + (out + [e]) == o + out + [e];
  }

  lemma ToolFits(ctx: Context, s: State, o: seq<PiEvent>, e: TimelineEvent)
    requires AllFit(o) && RemembersTurn(s, o) && !s.cycleComplete && e.Tool?
    ensures var (s', out) := Project(ctx, s, e);
            AllFit(o + out) && RemembersTurn(s', o + out)
  {
    hide EnsureStarted, AllFit, LatestArgs, LatestText, CallIdOf;
    var (s1, out) := EnsureStarted(ctx, s, e.t);
    BracketsPass(ctx, s, e.t, e.t);
    OneEventFits(o, out, OnTool(s1, e).1);
  }

  lemma TextFits(ctx: Context, s: State, o: seq<PiEvent>, t: nat, content: string)
    requires AllFit(o) && RemembersTurn(s, o) && !s.cycleComplete && content != ""
    ensures var (s', out) := Project(ctx, s, Text(t, content));
            AllFit(o + out) && RemembersTurn(s', o + out)
  {
    hide EnsureBoth, AllFit, LatestArgs, LatestText, AssistantMessage, Stamp;
    var s0 := s.(text := content);
    var (s', both) := EnsureBoth(ctx, s0, t, Stamp(s, t));
    BracketsPass(ctx, s0, t, Stamp(s, t));
    var message := AssistantMessage(s', t);
    var a, b, c := MessageUpdate(TextStart, "", message), MessageUpdate(TextDelta, content, message),
                   MessageUpdate(TextEnd, content, message);
    PassingFits(o, both);
    FitOneMore(o + both, a);
    FitOneMore(o + both + [a], b);
    FitOneMore(o + both + [a] + [b], c);
    assert o + (both + [a, b, c]) == o + both + [a] + [b] + [c];
  }

  lemma RunCompleteFits(ctx: Context, s: State, o: seq<PiEvent>, e: TimelineEvent)
    requires AllFit(o) && RemembersTurn(s, o) && !s.cycleComplete && e.RunComplete?
    ensures var (s', out) := OnRunComplete(ctx, s, e);
            AllFit(o + out) && RemembersTurn(s', o + out)
  {
    hide EnsureStarted, EnsureMessageStarted, AllFit, LatestArgs, LatestText, Stamp, ModelName, Truthy;
    var (s1, out1) := EnsureStarted(ctx, s, e.t);
    BracketsPass(ctx, s, e.t, e.t);
    var s2 := s1.(model := Else(e.runModel, s1.model), backend := Else(e.runBackend, s1.backend),
                  tokenUsage := Else(e.runUsage, s1.tokenUsage), text := Or(e.output, s1.text), cycleComplete := true);
    var message := AssistantMessage(s2, e.t);
    BracketsPass(ctx, s2, Stamp(s2, e.t), e.t);
    var (s3, out3) := if s2.messageOpen && !s2.messageStarted then EnsureMessageStarted(s2, Stamp(s2, e.t)) else (s2, []);
    PassingFits(o, out1);
    PassingFits(o + out1, out3);
    var begun := o + out1 + out3;
    var end := if s3.messageOpen then [MessageEnd(message)] else [];
    if s3.messageOpen {
      FitOneMore(begun, MessageEnd(message));
    } else {
      assert begun + end == begun;
    }
    var last := [AgentEnd(if s3.text == "" then [] else [message]), AgentSettled];
    PassingFits(begun + end, last);
    assert o + (out1 + out3 + end + last) == begun + end + last;
  }

  lemma RunningFits(ctx: Context, s: State, o: seq<PiEvent>, e: TimelineEvent)
    requires AllFit(o) && RemembersTurn(s, o) && !s.cycleComplete && !(e.Turn? && e.starts)
    ensures var (s', out) := Project(ctx, s, e);
            AllFit(o + out) && RemembersTurn(s', o + out)
  {
    hide EnsureStarted, EnsureMessageStarted, EnsureBoth, OnTool, OnRunComplete, AllFit, LatestArgs, LatestText,
         Stamp, ModelName, CallIdOf, Truthy;
    assert o + [] == o;
    BracketsPass(ctx, s, e.t, e.t);
    var (s1, out) := EnsureStarted(ctx, s, e.t);
    match e
    case Meta(t, model, backend) =>
      var s' := s.(backend := if backend != "injected" then Some(backend) else s.backend,
                   model := if model != "meta" && model != "memory_injection" then Some(model) else s.model);
      BracketsPass(ctx, s', t, t);
      PassingFits(o, EnsureBoth(ctx, s', t, t).1);
    case RunStart(t) => PassingFits(o, out);
    case Turn(t, _) => OneEventFits(o, out, TurnEnd(AssistantMessage(s1, t), s1.toolResults));
    case MessageEdge(t, _, _) =>
      var (s', both) := EnsureBoth(ctx, s, t, Stamp(s, t));
      BracketsPass(ctx, s, t, Stamp(s, t));
      OneEventFits(o, both, MessageEnd(AssistantMessage(s'.(messageOpen := false), t)));
    case Text(t, content) => if content != "" { TextFits(ctx, s, o, t, content); }
    case Tool(_, _, _, _, _, _, _, _, _) => ToolFits(ctx, s, o, e);
    case Compaction(_, starts, summary) =>
      OneEventFits(o, out, if starts then CompactionStart else CompactionEnd(Truthy(Some(summary))));
    case Retry(_, starts, attempt, error) =>
      OneEventFits(o, out, if starts then AutoRetryStart(Or(attempt, 1), error)
                           else AutoRetryEnd(error == "", Or(attempt, 1), Truthy(Some(error))));
    case RunComplete(_, _, _, _, _) => RunCompleteFits(ctx, s, o, e);
    case _ =>
  }

  lemma {:induction false} StreamRemembers(ctx: Context, events: seq<TimelineEvent>)
    ensures var (s, o) := Stream(ctx, events);
            AllFit(o) && RemembersTurn(s, o)
  {
    hide Project, AllFit;
    if events == [] {
      NothingFits(ctx);
    } else {
      var front, e := events[..|events| - 1], events[|events| - 1];
      var (s, o) := Stream(ctx, front);
      StreamRemembers(ctx, front);
      ProjectFits(ctx, s, o, e);
    }
  }

  lemma NothingFits(ctx: Context)
    ensures AllFit([]) && RemembersTurn(Initial(ctx), [])
  {
  }

  lemma ProjectFits(ctx: Context, s: State, o: seq<PiEvent>, e: TimelineEvent)
    requires AllFit(o) && RemembersTurn(s, o)
    ensures var (s', out) := Project(ctx, s, e);
            AllFit(o + out) && RemembersTurn(s', o + out)
  {
    hide AllFit, RemembersTurn;
    assert o + [] == o;
    if e.Turn? && e.starts {
      TurnStartFits(ctx, s, o, e.t);
    } else if !s.cycleComplete {
      RunningFits(ctx, s, o, e);
    }
  }

  /**
   Over the whole stream: an update of a tool call carries the arguments of the call's latest start in
   its turn, or none; an ended turn, and a message ended in a run, the turn's latest text.
   */
  lemma EventsFitTheirTurn(ctx: Context, events: seq<TimelineEvent>, i: nat)
    requires i < |Stream(ctx, events).1|
    ensures FitsTurn(Stream(ctx, events).1[..i], Stream(ctx, events).1[i])
  {
    hide FitsTurn, Stream;
    StreamRemembers(ctx, events);
  }

  /** What the other events leave behind them, and hand over. */
  lemma EventsHandOver(ctx: Context, s: State, e: TimelineEvent)
    requires !s.cycleComplete
    ensures var (s', out) := Project(ctx, s, e);
            && (e.TokenUsage? ==> s' == s.(tokenUsage := Some(e.usage)) && out == [])
            && (e.Meta? ==>
                  && s'.backend == (if e.backend == "injected" then s.backend else Some(e.backend))
                  && s'.model == (if e.model == "meta" || e.model == "memory_injection" then s.model else Some(e.model)))
            && (e.Meta? ==>
                  && (s.messageOpen && !s.messageStarted ==>
                        && s'.messageStarted && s'.messageTimestamp == e.t
                        && out != [] && LastOf(out) == MessageStart(AssistantMessage(s', e.t)))
                  && (!s.messageOpen || s.messageStarted ==> out == [] && s'.messageStarted == s.messageStarted))
            && (e.MessageEdge? && !e.assistant ==> s' == s && out == [])
            && (e.Compaction? && e.starts ==> out != [] && LastOf(out) == CompactionStart)
            && (e.Compaction? && !e.starts ==>
                  out != [] && LastOf(out) == CompactionEnd(if e.summary == "" then None else Some(e.summary)))
            && (e.Retry? && e.starts ==>
                  out != [] && LastOf(out) == AutoRetryStart(if e.attempt.Some? then e.attempt.value else 1, e.error))
            && (e.Retry? && !e.starts ==>
                  out != [] && LastOf(out) == AutoRetryEnd(e.error == "", if e.attempt.Some? then e.attempt.value else 1,
                                                           if e.error == "" then None else Some(e.error)))
  {
    hide ModelName, CallIdOf, OnRunComplete;
  }

  /** A turn's start leaves nothing of the turn before it, and keeps what is known of the model. */
  lemma TurnsStartAfresh(ctx: Context, s: State, t: nat)
    ensures var (s', out) := Project(ctx, s, Turn(t, true));
            && out != [] && LastOf(out) == TurnStart
            && s'.started == (s.started || !s.cycleComplete)
            && !s'.cycleComplete && !s'.messageOpen && !s'.messageStarted
            && s'.text == "" && s'.tokenUsage == None && s'.toolArgs == map[] && s'.toolResults == []
            && s'.model == s.model && s'.backend == s.backend && s'.messageTimestamp == s.messageTimestamp
  {
  }

  /**
   An assistant message's start is noted with its time and not yet emitted; the first thing said of it
   emits it with that time, or with the event's own if none is known. Its end closes it.
   */
  lemma MessagesOpenAndClose(ctx: Context, s: State, e: TimelineEvent)
    requires !s.cycleComplete && ((e.MessageEdge? && e.assistant) || (e.Text? && e.content != ""))
    ensures var (s', out) := Project(ctx, s, e);
            var stamp := if s.messageTimestamp != 0 then s.messageTimestamp else e.t;
            && (e.MessageEdge? && e.starts ==> s' == s.(messageOpen := true, messageTimestamp := e.t) && out == [])
            && (e.MessageEdge? && !e.starts ==>
                  && !s'.messageOpen && s'.messageStarted && s'.text == s.text
                  && out != [] && LastOf(out) == MessageEnd(AssistantMessage(s', e.t)))
            && (e.Text? ==> s'.text == e.content && s'.messageStarted && s'.messageOpen == (s.messageOpen || !s.messageStarted))
            && (e.Text? || !e.starts ==> s'.messageTimestamp == if s.messageStarted then s.messageTimestamp else stamp)
            && forall x :: x in out && x.MessageStart? ==> x.message == AssistantMessage(s', stamp)
  {
    hide ModelName, CallIdOf, OnRunComplete, OnTool;
  }

  /** A completed run's own model, backend, usage and output replace those so far; what it lacks stays. */
  lemma RunsHandOver(ctx: Context, s: State, e: TimelineEvent)
    requires !s.cycleComplete && e.RunComplete?
    ensures var (s', out) := Project(ctx, s, e);
            && s'.model == (if e.runModel.Some? then e.runModel else s.model)
            && s'.backend == (if e.runBackend.Some? then e.runBackend else s.backend)
            && s'.tokenUsage == (if e.runUsage.Some? then e.runUsage else s.tokenUsage)
            && s'.text == (if e.output.Some? then e.output.value else s.text)
            && |out| >= 2 && LastOf(out) == AgentSettled
            && out[|out| - 2] == AgentEnd(if s'.text == "" then [] else [AssistantMessage(s', e.t)])
            && (s.messageOpen ==> |out| >= 3 && out[|out| - 3] == MessageEnd(AssistantMessage(s', e.t)))
            && (s.messageOpen && !s.messageStarted ==>
                  |out| >= 4 && out[|out| - 4] ==
                    MessageStart(AssistantMessage(s', if s.messageTimestamp != 0 then s.messageTimestamp else e.t)))
            && (!s.messageOpen ==> forall x :: x in out ==> !x.MessageStart? && !x.MessageEnd?)
            && (s.messageStarted ==> forall x :: x in out ==> !x.MessageStart?)
  {
    hide ModelName;
  }

  /**
   What a message says of its origin: the provider if known, the model if known and without the
   provider before it, the usage if counted, and its time.
   */
  lemma MessagesSayTheirOrigin(s: State, t: nat)
    ensures var m := AssistantMessage(s, t);
            && m.text == s.text && m.usage == s.tokenUsage && m.timestamp == t && m.stopped == s.cycleComplete
            && (forall name :: m.provider == Some(name) <==> s.backend == Some(name) && name != "")
            && (s.model == None || s.model == Some("") ==> m.model == None)
            && (forall name :: m.provider.Some? && s.model == Some(m.provider.value + "/" + name) ==>
                  m.model == if name == "" then None else Some(name))
            && (s.model.Some? && s.model.value != "" && (m.provider.None? || !(m.provider.value + "/" <= s.model.value)) ==>
                  m.model == s.model)
  {
    forall name | Truthy(s.backend).Some? && s.model == Some(s.backend.value + "/" + name)
      ensures ModelName(s.model, s.backend) == Some(name)
    {
      ModelLosesItsBackend(name, s.backend.value);
    }
  }

  /** The first event opens the session: its id or the job's, and when and where the run began. */
  lemma SessionOpens(ctx: Context, s: State, e: TimelineEvent)
    requires !s.started && !s.cycleComplete && Project(ctx, s, e).1 != []
    ensures Project(ctx, s, e).1[0] ==
            Session(if ctx.sessionId.Some? then ctx.sessionId.value else ctx.jobId,
                    if ctx.startedAtMs.Some? then ctx.startedAtMs.value else e.t,
                    ctx.cwd)
  {
    hide ModelName, CallIdOf, AssistantMessage, Stamp, EnsureMessageStarted, OnTool;
  }
}
