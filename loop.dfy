/**
 * The agent loop of src/agent/loop.ts: it seeds a message history, calls the
 * model once per iteration, emits an ordered stream of loop events, runs the
 * requested tools one after another and stops with a single `done` event.
 *
 * The model call (`generateText`), each tool's `execute` and `Date.now()` are
 * oracles collected in a `World`: the n-th model call receives `reply(n)`, the
 * n-th executed tool call receives `outcome(n)` and the n-th event is stamped
 * with `clock(n)`. `notCallable` is the message of the `TypeError` thrown by
 * `tool.execute(...)` when the looked-up value has no `execute` (its wording
 * depends on the JavaScript engine).
 */
module AgentLoop {
  import opened Common

  datatype Role = SystemRole | UserRole | AssistantRole | ToolRole

  datatype ToolCall = ToolCall(toolCallId: string, toolName: string, args: Json)

  /** A message is either plain text or the list of tool calls of one response. */
  datatype Content = Text(text: string) | ToolCallParts(parts: seq<ToolCall>)

  datatype Message = Message(role: Role, content: Content)

  /** `Tool` (also imported elsewhere as `AgentTool`); `execute` is the `World`'s tool oracle. */
  datatype Tool = Tool(name: string, description: string, parameters: Json)

  /** `AgentLoopConfig`; the callbacks `onStep` and `onToolCall` are recorded in `Run`. */
  datatype AgentLoopConfig = AgentLoopConfig(
    tools: map<string, Tool>,
    maxIterations: int,
    systemPrompt: Option<string>)

  /** What one `generateText` call does: resolve with text and tool calls, or throw. */
  datatype ModelReply = Generated(text: string, toolCalls: seq<ToolCall>) | Failed(message: string)

  /** What one `tool.execute(args)` call does: resolve with a value, or throw. */
  datatype ToolOutcome = Returned(value: Json) | Threw(message: string)

  datatype World = World(reply: nat -> ModelReply, outcome: nat -> ToolOutcome, clock: nat -> int, notCallable: string)

  /**
   * The names every plain JavaScript object inherits from `Object.prototype`:
   * `config.tools[name]` finds a (truthy) value under them even when no tool
   * of that name is registered.
   */
  const InheritedNames: set<string> := {
    "constructor", "toString", "toLocaleString", "valueOf", "hasOwnProperty", "isPrototypeOf",
    "propertyIsEnumerable", "__proto__", "__defineGetter__", "__defineSetter__",
    "__lookupGetter__", "__lookupSetter__" }

  /** `config.tools[name]` is truthy: a registered tool or an inherited member. */
  predicate Found(tools: map<string, Tool>, name: string) {
    name in tools || name in InheritedNames
  }

  /** What `config.tools[name]` yields: a registered tool, an inherited member, or `undefined`. */
  datatype Lookup = Registered | Inherited | Absent

  function LookupTool(tools: map<string, Tool>, name: string): (l: Lookup)
    ensures l.Registered? <==> name in tools
    ensures l.Inherited? <==> name !in tools && name in InheritedNames
    ensures l.Absent? <==> name !in tools && name !in InheritedNames
  {
    if name in tools then Registered
    else if name in InheritedNames then Inherited
    else Absent
  }

  /** The payload of each `LoopEvent` type. `Thinking` exists in the event type but the loop never emits it. */
  datatype EventData =
    | Thinking
    | TextOut(text: string)
    | ToolCallOut(name: string, args: Json, callId: string)
    | ToolResultOut(name: string, outcome: ToolOutcome)
    | ErrorOut(message: string, iteration: int)
    | Done(iterations: int, maxReached: bool)

  datatype LoopEvent = LoopEvent(data: EventData, timestamp: int)

  /**
   * The loop's state and everything it has produced: the events, the history
   * `messages`, the iteration counter, how many tools were executed, the
   * arguments of every `onStep` and `onToolCall` callback, and the history
   * handed to each model call.
   */
  datatype Run = Run(
    events: seq<LoopEvent>,
    messages: seq<Message>,
    iteration: int,
    executed: nat,
    steps: seq<(int, int)>,
    notified: seq<(string, Json)>,
    requests: seq<seq<Message>>)

  /** `error.message.includes("rate limit")` */
  predicate IsRateLimit(message: string) {
    Contains(message, "rate limit")
  }

  /** The history before the first model call: the system prompt when it is a non-empty string, then the user prompt. */
  function Seed(systemPrompt: Option<string>, prompt: string): seq<Message> {
    (if systemPrompt.Some? && systemPrompt.value != "" then [Message(SystemRole, Text(systemPrompt.value))] else [])
    + [Message(UserRole, Text(prompt))]
  }

  function Emit(r: Run, w: World, d: EventData): Run {
    r.(events := r.events + [LoopEvent(d, w.clock(|r.events|))])
  }

  /** Execute one registered tool, catching its failure into a `tool_result`. */
  function ExecuteTool(r: Run, name: string, w: World): Run {
    Emit(r, w, ToolResultOut(name, w.outcome(r.executed))).(executed := r.executed + 1)
  }

  /** The `for` over one response's tool calls. */
  function ExecuteCalls(r: Run, calls: seq<ToolCall>, tools: map<string, Tool>, w: World): (r': Run)
    ensures r'.messages == r.messages && r'.iteration == r.iteration
    ensures r'.steps == r.steps && r'.requests == r.requests
    ensures r.events <= r'.events
    decreases |calls|
  {
    if calls == [] then r
    else ExecuteCalls(CallStep(r, calls[0], tools, w), calls[1..], tools, w)
  }

  /**
   * One pass of that `for`: the `tool_call` event, then a `tool_result` whenever
   * the lookup finds something. A registered tool runs and consumes one tool
   * outcome; an inherited member is not callable, so its `tool_result` carries
   * the `TypeError` and no tool runs; an absent name gets no `tool_result`.
   */
  function CallStep(r: Run, tc: ToolCall, tools: map<string, Tool>, w: World): (r': Run)
    ensures var call := LoopEvent(ToolCallOut(tc.toolName, tc.args, tc.toolCallId), w.clock(|r.events|));
            var at := w.clock(|r.events| + 1);
            r'.events == match LookupTool(tools, tc.toolName)
                         case Registered => r.events + [call, LoopEvent(ToolResultOut(tc.toolName, w.outcome(r.executed)), at)]
                         case Inherited => r.events + [call, LoopEvent(ToolResultOut(tc.toolName, Threw(w.notCallable)), at)]
                         case Absent => r.events + [call]
    ensures r'.executed == if tc.toolName in tools then r.executed + 1 else r.executed
    ensures r'.notified == r.notified + [(tc.toolName, tc.args)]
    ensures r' == r.(events := r'.events, notified := r'.notified, executed := r'.executed)
  {
    var r1 := Emit(r, w, ToolCallOut(tc.toolName, tc.args, tc.toolCallId)).(notified := r.notified + [(tc.toolName, tc.args)]);
    match LookupTool(tools, tc.toolName)
    case Registered => ExecuteTool(r1, tc.toolName, w)
    case Inherited => Emit(r1, w, ToolResultOut(tc.toolName, Threw(w.notCallable)))
    case Absent => r1
  }

  function Finish(r: Run, w: World): Run {
    Emit(r, w, Done(r.iteration, true))
  }

  /** The iteration counter, the `onStep` record and the model request at the head of an iteration. */
  function Begin(cfg: AgentLoopConfig, r: Run): Run {
    r.(iteration := r.iteration + 1, steps := r.steps + [(r.iteration + 1, cfg.maxIterations)], requests := r.requests + [r.messages])
  }

  function AfterText(r: Run, w: World, text: string): Run {
    if text != "" then Emit(r, w, TextOut(text)) else r
  }

  /** The `while` loop from a given state to the end of the run. */
  function Iterate(cfg: AgentLoopConfig, w: World, r: Run): (r': Run)
    ensures r.events < r'.events
    ensures r.steps <= r'.steps && r.requests <= r'.requests
    decreases cfg.maxIterations - r.iteration
  {
    if r.iteration >= cfg.maxIterations then Finish(r, w)
    else
      var r1 := Begin(cfg, r);
      match w.reply(|r.requests|)
      case Failed(msg) =>
        var r2 := Emit(r1, w, ErrorOut(msg, r1.iteration));
        if IsRateLimit(msg) then Iterate(cfg, w, r2) else Finish(r2, w)
      case Generated(text, calls) =>
        var r2 := AfterText(r1, w, text);
        if |calls| > 0 then
          var r3 := ExecuteCalls(r2, calls, cfg.tools, w);
          Iterate(cfg, w, r3.(messages := r3.messages + [Message(AssistantRole, ToolCallParts(calls))]))
        else
          Emit(r2, w, Done(r1.iteration, false))
  }

  function Start(prompt: string, cfg: AgentLoopConfig): Run {
    Run([], Seed(cfg.systemPrompt, prompt), 0, 0, [], [], [])
  }

  /** Everything one call of `agentLoop(prompt, config)` produces. */
  function AgentTrace(prompt: string, cfg: AgentLoopConfig, w: World): (t: Run)
    ensures t.events != []
  {
    Iterate(cfg, w, Start(prompt, cfg))
  }

  lemma UnfoldFailed(cfg: AgentLoopConfig, w: World, r: Run, msg: string)
    requires r.iteration < cfg.maxIterations && w.reply(|r.requests|) == Failed(msg)
    ensures var cur := Emit(Begin(cfg, r), w, ErrorOut(msg, r.iteration + 1));
            Iterate(cfg, w, r) == if IsRateLimit(msg) then Iterate(cfg, w, cur) else Finish(cur, w)
  {
  }

  lemma UnfoldToolCalls(cfg: AgentLoopConfig, w: World, r: Run, text: string, calls: seq<ToolCall>)
    requires r.iteration < cfg.maxIterations && w.reply(|r.requests|) == Generated(text, calls) && |calls| > 0
    ensures var r3 := ExecuteCalls(AfterText(Begin(cfg, r), w, text), calls, cfg.tools, w);
            Iterate(cfg, w, r) == Iterate(cfg, w, r3.(messages := r3.messages + [Message(AssistantRole, ToolCallParts(calls))]))
  {
  }

  lemma UnfoldAnswer(cfg: AgentLoopConfig, w: World, r: Run, text: string)
    requires r.iteration < cfg.maxIterations && w.reply(|r.requests|) == Generated(text, [])
    ensures Iterate(cfg, w, r) == Emit(AfterText(Begin(cfg, r), w, text), w, Done(r.iteration + 1, false))
  {
  }

  /** `agentLoop`: builds the event stream step by step. */
  method Agent(prompt: string, config: AgentLoopConfig, world: World) returns (run: Run)
    ensures run == AgentTrace(prompt, config, world)
  {
    var messages: seq<Message> := [];
    if config.systemPrompt.Some? && config.systemPrompt.value != "" {
      messages := messages + [Message(SystemRole, Text(config.systemPrompt.value))];
    }
    messages := messages + [Message(UserRole, Text(prompt))];

    var iteration := 0;
    var events: seq<LoopEvent> := [];
    var executed: nat := 0;
    var steps: seq<(int, int)> := [];
    var notified: seq<(string, Json)> := [];
    var requests: seq<seq<Message>> := [];
    assert messages == Seed(config.systemPrompt, prompt);
    ghost var goal := AgentTrace(prompt, config, world);

    while iteration < config.maxIterations
      invariant Iterate(config, world, Run(events, messages, iteration, executed, steps, notified, requests)) == goal
      decreases config.maxIterations - iteration
    {
      ghost var pre := Run(events, messages, iteration, executed, steps, notified, requests);
      iteration := iteration + 1;
      steps := steps + [(iteration, config.maxIterations)];
      requests := requests + [messages];
      ghost var begun := Begin(config, pre);
      assert Run(events, messages, iteration, executed, steps, notified, requests) == begun;
      assert |requests| - 1 == |pre.requests|;
      var reply := world.reply(|requests| - 1);
      match reply {
        case Failed(msg) =>
          events := events + [LoopEvent(ErrorOut(msg, iteration), world.clock(|events|))];
          assert Run(events, messages, iteration, executed, steps, notified, requests) == Emit(begun, world, ErrorOut(msg, pre.iteration + 1));
          UnfoldFailed(config, world, pre, msg);
          if IsRateLimit(msg) {
            continue;
          }
          break;
        case Generated(text, toolCalls) =>
          if text != "" {
            events := events + [LoopEvent(TextOut(text), world.clock(|events|))];
          }
          ghost var mid := Run(events, messages, iteration, executed, steps, notified, requests);
          assert mid == AfterText(begun, world, text);
          if |toolCalls| > 0 {
            events, notified, executed := RunToolCalls(mid, events, notified, executed, toolCalls, config.tools, world);
            messages := messages + [Message(AssistantRole, ToolCallParts(toolCalls))];
            UnfoldToolCalls(config, world, pre, text, toolCalls);
            continue;
          }
          events := events + [LoopEvent(Done(iteration, false), world.clock(|events|))];
          run := Run(events, messages, iteration, executed, steps, notified, requests);
          UnfoldAnswer(config, world, pre, text);
          return;
      }
    }

    events := events + [LoopEvent(Done(iteration, true), world.clock(|events|))];
    run := Run(events, messages, iteration, executed, steps, notified, requests);
  }

  /** The nested `for` over one response's tool calls: emit `tool_call`, then run whatever the lookup finds. */
  method RunToolCalls(ghost r: Run, events0: seq<LoopEvent>, notified0: seq<(string, Json)>, executed0: nat,
                      toolCalls: seq<ToolCall>, tools: map<string, Tool>, world: World)
    returns (events: seq<LoopEvent>, notified: seq<(string, Json)>, executed: nat)
    requires r.events == events0 && r.notified == notified0 && r.executed == executed0
    ensures ExecuteCalls(r, toolCalls, tools, world) == r.(events := events, notified := notified, executed := executed)
  {
    events, notified, executed := events0, notified0, executed0;
    var i := 0;
    while i < |toolCalls|
      invariant 0 <= i <= |toolCalls|
      invariant ExecuteCalls(r, toolCalls, tools, world)
                == ExecuteCalls(r.(events := events, notified := notified, executed := executed), toolCalls[i..], tools, world)
    {
      assert toolCalls[i..][1..] == toolCalls[i + 1..];
      ghost var cur := r.(events := events, notified := notified, executed := executed);
      events, notified, executed := RunToolCall(cur, events, notified, executed, toolCalls[i], tools, world);
      i := i + 1;
    }
  }

  /** One pass of the `for` body: emit `tool_call`, notify, then run whatever the lookup finds. */
  method RunToolCall(ghost cur: Run, events0: seq<LoopEvent>, notified0: seq<(string, Json)>, executed0: nat,
                     tc: ToolCall, tools: map<string, Tool>, world: World)
    returns (events: seq<LoopEvent>, notified: seq<(string, Json)>, executed: nat)
    requires cur.events == events0 && cur.notified == notified0 && cur.executed == executed0
    ensures CallStep(cur, tc, tools, world) == cur.(events := events, notified := notified, executed := executed)
  {
    events := events0 + [LoopEvent(ToolCallOut(tc.toolName, tc.args, tc.toolCallId), world.clock(|events0|))];
    notified := notified0 + [(tc.toolName, tc.args)];
    executed := executed0;
    match LookupTool(tools, tc.toolName) {
      case Registered =>
        var outcome := world.outcome(executed);
        events := events + [LoopEvent(ToolResultOut(tc.toolName, outcome), world.clock(|events|))];
        executed := executed + 1;
      case Inherited =>
        events := events + [LoopEvent(ToolResultOut(tc.toolName, Threw(world.notCallable)), world.clock(|events|))];
      case Absent =>
    }
  }

  /** `streamChat`'s message assembly: the system prompt, when non-empty, goes before the given messages. */
  function StreamChatMessages(messages: seq<Message>, systemPrompt: Option<string>): (all: seq<Message>)
    ensures |all| == |messages| + (if systemPrompt.Some? && systemPrompt.value != "" then 1 else 0)
    ensures all[|all| - |messages|..] == messages
    ensures systemPrompt.Some? && systemPrompt.value != "" ==> all[0] == Message(SystemRole, Text(systemPrompt.value))
  {
    (if systemPrompt.Some? && systemPrompt.value != "" then [Message(SystemRole, Text(systemPrompt.value))] else [])
    + messages
  }
}
