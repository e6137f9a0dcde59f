/** What every run of the agent loop guarantees, stated over `AgentTrace`. */
module LoopProperties {
  import opened Common
  import opened AgentLoop

  function Datas(es: seq<LoopEvent>): (ds: seq<EventData>)
    ensures |ds| == |es| && forall i :: 0 <= i < |es| ==> ds[i] == es[i].data
  {
    seq(|es|, i requires 0 <= i < |es| => es[i].data)
  }

  ghost predicate NoDone(es: seq<LoopEvent>) {
    forall i :: 0 <= i < |es| ==> !es[i].data.Done?
  }

  ghost predicate NoThinking(es: seq<LoopEvent>) {
    forall i :: 0 <= i < |es| ==> !es[i].data.Thinking?
  }

  predicate IsFatal(d: EventData) {
    d.ErrorOut? && !IsRateLimit(d.message)
  }

  ghost predicate NoFatal(es: seq<LoopEvent>) {
    forall i :: 0 <= i < |es| ==> !IsFatal(es[i].data)
  }

  predicate IsToolEvent(d: EventData) {
    d.ToolCallOut? || d.ToolResultOut?
  }

  /**
   * Every `tool_result` comes right after the `tool_call` of the same name, for a
   * name the lookup finds; every `tool_call` of a found name is followed right
   * away by its `tool_result`, which is the `TypeError` failure unless the tool is
   * registered. So a call to a name the lookup does not find has no `tool_result`.
   */
  ghost predicate Paired(tools: map<string, Tool>, notCallable: string, es: seq<LoopEvent>) {
    && (forall i :: 0 <= i < |es| && es[i].data.ToolResultOut? ==>
          && 0 < i && es[i - 1].data.ToolCallOut? && es[i - 1].data.name == es[i].data.name
          && Found(tools, es[i].data.name)
          && (es[i].data.name !in tools ==> es[i].data.outcome == Threw(notCallable)))
    && (forall i :: 0 <= i < |es| && es[i].data.ToolCallOut? && Found(tools, es[i].data.name) ==>
          i + 1 < |es| && es[i + 1].data.ToolResultOut? && es[i + 1].data.name == es[i].data.name)
  }

  /** Messages after the seed are assistant messages listing tool calls: no text and no tool result is ever appended. */
  ghost predicate GrowsOnlyByToolCalls(seed: seq<Message>, h: seq<Message>) {
    seed <= h &&
    forall j :: |seed| <= j < |h| ==> h[j].role == AssistantRole && h[j].content.ToolCallParts?
  }

  // ---------------------------------------------------------------- tool batch

  lemma ExecuteCallsToolEventsOnly(r: Run, calls: seq<ToolCall>, tools: map<string, Tool>, w: World)
    ensures var r' := ExecuteCalls(r, calls, tools, w);
            && (forall i :: |r.events| <= i < |r'.events| ==> IsToolEvent(r'.events[i].data))
            && (NoDone(r.events) ==> NoDone(r'.events))
            && (NoThinking(r.events) ==> NoThinking(r'.events))
            && (NoFatal(r.events) ==> NoFatal(r'.events))
  {
    ToolEventsAdded(r, calls, tools, w);
    ToolSuffixKeeps(r.events, ExecuteCalls(r, calls, tools, w).events);
  }

  /** Every event of `es'` past the prefix `es` is a `tool_call` or a `tool_result`. */
  ghost predicate AddsToolEventsOnly(es: seq<LoopEvent>, es': seq<LoopEvent>) {
    forall i :: |es| <= i < |es'| ==> IsToolEvent(es'[i].data)
  }

  /** Every event the batch adds is a `tool_call` or a `tool_result`. */
  lemma {:induction false} ToolEventsAdded(r: Run, calls: seq<ToolCall>, tools: map<string, Tool>, w: World)
    ensures AddsToolEventsOnly(r.events, ExecuteCalls(r, calls, tools, w).events)
    decreases |calls|
  {
    if calls != [] {
      var r2 := CallStep(r, calls[0], tools, w);
      var r' := ExecuteCalls(r2, calls[1..], tools, w);
            assert AddsToolEventsOnly(r.events, r2.events);
      ToolEventsAdded(r2, calls[1..], tools, w);
      forall i | |r.events| <= i < |r'.events| ensures IsToolEvent(r'.events[i].data) {
        if i < |r2.events| {
          assert r'.events[i] == r2.events[i];
        }
      }
    }
  }

  /** Appending only tool events adds no `done`, no `thinking` and no fatal error. */
  lemma ToolSuffixKeeps(es: seq<LoopEvent>, es': seq<LoopEvent>)
    requires es <= es'
    requires AddsToolEventsOnly(es, es')
    ensures NoDone(es) ==> NoDone(es')
    ensures NoThinking(es) ==> NoThinking(es')
    ensures NoFatal(es) ==> NoFatal(es')
  {
    forall i | 0 <= i < |es'| ensures (NoDone(es) ==> !es'[i].data.Done?) && (NoThinking(es) ==> !es'[i].data.Thinking?) && (NoFatal(es) ==> !IsFatal(es'[i].data)) {
      if i < |es| {
        assert es'[i] == es[i];
      }
    }
  }

  lemma PairedAppend(tools: map<string, Tool>, nc: string, a: seq<LoopEvent>, b: seq<LoopEvent>)
    requires Paired(tools, nc, a) && Paired(tools, nc, b)
    ensures Paired(tools, nc, a + b)
  {
    var ab := a + b;
    forall i | 0 <= i < |ab| && ab[i].data.ToolResultOut?
      ensures && 0 < i && ab[i - 1].data.ToolCallOut? && ab[i - 1].data.name == ab[i].data.name
              && Found(tools, ab[i].data.name) && (ab[i].data.name !in tools ==> ab[i].data.outcome == Threw(nc))
    {
      if i >= |a| {
        assert b[i - |a|] == ab[i];
        if i - |a| > 0 {
          assert b[i - |a| - 1] == ab[i - 1];
        }
      }
    }
    forall i | 0 <= i < |ab| && ab[i].data.ToolCallOut? && Found(tools, ab[i].data.name)
      ensures i + 1 < |ab| && ab[i + 1].data.ToolResultOut? && ab[i + 1].data.name == ab[i].data.name
    {
      if i >= |a| {
        assert b[i - |a|] == ab[i];
        assert b[i - |a| + 1] == ab[i + 1];
      }
    }
  }

  lemma PairedPlain(tools: map<string, Tool>, nc: string, es: seq<LoopEvent>, e: LoopEvent)
    requires Paired(tools, nc, es) && !IsToolEvent(e.data)
    ensures Paired(tools, nc, es + [e])
  {
    PairedAppend(tools, nc, es, [e]);
  }

  lemma {:induction false} ExecuteCallsPaired(r: Run, calls: seq<ToolCall>, tools: map<string, Tool>, w: World)
    requires Paired(tools, w.notCallable, r.events)
    ensures Paired(tools, w.notCallable, ExecuteCalls(r, calls, tools, w).events)
    decreases |calls|
  {
    if calls != [] {
      CallStepPaired(r, calls[0], tools, w);
      ExecuteCallsPaired(CallStep(r, calls[0], tools, w), calls[1..], tools, w);
    }
  }

  lemma CallStepPaired(r: Run, tc: ToolCall, tools: map<string, Tool>, w: World)
    requires Paired(tools, w.notCallable, r.events)
    ensures Paired(tools, w.notCallable, CallStep(r, tc, tools, w).events)
  {
    var es := CallStep(r, tc, tools, w).events;
    var call := LoopEvent(ToolCallOut(tc.toolName, tc.args, tc.toolCallId), w.clock(|r.events|));
    var at := w.clock(|r.events| + 1);
    var added: seq<LoopEvent>;
    match LookupTool(tools, tc.toolName)
    case Registered =>
      added := [call, LoopEvent(ToolResultOut(tc.toolName, w.outcome(r.executed)), at)];
    case Inherited =>
      added := [call, LoopEvent(ToolResultOut(tc.toolName, Threw(w.notCallable)), at)];
    case Absent =>
      added := [call];
    assert es == r.events + added;
    assert Paired(tools, w.notCallable, added);
    PairedAppend(tools, w.notCallable, r.events, added);
  }

  // ---------------------------------------------------------------- the whole run

  /** Exactly one `done` event, the last one, reporting the final iteration count. */
  ghost predicate EndsWithOneDone(t: Run) {
    |t.events| > 0 && NoDone(t.events[..|t.events| - 1]) &&
    Last(t.events).data.Done? && Last(t.events).data.iterations == t.iteration
  }

  lemma {:induction false} IterateEndsWithOneDone(cfg: AgentLoopConfig, w: World, r: Run)
    requires NoDone(r.events)
    ensures EndsWithOneDone(Iterate(cfg, w, r))
    decreases cfg.maxIterations - r.iteration
  {
    if r.iteration < cfg.maxIterations {
      var r1 := Begin(cfg, r);
      match w.reply(|r.requests|)
      case Failed(msg) =>
        var r2 := Emit(r1, w, ErrorOut(msg, r1.iteration));
        UnfoldFailed(cfg, w, r, msg);
        if IsRateLimit(msg) {
          IterateEndsWithOneDone(cfg, w, r2);
        } else {
          var t := Finish(r2, w);
          assert t.events[..|t.events| - 1] == r2.events;
        }
      case Generated(text, calls) =>
        var r2 := AfterText(r1, w, text);
        if |calls| > 0 {
          UnfoldToolCalls(cfg, w, r, text, calls);
          ExecuteCallsToolEventsOnly(r2, calls, cfg.tools, w);
          var r3 := ExecuteCalls(r2, calls, cfg.tools, w);
          IterateEndsWithOneDone(cfg, w, r3.(messages := r3.messages + [Message(AssistantRole, ToolCallParts(calls))]));
        } else {
          UnfoldAnswer(cfg, w, r, text);
          var t := Emit(r2, w, Done(r1.iteration, false));
          assert t.events[..|t.events| - 1] == r2.events;
        }
    } else {
      var t := Finish(r, w);
      assert t.events[..|t.events| - 1] == r.events;
    }
  }

  lemma {:induction false} IterateNoThinking(cfg: AgentLoopConfig, w: World, r: Run)
    requires NoThinking(r.events)
    ensures NoThinking(Iterate(cfg, w, r).events)
    decreases cfg.maxIterations - r.iteration
  {
    if r.iteration < cfg.maxIterations {
      var r1 := Begin(cfg, r);
      match w.reply(|r.requests|)
      case Failed(msg) =>
        var r2 := Emit(r1, w, ErrorOut(msg, r1.iteration));
        if IsRateLimit(msg) {
          IterateNoThinking(cfg, w, r2);
        }
      case Generated(text, calls) =>
        var r2 := AfterText(r1, w, text);
        if |calls| > 0 {
          ExecuteCallsToolEventsOnly(r2, calls, cfg.tools, w);
          var r3 := ExecuteCalls(r2, calls, cfg.tools, w);
          IterateNoThinking(cfg, w, r3.(messages := r3.messages + [Message(AssistantRole, ToolCallParts(calls))]));
        }
    }
  }

  lemma {:induction false} IteratePaired(cfg: AgentLoopConfig, w: World, r: Run)
    requires Paired(cfg.tools, w.notCallable, r.events)
    ensures Paired(cfg.tools, w.notCallable, Iterate(cfg, w, r).events)
    decreases cfg.maxIterations - r.iteration
  {
    if r.iteration < cfg.maxIterations {
      var r1 := Begin(cfg, r);
      match w.reply(|r.requests|)
      case Failed(msg) =>
        var r2 := Emit(r1, w, ErrorOut(msg, r1.iteration));
        PairedPlain(cfg.tools, w.notCallable, r1.events, Last(r2.events));
        if IsRateLimit(msg) {
          IteratePaired(cfg, w, r2);
        } else {
          PairedPlain(cfg.tools, w.notCallable, r2.events, Last(Finish(r2, w).events));
        }
      case Generated(text, calls) =>
        var r2 := AfterText(r1, w, text);
        if text != "" {
          PairedPlain(cfg.tools, w.notCallable, r1.events, Last(r2.events));
        }
        if |calls| > 0 {
          ExecuteCallsPaired(r2, calls, cfg.tools, w);
          var r3 := ExecuteCalls(r2, calls, cfg.tools, w);
          IteratePaired(cfg, w, r3.(messages := r3.messages + [Message(AssistantRole, ToolCallParts(calls))]));
        } else {
          PairedPlain(cfg.tools, w.notCallable, r2.events, Last(Emit(r2, w, Done(r1.iteration, false)).events));
        }
    } else {
      PairedPlain(cfg.tools, w.notCallable, r.events, Last(Finish(r, w).events));
    }
  }

  /** A model failure that is not a rate limit is followed by the closing `done {maxReached: true}` and nothing else. */
  ghost predicate FatalIsLast(es: seq<LoopEvent>) {
    forall i :: 0 <= i < |es| && IsFatal(es[i].data) ==>
      i == |es| - 2 && es[i + 1].data == Done(es[i].data.iteration, true)
  }

  lemma {:induction false} IterateFatalEnds(cfg: AgentLoopConfig, w: World, r: Run)
    requires NoFatal(r.events)
    ensures FatalIsLast(Iterate(cfg, w, r).events)
    decreases cfg.maxIterations - r.iteration
  {
    if r.iteration < cfg.maxIterations {
      var r1 := Begin(cfg, r);
      match w.reply(|r.requests|)
      case Failed(msg) =>
        var r2 := Emit(r1, w, ErrorOut(msg, r1.iteration));
        UnfoldFailed(cfg, w, r, msg);
        if IsRateLimit(msg) {
          IterateFatalEnds(cfg, w, r2);
        } else {
          var es := Finish(r2, w).events;
          assert es == r.events + [Last(r2.events), Last(es)];
        }
      case Generated(text, calls) =>
        var r2 := AfterText(r1, w, text);
        if |calls| > 0 {
          UnfoldToolCalls(cfg, w, r, text, calls);
          ExecuteCallsToolEventsOnly(r2, calls, cfg.tools, w);
          var r3 := ExecuteCalls(r2, calls, cfg.tools, w);
          IterateFatalEnds(cfg, w, r3.(messages := r3.messages + [Message(AssistantRole, ToolCallParts(calls))]));
        } else {
          UnfoldAnswer(cfg, w, r, text);
          var es := Emit(r2, w, Done(r1.iteration, false)).events;
          forall i | 0 <= i < |es| ensures !IsFatal(es[i].data) {
            if i < |r.events| {
              assert es[i] == r.events[i];
            }
          }
        }
    } else {
      var es := Finish(r, w).events;
      forall i | 0 <= i < |es| ensures !IsFatal(es[i].data) {
        if i < |r.events| {
          assert es[i] == r.events[i];
        }
      }
    }
  }

  /** The counter, the `onStep` record and the model requests advance together. */
  ghost predicate Counted(cfg: AgentLoopConfig, r: Run) {
    && 0 <= r.iteration
    && |r.requests| == r.iteration && |r.steps| == r.iteration
    && (r.iteration <= cfg.maxIterations || r.iteration == 0)
    && forall k :: 0 <= k < |r.steps| ==> r.steps[k] == (k + 1, cfg.maxIterations)
  }

  lemma {:induction false} IterateCounted(cfg: AgentLoopConfig, w: World, r: Run)
    requires Counted(cfg, r)
    ensures Counted(cfg, Iterate(cfg, w, r))
    decreases cfg.maxIterations - r.iteration
  {
    if r.iteration < cfg.maxIterations {
      var r1 := Begin(cfg, r);
      assert Counted(cfg, r1);
      match w.reply(|r.requests|)
      case Failed(msg) =>
        var r2 := Emit(r1, w, ErrorOut(msg, r1.iteration));
        if IsRateLimit(msg) {
          IterateCounted(cfg, w, r2);
        }
      case Generated(text, calls) =>
        var r2 := AfterText(r1, w, text);
        if |calls| > 0 {
          var r3 := ExecuteCalls(r2, calls, cfg.tools, w);
          IterateCounted(cfg, w, r3.(messages := r3.messages + [Message(AssistantRole, ToolCallParts(calls))]));
        }
    }
  }

  lemma {:induction false} IterateHistory(cfg: AgentLoopConfig, w: World, r: Run, seed: seq<Message>)
    requires GrowsOnlyByToolCalls(seed, r.messages)
    requires forall k :: 0 <= k < |r.requests| ==> GrowsOnlyByToolCalls(seed, r.requests[k])
    ensures var t := Iterate(cfg, w, r);
            GrowsOnlyByToolCalls(seed, t.messages) &&
            forall k :: 0 <= k < |t.requests| ==> GrowsOnlyByToolCalls(seed, t.requests[k])
    decreases cfg.maxIterations - r.iteration
  {
    if r.iteration < cfg.maxIterations {
      var r1 := Begin(cfg, r);
      match w.reply(|r.requests|)
      case Failed(msg) =>
        var r2 := Emit(r1, w, ErrorOut(msg, r1.iteration));
        if IsRateLimit(msg) {
          IterateHistory(cfg, w, r2, seed);
        }
      case Generated(text, calls) =>
        var r2 := AfterText(r1, w, text);
        if |calls| > 0 {
          var r3 := ExecuteCalls(r2, calls, cfg.tools, w);
          IterateHistory(cfg, w, r3.(messages := r3.messages + [Message(AssistantRole, ToolCallParts(calls))]), seed);
        }
    }
  }

  // ---------------------------------------------------------------- statements about agentLoop

  /** Every run emits exactly one `done` event; it is the last event and reports the iteration count. */
  lemma ExactlyOneDoneLast(prompt: string, cfg: AgentLoopConfig, w: World)
    ensures var t := AgentTrace(prompt, cfg, w);
            |t.events| > 0 && Last(t.events).data.Done? && Last(t.events).data.iterations == t.iteration &&
            forall i :: 0 <= i < |t.events| - 1 ==> !t.events[i].data.Done?
  {
    assert AgentTrace(prompt, cfg, w) == Iterate(cfg, w, Start(prompt, cfg));
    IterateEndsWithOneDone(cfg, w, Start(prompt, cfg));
    var t := AgentTrace(prompt, cfg, w);
    forall i | 0 <= i < |t.events| - 1 ensures !t.events[i].data.Done? {
      assert t.events[..|t.events| - 1][i] == t.events[i];
    }
  }

  /** The loop never emits a `thinking` event. */
  lemma NeverThinking(prompt: string, cfg: AgentLoopConfig, w: World)
    ensures NoThinking(AgentTrace(prompt, cfg, w).events)
  {
    IterateNoThinking(cfg, w, Start(prompt, cfg));
  }

  /**
   * Tool calls and results pair up: the call of a name the lookup finds is immediately followed by
   * its one result (a `TypeError` failure for an inherited member), an unknown name's call by none.
   */
  lemma ToolCallsPaired(prompt: string, cfg: AgentLoopConfig, w: World)
    ensures Paired(cfg.tools, w.notCallable, AgentTrace(prompt, cfg, w).events)
  {
    IteratePaired(cfg, w, Start(prompt, cfg));
  }

  /** A non-rate-limit model failure is the second-to-last event, and the last is `done {iterations, maxReached: true}`. */
  lemma FatalErrorEndsRun(prompt: string, cfg: AgentLoopConfig, w: World)
    ensures FatalIsLast(AgentTrace(prompt, cfg, w).events)
  {
    assert AgentTrace(prompt, cfg, w) == Iterate(cfg, w, Start(prompt, cfg));
    IterateFatalEnds(cfg, w, Start(prompt, cfg));
  }

  /** At most `maxIterations` model calls; `onStep` receives (1, max), (2, max), ... once per call, in order. */
  lemma StepsCountUp(prompt: string, cfg: AgentLoopConfig, w: World)
    ensures var t := AgentTrace(prompt, cfg, w);
            |t.requests| == |t.steps| == t.iteration &&
            (cfg.maxIterations <= 0 ==> |t.requests| == 0) &&
            (cfg.maxIterations > 0 ==> |t.requests| <= cfg.maxIterations) &&
            forall k :: 0 <= k < |t.steps| ==> t.steps[k] == (k + 1, cfg.maxIterations)
  {
    IterateCounted(cfg, w, Start(prompt, cfg));
  }

  /**
   * Every history sent to the model starts with the system prompt (when non-empty) and the user
   * prompt, and grows only by assistant tool-call messages: tool results and text replies are never appended.
   */
  lemma HistoryGrowsOnlyByToolCalls(prompt: string, cfg: AgentLoopConfig, w: World)
    ensures var t := AgentTrace(prompt, cfg, w);
            var seed := (if cfg.systemPrompt.Some? && cfg.systemPrompt.value != ""
                         then [Message(SystemRole, Text(cfg.systemPrompt.value))] else [])
                        + [Message(UserRole, Text(prompt))];
            forall k :: 0 <= k < |t.requests| ==> GrowsOnlyByToolCalls(seed, t.requests[k])
  {
    IterateHistory(cfg, w, Start(prompt, cfg), Seed(cfg.systemPrompt, prompt));
  }

  /** The first model call receives exactly the seed: the system prompt (when non-empty) followed by the user prompt. */
  lemma FirstRequestIsSeed(prompt: string, cfg: AgentLoopConfig, w: World)
    requires cfg.maxIterations >= 1
    ensures var t := AgentTrace(prompt, cfg, w);
            |t.requests| >= 1 &&
            t.requests[0] == (if cfg.systemPrompt.Some? && cfg.systemPrompt.value != ""
                              then [Message(SystemRole, Text(cfg.systemPrompt.value))] else [])
                             + [Message(UserRole, Text(prompt))]
  {
    var r0 := Start(prompt, cfg);
    var r1 := Begin(cfg, r0);
    assert r1.requests == [Seed(cfg.systemPrompt, prompt)];
    var t := AgentTrace(prompt, cfg, w);
    match w.reply(0)
    case Failed(msg) =>
      var r2 := Emit(r1, w, ErrorOut(msg, r1.iteration));
      assert r2.requests <= t.requests;
    case Generated(text, calls) =>
      var r2 := AfterText(r1, w, text);
      if |calls| > 0 {
        var r3 := ExecuteCalls(r2, calls, cfg.tools, w);
        assert r3.requests <= t.requests;
      }
  }

  /** A first response without tool calls yields its text (only when non-empty) and then `done {iterations: 1}`. */
  lemma AnswerWithoutToolsEnds(prompt: string, cfg: AgentLoopConfig, w: World, text: string)
    requires cfg.maxIterations >= 1 && w.reply(0) == Generated(text, [])
    ensures var t := AgentTrace(prompt, cfg, w);
            Datas(t.events) == (if text != "" then [TextOut(text)] else []) + [Done(1, false)] &&
            |t.requests| == 1
  {
    UnfoldAnswer(cfg, w, Start(prompt, cfg), text);
  }

  /** A reply after which the loop goes round again: tool calls, or a rate-limit failure. */
  predicate Continues(reply: ModelReply) {
    (reply.Generated? && |reply.toolCalls| > 0) || (reply.Failed? && IsRateLimit(reply.message))
  }

  lemma {:induction false} IterateToMax(cfg: AgentLoopConfig, w: World, r: Run)
    requires 0 <= r.iteration == |r.requests|
    requires r.iteration <= cfg.maxIterations
    requires forall k :: r.iteration <= k < cfg.maxIterations ==> Continues(w.reply(k))
    ensures var t := Iterate(cfg, w, r);
            Last(t.events).data == Done(cfg.maxIterations, true) && |t.requests| == cfg.maxIterations
    decreases cfg.maxIterations - r.iteration
  {
    if r.iteration < cfg.maxIterations {
      var r1 := Begin(cfg, r);
      assert Continues(w.reply(r.iteration));
      match w.reply(|r.requests|)
      case Failed(msg) =>
        var r2 := Emit(r1, w, ErrorOut(msg, r1.iteration));
        IterateToMax(cfg, w, r2);
      case Generated(text, calls) =>
        var r2 := AfterText(r1, w, text);
        var r3 := ExecuteCalls(r2, calls, cfg.tools, w);
        IterateToMax(cfg, w, r3.(messages := r3.messages + [Message(AssistantRole, ToolCallParts(calls))]));
    }
  }

  /**
   * When every response asks for tools (or is a rate-limit failure, which also takes an iteration),
   * the loop makes exactly `maxIterations` calls and ends with `done {iterations: maxIterations, maxReached: true}`.
   */
  lemma AlwaysToolsReachesMax(prompt: string, cfg: AgentLoopConfig, w: World)
    requires cfg.maxIterations >= 0
    requires forall k :: 0 <= k < cfg.maxIterations ==> Continues(w.reply(k))
    ensures var t := AgentTrace(prompt, cfg, w);
            Last(t.events).data == Done(cfg.maxIterations, true) && |t.requests| == cfg.maxIterations
  {
    IterateToMax(cfg, w, Start(prompt, cfg));
  }

  // ---------------------------------------------------------------- tool failures do not steer the loop

  ghost predicate SameCourse(r1: Run, r2: Run) {
    r1.messages == r2.messages && r1.iteration == r2.iteration && r1.executed == r2.executed &&
    r1.steps == r2.steps && r1.notified == r2.notified && r1.requests == r2.requests && |r1.events| == |r2.events|
  }

  lemma {:induction false} ExecuteCallsSameCourse(r1: Run, r2: Run, calls: seq<ToolCall>, tools: map<string, Tool>, w1: World, w2: World)
    requires SameCourse(r1, r2)
    ensures SameCourse(ExecuteCalls(r1, calls, tools, w1), ExecuteCalls(r2, calls, tools, w2))
    decreases |calls|
  {
    if calls != [] {
      ExecuteCallsSameCourse(CallStep(r1, calls[0], tools, w1), CallStep(r2, calls[0], tools, w2), calls[1..], tools, w1, w2);
    }
  }

  lemma {:induction false} IterateSameCourse(cfg: AgentLoopConfig, w1: World, w2: World, r1: Run, r2: Run)
    requires SameCourse(r1, r2)
    requires forall k :: w1.reply(k) == w2.reply(k)
    ensures SameCourse(Iterate(cfg, w1, r1), Iterate(cfg, w2, r2))
    decreases cfg.maxIterations - r1.iteration
  {
    if r1.iteration < cfg.maxIterations {
      var a1 := Begin(cfg, r1);
      var a2 := Begin(cfg, r2);
      assert w1.reply(|r1.requests|) == w2.reply(|r2.requests|);
      match w1.reply(|r1.requests|)
      case Failed(msg) =>
        var b1 := Emit(a1, w1, ErrorOut(msg, a1.iteration));
        var b2 := Emit(a2, w2, ErrorOut(msg, a2.iteration));
        if IsRateLimit(msg) {
          IterateSameCourse(cfg, w1, w2, b1, b2);
        }
      case Generated(text, calls) =>
        var b1 := AfterText(a1, w1, text);
        var b2 := AfterText(a2, w2, text);
        if |calls| > 0 {
          ExecuteCallsSameCourse(b1, b2, calls, cfg.tools, w1, w2);
          var c1 := ExecuteCalls(b1, calls, cfg.tools, w1);
          var c2 := ExecuteCalls(b2, calls, cfg.tools, w2);
          IterateSameCourse(cfg, w1, w2,
            c1.(messages := c1.messages + [Message(AssistantRole, ToolCallParts(calls))]),
            c2.(messages := c2.messages + [Message(AssistantRole, ToolCallParts(calls))]));
        }
    }
  }

  /**
   * Whether tools return or throw never changes the course of the loop: with the same model
   * replies, the same requests, iterations and number of events follow. A throwing tool
   * therefore never aborts the run.
   */
  lemma ToolFailuresDoNotAbort(prompt: string, cfg: AgentLoopConfig, w1: World, w2: World)
    requires forall k :: w1.reply(k) == w2.reply(k)
    ensures var t1 := AgentTrace(prompt, cfg, w1);
            var t2 := AgentTrace(prompt, cfg, w2);
            t1.requests == t2.requests && t1.steps == t2.steps && t1.iteration == t2.iteration && |t1.events| == |t2.events|
  {
    IterateSameCourse(cfg, w1, w2, Start(prompt, cfg), Start(prompt, cfg));
  }

  /**
   * A throwing tool is reported as a failed `tool_result` and the loop goes on:
   * the model's next answer is emitted and the run ends normally.
   */
  lemma ThrowingToolRecovers(prompt: string, cfg: AgentLoopConfig, w: World, t: Tool)
    requires cfg.maxIterations == 5 && cfg.tools == map["failing_tool" := t]
    requires w.reply(0) == Generated("", [ToolCall("call_1", "failing_tool", JObj([]))])
    requires w.reply(1) == Generated("Recovered", [])
    requires w.outcome(0) == Threw("Tool execution failed")
    ensures Datas(AgentTrace(prompt, cfg, w).events) ==
            [ ToolCallOut("failing_tool", JObj([]), "call_1"),
              ToolResultOut("failing_tool", Threw("Tool execution failed")),
              TextOut("Recovered"),
              Done(2, false) ]
  {
    var calls := [ToolCall("call_1", "failing_tool", JObj([]))];
    var r0 := Start(prompt, cfg);
    UnfoldToolCalls(cfg, w, r0, "", calls);
    var r2 := AfterText(Begin(cfg, r0), w, "");
    var r3 := ExecuteCalls(r2, calls, cfg.tools, w);
    assert calls[1..] == [];
    var r4 := r3.(messages := r3.messages + [Message(AssistantRole, ToolCallParts(calls))]);
    UnfoldAnswer(cfg, w, r4, "Recovered");
  }

  /**
   * A call to `toString` with no tool registered still finds a value through the
   * prototype chain: the `tool_result` reports the `TypeError`, no tool runs
   * (the tool oracle is never consulted) and the loop goes on.
   */
  lemma InheritedNameReportsTypeError(prompt: string, cfg: AgentLoopConfig, w: World)
    requires cfg.maxIterations == 5 && cfg.tools == map[]
    requires w.reply(0) == Generated("", [ToolCall("call_1", "toString", JObj([]))])
    requires w.reply(1) == Generated("Done", [])
    ensures var t := AgentTrace(prompt, cfg, w);
            Datas(t.events) ==
              [ ToolCallOut("toString", JObj([]), "call_1"),
                ToolResultOut("toString", Threw(w.notCallable)),
                TextOut("Done"),
                Done(2, false) ] &&
            t.executed == 0
  {
    var calls := [ToolCall("call_1", "toString", JObj([]))];
    var r0 := Start(prompt, cfg);
    UnfoldToolCalls(cfg, w, r0, "", calls);
    var r2 := AfterText(Begin(cfg, r0), w, "");
    var r3 := ExecuteCalls(r2, calls, cfg.tools, w);
    assert calls[1..] == [];
    var r4 := r3.(messages := r3.messages + [Message(AssistantRole, ToolCallParts(calls))]);
    UnfoldAnswer(cfg, w, r4, "Done");
  }
}
