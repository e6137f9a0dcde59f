/**
 * runLoopy (src/agent/loopy.ts): logs that the loop started, runs the agent
 * loop and projects every loop event onto the panel state. `JSON.stringify`
 * is the parameter `stringify`; `Date.now()` for the opening entry is `now`.
 */
module Loopy {
  import opened Common
  import opened AgentLoop
  import opened LoopProperties
  import opened PanelStateModel

  const InitMessage := "Agent loop initialized and running."
  const MaxReachedMessage := "Loop reached max iterations."
  const IdleMessage := "Loop idle, waiting for input..."
  /** The iteration limit `runLoopy` uses when its caller passes none. */
  const DefaultMaxIterations := 10

  /** The activity entry one event adds; a `thinking` event adds none (it only raises the thinking flag). */
  function Entry(e: LoopEvent, stringify: Json -> string): (r: Option<ActivityLog>)
    ensures r.None? <==> e.data.Thinking?
    ensures r.Some? ==> r.value.timestamp == e.timestamp
  {
    match e.data
    case Thinking => None
    case TextOut(text) => Some(ActivityLog(e.timestamp, Thought, text))
    case ToolCallOut(name, args, _) => Some(ActivityLog(e.timestamp, ToolEntry, "Calling " + name + "(" + stringify(args) + ")"))
    case ToolResultOut(_, Returned(v)) => Some(ActivityLog(e.timestamp, Info, "Tool result: " + stringify(v)))
    case ToolResultOut(_, Threw(m)) => Some(ActivityLog(e.timestamp, Info, "Tool error: " + m))
    case ErrorOut(m, _) => Some(ActivityLog(e.timestamp, ErrorEntry, m))
    case Done(_, maxReached) => Some(ActivityLog(e.timestamp, Info, if maxReached then MaxReachedMessage else IdleMessage))
  }

  /** The state change `handleLoopEvent` makes for one event. */
  function Step(s: PanelState, e: LoopEvent, stringify: Json -> string): (s': PanelState)
    ensures e.data.Thinking? ==> s'.isThinking && s'.activity == s.activity
    ensures e.data.ToolResultOut? ==> s'.isThinking == s.isThinking
    ensures !e.data.Thinking? && !e.data.ToolResultOut? ==> !s'.isThinking
    ensures !e.data.Thinking? ==> |s'.activity| == |s.activity| + 1 && s'.activity[..|s.activity|] == s.activity &&
                                  Last(s'.activity).timestamp == e.timestamp
    ensures s'.memory == s.memory && s'.goals == s.goals && s'.self == s.self
  {
    var thinking := if e.data.Thinking? then true else if e.data.ToolResultOut? then s.isThinking else false;
    var entry := Entry(e, stringify);
    s.(isThinking := thinking, activity := s.activity + (if entry.Some? then [entry.value] else []))
  }

  /** The state after handling a sequence of events in order. */
  function Apply(s: PanelState, es: seq<LoopEvent>, stringify: Json -> string): PanelState {
    if es == [] then s else Step(Apply(s, es[..|es| - 1], stringify), Last(es), stringify)
  }

  /** The activity entries a sequence of events adds, in event order. */
  function Projected(es: seq<LoopEvent>, stringify: Json -> string): seq<ActivityLog> {
    if es == [] then []
    else
      var entry := Entry(Last(es), stringify);
      Projected(es[..|es| - 1], stringify) + (if entry.Some? then [entry.value] else [])
  }

  /** `handleLoopEvent` */
  method HandleLoopEvent(ctx: PanelStore, event: LoopEvent, stringify: Json -> string)
    modifies ctx
    ensures ctx.state == Step(old(ctx.state), event, stringify)
  {
    match event.data {
      case Thinking =>
        ctx.state := ctx.state.(isThinking := true);
      case TextOut(text) =>
        ctx.state := ctx.state.(isThinking := false);
        ctx.state := ctx.state.(activity := ctx.state.activity + [ActivityLog(event.timestamp, Thought, text)]);
      case ToolCallOut(name, args, _) =>
        ctx.state := ctx.state.(isThinking := false);
        var message := "Calling " + name + "(" + stringify(args) + ")";
        ctx.state := ctx.state.(activity := ctx.state.activity + [ActivityLog(event.timestamp, ToolEntry, message)]);
      case ToolResultOut(_, outcome) =>
        var message := match outcome
          case Returned(v) => "Tool result: " + stringify(v)
          case Threw(m) => "Tool error: " + m;
        ctx.state := ctx.state.(activity := ctx.state.activity + [ActivityLog(event.timestamp, Info, message)]);
      case ErrorOut(m, _) =>
        ctx.state := ctx.state.(isThinking := false);
        ctx.state := ctx.state.(activity := ctx.state.activity + [ActivityLog(event.timestamp, ErrorEntry, m)]);
      case Done(_, maxReached) =>
        ctx.state := ctx.state.(isThinking := false);
        var message := if maxReached then MaxReachedMessage else IdleMessage;
        ctx.state := ctx.state.(activity := ctx.state.activity + [ActivityLog(event.timestamp, Info, message)]);
    }
  }

  /** The `for await` over the loop's events. */
  method Drain(ctx: PanelStore, events: seq<LoopEvent>, stringify: Json -> string)
    modifies ctx
    ensures ctx.state == Apply(old(ctx.state), events, stringify)
  {
    var i := 0;
    while i < |events|
      invariant 0 <= i <= |events|
      invariant ctx.state == Apply(old(ctx.state), events[..i], stringify)
    {
      assert events[..i + 1][..i] == events[..i];
      HandleLoopEvent(ctx, events[i], stringify);
      i := i + 1;
    }
    assert events[..|events|] == events;
  }

  /** The configuration `runLoopy` hands to the loop: no system prompt. */
  function LoopyConfig(tools: map<string, Tool>, maxIterations: int): AgentLoopConfig {
    AgentLoopConfig(tools, maxIterations, None)
  }

  /** `runLoopy`: the opening entry, then every event of the run projected onto the panels. */
  method RunLoopy(prompt: string, ctx: PanelStore, tools: map<string, Tool>, maxIterations: int,
                  world: World, now: int, stringify: Json -> string)
    modifies ctx
    ensures ctx.state == Apply(old(ctx.state).(activity := old(ctx.state.activity) + [ActivityLog(now, Info, InitMessage)]),
                               AgentTrace(prompt, LoopyConfig(tools, maxIterations), world).events, stringify)
  {
    ctx.state := ctx.state.(activity := ctx.state.activity + [ActivityLog(now, Info, InitMessage)]);
    var run := Agent(prompt, LoopyConfig(tools, maxIterations), world);
    Drain(ctx, run.events, stringify);
  }

  /** `runLoopy` called without `maxIterations`, as the loopy app does: the limit is `DefaultMaxIterations`. */
  method RunLoopyDefault(prompt: string, ctx: PanelStore, tools: map<string, Tool>,
                         world: World, now: int, stringify: Json -> string)
    modifies ctx
    ensures ctx.state == Apply(old(ctx.state).(activity := old(ctx.state.activity) + [ActivityLog(now, Info, InitMessage)]),
                               AgentTrace(prompt, LoopyConfig(tools, DefaultMaxIterations), world).events, stringify)
  {
    RunLoopy(prompt, ctx, tools, DefaultMaxIterations, world, now, stringify);
  }

  /**
   * With the default limit, a model that keeps asking for tools gets ten requests
   * and the activity log closes with the max-iterations entry.
   */
  lemma DefaultLimitStopsAtTen(s: PanelState, prompt: string, tools: map<string, Tool>,
                               w: World, now: int, stringify: Json -> string)
    requires forall k :: 0 <= k < DefaultMaxIterations ==> Continues(w.reply(k))
    ensures var t := AgentTrace(prompt, LoopyConfig(tools, DefaultMaxIterations), w);
            var s' := Apply(s.(activity := s.activity + [ActivityLog(now, Info, InitMessage)]), t.events, stringify);
            |t.requests| == 10 && |s'.activity| > 0 && Last(s'.activity).message == MaxReachedMessage
  {
    var cfg := LoopyConfig(tools, DefaultMaxIterations);
    AlwaysToolsReachesMax(prompt, cfg, w);
    RunLoopyActivity(s, prompt, tools, DefaultMaxIterations, w, now, stringify);
  }

  // ---------------------------------------------------------------- properties of the projection

  /** Handling events only appends their entries to the activity log; memory, goals and self are left alone. */
  lemma {:induction false} ApplyAppendsEntries(s: PanelState, es: seq<LoopEvent>, stringify: Json -> string)
    ensures var s' := Apply(s, es, stringify);
            s'.activity == s.activity + Projected(es, stringify) &&
            s'.memory == s.memory && s'.goals == s.goals && s'.self == s.self
    decreases |es|
  {
    if es != [] {
      ApplyAppendsEntries(s, es[..|es| - 1], stringify);
    }
  }

  /** Projection distributes over concatenation: events can be handled in batches. */
  lemma {:induction false} ProjectedAppend(a: seq<LoopEvent>, b: seq<LoopEvent>, stringify: Json -> string)
    ensures Projected(a + b, stringify) == Projected(a, stringify) + Projected(b, stringify)
    decreases |b|
  {
    if b == [] {
      assert a + b == a;
    } else {
      assert (a + b)[..|a + b| - 1] == a + b[..|b| - 1];
      ProjectedAppend(a, b[..|b| - 1], stringify);
    }
  }

  /** Without `thinking` events, there is exactly one entry per event, in event order, with the event's timestamp. */
  lemma {:induction false} ProjectedOnePerEvent(es: seq<LoopEvent>, stringify: Json -> string)
    requires NoThinking(es)
    ensures var p := Projected(es, stringify);
            |p| == |es| &&
            forall i :: 0 <= i < |es| ==> Entry(es[i], stringify) == Some(p[i]) && p[i].timestamp == es[i].timestamp
    decreases |es|
  {
    if es != [] {
      var init := es[..|es| - 1];
      assert NoThinking(init) by {
        forall i | 0 <= i < |init| ensures !init[i].data.Thinking? {
          assert init[i] == es[i];
        }
      }
      ProjectedOnePerEvent(init, stringify);
      assert !Last(es).data.Thinking?;
    }
  }

  /** The `done` entry says the run hit its limit exactly when the loop reports `maxReached`. */
  lemma DoneEntryReportsMax(e: LoopEvent, stringify: Json -> string)
    requires e.data.Done?
    ensures var entry := Entry(e, stringify).value;
            entry.kind == Info && (entry.message == MaxReachedMessage <==> e.data.maxReached)
  {
    if !e.data.maxReached {
      assert IdleMessage[5] != MaxReachedMessage[5];
    }
  }

  /**
   * What `runLoopy` leaves in the activity panel: the opening entry, then one
   * entry per loop event, the last of which reports whether the run hit
   * `maxIterations`; the thinking flag ends lowered and the other panels are untouched.
   */
  lemma RunLoopyActivity(s: PanelState, prompt: string, tools: map<string, Tool>, maxIterations: int,
                         w: World, now: int, stringify: Json -> string)
    ensures var es := AgentTrace(prompt, LoopyConfig(tools, maxIterations), w).events;
            var s' := Apply(s.(activity := s.activity + [ActivityLog(now, Info, InitMessage)]), es, stringify);
            |s'.activity| == |s.activity| + 1 + |es| &&
            s'.activity[|s.activity|] == ActivityLog(now, Info, InitMessage) &&
            Last(s'.activity).timestamp == Last(es).timestamp &&
            Last(es).data.Done? && (Last(s'.activity).message == MaxReachedMessage <==> Last(es).data.maxReached) &&
            !s'.isThinking &&
            s'.memory == s.memory && s'.goals == s.goals && s'.self == s.self
  {
    var cfg := LoopyConfig(tools, maxIterations);
    var es := AgentTrace(prompt, cfg, w).events;
    var s0 := s.(activity := s.activity + [ActivityLog(now, Info, InitMessage)]);
    ExactlyOneDoneLast(prompt, cfg, w);
    NeverThinking(prompt, cfg, w);
    ApplyAppendsEntries(s0, es, stringify);
    ProjectedOnePerEvent(es, stringify);
    DoneEntryReportsMax(Last(es), stringify);
    var p := Projected(es, stringify);
    assert Last(p) == p[|es| - 1];
  }

  /**
   * The event sequence of loopy's runLoopy test (text, tool_call, tool_result,
   * done) gives five entries: the opening one and one per event.
   */
  lemma MockedRunGivesFiveEntries(now: int, t: seq<int>, stringify: Json -> string)
    requires |t| == 4
    requires stringify(JStr("file1.ts")) == "\"" + "file1.ts" + "\""
    ensures var es := [ LoopEvent(TextOut("I will check the files."), t[0]),
                        LoopEvent(ToolCallOut("ls", JObj([]), ""), t[1]),
                        LoopEvent(ToolResultOut("ls", Returned(JStr("file1.ts"))), t[2]),
                        LoopEvent(Done(1, false), t[3]) ];
            var a := Apply(PanelState([], [], "", [ActivityLog(now, Info, InitMessage)], false), es, stringify).activity;
            |a| == 5 && a[0].message == InitMessage && a[1].message == "I will check the files." &&
            Contains(a[2].message, "ls") && Contains(a[3].message, "file1.ts") && a[4].message == IdleMessage
  {
    var es := [ LoopEvent(TextOut("I will check the files."), t[0]),
                LoopEvent(ToolCallOut("ls", JObj([]), ""), t[1]),
                LoopEvent(ToolResultOut("ls", Returned(JStr("file1.ts"))), t[2]),
                LoopEvent(Done(1, false), t[3]) ];
    var s := PanelState([], [], "", [ActivityLog(now, Info, InitMessage)], false);
    ApplyAppendsEntries(s, es, stringify);
    assert NoThinking(es);
    ProjectedOnePerEvent(es, stringify);
    var p := Projected(es, stringify);
    var a := Apply(s, es, stringify).activity;
    assert a == s.activity + p;
    assert a[1] == p[0] && a[2] == p[1] && a[3] == p[2] && a[4] == p[3];
    assert Entry(es[1], stringify) == Some(p[1]) && Entry(es[2], stringify) == Some(p[2]);
    assert a[2].message == "Calling ls(" + stringify(JObj([])) + ")";
    assert a[3].message == "Tool result: " + stringify(JStr("file1.ts"));
    ContainsMiddle("Calling ", "ls", "(");
    ContainsExtended("Calling " + "ls" + "(", stringify(JObj([])), "ls");
    ContainsExtended("Calling " + "ls" + "(" + stringify(JObj([])), ")", "ls");
    ContainsMiddle("\"", "file1.ts", "\"");
    ContainsPrefixed("Tool result: ", "\"" + "file1.ts" + "\"", "file1.ts");
  }
}
