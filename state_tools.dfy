/**
 * The status tools of src/agent/state_tools.ts: the agent's own way to write
 * its memory, goals and self-description panels. Each `execute` is a method
 * on the shared `PanelStore`; the tool's result object is a `Json` value.
 */
module StatusTools {
  import opened Common
  import opened AgentLoop
  import opened PanelStateModel
  import Loopy

  /** `update_memory`: the item goes to the end of memory. */
  function AddMemory(s: PanelState, item: string): (s': PanelState)
    ensures s.memory <= s'.memory && |s'.memory| == |s.memory| + 1 && Last(s'.memory) == item
    ensures s'.goals == s.goals && s'.self == s.self && s'.activity == s.activity && s'.isThinking == s.isThinking
  {
    s.(memory := s.memory + [item])
  }

  /** `update_goals`: the goal list is replaced wholesale. */
  function ReplaceGoals(s: PanelState, goals: seq<Goal>): (s': PanelState)
    ensures s'.goals == goals
    ensures s'.memory == s.memory && s'.self == s.self && s'.activity == s.activity && s'.isThinking == s.isThinking
  {
    s.(goals := goals)
  }

  /** `update_self`: the self-description is replaced. */
  function ReplaceSelf(s: PanelState, identity: string): (s': PanelState)
    ensures s'.self == identity
    ensures s'.memory == s.memory && s'.goals == s.goals && s'.activity == s.activity && s'.isThinking == s.isThinking
  {
    s.(self := identity)
  }

  method UpdateMemory(ctx: PanelStore, item: string) returns (result: Json)
    modifies ctx
    ensures ctx.state == AddMemory(old(ctx.state), item)
    ensures result == JObj([("success", JBool(true)), ("item", JStr(item))])
  {
    ctx.state := ctx.state.(memory := ctx.state.memory + [item]);
    result := JObj([("success", JBool(true)), ("item", JStr(item))]);
  }

  method UpdateGoals(ctx: PanelStore, goals: seq<Goal>) returns (result: Json)
    modifies ctx
    ensures ctx.state == ReplaceGoals(old(ctx.state), goals)
    ensures result == JObj([("success", JBool(true)), ("count", JNum(|goals|))])
  {
    ctx.state := ctx.state.(goals := goals);
    result := JObj([("success", JBool(true)), ("count", JNum(|goals|))]);
  }

  method UpdateSelf(ctx: PanelStore, identity: string) returns (result: Json)
    modifies ctx
    ensures ctx.state == ReplaceSelf(old(ctx.state), identity)
    ensures result == JObj([("success", JBool(true)), ("identity", JStr(identity))])
  {
    ctx.state := ctx.state.(self := identity);
    result := JObj([("success", JBool(true)), ("identity", JStr(identity))]);
  }

  /** `createStatusTools`: the three tools, each registered under its own name. */
  function CreateStatusTools(): (tools: map<string, Tool>)
    ensures tools.Keys == {"update_memory", "update_goals", "update_self"}
    ensures forall k :: k in tools ==> tools[k].name == k
  {
    map[
      "update_memory" := Tool("update_memory", "Add a new item to the agent's persistent memory.",
                              JObj([("item", JStr("string"))])),
      "update_goals" := Tool("update_goals", "Set or update the agent's goals.",
                             JObj([("goals", JArr([JObj([("id", JStr("string")), ("text", JStr("string")), ("completed", JStr("boolean"))])]))])),
      "update_self" := Tool("update_self", "Update the agent's identity/self-description.",
                            JObj([("identity", JStr("string"))]))
    ]
  }

  // ---------------------------------------------------------------- properties

  /** Setting the goals or the self-description twice to the same value is the same as once. */
  lemma ReplacementsIdempotent(s: PanelState, goals: seq<Goal>, identity: string)
    ensures ReplaceGoals(ReplaceGoals(s, goals), goals) == ReplaceGoals(s, goals)
    ensures ReplaceSelf(ReplaceSelf(s, identity), identity) == ReplaceSelf(s, identity)
    ensures ReplaceGoals(s, goals).goals == goals && ReplaceSelf(s, identity).self == identity
  {
  }

  /**
   * The status tools and the event projector touch disjoint panels, so a tool
   * that runs while events are being handled leaves the same final state
   * whichever order the two updates land in.
   */
  lemma {:induction false} StatusToolsCommuteWithEvents(s: PanelState, es: seq<LoopEvent>, stringify: Json -> string,
                                                          item: string, goals: seq<Goal>, identity: string)
    ensures Loopy.Apply(AddMemory(s, item), es, stringify) == AddMemory(Loopy.Apply(s, es, stringify), item)
    ensures Loopy.Apply(ReplaceGoals(s, goals), es, stringify) == ReplaceGoals(Loopy.Apply(s, es, stringify), goals)
    ensures Loopy.Apply(ReplaceSelf(s, identity), es, stringify) == ReplaceSelf(Loopy.Apply(s, es, stringify), identity)
    decreases |es|
  {
    if es != [] {
      StatusToolsCommuteWithEvents(s, es[..|es| - 1], stringify, item, goals, identity);
      Loopy.ApplyAppendsEntries(s, es[..|es| - 1], stringify);
    }
  }

  /** The panel-state test: after adding "test memory" and setting "I am loopy", the panels read back exactly those. */
  method PanelStateScenario() returns (memory: seq<string>, self: string, memoryResult: Json)
    ensures memory == ["test memory"] && self == "I am loopy"
    ensures memoryResult == JObj([("success", JBool(true)), ("item", JStr("test memory"))])
  {
    var store := new PanelStore();
    memoryResult := UpdateMemory(store, "test memory");
    var _ := UpdateSelf(store, "I am loopy");
    memory, self := store.state.memory, store.state.self;
  }
}
