/**
 * The state behind loopy's four panels (src/agent/state.ts): memory, goals,
 * self-description and the activity log, plus the thinking flag. The store
 * returned by `createPanelState` is a `PanelStore` whose `state` field the
 * event handler and the status tools reassign.
 */
module PanelStateModel {

  datatype Goal = Goal(id: string, text: string, completed: bool)

  /** `ActivityLog.type`: "info" | "tool" | "thought" | "error" | "user". */
  datatype ActivityType = Info | ToolEntry | Thought | ErrorEntry | UserEntry

  datatype ActivityLog = ActivityLog(timestamp: int, kind: ActivityType, message: string)

  datatype PanelState = PanelState(
    memory: seq<string>,
    goals: seq<Goal>,
    self: string,
    activity: seq<ActivityLog>,
    isThinking: bool)

  /** The reactive store `createPanelState` returns; `setState` is assignment to `state`. */
  class PanelStore {
    var state: PanelState

    /** `createPanelState`: every panel empty and not thinking. */
    constructor ()
      ensures state.memory == [] && state.goals == [] && state.self == ""
      ensures state.activity == [] && !state.isThinking
    {
      state := PanelState([], [], "", [], false);
    }
  }
}
