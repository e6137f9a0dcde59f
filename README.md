# TUI agent core, modelled in Dafny

This project models the core of a terminal chat-and-agent client:

- **Agent loop.** `agentLoop` seeds a message history and calls the model once per iteration. It emits an ordered stream of loop events (`text`, `tool_call`, `tool_result`, `error`, `done`), runs the requested tools one after another, and ends with a single `done` event. `streamChat` assembles the history handed to the streaming model.
- **Loopy.** `runLoopy` projects every loop event onto the four panels: memory, goals, self and activity. The status tools `update_memory`, `update_goals` and `update_self` let the agent change those panels.
- **Tools.** The tool registry, plus the shell tool with its optional allowlist and the file tools `read_file` (with line ranges), `write_file` and `list_dir`.
- **Commands.** The slash-command registry and the built-in commands `/help`, `/clear`, `/exit`, `/models` and `/sessions`.
- **Chat.** The chat hook's `sendMessage`: the user message, the streamed assistant placeholder, the error path and the captured console entries.
- **Pure helpers:**
  - model listing and formatting for the AI Gateway catalog;
  - provider creation with API-key resolution;
  - session-file naming and harness-file recognition;
  - layout orientation;
  - frame normalisation and HTML escaping of the initial-screen generator.

Everything the program gets from outside is a parameter:

- **Loop:** the model's answers, each tool's outcome and `Date.now()` form a `World`. The n-th model call gets `reply(n)`, the n-th executed tool gets `outcome(n)` and the n-th event is stamped `clock(n)`. `notCallable` is the message of the `TypeError` a call through an inherited `Object.prototype` member throws.
- **Chat and commands:** the stream, the gateway catalog, the environment and every `new Date()` reading. Each reading is its own parameter: the user message, the placeholder and the error replacement of `sendMessage`, and the user turn and the answer of `/help` and `/models`.
- **Tools:** what the file system and the spawned process report.
- **Session:** the home directory and the ISO time string.

Code that updates state in place is modelled as classes with `modifies` clauses:

- the tool registry;
- the command registry;
- the panel store;
- the chat session;
- the command context.

Each class method is proved against a specification function:

- `Agent` against `AgentTrace`;
- `RunToolCalls` against `ExecuteCalls`;
- `StreamInto` against `ChunksApplied`;
- `Drain` against `Apply`;
- `SelectLines` against `Selected`;
- `Register` against `Bind`.

The guarantees are then proved about those functions.

Where the documented design and the code disagree, the model follows the code:

- The loop never emits a `thinking` event and has no interactive input queue.
- A rate-limit error consumes an iteration.
- A fatal model error is followed by `done {maxReached: true}`.
- Neither the text reply nor the tool results are appended to the history. Only the assistant's tool-call list is appended.
- A call to an unknown tool gets a `tool_call` event but no `tool_result`. The lookup `config.tools[name]` also finds the names every object inherits from `Object.prototype` (`toString`, `constructor`, …). Calling one of those throws a `TypeError`, so such a call gets a failed `tool_result` carrying that message, and no tool runs.

Some tests expect behaviour that the code does not have; the model follows the code:

- `src/agent/loopy.test.ts:44` expects 3 activity entries. The code adds 5: the opening entry plus one per event, including `done` (`Loopy.MockedRunGivesFiveEntries`).
- `src/agent/loop.test.ts:375-390` expects `streamChat` to fall back to the final text. The code has no such fallback.
- `src/tools/file.test.ts:26-92` expects `~` expansion and a "Path is required" error. Neither is in the code.

## Model

| member | source | states |
|---|---|---|
| AgentLoop.Agent | src/agent/loop.ts:37-182 | The imperative loop (seed, `while` over iterations, nested `for` over tool calls, catch with rate-limit retry, closing `done`) produces exactly the run `AgentTrace` describes |
| AgentLoop.RunToolCalls | src/agent/loop.ts:88-131 | The inner loop over a response's tool calls yields the same events, callbacks and executions as the specification `ExecuteCalls` |
| AgentLoop.RunToolCall | src/agent/loop.ts:89-130 | One pass of the `for` body has exactly the effect `CallStep` specifies |
| AgentLoop.LookupTool | src/agent/loop.ts:105-106 | `config.tools[name]` is a registered tool exactly when the name is a key, an inherited `Object.prototype` member exactly when it is one of those names and not a key, and nothing otherwise |
| AgentLoop.CallStep | src/agent/loop.ts:90-130 | One call adds `tool_call`, then: for a registered tool, its `tool_result` with the next tool outcome, one more execution; for an inherited name, a failed `tool_result` with the `TypeError` message and no execution; for an unknown name, nothing. The `onToolCall` record always grows by the call, and the rest of the run is unchanged |
| AgentLoop.ExecuteCalls | src/agent/loop.ts:88-131 | A batch of tool calls leaves the history, the counter, the `onStep` record and the requests alone, and only extends the event list |
| AgentLoop.Iterate | src/agent/loop.ts:53-181 | Every remaining iteration adds at least one event, and the step and request records only grow |
| AgentLoop.AgentTrace | src/agent/loop.ts:37-182 | Every run emits at least one event (the lemmas below say which) |
| AgentLoop.UnfoldFailed | src/agent/loop.ts:158-173 | A model failure emits `error {message, iteration}`, then retries on "rate limit" or stops with the closing `done` |
| AgentLoop.UnfoldToolCalls | src/agent/loop.ts:87-148 | A response with tool calls emits its text, runs the calls, appends the assistant tool-call message and goes round again |
| AgentLoop.UnfoldAnswer | src/agent/loop.ts:77-157 | A response without tool calls emits its non-empty text and then `done {iterations}` |
| AgentLoop.StreamChatMessages | src/agent/loop.ts:208-224 | `streamChat` sends the system prompt (only when it is non-empty) followed by the given messages unchanged |
| LoopProperties.ExactlyOneDoneLast | src/agent/loop.ts:152-181 | Every run emits exactly one `done`; it is the last event and reports the final iteration count |
| LoopProperties.NeverThinking | src/agent/loop.ts:27-31 | No run ever emits a `thinking` event, although the event type allows it |
| LoopProperties.ToolCallsPaired | src/agent/loop.ts:88-131 | Every `tool_result` directly follows a `tool_call` of the same name; every call whose name the lookup finds is directly followed by its result; a result for a name that is not registered is the failure with the `TypeError` message; a call of an unknown name has no result |
| LoopProperties.FatalErrorEndsRun | src/agent/loop.ts:158-181 | A non-rate-limit failure is the second-to-last event and the last is `done {maxReached: true}` |
| LoopProperties.StepsCountUp | src/agent/loop.ts:51-55 | At most `maxIterations` model calls; `onStep` receives (1, max), (2, max), … once per call |
| LoopProperties.HistoryGrowsOnlyByToolCalls | src/agent/loop.ts:41-144 | Every history sent to the model is the seed followed only by assistant tool-call messages |
| LoopProperties.FirstRequestIsSeed | src/agent/loop.ts:41-49 | The first model call receives the system prompt (when non-empty) and then the user prompt |
| LoopProperties.AnswerWithoutToolsEnds | src/agent/loop.test.ts:56-74 | A first answer without tool calls yields its text and then `done {iterations: 1}` after one request |
| LoopProperties.AlwaysToolsReachesMax | src/agent/loop.test.ts:175-192 | When every answer asks for tools, the run makes exactly `maxIterations` calls and ends with `done {iterations: max, maxReached: true}` |
| LoopProperties.ToolFailuresDoNotAbort | src/agent/loop.ts:107-129 | Given the same model replies, whether tools return or throw never changes the requests, iterations or number of events |
| LoopProperties.ThrowingToolRecovers | src/agent/loop.test.ts:218-253 | The failing-tool run: `tool_call`, a failed `tool_result` with the thrown message, "Recovered", `done {iterations: 2}` |
| LoopProperties.InheritedNameReportsTypeError | src/agent/loop.ts:105-129 | A model that calls "toString" with no tools registered gets `tool_call`, a failed `tool_result` with the `TypeError` message, then its answer and `done {iterations: 2}`, and no tool is executed |
| LoopProperties.ExecuteCallsToolEventsOnly | src/agent/loop.ts:88-131 | A batch of tool calls adds only `tool_call`/`tool_result` events: no `done`, no `thinking`, no error |
| LoopProperties.CallStepPaired | src/agent/loop.ts:90-130 | One tool call keeps the call/result pairing of the events so far |
| LoopProperties.ExecuteCallsPaired | src/agent/loop.ts:88-131 | A batch of tool calls keeps the call/result pairing |
| LoopProperties.IterateEndsWithOneDone | src/agent/loop.ts:53-181 | From any state without `done`, the rest of the run ends with exactly one `done` |
| LoopProperties.IterateFatalEnds | src/agent/loop.ts:158-181 | From any state without a fatal error, a fatal error in the rest of the run is immediately followed by the last event |
| LoopProperties.IterateToMax | src/agent/loop.ts:53-169 | When every remaining answer continues the loop, it runs to `maxIterations` |
| LoopProperties.IterateSameCourse | src/agent/loop.ts:53-174 | Two runs with the same replies stay in step whatever their tools do |
| Loopy.Entry | src/agent/loopy.ts:38-97 | Each event becomes one activity entry with its timestamp, except `thinking`, which adds none |
| Loopy.Step | src/agent/loopy.ts:38-97 | `thinking` raises the flag and adds no entry; `tool_result` keeps the flag; every other event lowers it. Every non-`thinking` event appends one entry stamped with its time; memory, goals and self are untouched |
| Loopy.HandleLoopEvent | src/agent/loopy.ts:38-97 | `handleLoopEvent` updates the store to the projection `Step` of the event |
| Loopy.Drain | src/agent/loopy.ts:33-35 | Handling the events in order leaves the store at `Apply` of the events |
| Loopy.RunLoopy | src/agent/loopy.ts:14-36 | The opening "initialized" entry, then every event of the loop run (no system prompt) projected onto the panels |
| Loopy.RunLoopyDefault | src/agent/loopy.ts:14-36 | Without a `maxIterations` argument the loop runs with the default limit of 10 |
| Loopy.DefaultLimitStopsAtTen | src/agent/loopy.ts:19 | With the default limit, a model that always asks for tools gets exactly ten requests and the log ends with "Loop reached max iterations." |
| Loopy.ApplyAppendsEntries | src/agent/loopy.ts:38-97 | Handling events only appends to the activity log; memory, goals and self are untouched |
| Loopy.ProjectedAppend | src/agent/loopy.ts:33-35 | Projection distributes over concatenation of event sequences |
| Loopy.ProjectedOnePerEvent | src/agent/loopy.ts:44-95 | Without `thinking` events there is exactly one entry per event, in order, with the event's timestamp |
| Loopy.DoneEntryReportsMax | src/agent/loopy.ts:85-95 | The `done` entry says "Loop reached max iterations." exactly when the loop reports `maxReached` |
| Loopy.RunLoopyActivity | src/agent/loopy.ts:14-36 | After `runLoopy`, the activity holds the opening entry plus one entry per event. The last entry reports whether the limit was hit, the thinking flag is down and the other panels are unchanged |
| Loopy.MockedRunGivesFiveEntries | src/agent/loopy.test.ts:6-47 | The test's four events (text, tool_call, tool_result, done) give five entries, the opening one first |
| PanelStateModel.PanelStore.constructor | src/agent/state.ts:26-36 | `createPanelState`: empty memory, goals, self and activity, not thinking |
| StatusTools.UpdateMemory | src/agent/state_tools.ts:12-20 | `update_memory` appends the item to memory and returns `{success: true, item}` |
| StatusTools.UpdateGoals | src/agent/state_tools.ts:21-37 | `update_goals` replaces the goals and returns `{success: true, count}` |
| StatusTools.UpdateSelf | src/agent/state_tools.ts:38-46 | `update_self` replaces the self-description and returns `{success: true, identity}` |
| StatusTools.CreateStatusTools | src/agent/state_tools.ts:8-48 | Exactly the three tools, each under its own name |
| StatusTools.AddMemory | src/agent/state_tools.ts:16-19 | Memory only grows: it gains the item at its end and keeps its earlier items in place; goals, self, activity and the thinking flag are unchanged |
| StatusTools.ReplaceGoals | src/agent/state_tools.ts:33-36 | The goals become the given list; every other panel is unchanged |
| StatusTools.ReplaceSelf | src/agent/state_tools.ts:42-45 | The self-description becomes the given identity; every other panel is unchanged |
| StatusTools.ReplacementsIdempotent | src/agent/state_tools.ts:33-45 | Setting goals or self twice to one value equals setting it once, and the value reads back |
| StatusTools.StatusToolsCommuteWithEvents | src/agent/state_tools.ts:8-48 | The status tools and the event projection touch disjoint panels, so their order does not matter |
| StatusTools.PanelStateScenario | src/agent/state.test.ts:17-27 | Adding "test memory" and setting "I am loopy" reads back exactly those |
| Registry.ToolRegistry.constructor | src/tools/registry.ts:9-10 | A new registry is empty |
| Registry.ToolRegistry.Register | src/tools/registry.ts:15-17 | `register` maps the tool's name to the tool; a new name goes last in key order, an existing one keeps its place |
| Registry.ToolRegistry.Get | src/tools/registry.ts:22-24 | `get` returns the tool exactly when the name is registered |
| Registry.ToolRegistry.GetAll | src/tools/registry.ts:29-31 | `getAll` has the same keys and tools, each tool under its own name |
| Registry.ToolRegistry.List | src/tools/registry.ts:36-38 | `list` gives every registered name once, in registration order |
| Registry.ToolRegistry.Has | src/tools/registry.ts:43-45 | `has` is membership |
| Registry.ToolRegistry.Remove | src/tools/registry.ts:50-52 | `remove` reports whether the name was present, deletes it and keeps the order of the rest |
| Registry.DistinctCardinality | src/tools/registry.ts:36-38 | A duplicate-free key list is as long as the map it lists |
| Registry.NewNames | src/tools/registry.ts:15-17 | The names of a list that are not yet keys, in list order: a name is in it exactly when it is in the list and not a key |
| Registry.OverwriteScenario | src/tools/registry.test.ts:27-47 | Registering twice under "duplicate": the second tool wins and the name is listed once |
| Registry.RemoveScenario | src/tools/registry.test.ts:139-159 | Removing returns true once and false the second time; the rest keep their order |
| Shell.ParseShellArgs | src/tools/shell.ts:9-12 | The command is kept; the timeout is the one given, or 30000 ms when none is |
| Shell.ExecuteShell | src/tools/shell.ts:17-38 | Output and exit code are passed through, success exactly on exit code 0; a throw becomes `{error, success: false}` |
| Shell.Gate | src/tools/shell.ts:52-61 | A command is refused exactly when a non-empty allowlist lacks its first space-separated token, with "Command not allowed: <token>" |
| Shell.RunShellTool | src/tools/shell.ts:50-64 | On the model's raw arguments: the gate runs first and a refused command yields the rejection record, unsuccessful; a permitted one is executed with the arguments after the schema's default |
| Shell.ShellDescription | src/tools/shell.ts:46-48 | Corrected description: the allowlist is named exactly when it is enforced |
| Shell.ShellDescriptionAsWritten | src/tools/shell.ts:46-48 | As written: with an allowlist, the description is the prefix, "Allowed commands: " and the commands joined by ", "; without one, the prefix and the caution text |
| Shell.DescriptionHeadingIffGiven | src/tools/shell.ts:46-48 | The description as written starts with the allowlist heading exactly when an allowlist is given |
| Shell.ShellTool | src/tools/shell.ts:44-49 | The tool is named "shell", carries the shell schema and the description as written, which shows the allowlist heading exactly when an allowlist (even an empty one) is given |
| Shell.RegisterShellTool | src/tools/shell.ts:43-69 | The tool is stored in the registry under "shell", replacing an earlier one; "shell" is appended to the key order only when it was not registered before |
| Shell.CommandBase | src/tools/shell.ts:53 | The checked token is a space-free prefix of the command, and the whole command when it has no space |
| Shell.ArgumentsIgnored | src/tools/shell.ts:53-54 | Text after the first space never affects the gate |
| Shell.RejectedNeverRuns | src/tools/shell.ts:52-63 | A refused command's result does not depend on what running it would do, and is unsuccessful |
| Shell.SpawnedWithTimeout | src/tools/shell.ts:9-12 | A permitted command is spawned with the model's timeout, or with 30000 ms when the model gave none |
| Shell.GateRestrictsIff | src/tools/shell.ts:52 | The gate can refuse some command exactly when a non-empty allowlist is given |
| Shell.DescriptionMatchesGate | src/tools/shell.ts:46-52 | The corrected description names an allowlist exactly when the gate can refuse a command |
| Shell.EmptyAllowlistMisdescribed | src/tools/shell.ts:46-52 | As written, `[]` is described as "Allowed commands: " while every command passes |
| Shell.AllowlistScenario | src/tools/shell.test.ts:29-40 | With ["ls", "echo"], "ls" passes and "rm -rf /" is refused as "rm" |
| FileTools.Span | src/tools/file.ts:46-48 | One range picks lines `start`..`min(end, lineCount)`, reading `undefined` (written as "") below line 1 |
| FileTools.ReadFile | src/tools/file.ts:30-63 | A missing file gives "File not found" and a throw gives its message. Otherwise the content is the text or the selected lines joined by newlines, with its size |
| FileTools.SelectLines | src/tools/file.ts:41-51 | The nested loops select exactly `Selected(lines, ranges)` |
| FileTools.PushSpan | src/tools/file.ts:46-48 | The inner loop appends exactly the range's span |
| FileTools.WriteFile | src/tools/file.ts:73-84 | Success reports the path and the content length; a throw reports its message |
| FileTools.ListDir | src/tools/file.ts:94-122 | One entry per scanned name, in order, with `path/name` and the directory flag; `count` is the number of entries; a throw reports its message |
| FileTools.RegisterFileTools | src/tools/file.ts:128-132 | The three tools are registered under their names; the key order gains, in the order `read_file`, `write_file`, `list_dir`, exactly those of the three names that were not registered before |
| FileTools.SpanIsSlice | src/tools/file.ts:45-49 | For `start >= 1` a range is the slice of lines `start - 1 .. min(end, lineCount)`, or empty |
| FileTools.SelectedAppend | src/tools/file.ts:45-49 | Ranges are read in order and concatenated |
| FileTools.WholeFileWithoutRanges | src/tools/file.ts:39-41 | Without ranges, or with an empty list, the whole text is returned |
| FileTools.OverlapRepeats | src/tools/file.ts:45-49 | [1,2] then [2,3] gives lines 1, 2, 2, 3; a range past the end gives nothing; an end past the end is clipped |
| Commands.Keys | src/commands/index.ts:11-14 | A command is registered under its name, then its aliases |
| Commands.Bind | src/commands/index.ts:10-15 | Setting each key to the command keeps other keys and overwrites earlier owners |
| Commands.CommandRegistry.constructor | src/commands/index.ts:7-8 | A new registry is empty |
| Commands.CommandRegistry.Register | src/commands/index.ts:10-15 | `register` binds the name and every alias to the command |
| Commands.CommandRegistry.Resolve | src/commands/index.ts:17-19 | `resolve` returns the command under the input, or null |
| Commands.CreateCommandRegistry | src/commands/index.ts:22-32 | The registry holds every namespace value that is a command, registered in namespace order |
| Commands.RegisterValues | src/commands/index.ts:25-29 | The loop over namespace values registers objects with a name and skips the list |
| Commands.Owner | src/commands/builtin.ts:125-131 | Reference lookup: the first built-in with the input among its keys |
| Commands.ResolveCommand | src/commands/index.ts:34-38 | `resolveCommand` gives the canonical name exactly for the names and aliases of the built-ins |
| Commands.BuiltinKeysSeparate | src/commands/builtin.ts:19-123 | No two built-ins share a name or alias |
| Commands.OwnerOfMember | src/commands/index.ts:17-19 | When no key is shared, each key is owned by its own command |
| Commands.NamespaceOrderIrrelevant | src/commands/index.ts:22-32 | With separate keys, registering in namespace order gives the list-order lookup table |
| Commands.CreatedRegistryMatchesOwner | src/commands/index.ts:22-32 | The created registry resolves exactly the built-ins' names and aliases, each to its own command |
| Commands.HelpTextShortcutsResolve | src/commands/builtin.ts:7-17 | Every command and shortcut the help text lists resolves to its command; "/unknown" resolves to nothing |
| Builtins.CommandContext.constructor | src/commands/types.ts:5-13 | A context starts with the given config and messages, nothing captured, no selector, no exit |
| Builtins.ExecuteHelp | src/commands/builtin.ts:19-38 | `/help` appends the user turn "/help" and the help text, each stamped with its own clock reading; the config and everything else stay unchanged |
| Builtins.ExecuteClear | src/commands/builtin.ts:40-48 | `/clear` empties the messages and the captured console; the config and the flags stay unchanged |
| Builtins.ExecuteExit | src/commands/builtin.ts:50-57 | `/exit` requests exit and changes nothing else, the config included |
| Builtins.ExecuteSessions | src/commands/builtin.ts:116-123 | `/sessions` opens the selector and changes nothing else, the config included |
| Builtins.ExecuteModels | src/commands/builtin.ts:59-114 | Without config: one "No config loaded" error. Otherwise: the fetch notice, then the listing exchange or the failure log with the "Error: … Set AI_GATEWAY_API_KEY" exchange; the user turn and the answer carry their own clock readings |
| Builtins.ModelsAnswer | src/commands/builtin.ts:75-112 | The assistant answer starts with "Error: " exactly when the listing failed, and then ends with the "Set AI_GATEWAY_API_KEY to use /models." hint |
| Builtins.Execute | src/commands/builtin.ts:19-123 | Dispatch: exit and selector flags are set only by their commands; `/help` and `/models` only append; `/clear` empties; no command changes the config |
| Builtins.ModelsAnswerReportsFailure | src/commands/builtin.ts:75-112 | For a gateway provider the answer starts with "Error: " exactly when the catalog request failed |
| Builtins.CustomModelsAnswer | src/commands/builtin.ts:75-94 | The custom provider's answer is the "No models found" line whatever the gateway does, with no failure log |
| Builtins.NonErrorThrowReported | src/commands/builtin.ts:95-98 | A thrown non-`Error` is reported as "Unknown models error" |
| Chat.UserContent | src/hooks/useChat.ts:36-38 | With context: context, the separator, then the request; without: the request alone |
| Chat.ChatSession.constructor | src/hooks/useChat.ts:27-29 | No messages, not streaming |
| Chat.ChatSession.SendMessage | src/hooks/useChat.ts:31-117 | The user message and an assistant message are appended. The assistant message holds the streamed text, stamped when the placeholder was added, or "Error: <message>", stamped when the failure was handled. The start log, then warn/completed or failure logs, are captured, and streaming ends false |
| Chat.ChatSession.Settle | src/hooks/useChat.ts:93-116 | Success keeps the messages; failure applies `ErrorUpdate` to whatever list is there; the closing logs are captured and streaming ends |
| Chat.ChatSession.StreamInto | src/hooks/useChat.ts:67-91 | The messages become `ChunksApplied` of the earlier list and the chunks, from any list; the flag records whether any non-empty chunk came |
| Chat.ChatSession.ClearMessages | src/hooks/useChat.ts:119-121 | `clearMessages` empties the messages only |
| Chat.ChunkUpdate | src/hooks/useChat.ts:76-90 | One chunk keeps the list's length and every message but the last; an empty list stays empty; a last message that is not the assistant's is left alone; an assistant's last message gets the chunk appended to its content |
| Chat.ErrorUpdate | src/hooks/useChat.ts:101-113 | The failure keeps the list's length and every message but the last; an empty list stays empty; otherwise the last message becomes the assistant's "Error: <message>" with the given time, whatever its role was |
| Chat.ChunksApplied | src/hooks/useChat.ts:67-91 | Any number of chunks keeps the list's length and every message but the last |
| Chat.ChunksFillPlaceholder | src/hooks/useChat.ts:52-91 | After the user message and the empty placeholder, the chunks leave the earlier messages and the user message alone and fill the placeholder with their concatenation |
| Chat.ChunksSkipNonAssistant | src/hooks/useChat.ts:76-90 | When the last message is not the assistant's, no chunk changes the list |
| Chat.EmptyListUntouched | src/hooks/useChat.ts:77-79 | An empty list stays empty under chunks and under the failure update |
| Chat.EmptyWarningIffEmptyReply | src/hooks/useChat.ts:72-95 | The empty-response warning is logged exactly when the reply is empty |
| Chat.RequestShape | src/hooks/useChat.ts:46-71 | The model sees the earlier conversation and the new user message, never the placeholder |
| Chat.FailureDiscardsPartialReply | src/hooks/useChat.ts:97-113 | A failure mid-stream leaves only "Error: <message>" and logs "Request failed: <message>" |
| Chat.ProviderErrorNeverStreams | src/hooks/useChat.ts:63-64 | When the provider cannot be created, nothing is streamed and the outcome does not depend on the model |
| ChatTypes.ToModelMessages | src/hooks/useChat.ts:20-25 | Each message keeps its role and content; only the timestamp is dropped |
| Models.Filter | src/agent/models.ts:20-25 | Keeps exactly the catalog models with the provider prefix and a language or absent type |
| Models.StripAll | src/agent/models.ts:26-30 | Each model is reduced to id, name and description, in order |
| Models.SortById | src/agent/models.ts:31 | The result is sorted by id and is a permutation of the input |
| Models.ListAvailableModels | src/agent/models.ts:10-32 | Custom gives `[]`; a gateway error propagates; a listing is sorted |
| Models.ListedAreOffered | src/agent/models.ts:17-31 | The listing is exactly the provider's language models, one per catalog entry, sorted |
| Models.CustomIgnoresGateway | src/agent/models.ts:13-15 | The custom provider's listing never depends on the gateway |
| Models.ModelLines | src/agent/models.ts:42 | One "  - <id>" line per model, in order |
| Models.FormatAvailableModels | src/agent/models.ts:34-43 | The text starts with the "Available models for <provider>:" heading line exactly when there are models, and with "No models found for <provider>" exactly when there are none |
| Models.FormatLines | src/agent/models.ts:34-43 | A non-empty listing reads as the heading line followed by one line per model |
| Models.FormatTwo | src/agent/models.test.ts:84-93 | Two models: the heading, then each id on its own line |
| Models.FormatEmptyScenario | src/agent/models.test.ts:95-99 | No models: "No models found for openai in AI Gateway catalog." |
| Models.ListingScenario | src/agent/models.test.ts:21-65 | The embedding model and the other provider's model are dropped; the rest come sorted by id |
| ProviderModel.GetApiKeyEnv | src/agent/provider.ts:127-137 | Every provider's variable ends in `_API_KEY` |
| ProviderModel.GetDefaultModel | src/agent/provider.ts:115-125 | Every provider has a non-empty default model |
| ProviderModel.ResolveApiKey | src/agent/provider.ts:35-43 | The non-empty configured key, else the non-empty environment variable, else "API key required for …" |
| ProviderModel.CreateProvider | src/agent/provider.ts:45-113 | The created provider carries the configured name and provider |
| ProviderModel.ApiKeyEnvDistinct | src/agent/provider.ts:127-137 | Different providers read different variables |
| ProviderModel.CreateProviderSucceedsIff | src/agent/provider.ts:45-108 | Success exactly when a key resolves and, for custom, a base URL is set; the key error comes first |
| ProviderModel.KeyReachesOnlyCustom | src/agent/provider.ts:49-107 | Only the custom client receives the key and base URL |
| ProviderModel.EmptyConfiguredKeyFallsBack | src/agent/provider.ts:36 | An empty configured key does not shadow the environment |
| ProviderModel.ProviderScenarios | src/agent/provider.test.ts:17-38 | An environment key builds the anthropic model; openai without a key is an "API key required" error |
| Session.JoinPath | src/utils/session.ts:20 | `path.join`: the non-empty parts joined by '/', then normalised as POSIX `path.normalize` does; the result is never empty |
| Session.Resolve | src/utils/session.ts:20 | Normalising the segments leaves no empty and no "." segment |
| Session.CleanJoin | src/utils/session.ts:20 | Joining a clean directory with a plain file name puts exactly one '/' between them and gives a clean path |
| Session.JoinDropsDot | src/utils/session.ts:20 | "./tmp" joined with "x.md" is "tmp/x.md" |
| Session.JoinResolvesParent | src/utils/session.ts:20 | "/a/b/.." joined with "c" is "/a/c" |
| Session.SessionTimestamp | src/utils/session.ts:15-18 | The timestamp has no ':' and gains no '/' |
| Session.SessionFileName | src/utils/session.ts:19 | The name is `session_…md` with no ':' and gains no '/' |
| Session.GetDefaultSessionsDir | src/utils/session.ts:5-7 | For a clean home directory, the default directory is `<home>/.tui-agent/sessions`, itself clean |
| Session.NameOfIsoString | src/utils/session.ts:14-19 | `<date>T<hh>:<mm>:<ss>.<ms>Z` names `session_<date>T<hh>-<mm>-<ss>.md` |
| Session.SessionFilePath | src/utils/session.ts:9-25 | An explicit clean directory is used as given with the file directly inside; without one, the file is `<home>/.tui-agent/sessions/<name>` |
| HarnessFiles.FileNameIsSuffix | src/utils/harness-logger.ts:5 | The file name is the whole path without '/', else the text after the last '/' |
| HarnessFiles.DirectoryIgnored | src/utils/harness-logger.ts:4-7 | Only the last segment decides |
| HarnessFiles.TrailingSlashNever | src/utils/harness-logger.ts:4-7 | A path ending in '/' is never a harness file |
| HarnessFiles.IsHarnessFile | src/utils/harness-logger.ts:4-7 | Exactly "self.md" and "memories.md", bare or after a '/' |
| HarnessFiles.FileName | src/utils/harness-logger.ts:5 | The last '/'-separated segment: a suffix of the path with no '/', the whole path when it has none |
| HarnessFiles.FileNameIs | src/utils/harness-logger.ts:5 | For a slash-free name, the last segment is that name exactly when the path is the name or ends with '/' and the name |
| HarnessFiles.HarnessScenarios | src/utils/harness-logger.ts:4-7 | "myself.md" and "self.md.bak" are not harness files; "/home/agent/self.md" is |
| Layout.GetOrientation | src/utils/layout.ts:7-9 | Wide exactly when `2 * width >= 3 * height`, tall exactly otherwise |
| Layout.WiderStaysWide | src/utils/layout.ts:7-9 | Widening a wide terminal keeps it wide |
| Layout.TallerStaysTall | src/utils/layout.ts:7-9 | Heightening a tall terminal keeps it tall |
| Layout.LayoutScenarios | src/utils/layout.test.ts:5-11 | 100 x 30 is wide, 80 x 60 tall; exactly 1.5 times is wide |
| InitialScreen.TrimEnd | scripts/generate-initial-screen.tsx:16-18 | A prefix of the input that ends in no white space, and everything it drops is white space: the longest such prefix |
| InitialScreen.TrimLines | scripts/generate-initial-screen.tsx:15-16 | Each line is trimmed separately |
| InitialScreen.NormalizeFrame | scripts/generate-initial-screen.tsx:11-20 | The screen ends in a line break |
| InitialScreen.NormalFrameUnchanged | scripts/generate-initial-screen.tsx:11-20 | A frame with no carriage return, no leading line break and no trailing white space on any line or at the end is returned as itself plus one line break |
| InitialScreen.SplitTrimmedParts | scripts/generate-initial-screen.tsx:15-16 | When every line break follows a non-white character and the text ends in one, every line of the split already has no trailing white space |
| InitialScreen.NormalizeEndsCleanly | scripts/generate-initial-screen.tsx:18-19 | The screen is text without trailing white space, then exactly one line break |
| InitialScreen.NormalizeTrimsLines | scripts/generate-initial-screen.tsx:13-17 | No line ends in white space; no "\r\n" is left |
| InitialScreen.BuildReadme | scripts/generate-initial-screen.tsx:31-33 | The README is the head ending in the "```text" fence line, the screen verbatim, then the tail; a screen ending in a line break puts the closing fence on its own line |
| InitialScreen.EscapeHtml | scripts/generate-initial-screen.tsx:22-29 | The escaped text is each character escaped on its own, because '&' goes first; it holds no `<`, `>`, `"` or `'`; decoding the five entities gives the input back |
| InitialScreen.ReplacementsPerChar | scripts/generate-initial-screen.tsx:22-29 | The chain of five replacements equals escaping each character on its own |
| InitialScreen.ReadmeEmbedsScreen | scripts/generate-initial-screen.tsx:31-33 | The README holds the screen verbatim in the text fence, and the closing fence starts its own line |
| InitialScreen.BuildDocsHtml | scripts/generate-initial-screen.tsx:35-54 | The page is the head ending in `<pre>`, the escaped screen, and the tail starting with `</pre>`; the part inside holds no `<` that could end the block, and decoding it gives the screen |

## Left out

- The model call, the streaming chunks, tool execution, `Date.now()`, `process.env`, `Bun.file`, `Bun.write`, `Bun.spawnSync`, the directory glob and `os.homedir()` are parameters. Their behaviour is not modelled.
- Asynchrony is not modelled. Generators, `await` and the interleaving of reactive updates become sequential steps in event order.
- The 2000 ms back-off before a rate-limit retry is not modelled; only the retry itself is.
- The `onToken` callback is never called by the loop and is not modelled.
- `AgentLoop.Iterate`: the model call and the tools are taken to throw `Error` objects, so a failure always carries a message string. In the source, a thrown `null` or `undefined` from `generateText` makes `error.message` itself throw inside the `catch` (src/agent/loop.ts:158-166), and no `error` event is emitted. Any other non-`Error` value yields an `error` event with `message: undefined`, whose `.includes` then throws. Either way the generator rejects without a `done`, so `LoopProperties.ExactlyOneDoneLast` covers only runs whose failures are `Error`s. A tool that throws a non-`Error` produces `error: undefined` (src/agent/loop.ts:119-128); the model always gives it a message.
- `simpleAgentCall` (src/agent/loop.ts:187-206) is a single model call with no loop logic and is not modelled.
- `JSON.stringify` is the parameter `stringify`.
- `Models.SortById`: `localeCompare` is modelled as character order with a stable insertion sort. Locale collation is not modelled.
- zod schemas become plain records and argument parsing is not modelled. Only the shell timeout default is kept: `Shell.RunShellTool` applies it to the model's raw arguments.
- `createAgentTool` and `defineTool` copy their argument and are not modelled separately.
- The global `toolRegistry` singleton is passed as an explicit `ToolRegistry`.
- `StatusTools.StatusToolsCommuteWithEvents`: the status tools change the panels directly. The loop's tool outcomes are an oracle, so those changes are not threaded through the loop model.
- Console capture (`addCapturedMessage`, `console.log` in `handleLoopEvent`) is a list of captured entries. The `[LoopEvent]` console line is not modelled.
- The unreachable `default` branch of `createProvider` is not modelled, because the provider type is a closed datatype.
- The vendor SDK model objects are the tagged values of `LanguageModel`.
- `stripAnsi` is not modelled. `NormalizeFrame` takes a frame whose escape sequences are already removed.
- The JavaScript `\s` class is written out as the ASCII white space and line terminators plus the Unicode space separators, NBSP, U+2028, U+2029 and U+FEFF. Unicode categories are not derived.
- `Session.GetDefaultSessionsDir`, `Session.SessionFilePath`: the exact resulting path is stated for clean directories only (absolute or relative, without empty, `.` or `..` segments and without a trailing '/'). `JoinPath` itself follows `path.join` for every input, and `JoinDropsDot` and `JoinResolvesParent` work through inputs with `.` and `..`.
- `mkdir` and the empty write of `createSessionFile` are I/O and are not modelled.
- `Session.NameOfIsoString` requires colon-free date and clock fields, as `toISOString` produces them. No fixed date is worked through.
- `Layout.GetOrientation`: `getOrientation` takes integer dimensions. Floating-point sizes are not modelled.
- `FileTools.Span`: line ranges are integer pairs. zod also accepts inner arrays of other lengths and non-integer numbers, and those are not modelled.
- `FileTools.ListDir`: whether `Bun.file(...).size` is defined for a name is an input (`sizeDefined`).
- `Commands.BuiltinKeysSeparate` states that no two built-ins share a key. Keys repeated within one command would be harmless and are not ruled out.
- The text of the `TypeError` thrown when an inherited `Object.prototype` member is called as a tool depends on the JavaScript engine, so it is the input `notCallable` of the `World`. The inherited names are the twelve members of `Object.prototype` that Bun provides.
- Strings are sequences of code points, while JavaScript `.length` and `localeCompare` work on UTF-16 code units. So `FileTools.ReadFile` (`size`, src/tools/file.ts:57), `FileTools.WriteFile` (`bytesWritten`, src/tools/file.ts:78) and the order of `Models.SortById` match the source only for text inside the Basic Multilingual Plane.
- The logger helpers of src/utils/harness-logger.ts other than `isHarnessFile` only format console entries and are not modelled.
- The rendering of the initial screen (`testRender`) and the file writes of the generator script are not modelled.

## Findings

| source | as written | input that shows it | evidently intended | confidence | as-written member | corrected member |
|---|---|---|---|---|---|---|
| src/tools/shell.ts:46-52 | The description tests the allowlist for truthiness, but the gate requires it to be non-empty. An empty list is described as "Allowed commands: " with nothing listed, while every command passes | `registerShellTool([])` | An empty allowlist is described like no allowlist: "Use with caution - can run any command." | not executed | Shell.EmptyAllowlistMisdescribed | Shell.DescriptionMatchesGate |
