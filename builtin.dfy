/**
 * The built-in slash commands of src/commands/builtin.ts and the context
 * they act on (src/commands/types.ts). The context's signals and callbacks
 * are fields of `CommandContext`: the chat messages, the captured console
 * entries, whether the session selector is open and whether exit was asked
 * for. The gateway's answer to a catalog request is the parameter `catalog`.
 */
module Builtins {
  import opened Common
  import opened AgentLoop
  import opened ProviderModel
  import opened Models
  import opened ChatTypes

  /** What a command's `execute` does. */
  datatype Action = ShowHelp | ClearHistory | ExitApp | ListModels | OpenSessions

  datatype Command = Command(name: string, aliases: seq<string>, description: string, action: Action)

  const HelpText :=
    "Available commands:\n" +
    "  /help     - Show this help message\n" +
    "  /sessions - View past session logs\n" +
    "  /models   - List available models for current provider\n" +
    "  /clear    - Clear the conversation history\n" +
    "  /exit     - Exit the application\n" +
    "  /quit     - Exit the application\n" +
    "  /q        - Exit the application\n" +
    "\n" +
    "Shortcuts:\n" +
    "  /h /s /m /c /e /ex /q"

  const HelpCommand := Command("/help", ["/h"], "Show available commands", ShowHelp)
  const ClearCommand := Command("/clear", ["/c"], "Clear conversation history", ClearHistory)
  const ExitCommand := Command("/exit", ["/quit", "/q", "/e", "/ex"], "Exit the application", ExitApp)
  const ModelsCommand := Command("/models", ["/m"], "List available models for current provider", ListModels)
  const SessionsCommand := Command("/sessions", ["/s"], "View past session logs", OpenSessions)

  /** The exported `builtinCommands` list. */
  const BuiltinCommands: seq<Command> := [HelpCommand, ClearCommand, ExitCommand, ModelsCommand, SessionsCommand]

  class CommandContext {
    var config: Option<Config>
    var messages: seq<TimestampedMessage>
    var captured: seq<CapturedMessage>
    var selectorOpen: bool
    var exitRequested: bool

    constructor (config: Option<Config>, messages: seq<TimestampedMessage>)
      ensures this.config == config && this.messages == messages
      ensures captured == [] && !selectorOpen && !exitRequested
    {
      this.config := config;
      this.messages := messages;
      captured := [];
      selectorOpen := false;
      exitRequested := false;
    }
  }

  /**
   * The user turn and assistant answer a command adds to the chat; each is
   * stamped by its own `new Date()`, read at `asked` and at `answered`.
   */
  function Exchange(command: string, answer: string, asked: int, answered: int): seq<TimestampedMessage> {
    [TimestampedMessage(UserRole, command, asked), TimestampedMessage(AssistantRole, answer, answered)]
  }

  const NoConfigLoaded := "No config loaded"
  const GatewayHint := "\nSet AI_GATEWAY_API_KEY to use /models."

  /**
   * The `/models` answer for a provider: the formatted listing, or the failure
   * with the gateway hint. It starts with "Error: " exactly when the listing failed.
   */
  function ModelsAnswer(provider: ProviderType, catalog: Result<seq<GatewayModel>, Thrown>): (answer: string)
    ensures "Error: " <= answer <==> ListAvailableModels(provider, catalog).Err?
    ensures ListAvailableModels(provider, catalog).Err? ==>
              |answer| >= |GatewayHint| && answer[|answer| - |GatewayHint|..] == GatewayHint
  {
    match ListAvailableModels(provider, catalog)
    case Ok(models) =>
      ListingIsNotError(provider, models);
      FormatAvailableModels(provider, models)
    case Err(t) =>
      ErrorAnswerShape(ThrownMessage(t, "Unknown models error"));
      "Error: " + ThrownMessage(t, "Unknown models error") + GatewayHint
  }

  /** The console entries `/models` adds after the fetch notice. */
  function ModelsFailureLog(provider: ProviderType, catalog: Result<seq<GatewayModel>, Thrown>): seq<CapturedMessage> {
    match ListAvailableModels(provider, catalog)
    case Ok(_) => []
    case Err(t) => [CapturedMessage(ErrorLevel, "Failed to fetch models: " + ThrownMessage(t, "Unknown models error"))]
  }

  /** `helpCommand.execute` */
  method ExecuteHelp(ctx: CommandContext, asked: int, answered: int)
    modifies ctx
    ensures ctx.messages == old(ctx.messages) + Exchange("/help", HelpText, asked, answered)
    ensures ctx.captured == old(ctx.captured) && ctx.selectorOpen == old(ctx.selectorOpen) && ctx.exitRequested == old(ctx.exitRequested)
    ensures ctx.config == old(ctx.config)
  {
    ctx.messages := ctx.messages + [TimestampedMessage(UserRole, "/help", asked), TimestampedMessage(AssistantRole, HelpText, answered)];
  }

  /** `clearCommand.execute`: both the chat and the captured console are emptied. */
  method ExecuteClear(ctx: CommandContext)
    modifies ctx
    ensures ctx.messages == [] && ctx.captured == []
    ensures ctx.selectorOpen == old(ctx.selectorOpen) && ctx.exitRequested == old(ctx.exitRequested)
    ensures ctx.config == old(ctx.config)
  {
    ctx.messages := [];
    ctx.captured := [];
  }

  /** `exitCommand.execute` */
  method ExecuteExit(ctx: CommandContext)
    modifies ctx
    ensures ctx.exitRequested
    ensures ctx.messages == old(ctx.messages) && ctx.captured == old(ctx.captured) && ctx.selectorOpen == old(ctx.selectorOpen)
    ensures ctx.config == old(ctx.config)
  {
    ctx.exitRequested := true;
  }

  /** `sessionsCommand.execute` */
  method ExecuteSessions(ctx: CommandContext)
    modifies ctx
    ensures ctx.selectorOpen
    ensures ctx.messages == old(ctx.messages) && ctx.captured == old(ctx.captured) && ctx.exitRequested == old(ctx.exitRequested)
    ensures ctx.config == old(ctx.config)
  {
    ctx.selectorOpen := true;
  }

  /** `modelsCommand.execute` */
  method ExecuteModels(ctx: CommandContext, asked: int, answered: int, catalog: Result<seq<GatewayModel>, Thrown>)
    modifies ctx
    ensures ctx.config.None? ==>
              ctx.captured == old(ctx.captured) + [CapturedMessage(ErrorLevel, NoConfigLoaded)] &&
              ctx.messages == old(ctx.messages)
    ensures ctx.config.Some? ==>
              var p := ctx.config.value.model.provider;
              ctx.captured == old(ctx.captured) + [CapturedMessage(LogLevel, "Fetching models for provider " + ProviderName(p))]
                                                + ModelsFailureLog(p, catalog) &&
              ctx.messages == old(ctx.messages) + Exchange("/models", ModelsAnswer(p, catalog), asked, answered)
    ensures ctx.config == old(ctx.config) && ctx.selectorOpen == old(ctx.selectorOpen) && ctx.exitRequested == old(ctx.exitRequested)
  {
    var activeConfig := ctx.config;
    if activeConfig.None? {
      ctx.captured := ctx.captured + [CapturedMessage(ErrorLevel, NoConfigLoaded)];
      return;
    }
    var provider := activeConfig.value.model.provider;
    ctx.captured := ctx.captured + [CapturedMessage(LogLevel, "Fetching models for provider " + ProviderName(provider))];
    var listed := ListAvailableModels(provider, catalog);
    match listed {
      case Ok(models) =>
        ctx.messages := ctx.messages + [TimestampedMessage(UserRole, "/models", asked),
                                        TimestampedMessage(AssistantRole, FormatAvailableModels(provider, models), answered)];
      case Err(error) =>
        var message := ThrownMessage(error, "Unknown models error");
        ctx.captured := ctx.captured + [CapturedMessage(ErrorLevel, "Failed to fetch models: " + message)];
        ctx.messages := ctx.messages + [TimestampedMessage(UserRole, "/models", asked),
                                        TimestampedMessage(AssistantRole, "Error: " + message + GatewayHint, answered)];
    }
  }

  /** `command.execute(ctx)` */
  method Execute(command: Command, ctx: CommandContext, asked: int, answered: int, catalog: Result<seq<GatewayModel>, Thrown>)
    modifies ctx
    ensures ctx.exitRequested == (old(ctx.exitRequested) || command.action == ExitApp)
    ensures ctx.selectorOpen == (old(ctx.selectorOpen) || command.action == OpenSessions)
    ensures command.action in {ShowHelp, ListModels} ==> |ctx.messages| >= |old(ctx.messages)| && ctx.messages[..|old(ctx.messages)|] == old(ctx.messages)
    ensures command.action == ClearHistory ==> ctx.messages == [] && ctx.captured == []
    ensures command.action in {ExitApp, OpenSessions} ==> ctx.messages == old(ctx.messages) && ctx.captured == old(ctx.captured)
    ensures ctx.config == old(ctx.config)
  {
    match command.action {
      case ShowHelp => ExecuteHelp(ctx, asked, answered);
      case ClearHistory => ExecuteClear(ctx);
      case ExitApp => ExecuteExit(ctx);
      case ListModels => ExecuteModels(ctx, asked, answered, catalog);
      case OpenSessions => ExecuteSessions(ctx);
    }
  }

  // ---------------------------------------------------------------- properties

  /** For a gateway-backed provider the answer starts with "Error: " exactly when the gateway request failed. */
  lemma ModelsAnswerReportsFailure(provider: ProviderType, catalog: Result<seq<GatewayModel>, Thrown>)
    requires provider != Custom
    ensures var answer := ModelsAnswer(provider, catalog);
            ("Error: " <= answer <==> catalog.Err?) &&
            (catalog.Err? ==> |answer| >= |GatewayHint| && answer[|answer| - |GatewayHint|..] == GatewayHint) &&
            (ModelsFailureLog(provider, catalog) != [] <==> catalog.Err?)
  {
  }

  lemma ListingIsNotError(provider: ProviderType, models: seq<AvailableModel>)
    ensures !("Error: " <= FormatAvailableModels(provider, models))
  {
    var listing := FormatAvailableModels(provider, models);
    assert listing[0] == 'A' || listing[0] == 'N';
  }

  lemma ErrorAnswerShape(message: string)
    ensures var answer := "Error: " + message + GatewayHint;
            "Error: " <= answer && answer[|answer| - |GatewayHint|..] == GatewayHint
  {
  }

  /** The custom provider's answer never depends on the gateway and never reports a failure. */
  lemma CustomModelsAnswer(catalog: Result<seq<GatewayModel>, Thrown>)
    ensures ModelsAnswer(Custom, catalog) == "No models found for custom in AI Gateway catalog."
    ensures ModelsFailureLog(Custom, catalog) == []
  {
    assert ListAvailableModels(Custom, catalog) == Ok([]);
    assert ProviderName(Custom) == "custom";
    assert "No models found for " + "custom" + " in AI Gateway catalog." == "No models found for custom in AI Gateway catalog.";
  }

  /** A thrown value that is not an `Error` is reported as "Unknown models error". */
  lemma NonErrorThrowReported(provider: ProviderType)
    requires provider != Custom
    ensures ModelsAnswer(provider, Err(OtherValue)) == "Error: Unknown models error" + GatewayHint
  {
    assert ThrownMessage(OtherValue, "Unknown models error") == "Unknown models error";
    assert "Error: " + "Unknown models error" == "Error: Unknown models error";
  }
}
