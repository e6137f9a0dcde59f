/**
 * Value types shared by the chat hook and the slash commands: chat messages
 * with their timestamp (src/types.ts), console-capture entries and the
 * parts of the loaded configuration they read (src/config/schema.ts).
 */
module ChatTypes {
  import opened Common
  import opened AgentLoop
  import opened ProviderModel

  /** `TimestampedMessage`: a text message with the time it was created. */
  datatype TimestampedMessage = TimestampedMessage(role: Role, content: string, timestamp: int)

  datatype LogLevel = LogLevel | WarnLevel | ErrorLevel

  /** An entry of the captured console panel. */
  datatype CapturedMessage = CapturedMessage(level: LogLevel, message: string)

  /** The `agent` section of the configuration. */
  datatype AgentSettings = AgentSettings(maxIterations: int, systemPrompt: Option<string>)

  /** The configuration fields the chat and the commands use. */
  datatype Config = Config(model: ModelConfig, agent: AgentSettings)

  /** `toModelMessages`: drop the timestamps. */
  function ToModelMessages(ms: seq<TimestampedMessage>): (r: seq<Message>)
    ensures |r| == |ms|
    ensures forall i :: 0 <= i < |ms| ==> r[i] == Message(ms[i].role, Text(ms[i].content))
  {
    if ms == [] then [] else [Message(ms[0].role, Text(ms[0].content))] + ToModelMessages(ms[1..])
  }
}
