/**
 * The chat hook of src/hooks/useChat.ts. A `ChatSession` holds the message
 * list, the streaming flag and the captured console entries the hook writes.
 * `sendMessage` adds the user's message and an empty assistant placeholder,
 * streams the model's reply into the placeholder, and on failure replaces
 * the placeholder with the error. The streamed reply for a request is the
 * oracle `reply`; the three `new Date()` readings (the user message, the
 * placeholder, the error that replaces it) are `userNow`, `placeholderNow`
 * and `errorNow`; the process environment is `env`.
 */
module Chat {
  import opened Common
  import opened AgentLoop
  import opened ProviderModel
  import opened ChatTypes

  /** What `streamChat` does for one request: the chunks it yields, then either ends or throws. */
  datatype Stream = Stream(chunks: seq<string>, failure: Option<Thrown>)

  const ContextSeparator := "\n\n---\n\nUser request: "
  const EmptyResponseWarning := "Model returned an empty response."
  const RequestCompleted := "Request completed."

  /** The user message content: the context, when non-empty, goes in front of the request. */
  function UserContent(content: string, contextContent: string): (u: string)
    ensures contextContent == "" ==> u == content
    ensures contextContent != "" ==> |u| == |contextContent| + |ContextSeparator| + |content|
    ensures contextContent != "" ==> contextContent <= u && u[|u| - |content|..] == content
    ensures contextContent != "" ==> u[|contextContent|..|u| - |content|] == ContextSeparator
  {
    if contextContent != "" then contextContent + ContextSeparator + content else content
  }

  /** The request `streamChat` sends: the system prompt when non-empty, the earlier messages, the new user message. */
  function Request(history: seq<TimestampedMessage>, user: TimestampedMessage, config: Config): seq<Message> {
    StreamChatMessages(ToModelMessages(history + [user]), config.agent.systemPrompt)
  }

  /** The text a successful stream leaves in the placeholder. */
  function ReplyText(chunks: seq<string>): string {
    Flatten(chunks)
  }

  predicate HasText(chunks: seq<string>) {
    exists i :: 0 <= i < |chunks| && chunks[i] != ""
  }

  /** How the exchange ends: the streamed text, or the message of what was thrown. */
  function Outcome(config: Config, env: map<string, string>, request: seq<Message>,
                   reply: seq<Message> -> Stream): Result<seq<string>, string>
  {
    match CreateProvider(config.model, env)
    case Err(e) => Err(e)
    case Ok(_) =>
      var s := reply(request);
      if s.failure.Some? then Err(ThrownMessage(s.failure.value, "Unknown streaming error"))
      else Ok(s.chunks)
  }

  function AssistantContent(outcome: Result<seq<string>, string>): string {
    match outcome
    case Ok(chunks) => ReplyText(chunks)
    case Err(m) => "Error: " + m
  }

  /** The entry logged when a request starts: the provider and the model. */
  function StartedLog(config: Config): CapturedMessage {
    CapturedMessage(LogLevel, "Request started with " + ProviderName(config.model.provider) + ":" + config.model.name)
  }

  function ClosingLogs(outcome: Result<seq<string>, string>): seq<CapturedMessage> {
    match outcome
    case Ok(chunks) =>
      (if HasText(chunks) then [] else [CapturedMessage(WarnLevel, EmptyResponseWarning)])
      + [CapturedMessage(LogLevel, RequestCompleted)]
    case Err(m) => [CapturedMessage(ErrorLevel, "Request failed: " + m)]
  }

  /**
   * The state updater run for one non-empty chunk: the chunk is appended to the
   * last message when that message is the assistant's; an empty list, or a list
   * ending in another role's message, is left as it is.
   */
  function ChunkUpdate(prev: seq<TimestampedMessage>, chunk: string): (next: seq<TimestampedMessage>)
    ensures |next| == |prev|
    ensures forall i :: 0 <= i < |prev| - 1 ==> next[i] == prev[i]
    ensures prev == [] ==> next == []
    ensures |prev| > 0 && prev[|prev| - 1].role != AssistantRole ==> next == prev
    ensures |prev| > 0 && prev[|prev| - 1].role == AssistantRole ==>
              next[|prev| - 1] == prev[|prev| - 1].(content := prev[|prev| - 1].content + chunk)
  {
    if |prev| == 0 then prev
    else
      var last := prev[|prev| - 1];
      if last.role == AssistantRole then prev[|prev| - 1 := last.(content := last.content + chunk)] else prev
  }

  /**
   * The state updater run on failure: the last message, whatever it is, becomes
   * the assistant's error message; an empty list is left as it is.
   */
  function ErrorUpdate(prev: seq<TimestampedMessage>, message: string, now: int): (next: seq<TimestampedMessage>)
    ensures |next| == |prev|
    ensures forall i :: 0 <= i < |prev| - 1 ==> next[i] == prev[i]
    ensures prev == [] ==> next == []
    ensures |prev| > 0 ==> next[|prev| - 1] == TimestampedMessage(AssistantRole, "Error: " + message, now)
  {
    if |prev| == 0 then prev
    else prev[|prev| - 1 := TimestampedMessage(AssistantRole, "Error: " + message, now)]
  }

  /** The messages after the stream's chunks were applied in order; empty chunks are skipped. */
  function ChunksApplied(prev: seq<TimestampedMessage>, chunks: seq<string>): (next: seq<TimestampedMessage>)
    ensures |next| == |prev|
    ensures forall i :: 0 <= i < |prev| - 1 ==> next[i] == prev[i]
    decreases |chunks|
  {
    if chunks == [] then prev
    else
      var before := ChunksApplied(prev, chunks[..|chunks| - 1]);
      if chunks[|chunks| - 1] != "" then ChunkUpdate(before, chunks[|chunks| - 1]) else before
  }

  /** The empty assistant message `sendMessage` adds before streaming. */
  function Placeholder(now: int): TimestampedMessage {
    TimestampedMessage(AssistantRole, "", now)
  }

  class ChatSession {
    var messages: seq<TimestampedMessage>
    var isStreaming: bool
    var captured: seq<CapturedMessage>

    constructor ()
      ensures messages == [] && !isStreaming && captured == []
    {
      messages, isStreaming, captured := [], false, [];
    }

    /** `sendMessage` */
    method SendMessage(content: string, config: Config, contextContent: string,
                       env: map<string, string>, reply: seq<Message> -> Stream,
                       userNow: int, placeholderNow: int, errorNow: int)
      modifies this
      ensures !isStreaming
      ensures var user := TimestampedMessage(UserRole, UserContent(content, contextContent), userNow);
              var outcome := Outcome(config, env, Request(old(messages), user, config), reply);
              var answered := if outcome.Err? then errorNow else placeholderNow;
              && messages == old(messages) + [user, TimestampedMessage(AssistantRole, AssistantContent(outcome), answered)]
              && captured == old(captured)
                             + [StartedLog(config)]
                             + ClosingLogs(outcome)
    {
      var user := TimestampedMessage(UserRole, UserContent(content, contextContent), userNow);
      var conversation := ToModelMessages(messages + [user]);
      ghost var base := messages;
      messages := messages + [user, Placeholder(placeholderNow)];
      isStreaming := true;
      captured := captured + [StartedLog(config)];

      ghost var outcome := Outcome(config, env, Request(base, user, config), reply);
      var failure: Option<string> := None;
      var hasResponseText := false;
      match CreateProvider(config.model, env) {
        case Err(e) =>
          failure := Some(e);
        case Ok(_) =>
          var s := reply(StreamChatMessages(conversation, config.agent.systemPrompt));
          assert s == reply(Request(base, user, config));
          hasResponseText := StreamInto(s.chunks);
          ChunksFillPlaceholder(base, user, placeholderNow, s.chunks);
          if s.failure.Some? {
            failure := Some(ThrownMessage(s.failure.value, "Unknown streaming error"));
          }
      }
      ghost var streamed := messages;
      assert |streamed| == |base| + 2 && streamed[..|base| + 1] == base + [user] by {
        if CreateProvider(config.model, env).Ok? {
          assert streamed == base + [user, TimestampedMessage(AssistantRole, ReplyText(reply(Request(base, user, config)).chunks), placeholderNow)];
        }
      }
      Settle(failure, hasResponseText, errorNow, outcome);
      if outcome.Err? {
        assert messages == base + [user, TimestampedMessage(AssistantRole, AssistantContent(outcome), errorNow)];
      }
      isStreaming := false;
    }

    /**
     * The end of the exchange: after a clean stream the empty-reply warning
     * and the completion entry; after a failure the failure entry, and the
     * placeholder replaced by the error. `outcome` is how the exchange ended.
     */
    method Settle(failure: Option<string>, hasResponseText: bool, now: int, ghost outcome: Result<seq<string>, string>)
      requires failure.Some? <==> outcome.Err?
      requires failure.Some? ==> failure.value == outcome.error
      requires outcome.Ok? ==> (hasResponseText <==> HasText(outcome.value))
      modifies this
      ensures captured == old(captured) + ClosingLogs(outcome)
      ensures outcome.Ok? ==> messages == old(messages)
      ensures outcome.Err? ==> messages == ErrorUpdate(old(messages), outcome.error, now)
      ensures isStreaming == old(isStreaming)
    {
      if failure.Some? {
        captured := captured + [CapturedMessage(ErrorLevel, "Request failed: " + failure.value)];
        if |messages| > 0 {
          messages := messages[|messages| - 1 := TimestampedMessage(AssistantRole, "Error: " + failure.value, now)];
        }
      } else {
        if !hasResponseText {
          captured := captured + [CapturedMessage(WarnLevel, EmptyResponseWarning)];
        }
        captured := captured + [CapturedMessage(LogLevel, RequestCompleted)];
      }
    }

    /** The `for await` over the stream: each non-empty chunk is appended to the last message when it is the assistant's. */
    method StreamInto(chunks: seq<string>) returns (hasResponseText: bool)
      modifies this
      ensures messages == ChunksApplied(old(messages), chunks)
      ensures hasResponseText <==> HasText(chunks)
      ensures captured == old(captured) && isStreaming == old(isStreaming)
    {
      hasResponseText := false;
      var i := 0;
      while i < |chunks|
        invariant 0 <= i <= |chunks|
        invariant messages == ChunksApplied(old(messages), chunks[..i])
        invariant hasResponseText <==> HasText(chunks[..i])
        invariant captured == old(captured) && isStreaming == old(isStreaming)
      {
        assert chunks[..i + 1][..i] == chunks[..i];
        if chunks[i] != "" {
          hasResponseText := true;
          if |messages| > 0 {
            var last := messages[|messages| - 1];
            if last.role == AssistantRole {
              messages := messages[|messages| - 1 := last.(content := last.content + chunks[i])];
            }
          }
        }
        assert HasText(chunks[..i + 1]) <==> HasText(chunks[..i]) || chunks[i] != "" by {
          assert chunks[..i + 1][i] == chunks[i];
          assert forall k :: 0 <= k < i ==> chunks[..i + 1][k] == chunks[..i][k];
        }
        i := i + 1;
      }
      assert chunks[..|chunks|] == chunks;
    }

    /** `clearMessages` */
    method ClearMessages()
      modifies this
      ensures messages == [] && isStreaming == old(isStreaming) && captured == old(captured)
    {
      messages := [];
    }
  }

  lemma {:induction false} FlattenSnoc(parts: seq<string>, p: string)
    ensures Flatten(parts + [p]) == Flatten(parts) + p
    decreases |parts|
  {
    if parts == [] {
      assert [] + [p] == [p];
    } else {
      assert (parts + [p])[1..] == parts[1..] + [p];
      FlattenSnoc(parts[1..], p);
    }
  }

  // ---------------------------------------------------------------- properties

  /** Streamed into the fresh placeholder, the chunks leave exactly their concatenation in it. */
  lemma {:induction false} ChunksFillPlaceholder(base: seq<TimestampedMessage>, user: TimestampedMessage, now: int, chunks: seq<string>)
    ensures ChunksApplied(base + [user, Placeholder(now)], chunks)
            == base + [user, TimestampedMessage(AssistantRole, ReplyText(chunks), now)]
    decreases |chunks|
  {
    if chunks != [] {
      var init := chunks[..|chunks| - 1];
      var c := chunks[|chunks| - 1];
      ChunksFillPlaceholder(base, user, now, init);
      FlattenSnoc(init, c);
      assert init + [c] == chunks;
      if c == "" {
        assert ReplyText(init) + c == ReplyText(init);
      }
    }
  }

  /** A list ending in a message that is not the assistant's is never changed by the stream. */
  lemma {:induction false} ChunksSkipNonAssistant(prev: seq<TimestampedMessage>, chunks: seq<string>)
    requires |prev| > 0 && prev[|prev| - 1].role != AssistantRole
    ensures ChunksApplied(prev, chunks) == prev
    decreases |chunks|
  {
    if chunks != [] {
      ChunksSkipNonAssistant(prev, chunks[..|chunks| - 1]);
    }
  }

  /** An empty message list stays empty through the stream and through the failure update. */
  lemma {:induction false} EmptyListUntouched(chunks: seq<string>, message: string, now: int)
    ensures ChunksApplied([], chunks) == []
    ensures ErrorUpdate([], message, now) == []
    decreases |chunks|
  {
    if chunks != [] {
      EmptyListUntouched(chunks[..|chunks| - 1], message, now);
    }
  }

  /** The reply is empty exactly when no chunk had text, so the empty-response warning is logged exactly for an empty reply. */
  lemma {:induction false} EmptyWarningIffEmptyReply(chunks: seq<string>)
    ensures ReplyText(chunks) == "" <==> !HasText(chunks)
    decreases |chunks|
  {
    if chunks != [] {
      EmptyWarningIffEmptyReply(chunks[1..]);
      if chunks[0] == "" {
        forall i | 0 <= i < |chunks[1..]| && chunks[1..][i] != "" ensures HasText(chunks) {
          assert chunks[i + 1] != "";
        }
        if HasText(chunks) {
          var i :| 0 <= i < |chunks| && chunks[i] != "";
          assert chunks[1..][i - 1] != "";
        }
      }
    }
  }

  /** The model sees the earlier conversation and the new user message, never the empty placeholder. */
  lemma RequestShape(history: seq<TimestampedMessage>, user: TimestampedMessage, config: Config)
    ensures var r := Request(history, user, config);
            var sys := if config.agent.systemPrompt.Some? && config.agent.systemPrompt.value != "" then 1 else 0;
            |r| == sys + |history| + 1 &&
            Last(r) == Message(user.role, Text(user.content)) &&
            forall i :: 0 <= i < |history| ==> r[sys + i] == Message(history[i].role, Text(history[i].content))
  {
    var all := ToModelMessages(history + [user]);
    var r := Request(history, user, config);
    assert r[|r| - |all|..] == all;
    forall i | 0 <= i < |history|
      ensures r[|r| - |all| + i] == Message(history[i].role, Text(history[i].content))
    {
      assert r[|r| - |all|..][i] == all[i];
      assert (history + [user])[i] == history[i];
    }
    assert r[|r| - |all|..][|all| - 1] == all[|all| - 1];
  }

  /** A failure before or during streaming discards any partial reply: the placeholder holds only the error. */
  lemma FailureDiscardsPartialReply(config: Config, env: map<string, string>, request: seq<Message>,
                                    reply: seq<Message> -> Stream, message: string)
    requires CreateProvider(config.model, env).Ok?
    requires reply(request).failure == Some(ErrorObject(message))
    ensures AssistantContent(Outcome(config, env, request, reply)) == "Error: " + message
    ensures ClosingLogs(Outcome(config, env, request, reply)) == [CapturedMessage(ErrorLevel, "Request failed: " + message)]
  {
  }

  /** A provider that cannot be created (say, no API key) ends the exchange with that error and no request is streamed. */
  lemma ProviderErrorNeverStreams(config: Config, env: map<string, string>, request: seq<Message>,
                                  reply1: seq<Message> -> Stream, reply2: seq<Message> -> Stream)
    requires CreateProvider(config.model, env).Err?
    ensures Outcome(config, env, request, reply1) == Outcome(config, env, request, reply2)
            == Err(CreateProvider(config.model, env).error)
  {
  }
}
