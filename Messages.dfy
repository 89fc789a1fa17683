/** The two message vocabularies the connector translates between: the
    provider-agnostic conversation messages exchanged by agents, and the chat
    provider's own request, completion and streaming shapes. Every C# `null`
    the source tests for is an `Option`. */
module Messages {
  import opened Wrappers

  // ---------------------------------------------------------------------
  // Generic conversation messages
  // ---------------------------------------------------------------------

  /** The predefined roles of a text message. */
  datatype Role = System | User | Assistant | Function

  /** Inline image bytes with their optional media type. */
  datatype BinaryData = BinaryData(bytes: seq<bv8>, mediaType: Option<string>)

  /** One tool invocation; `result` is filled in once the tool has run. */
  datatype ToolCall = ToolCall(
    functionName: string,
    functionArguments: string,
    toolCallId: Option<string>,
    result: Option<string>)

  /** A request, authored by an agent, to invoke one or more tools. */
  datatype ToolCallMsg = ToolCallMsg(toolCalls: seq<ToolCall>, content: Option<string>, from: Option<string>)

  /** The results of tool invocations. */
  datatype ToolCallResultMsg = ToolCallResultMsg(toolCalls: seq<ToolCall>, from: Option<string>)

  /** The deprecated flat message type. */
  datatype LegacyMsg = LegacyMsg(
    role: Role,
    content: Option<string>,
    from: Option<string>,
    functionName: Option<string>,
    functionArguments: string)

  /** The message variants that reach the connector. */
  datatype IMessage =
    | TextMessage(role: Role, content: string, from: Option<string>)
    | ImageMessage(url: Option<string>, data: Option<BinaryData>, from: Option<string>)
    | MultiModalMessage(parts: seq<IMessage>, from: Option<string>)
    | ToolCallMessage(call: ToolCallMsg)
    | ToolCallResultMessage(result: ToolCallResultMsg)
      /** An aggregate of a tool call and its result, as one logical turn. */
    | AggregateMessage(call: ToolCallMsg, result: ToolCallResultMsg, from: Option<string>)
      /** An envelope around a provider request message (provider-native). */
    | ChatMessageEnvelope(chat: ChatMessage, from: Option<string>)
      /** An envelope around a provider completion (an agent's reply). */
    | CompletionEnvelope(completion: ChatCompletion, from: Option<string>)
      /** An envelope around one streaming update. */
    | UpdateEnvelope(update: StreamingUpdate, from: Option<string>)
    | LegacyMessage(legacy: LegacyMsg)
      /** Any other message type, known only by its type name. */
    | OtherMessage(typeName: string, from: Option<string>)
  {
    /** The author of the message. */
    function From(): Option<string> {
      match this
      case TextMessage(_, _, from) => from
      case ImageMessage(_, _, from) => from
      case MultiModalMessage(_, from) => from
      case ToolCallMessage(call) => call.from
      case ToolCallResultMessage(result) => result.from
      case AggregateMessage(_, _, from) => from
      case ChatMessageEnvelope(_, from) => from
      case CompletionEnvelope(_, from) => from
      case UpdateEnvelope(_, from) => from
      case LegacyMessage(legacy) => legacy.from
      case OtherMessage(_, from) => from
    }
  }

  // ---------------------------------------------------------------------
  // Provider shapes
  // ---------------------------------------------------------------------

  /** One part of a multi-part user message. */
  datatype ContentPart =
    | TextPart(text: string)
    | ImageUriPart(uri: string)
    | ImageDataPart(data: Option<BinaryData>, mediaType: Option<string>)

  /** A tool call as the provider records it on an assistant message. */
  datatype ChatToolCall = FunctionToolCall(id: string, functionName: string, functionArguments: string)

  /** The provider's legacy single function call. */
  datatype ChatFunctionCall = ChatFunctionCall(functionName: string, functionArguments: string)

  /** A provider request message. `UserChat` is the single-text user message,
      `UserPartsChat` the one built from content parts. `ToolChat` keeps the two
      strings in the order the source passes them. */
  datatype ChatMessage =
    | SystemChat(text: Option<string>, participant: Option<string>)
    | UserChat(text: Option<string>, participant: Option<string>)
    | UserPartsChat(parts: seq<ContentPart>, participant: Option<string>)
    | AssistantChat(
        text: Option<string>,
        participant: Option<string>,
        toolCalls: seq<ChatToolCall>,
        functionCall: Option<ChatFunctionCall>)
    | ToolChat(content: string, toolCallId: string)

  /** Why the provider stopped generating. */
  datatype FinishReason = Stop | ToolCalls | FunctionCall | Length | ContentFilter | OtherReason(code: string)

  /** A non-streaming completion; `content` holds the text of each content part. */
  datatype ChatCompletion = ChatCompletion(
    content: seq<string>,
    finishReason: FinishReason,
    toolCalls: seq<ChatToolCall>,
    functionCall: Option<ChatFunctionCall>)

  /** A fragment of a streamed legacy function call. */
  datatype FunctionCallUpdate = FunctionCallUpdate(functionName: Option<string>, argumentsUpdate: string)

  /** A fragment of a streamed tool call. */
  datatype ToolCallUpdate = ToolCallUpdate(functionName: Option<string>, argumentsUpdate: string)

  /** One incremental update of a streamed completion. */
  datatype StreamingUpdate = StreamingUpdate(
    functionCallUpdate: Option<FunctionCallUpdate>,
    toolCallUpdates: seq<ToolCallUpdate>)

  // ---------------------------------------------------------------------
  // Exceptions
  // ---------------------------------------------------------------------

  /** The exceptions the translation layer throws, one constructor per throw site. */
  datatype Error =
      /** InvalidOperationException: no dispatch arm matched in strict mode. */
    | InvalidMessageType
      /** InvalidOperationException: unattributed text message with a role other than user or assistant. */
    | InvalidRole
      /** ArgumentException: image message authored by the agent itself. */
    | SelfAuthoredImage
      /** ArgumentException: multi-modal message authored by the agent itself. */
    | SelfAuthoredMultiModal
      /** NotImplementedException: a multi-modal part that is neither text nor image. */
    | UnsupportedContentPart
      /** ArgumentException: tool-call message authored by another agent. */
    | CrossAgentToolCall
      /** InvalidOperationException: legacy message from self with nothing to send. */
    | InvalidMessageAsSelf
      /** InvalidOperationException: legacy message from another agent with nothing to send. */
    | InvalidMessageAsOther
      /** ArgumentOutOfRangeException: a completion without content parts. */
    | MissingContent
      /** NullReferenceException: finish reason FunctionCall without a function call. */
    | MissingFunctionCall
      /** InvalidOperationException: the completion was cut off by the length limit. */
    | LengthExceeded
      /** InvalidOperationException: the completion was withheld by the content filter. */
    | ContentFiltered
      /** InvalidOperationException: an unknown finish reason. */
    | InvalidChatResponse
      /** InvalidOperationException: a non-streaming reply that is not a completion, in strict mode. */
    | InvalidReturnType
      /** InvalidOperationException: a streamed reply that is not an update, in strict mode. */
    | InvalidStreamingType
      /** NotImplementedException: conversion of a streaming update. */
    | StreamingNotImplemented
      /** ArgumentException: the chat agent was given a message that is not a provider message. */
    | InvalidAgentMessageType
      /** InvalidOperationException: a function parameter without a name. */
    | NullParameterName
      /** ArgumentNullException: a function parameter without a type. */
    | NullParameterType
}
