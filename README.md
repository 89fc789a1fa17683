# AutoGen .NET OpenAI message translation, modelled in Dafny

This project models the layer of the AutoGen .NET OpenAI integration that converts
between AutoGen's generic conversation messages and the OpenAI chat SDK's message shapes:

- **Outbound normaliser.** `OpenAIChatRequestMessageConnector.ProcessIncomingMessages`
  turns each conversation message into zero or more provider request messages. It
  dispatches on the message kind (text, image, multi-modal, tool call, tool-call result,
  aggregate of call and result, provider-native envelope, deprecated flat `Message`).
  The outcome depends on the author compared with the agent's name and on the
  connector's strict mode.
- **Inbound normaliser.** `PostProcessMessage` and `PostProcessChatResponseMessage`
  turn a chat completion back into a text or tool-call message according to its
  finish reason.
- **Streaming loop.** It tracks the name of the tool being streamed, and in strict
  mode it rejects replies that are not updates. As written, every update with a call
  part overwrites that name, also with a null one (`ToolNameStepAsWritten`); the loops
  of the model use the corrected update, in which a part without a name keeps the
  current name (`ToolNameStep`, see "## Findings").
- **Chat agent.** `OpenAIChatAgent` prepends its system message when the conversation
  has none. It also builds the completion settings for a call: the configured tools and
  stop sequences, followed by the per-call functions and stop sequences.
- **Function contracts.** `FunctionContractExtension.ToOpenAIFunctionDefinition` turns
  a function contract into a JSON-schema object. The object has a name-keyed properties
  map and an ordered `required` list.

Layout:

| file | role |
|---|---|
| `Wrappers.dfy` | `Option` and `Result` (the latter models a thrown exception) |
| `Messages.dfy` | the generic and provider message datatypes, and one `Error` constructor per throw site |
| `ToolCallIds.dfy` | decimal rendering of positions and the fallback id `FunctionName_i`, with injectivity |
| `Connector.dfy` | the outbound and inbound normalisers (pure functions over the message variants) |
| `Streaming.dfy` | the streaming tool-name state, the reply loop, and the tool-name finding below |
| `FunctionContracts.dfy` | the parameter loop of `ToOpenAIFunctionDefinition` and its specification |
| `ChatAgent.dfy` | the agent and settings classes, system-message injection, and the settings merge |

Modelling choices:

- A C# `null` is `None`.
- The connector's `strictMode` field is a `strict` parameter.
- The agent is known to the connector only by its name.
- Lazily evaluated LINQ pipelines are modelled as fully enumerated (their consumer
  enumerates them). An exception raised by any element therefore fails the whole call,
  with the first element's error.
- The imperative parts are methods proved against the pure functions: the tool-call
  `foreach`, the streaming loop, the parameter loop, and the settings mutations.
- The JSON clone of the agent's configured options is modelled as a copy of their
  scalar settings with empty tool and stop-sequence lists. The source re-adds the
  configured tools and stop sequences explicitly right after the clone, and this copy
  is the reading that makes sense of that.

## Model

| member | source | states |
|---|---|---|
| Connector.ProcessTextMessage | dotnet/src/AutoGen.OpenAI/Middleware/OpenAIChatRequestMessageConnector.cs:259-280 | Fails with an invalid-role error exactly when the role is not System, the author is null, and the role is neither User nor Assistant. Otherwise there is exactly one message: System for role System only; assistant when from the agent, or unattributed with role Assistant; user for any other author or unattributed User; it carries the content and is tagged as the source tags it |
| Connector.ImageContentPart | dotnet/src/AutoGen.OpenAI/Middleware/OpenAIChatRequestMessageConnector.cs:312-317 | The part is a URI part exactly when data is null and the URL is not; otherwise it is a data part with the data and its media type |
| Connector.ProcessImageMessage | dotnet/src/AutoGen.OpenAI/Middleware/OpenAIChatRequestMessageConnector.cs:282-292 | Fails exactly when the image is the agent's own; otherwise one user message with the single image part, tagged with the author |
| Connector.ContentParts | dotnet/src/AutoGen.OpenAI/Middleware/OpenAIChatRequestMessageConnector.cs:302-307 | Succeeds exactly when every part is text or image; it then has the same length, with each part translated in place |
| Connector.ProcessMultiModalMessage | dotnet/src/AutoGen.OpenAI/Middleware/OpenAIChatRequestMessageConnector.cs:294-310 | Self-authored input fails; otherwise succeeds exactly when all parts are supported, and otherwise fails with the unsupported-part error; on success one user message tagged with the author whose parts are the input parts in order |
| Connector.ChatToolCalls | dotnet/src/AutoGen.OpenAI/Middleware/OpenAIChatRequestMessageConnector.cs:326-328 | One provider call per input call, at the same position, with the call's own id or the fallback for that position |
| Connector.ProcessToolCallMessage | dotnet/src/AutoGen.OpenAI/Middleware/OpenAIChatRequestMessageConnector.cs:319-338 | Fails exactly when another agent is the author; otherwise one assistant message with text content-or-"" and the author as participant. Its tool calls keep the input's count, order, names and arguments, each with its own id or `FunctionName_i` |
| Connector.BuildToolCallMessage | dotnet/src/AutoGen.OpenAI/Middleware/OpenAIChatRequestMessageConnector.cs:326-337 | The loop that appends tool calls to the assistant message one at a time produces exactly the translation above |
| Connector.FallbackIdsDistinct | dotnet/src/AutoGen.OpenAI/Middleware/OpenAIChatRequestMessageConnector.cs:327 | Two calls of one message without their own ids are sent with different ids |
| Connector.WithResults | dotnet/src/AutoGen.OpenAI/Middleware/OpenAIChatRequestMessageConnector.cs:343 | The filtered entries all carry a result and are no more than the input |
| Connector.WithResultsMembers | dotnet/src/AutoGen.OpenAI/Middleware/OpenAIChatRequestMessageConnector.cs:343 | An entry survives the filter exactly when it is in the input and has a non-null result |
| Connector.WithResultsAppend | dotnet/src/AutoGen.OpenAI/Middleware/OpenAIChatRequestMessageConnector.cs:343 | The filter distributes over concatenation, so it keeps input order |
| Connector.ProcessToolCallResultMessage | dotnet/src/AutoGen.OpenAI/Middleware/OpenAIChatRequestMessageConnector.cs:340-345 | One tool message per surviving entry, in order, with its result, and its id or the fallback at its position among the survivors |
| Connector.ToolResultsForwarded | dotnet/src/AutoGen.OpenAI/Middleware/OpenAIChatRequestMessageConnector.cs:342-344 | Every entry with a result and an id is forwarded with that id, and every forwarded message carries some input entry's result |
| Connector.FallbackPositionCountsSurvivors | dotnet/src/AutoGen.OpenAI/Middleware/OpenAIChatRequestMessageConnector.cs:343-344 | A call whose only predecessor has no result is sent with id `g_0`: the position counts survivors only |
| Connector.ProcessFunctionCallMiddlewareMessage | dotnet/src/AutoGen.OpenAI/Middleware/OpenAIChatRequestMessageConnector.cs:360-379 | From another author: one user message per result, unfiltered, tagged with the aggregate's author. Otherwise: fails exactly when the call part is another agent's, with the cross-agent error; on success, the tool-call translation followed by the result translation |
| Connector.ProcessIncomingMessagesForSelf | dotnet/src/AutoGen.OpenAI/Middleware/OpenAIChatRequestMessageConnector.cs:198-231 | Per branch: System gives an unattributed system message with the content; non-empty text gives an unattributed assistant message with it, or a tool message of the text and the function name when one is named; a function name without text gives an assistant message with no text carrying the function call (name, arguments); neither fails with the as-self error |
| Connector.ProcessIncomingMessagesForOther | dotnet/src/AutoGen.OpenAI/Middleware/OpenAIChatRequestMessageConnector.cs:234-257 | Per branch: System gives a system message with the content tagged with the author; text with a function name gives the tool message; other text a user message tagged with the author; a function name without text the user message "// Message type is not supported" tagged with the author; neither fails with the as-other error |
| Connector.ProcessMessage | dotnet/src/AutoGen.OpenAI/Middleware/OpenAIChatRequestMessageConnector.cs:346-358 | A known author other than the agent selects the other-agent translation, any other the own translation; fails exactly when there is neither system role, text nor function name; one message on success, never an assistant message for another agent's |
| Connector.LegacyPerspectivesAgree | dotnet/src/AutoGen.OpenAI/Middleware/OpenAIChatRequestMessageConnector.cs:198-257 | Both perspectives fail on the same messages, send the same system text and the same tool message, and where the agent's own text becomes an assistant message another's becomes a user message with the same text tagged with its author |
| Connector.Translate | dotnet/src/AutoGen.OpenAI/Middleware/OpenAIChatRequestMessageConnector.cs:170-183 | An input failing every guard of the switch gets the default arm (nothing when lenient, the invalid-type error when strict); in strict mode that error arises exactly for such inputs, since no other arm raises it; every other input gets the translation of its arm |
| Connector.FallThroughFollowsMode | dotnet/src/AutoGen.OpenAI/Middleware/OpenAIChatRequestMessageConnector.cs:170-183 | Inputs failing every guard (own media, another agent's tool call, unknown kinds) give the strict-mode error or nothing. The self-authored-media errors of the individual translations are unreachable |
| Connector.Wrap | dotnet/src/AutoGen.OpenAI/Middleware/OpenAIChatRequestMessageConnector.cs:187 | Each provider message is wrapped, in place, in an envelope tagged with the original message's author |
| Connector.WrapAppend | dotnet/src/AutoGen.OpenAI/Middleware/OpenAIChatRequestMessageConnector.cs:187 | Wrapping distributes over concatenation |
| Connector.ProcessIncomingMessage | dotnet/src/AutoGen.OpenAI/Middleware/OpenAIChatRequestMessageConnector.cs:163-193 | A native envelope gives exactly itself. Otherwise it fails exactly when its translation fails; on success it is either the original alone (exactly when the translation is empty) or all of the translation's messages, in order, each wrapped in an envelope tagged with its author |
| Connector.Flatten | dotnet/src/AutoGen.OpenAI/Middleware/OpenAIChatRequestMessageConnector.cs:162 | The concatenation succeeds exactly when every output does, and fails with the first failing output's error |
| Connector.FlattenAppend | dotnet/src/AutoGen.OpenAI/Middleware/OpenAIChatRequestMessageConnector.cs:162 | Flattening distributes over concatenation |
| Connector.FlattenLength | dotnet/src/AutoGen.OpenAI/Middleware/OpenAIChatRequestMessageConnector.cs:185-192 | Outputs that are each non-empty flatten to at least one message each |
| Connector.ProcessIncomingMessages | dotnet/src/AutoGen.OpenAI/Middleware/OpenAIChatRequestMessageConnector.cs:160-195 | Succeeds exactly when every message does, fails with the first failing message's error, and never shortens the conversation |
| Connector.ProcessIncomingMessagesCons | dotnet/src/AutoGen.OpenAI/Middleware/OpenAIChatRequestMessageConnector.cs:162 | A conversation's output is its first message's output followed by the rest's |
| Connector.ProcessIncomingMessagesAppend | dotnet/src/AutoGen.OpenAI/Middleware/OpenAIChatRequestMessageConnector.cs:160-195 | Normalising a concatenation concatenates the two normalisations |
| Connector.NativeMessagesPassThrough | dotnet/src/AutoGen.OpenAI/Middleware/OpenAIChatRequestMessageConnector.cs:164-167 | A conversation of native envelopes passes through unchanged |
| Connector.OneMessageOutputIsFixed | dotnet/src/AutoGen.OpenAI/Middleware/OpenAIChatRequestMessageConnector.cs:164-192 | What one message produces is left unchanged by normalising it again |
| Connector.ProcessIncomingMessagesIdempotent | dotnet/src/AutoGen.OpenAI/Middleware/OpenAIChatRequestMessageConnector.cs:160-195 | Normalisation is idempotent |
| Connector.AggregateAsParts | dotnet/src/AutoGen.OpenAI/Middleware/OpenAIChatRequestMessageConnector.cs:360-379 | An agent's own aggregate with at least one result normalises like its tool-call and result messages sent separately |
| Connector.PostProcessChatResponseMessage | dotnet/src/AutoGen.OpenAI/Middleware/OpenAIChatRequestMessageConnector.cs:128-158 | No content is an error. Stop gives an assistant text with the first text. ToolCalls gives a tool-call message with each call's id, name and arguments in order and that text. FunctionCall gives a single-call message, or the missing-function-call error when there is no call. Length, ContentFilter and other reasons give their own errors. Results keep the author |
| Connector.PostProcessMessage | dotnet/src/AutoGen.OpenAI/Middleware/OpenAIChatRequestMessageConnector.cs:91-99 | A non-completion reply is returned as it is when lenient and is an error when strict; a completion gives exactly the completion conversion above with the reply's author, so every finish-reason case carries over |
| Connector.ToolCallRoundTrip | dotnet/src/AutoGen.OpenAI/Middleware/OpenAIChatRequestMessageConnector.cs:136-141 | Tool calls sent out and echoed back in a ToolCalls completion return with the same names, arguments and order, each with the id it was sent with |
| ToolCallIds.NatToDecimal | dotnet/src/AutoGen.OpenAI/Middleware/OpenAIChatRequestMessageConnector.cs:327 | The rendering of a position is a non-empty digit string, one digit long exactly below 10, that denotes the position read most significant digit first, with no leading zero |
| ToolCallIds.FallbackIdOfTen | dotnet/src/AutoGen.OpenAI/Middleware/OpenAIChatRequestMessageConnector.cs:327 | Position 10 is rendered `f_10` |
| ToolCallIds.NatToDecimalInjective | dotnet/src/AutoGen.OpenAI/Middleware/OpenAIChatRequestMessageConnector.cs:327 | Different positions render differently, since the rendering denotes the position |
| ToolCallIds.FallbackIdInjective | dotnet/src/AutoGen.OpenAI/Middleware/OpenAIChatRequestMessageConnector.cs:327 | Equal fallback ids have equal function names and positions |
| Streaming.ToolNameStepAsWritten | dotnet/src/AutoGen.OpenAI/Middleware/OpenAIChatRequestMessageConnector.cs:62-69 | As written, an update with a call part sets the state to that part's name, null included; any other update leaves it |
| Streaming.ToolNameAfterAsWritten | dotnet/src/AutoGen.OpenAI/Middleware/OpenAIChatRequestMessageConnector.cs:57-69 | As written, the state starting from null stays null while no update has a call part, and is only ever a name some update announced |
| Streaming.AsWrittenFollowsLastCallPart | dotnet/src/AutoGen.OpenAI/Middleware/OpenAIChatRequestMessageConnector.cs:62-69 | As written, the state is the name in the last update with a call part, null included |
| Streaming.AsWrittenForgetsToolName | dotnet/src/AutoGen.OpenAI/Middleware/OpenAIChatRequestMessageConnector.cs:62-69 | A named tool update followed by an unnamed fragment leaves the as-written state null but the corrected state at the name |
| Streaming.ToolNameIsLastAnnounced | dotnet/src/AutoGen.OpenAI/Middleware/OpenAIChatRequestMessageConnector.cs:57-69 | The corrected state is the most recently announced tool name |
| Streaming.ToolNameNullUntilAnnounced | dotnet/src/AutoGen.OpenAI/Middleware/OpenAIChatRequestMessageConnector.cs:57-69 | The state stays null until a name is announced |
| Streaming.FragmentsInheritToolName | dotnet/src/AutoGen.OpenAI/Middleware/OpenAIChatRequestMessageConnector.cs:62-69 | After a named update, every following unnamed fragment sees that name |
| Streaming.TrackToolNames | dotnet/src/AutoGen.OpenAI/Middleware/OpenAIChatRequestMessageConnector.cs:57-69 | The one-variable loop, with the corrected step, gives each update the corrected state after the updates up to and including it |
| Streaming.PostProcessStreamingMessage | dotnet/src/AutoGen.OpenAI/Middleware/OpenAIChatRequestMessageConnector.cs:101-103 | The conversion of an update fails as not implemented, whatever the update and tool name |
| Streaming.ProcessStreamingReplies | dotnet/src/AutoGen.OpenAI/Middleware/OpenAIChatRequestMessageConnector.cs:57-88 | With the corrected tool-name step. Lenient: yields the replies before the first update and fails exactly when there is an update, since its conversion is unimplemented. Strict: yields nothing and fails exactly on non-empty input, the reason depending on the first reply |
| FunctionContracts.FirstMalformed | dotnet/src/AutoGen.OpenAI/Extension/FunctionContractExtension.cs:24-31 | No error exactly when every parameter has a name and a type; otherwise the error of the first that lacks one, the name checked first |
| FunctionContracts.FirstMalformedAppend | dotnet/src/AutoGen.OpenAI/Extension/FunctionContractExtension.cs:24-31 | After a well-formed prefix, the first error is found in the rest |
| FunctionContracts.ToOpenAIFunctionDefinition | dotnet/src/AutoGen.OpenAI/Extension/FunctionContractExtension.cs:19-62 | The parameter loop computes exactly the specified definition or error; name and description are copied; a null parameter list gives empty properties and `required` |
| FunctionContracts.RequiredNamesAppend | dotnet/src/AutoGen.OpenAI/Extension/FunctionContractExtension.cs:37-47 | The required list distributes over concatenation, so it keeps parameter order |
| FunctionContracts.RequiredNamesMembers | dotnet/src/AutoGen.OpenAI/Extension/FunctionContractExtension.cs:37-40 | A name is required exactly when some parameter with that name is required |
| FunctionContracts.PropertyMapKeys | dotnet/src/AutoGen.OpenAI/Extension/FunctionContractExtension.cs:42-46 | For well-formed parameters the keys are exactly the parameter names |
| FunctionContracts.PropertyMapLastWins | dotnet/src/AutoGen.OpenAI/Extension/FunctionContractExtension.cs:31-43 | A name maps to the schema (type schema and description, if any) of the last parameter with that name |
| FunctionContracts.FunctionDefinitionOfContract | dotnet/src/AutoGen.OpenAI/Extension/FunctionContractExtension.cs:19-62 | Conversion succeeds exactly when all parameters have a name and a type. The definition then copies name and description, has a property per parameter name, and requires exactly the required parameters' names |
| ChatAgent.ChatCompletionOptions.constructor | dotnet/src/AutoGen.OpenAI/Agent/OpenAIChatAgent.cs:191-197 | New settings hold the given scalars and no tools or stop sequences |
| ChatAgent.ChatCompletionOptions.AddTool | dotnet/src/AutoGen.OpenAI/Agent/OpenAIChatAgent.cs:155 | Appends one tool and changes nothing else |
| ChatAgent.ChatCompletionOptions.AddStopSequence | dotnet/src/AutoGen.OpenAI/Agent/OpenAIChatAgent.cs:160 | Appends one stop sequence and changes nothing else |
| ChatAgent.ChatCompletionOptions.AddTools | dotnet/src/AutoGen.OpenAI/Agent/OpenAIChatAgent.cs:153-156 | Appends the tools in order and changes nothing else |
| ChatAgent.ChatCompletionOptions.AddStopSequences | dotnet/src/AutoGen.OpenAI/Agent/OpenAIChatAgent.cs:158-161 | Appends the stop sequences in order and changes nothing else |
| ChatAgent.Definitions | dotnet/src/AutoGen.OpenAI/Agent/OpenAIChatAgent.cs:163 | Succeeds exactly when every contract converts, giving their definitions in order; otherwise fails with the first failing contract's error |
| ChatAgent.DefinitionsFailAt | dotnet/src/AutoGen.OpenAI/Agent/OpenAIChatAgent.cs:163 | A failing contract after converting ones decides the error |
| ChatAgent.MergedSettingsSucceeds | dotnet/src/AutoGen.OpenAI/Agent/OpenAIChatAgent.cs:163-170 | Building the settings fails exactly when a per-call function cannot be converted |
| ChatAgent.MergedSettingsTools | dotnet/src/AutoGen.OpenAI/Agent/OpenAIChatAgent.cs:153-170 | The tools are the configured ones, then one per per-call function with its name, description and schema |
| ChatAgent.MergedSettingsStops | dotnet/src/AutoGen.OpenAI/Agent/OpenAIChatAgent.cs:146-178 | The scalars are copied; the stop sequences are the configured ones, then the per-call ones |
| ChatAgent.MergedSettingsWithoutOptions | dotnet/src/AutoGen.OpenAI/Agent/OpenAIChatAgent.cs:143-181 | With null options, or empty function and stop lists, the settings equal the configured ones |
| ChatAgent.ChatContents | dotnet/src/AutoGen.OpenAI/Agent/OpenAIChatAgent.cs:128-132 | Succeeds exactly when every message is a provider-native envelope, giving their contents in order; otherwise the invalid-type error |
| ChatAgent.SystemMessagePresence | dotnet/src/AutoGen.OpenAI/Agent/OpenAIChatAgent.cs:135 | The contents hold a system message exactly when some envelope carries one |
| ChatAgent.InjectedSystemMessage | dotnet/src/AutoGen.OpenAI/Agent/OpenAIChatAgent.cs:137 | Putting the system message in front gives one more message: the system message, then the contents shifted by one |
| ChatAgent.OpenAIChatAgent.constructor | dotnet/src/AutoGen.OpenAI/Agent/OpenAIChatAgent.cs:78-88 | Stores name, settings and system message, which defaults to "You are a helpful AI assistant" |
| ChatAgent.OpenAIChatAgent.FromModel | dotnet/src/AutoGen.OpenAI/Agent/OpenAIChatAgent.cs:53-69 | The agent's settings are fresh and hold the given temperature (default 0.7), token limit (default 1024), seed, format and tools |
| ChatAgent.OpenAIChatAgent.BuildChatCompletionOptions | dotnet/src/AutoGen.OpenAI/Agent/OpenAIChatAgent.cs:183-208 | Fresh settings with the given temperature, token limit, seed and format and the given tools in order; no tools when the list is null |
| ChatAgent.OpenAIChatAgent.ConstructChatMessages | dotnet/src/AutoGen.OpenAI/Agent/OpenAIChatAgent.cs:126-141 | Succeeds exactly when every message is a provider-native envelope; otherwise the invalid-type error |
| ChatAgent.OpenAIChatAgent.ConstructChatMessagesKeepsSystemMessage | dotnet/src/AutoGen.OpenAI/Agent/OpenAIChatAgent.cs:134-140 | With a system message already present, the output is the contents exactly, in order, with nothing added |
| ChatAgent.OpenAIChatAgent.ConstructChatMessagesInjectsSystemMessage | dotnet/src/AutoGen.OpenAI/Agent/OpenAIChatAgent.cs:135-138 | Without one, the output is the agent's system message followed by the contents in order |
| ChatAgent.OpenAIChatAgent.ConstructChatMessagesHasSystemMessage | dotnet/src/AutoGen.OpenAI/Agent/OpenAIChatAgent.cs:134-138 | The output always holds a system message |
| ChatAgent.OpenAIChatAgent.ConvertFunctions | dotnet/src/AutoGen.OpenAI/Agent/OpenAIChatAgent.cs:163 | Converting the per-call contracts one by one gives exactly the specified definitions or first error |
| ChatAgent.OpenAIChatAgent.CreateChatCompletionOptions | dotnet/src/AutoGen.OpenAI/Agent/OpenAIChatAgent.cs:143-181 | The per-call settings are fresh and equal the specified merge of configured settings and per-call options, failing exactly when it does and with its error |

## Left out

- The network calls, asynchrony and cancellation (`CompleteChatAsync`, `CompleteChatStreamingAsync`, the middleware's `InvokeAsync`): I/O, outside this model. The streaming replies are a finite sequence parameter.
- `GenerateReplyAsync` and `GenerateStreamingReplyAsync`: apart from the network call, they only build settings and messages, which are modelled; the former always fails because its model name is empty.
- `PostProcessStreamingMessage`: its commented-out body is not modelled; the live code only throws, which is modelled.
- The JSON serialise/deserialise clone of the options: what it keeps depends on the serialiser; it is modelled as a copy of the scalars with empty tool and stop lists.
- `JsonSchemaBuilder.FromType`, camel-case naming and `BinaryData.FromObjectAsJson`: library behaviour; the schema of a type is an uninterpreted constructor, and the built object schema is kept as a value, not serialised.
- Construction of `Uri` values and image binary data: SDK behaviour; a URL is kept as its string, data as bytes with an optional media type.
- Temperature: a 32-bit float carried by its bit pattern, never computed with.
- The client object and the model name: unused by the modelled logic (the static settings builder ignores its model name).
- The per-call temperature and token-limit overrides: commented out in the source.
- Completion content parts other than text: a completion's content is the list of its parts' texts.
- The SDK's own argument checks (e.g. a null text given to a provider message): not visible; such texts are optional values.
- Connector.ToolResultsForwarded: the provider SDK is not part of this model, and `ToolChatMessage`'s two string arguments are read in the order the source passes them, as (content, tool-call id). If the SDK declares them as (tool-call id, content), `OpenAIChatRequestMessageConnector.cs` at lines 212, 244 and 344 sends the result as the id and the id as the content; the model, `Messages.ToolChat` and this lemma do not capture that reading.
- ChatAgent.OpenAIChatAgent.ConstructChatMessages: lazy enumeration is modelled as full enumeration, so a non-envelope anywhere fails the call even if the SDK would stop reading earlier.

## Findings

| source | as written | input that shows it | evidently intended | confidence | as-written member | corrected member |
|---|---|---|---|---|---|---|
| dotnet/src/AutoGen.OpenAI/Middleware/OpenAIChatRequestMessageConnector.cs:62-69 | any update with a function-call or tool-call part overwrites `currentToolName` with that part's name, also when the name is null | a tool-call update named `f` followed by an argument-fragment update whose tool-call part has a null name: the state becomes null and the fragment loses its tool name | an update that names a tool sets the state; a fragment without a name keeps the current one (the commented-out conversion falls back to `currentToolName` for exactly these fragments) | medium, not executed | Streaming.AsWrittenForgetsToolName | Streaming.ToolNameIsLastAnnounced |
