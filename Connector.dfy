/** The request-message connector: the outbound normaliser that turns the
    conversation's messages into provider request messages, and the inbound
    normaliser that turns a provider completion back into a conversation
    message. The connector's `strictMode` is the `strict` parameter and the
    agent is known by its name. */
module Connector {
  import opened Wrappers
  import opened Messages
  import opened ToolCallIds

  /** The author is known and is not the agent itself. */
  predicate AuthoredByOther(from: Option<string>, agentName: string) {
    from.Some? && from.value != agentName
  }

  /** What an input that matches no dispatch arm becomes: nothing in lenient
      mode, an error in strict mode. */
  function Unmatched(strict: bool): Result<seq<ChatMessage>, Error> {
    if strict then Failure(InvalidMessageType) else Success([])
  }

  // ---------------------------------------------------------------------
  // Text
  // ---------------------------------------------------------------------

  /** A text message becomes one system, assistant or user message carrying its
      content and tagged with its author. */
  function ProcessTextMessage(agentName: string, role: Role, content: string, from: Option<string>)
    : (r: Result<seq<ChatMessage>, Error>)
    ensures r.Failure? <==> role != System && from.None? && !(role == User || role == Assistant)
    ensures r.Failure? ==> r.error == InvalidRole
    ensures r.Success? ==> |r.value| == 1
    ensures r.Success? ==>
      r.value[0] in {SystemChat(Some(content), from), UserChat(Some(content), from), AssistantChat(Some(content), from, [], None)}
    ensures r.Success? ==> (r.value[0].SystemChat? <==> role == System)
    ensures r.Success? ==> (r.value[0].AssistantChat? <==>
      role != System && (from == Some(agentName) || (from.None? && role == Assistant)))
    ensures r.Success? ==> (r.value[0].UserChat? <==>
      role != System && from != Some(agentName) && (from.Some? || role == User))
  {
    if role == System then
      Success([SystemChat(Some(content), from)])
    else if Some(agentName) == from then
      Success([AssistantChat(Some(content), Some(agentName), [], None)])
    else
      match from
      case None =>
        if role == User then Success([UserChat(Some(content), None)])
        else if role == Assistant then Success([AssistantChat(Some(content), None, [], None)])
        else Failure(InvalidRole)
      case Some(_) => Success([UserChat(Some(content), from)])
  }

  // ---------------------------------------------------------------------
  // Images and multi-modal messages
  // ---------------------------------------------------------------------

  /** An image becomes a URI part only when it has a URL and no inline data;
      otherwise it becomes a data part with the data's media type. */
  function ImageContentPart(url: Option<string>, data: Option<BinaryData>): (p: ContentPart)
    ensures p.ImageUriPart? <==> data.None? && url.Some?
    ensures p.ImageUriPart? ==> p.uri == url.value
    ensures p.ImageDataPart? ==> p.data == data
    ensures p.ImageDataPart? ==> p.mediaType == (if data.Some? then data.value.mediaType else None)
    ensures !p.TextPart?
  {
    if data.None? && url.Some? then ImageUriPart(url.value)
    else ImageDataPart(data, if data.Some? then data.value.mediaType else None)
  }

  /** An image from another author becomes one user message with its image part. */
  function ProcessImageMessage(agentName: string, url: Option<string>, data: Option<BinaryData>, from: Option<string>)
    : (r: Result<seq<ChatMessage>, Error>)
    ensures r.Failure? <==> from == Some(agentName)
    ensures r.Failure? ==> r.error == SelfAuthoredImage
    ensures r.Success? ==> r.value == [UserPartsChat([ImageContentPart(url, data)], from)]
  {
    if Some(agentName) == from then Failure(SelfAuthoredImage)
    else Success([UserPartsChat([ImageContentPart(url, data)], from)])
  }

  /** A multi-modal part that the connector can translate. */
  predicate IsSupportedPart(m: IMessage) {
    m.TextMessage? || m.ImageMessage?
  }

  /** The content part for a text or image part. */
  function PartOf(m: IMessage): ContentPart
    requires IsSupportedPart(m)
  {
    if m.TextMessage? then TextPart(m.content) else ImageContentPart(m.url, m.data)
  }

  /** The parts of a multi-modal message, in order; any part that is neither text
      nor image makes the whole translation fail. */
  function ContentParts(parts: seq<IMessage>): (r: Result<seq<ContentPart>, Error>)
    ensures r.Success? <==> forall k :: 0 <= k < |parts| ==> IsSupportedPart(parts[k])
    ensures r.Failure? ==> r.error == UnsupportedContentPart
    ensures r.Success? ==> |r.value| == |parts|
    ensures r.Success? ==> forall k :: 0 <= k < |parts| ==> r.value[k] == PartOf(parts[k])
  {
    if parts == [] then Success([])
    else if !IsSupportedPart(parts[0]) then Failure(UnsupportedContentPart)
    else
      match ContentParts(parts[1..])
      case Failure(e) => Failure(e)
      case Success(rest) => Success([PartOf(parts[0])] + rest)
  }

  /** A multi-modal message from another author becomes one user message whose
      parts follow the message's parts in order. */
  function ProcessMultiModalMessage(agentName: string, parts: seq<IMessage>, from: Option<string>)
    : (r: Result<seq<ChatMessage>, Error>)
    ensures from == Some(agentName) ==> r == Failure(SelfAuthoredMultiModal)
    ensures from != Some(agentName) ==>
      (r.Success? <==> forall k :: 0 <= k < |parts| ==> IsSupportedPart(parts[k]))
    ensures from != Some(agentName) && r.Failure? ==> r.error == UnsupportedContentPart
    ensures r.Success? ==> |r.value| == 1 && r.value[0].UserPartsChat? && r.value[0].participant == from
    ensures r.Success? ==> |r.value[0].parts| == |parts|
    ensures r.Success? ==> forall k :: 0 <= k < |parts| ==> r.value[0].parts[k] == PartOf(parts[k])
  {
    if Some(agentName) == from then Failure(SelfAuthoredMultiModal)
    else
      match ContentParts(parts)
      case Failure(e) => Failure(e)
      case Success(items) => Success([UserPartsChat(items, from)])
  }

  // ---------------------------------------------------------------------
  // Tool calls and their results
  // ---------------------------------------------------------------------

  /** The id a tool call is sent with: its own, or the fallback for position `i`. */
  function ResolvedId(tc: ToolCall, i: nat): string {
    tc.toolCallId.GetOr(FallbackId(tc.functionName, i))
  }

  /** The provider tool call for the call at position `i`. */
  function ChatToolCallAt(calls: seq<ToolCall>, i: nat): ChatToolCall
    requires i < |calls|
  {
    FunctionToolCall(ResolvedId(calls[i], i), calls[i].functionName, calls[i].functionArguments)
  }

  /** The provider tool calls of a tool-call message (the indexed `Select`). */
  function ChatToolCalls(calls: seq<ToolCall>): (r: seq<ChatToolCall>)
    ensures |r| == |calls|
    ensures forall i :: 0 <= i < |calls| ==> r[i] == ChatToolCallAt(calls, i)
  {
    seq(|calls|, i requires 0 <= i < |calls| => ChatToolCallAt(calls, i))
  }

  /** A tool-call message from the agent itself (or unattributed) becomes one
      assistant message: its text is the message content or "", it is tagged
      with the message's author, and its tool calls keep the count, order,
      names and arguments of the input, each with its own or its fallback id. */
  function ProcessToolCallMessage(agentName: string, call: ToolCallMsg): (r: Result<seq<ChatMessage>, Error>)
    ensures r.Failure? <==> AuthoredByOther(call.from, agentName)
    ensures r.Failure? ==> r.error == CrossAgentToolCall
    ensures r.Success? ==> |r.value| == 1 && r.value[0].AssistantChat?
    ensures r.Success? ==> r.value[0].text == Some(call.content.GetOr(""))
    ensures r.Success? ==> r.value[0].participant == call.from && r.value[0].functionCall.None?
    ensures r.Success? ==> |r.value[0].toolCalls| == |call.toolCalls|
    ensures r.Success? ==> forall i :: 0 <= i < |call.toolCalls| ==>
      r.value[0].toolCalls[i].functionName == call.toolCalls[i].functionName &&
      r.value[0].toolCalls[i].functionArguments == call.toolCalls[i].functionArguments &&
      r.value[0].toolCalls[i].id == ResolvedId(call.toolCalls[i], i)
  {
    if AuthoredByOther(call.from, agentName) then Failure(CrossAgentToolCall)
    else Success([AssistantChat(Some(call.content.GetOr("")), call.from, ChatToolCalls(call.toolCalls), None)])
  }

  /** The same translation as the source performs it: the assistant message is
      created first and the tool calls are appended to it one by one. */
  method BuildToolCallMessage(agentName: string, call: ToolCallMsg) returns (r: Result<seq<ChatMessage>, Error>)
    ensures r == ProcessToolCallMessage(agentName, call)
  {
    if call.from.Some? && call.from.value != agentName {
      return Failure(CrossAgentToolCall);
    }
    var textContent := call.content.GetOr("");
    var toolCalls: seq<ChatToolCall> := [];
    for i := 0 to |call.toolCalls|
      invariant |toolCalls| == i
      invariant forall k :: 0 <= k < i ==> toolCalls[k] == ChatToolCallAt(call.toolCalls, k)
    {
      var tc := call.toolCalls[i];
      var id := if tc.toolCallId.Some? then tc.toolCallId.value else FallbackId(tc.functionName, i);
      toolCalls := toolCalls + [FunctionToolCall(id, tc.functionName, tc.functionArguments)];
    }
    assert toolCalls == ChatToolCalls(call.toolCalls);
    r := Success([AssistantChat(Some(textContent), call.from, toolCalls, None)]);
  }

  /** When no call carries its own id, the ids sent for a message's tool calls
      are pairwise distinct. */
  lemma FallbackIdsDistinct(calls: seq<ToolCall>, i: nat, j: nat)
    requires i < |calls| && j < |calls| && i != j
    requires calls[i].toolCallId.None? && calls[j].toolCallId.None?
    ensures ChatToolCalls(calls)[i].id != ChatToolCalls(calls)[j].id
  {
    if ChatToolCalls(calls)[i].id == ChatToolCalls(calls)[j].id {
      FallbackIdInjective(calls[i].functionName, i, calls[j].functionName, j);
    }
  }

  /** The entries of a result message that carry a result, in input order. */
  function WithResults(calls: seq<ToolCall>): (r: seq<ToolCall>)
    ensures |r| <= |calls|
    ensures forall k :: 0 <= k < |r| ==> r[k].result.Some?
  {
    if calls == [] then []
    else if calls[0].result.Some? then [calls[0]] + WithResults(calls[1..])
    else WithResults(calls[1..])
  }

  /** Filtering keeps exactly the entries with a result. */
  lemma {:induction false} WithResultsMembers(calls: seq<ToolCall>, tc: ToolCall)
    ensures tc in WithResults(calls) <==> tc in calls && tc.result.Some?
  {
    if calls != [] {
      WithResultsMembers(calls[1..], tc);
      assert calls == [calls[0]] + calls[1..];
    }
  }

  /** Filtering commutes with concatenation, so it keeps the input order. */
  lemma {:induction false} WithResultsAppend(a: seq<ToolCall>, b: seq<ToolCall>)
    ensures WithResults(a + b) == WithResults(a) + WithResults(b)
  {
    if a != [] {
      assert (a + b)[1..] == a[1..] + b;
      WithResultsAppend(a[1..], b);
    } else {
      assert a + b == b;
    }
  }

  /** The tool message for the surviving entry at position `i` of the filtered list. */
  function ToolChatAt(kept: seq<ToolCall>, i: nat): ChatMessage
    requires i < |kept| && kept[i].result.Some?
  {
    ToolChat(kept[i].result.value, ResolvedId(kept[i], i))
  }

  /** A result message becomes one tool message per entry that has a result, in
      order; the fallback id's position counts only those entries. */
  function ProcessToolCallResultMessage(result: ToolCallResultMsg): (r: seq<ChatMessage>)
    ensures |r| == |WithResults(result.toolCalls)|
    ensures forall i :: 0 <= i < |r| ==> r[i].ToolChat? && r[i] == ToolChatAt(WithResults(result.toolCalls), i)
  {
    var kept := WithResults(result.toolCalls);
    seq(|kept|, i requires 0 <= i < |kept| => ToolChatAt(kept, i))
  }

  /** Every entry with a result and its own id is forwarded with that id, and
      every forwarded message carries the result of some entry of the input. */
  lemma ToolResultsForwarded(result: ToolCallResultMsg)
    ensures forall tc :: tc in result.toolCalls && tc.result.Some? && tc.toolCallId.Some? ==>
      ToolChat(tc.result.value, tc.toolCallId.value) in ProcessToolCallResultMessage(result)
    ensures forall m :: m in ProcessToolCallResultMessage(result) ==>
      exists tc :: tc in result.toolCalls && tc.result == Some(m.content)
  {
    var kept, out := WithResults(result.toolCalls), ProcessToolCallResultMessage(result);
    forall tc | tc in result.toolCalls && tc.result.Some? && tc.toolCallId.Some?
      ensures ToolChat(tc.result.value, tc.toolCallId.value) in out
    {
      WithResultsMembers(result.toolCalls, tc);
      var i :| 0 <= i < |kept| && kept[i] == tc;
      assert out[i] == ToolChat(tc.result.value, tc.toolCallId.value);
    }
    forall m | m in out
      ensures exists tc :: tc in result.toolCalls && tc.result == Some(m.content)
    {
      var i :| 0 <= i < |out| && out[i] == m;
      WithResultsMembers(result.toolCalls, kept[i]);
    }
  }

  /** The fallback position counts only entries with a result: a call whose
      predecessor has no result is sent with position 0. */
  lemma FallbackPositionCountsSurvivors(f: string, g: string, args: string, res: string)
    ensures ProcessToolCallResultMessage(ToolCallResultMsg(
      [ToolCall(f, args, None, None), ToolCall(g, args, None, Some(res))], None))
      == [ToolChat(res, g + "_0")]
  {
    var calls := [ToolCall(f, args, None, None), ToolCall(g, args, None, Some(res))];
    assert calls[1..][1..] == [];
    assert WithResults(calls) == [calls[1]];
    assert NatToDecimal(0) == "0";
    assert FallbackId(g, 0) == g + "_0";
  }

  /** An aggregate of a tool call and its result. From another author, each
      result becomes a user message tagged with the aggregate's author, without
      filtering; otherwise it is the tool-call translation followed by the
      result translation. */
  function ProcessFunctionCallMiddlewareMessage(
    agentName: string, call: ToolCallMsg, result: ToolCallResultMsg, from: Option<string>)
    : (r: Result<seq<ChatMessage>, Error>)
    ensures AuthoredByOther(from, agentName) ==>
      r.Success? && |r.value| == |result.toolCalls| &&
      forall i :: 0 <= i < |result.toolCalls| ==> r.value[i] == UserChat(result.toolCalls[i].result, from)
    ensures !AuthoredByOther(from, agentName) ==>
      (r.Failure? <==> AuthoredByOther(call.from, agentName))
    ensures !AuthoredByOther(from, agentName) && r.Failure? ==> r.error == CrossAgentToolCall
    ensures !AuthoredByOther(from, agentName) && r.Success? ==>
      |r.value| == 1 + |WithResults(result.toolCalls)| && r.value[0].AssistantChat? &&
      forall i :: 1 <= i < |r.value| ==> r.value[i].ToolChat?
    ensures !AuthoredByOther(from, agentName) && r.Success? ==>
      r.value[..1] == ProcessToolCallMessage(agentName, call).value &&
      r.value[1..] == ProcessToolCallResultMessage(result)
  {
    if AuthoredByOther(from, agentName) then
      Success(seq(|result.toolCalls|, i requires 0 <= i < |result.toolCalls| =>
        UserChat(result.toolCalls[i].result, from)))
    else
      match ProcessToolCallMessage(agentName, call)
      case Failure(e) => Failure(e)
      case Success(assistant) => Success(assistant + ProcessToolCallResultMessage(result))
  }

  // ---------------------------------------------------------------------
  // The deprecated flat message
  // ---------------------------------------------------------------------

  /** The legacy message has text to send. */
  predicate HasContent(m: LegacyMsg) {
    m.content.Some? && |m.content.value| > 0
  }

  /** A legacy message authored by the agent itself (or unattributed): a system
      message keeps its content; text becomes an assistant message, or a tool
      message when it names a function; a function without text becomes an
      assistant message carrying that function call; nothing to send is an error. */
  function ProcessIncomingMessagesForSelf(m: LegacyMsg): (r: Result<seq<ChatMessage>, Error>)
    ensures m.role == System ==> r == Success([SystemChat(m.content, None)])
    ensures m.role != System && HasContent(m) && m.functionName.None? ==>
      r == Success([AssistantChat(m.content, None, [], None)])
    ensures m.role != System && HasContent(m) && m.functionName.Some? ==>
      r == Success([ToolChat(m.content.value, m.functionName.value)])
    ensures m.role != System && !HasContent(m) && m.functionName.Some? ==>
      r == Success([AssistantChat(None, None, [], Some(ChatFunctionCall(m.functionName.value, m.functionArguments)))])
    ensures r.Failure? <==> m.role != System && !HasContent(m) && m.functionName.None?
    ensures r.Failure? ==> r.error == InvalidMessageAsSelf
  {
    if m.role == System then Success([SystemChat(m.content, None)])
    else if HasContent(m) then
      if m.functionName.None? then Success([AssistantChat(m.content, None, [], None)])
      else Success([ToolChat(m.content.value, m.functionName.value)])
    else if m.functionName.Some? then
      Success([AssistantChat(None, None, [], Some(ChatFunctionCall(m.functionName.value, m.functionArguments)))])
    else Failure(InvalidMessageAsSelf)
  }

  /** The text sent for another agent's legacy function call, which has no translation. */
  const UnsupportedLegacyText: string := "// Message type is not supported"

  /** A legacy message authored by another agent: a system message keeps its
      content and author; text becomes a user message tagged with the author,
      or a tool message when it names a function; a function without text
      becomes a placeholder user message; nothing to send is an error. */
  function ProcessIncomingMessagesForOther(m: LegacyMsg): (r: Result<seq<ChatMessage>, Error>)
    ensures m.role == System ==> r == Success([SystemChat(m.content, m.from)])
    ensures m.role != System && HasContent(m) && m.functionName.Some? ==>
      r == Success([ToolChat(m.content.value, m.functionName.value)])
    ensures m.role != System && HasContent(m) && m.functionName.None? ==>
      r == Success([UserChat(m.content, m.from)])
    ensures m.role != System && !HasContent(m) && m.functionName.Some? ==>
      r == Success([UserChat(Some(UnsupportedLegacyText), m.from)])
    ensures r.Failure? <==> m.role != System && !HasContent(m) && m.functionName.None?
    ensures r.Failure? ==> r.error == InvalidMessageAsOther
  {
    if m.role == System then Success([SystemChat(m.content, m.from)])
    else if HasContent(m) then
      if m.functionName.Some? then Success([ToolChat(m.content.value, m.functionName.value)])
      else Success([UserChat(m.content, m.from)])
    else if m.functionName.Some? then Success([UserChat(Some(UnsupportedLegacyText), m.from)])
    else Failure(InvalidMessageAsOther)
  }

  /** A legacy message is translated from another agent's perspective when it has
      an author other than the agent, and from the agent's own otherwise. */
  function ProcessMessage(agentName: string, m: LegacyMsg): (r: Result<seq<ChatMessage>, Error>)
    ensures r == (if AuthoredByOther(m.from, agentName) then ProcessIncomingMessagesForOther(m)
                  else ProcessIncomingMessagesForSelf(m))
    ensures r.Failure? <==> m.role != System && !HasContent(m) && m.functionName.None?
    ensures r.Success? ==> |r.value| == 1
    ensures r.Success? && r.value[0].AssistantChat? ==> !AuthoredByOther(m.from, agentName)
  {
    if AuthoredByOther(m.from, agentName) then ProcessIncomingMessagesForOther(m)
    else ProcessIncomingMessagesForSelf(m)
  }

  /** The two perspectives agree on everything but who speaks: both fail on the
      same messages, send the same system text and the same tool messages, and
      where the agent's own text is an assistant message another's is a user
      message with the same text. */
  lemma LegacyPerspectivesAgree(m: LegacyMsg)
    ensures ProcessIncomingMessagesForSelf(m).Success? <==> ProcessIncomingMessagesForOther(m).Success?
    ensures var s, o := ProcessIncomingMessagesForSelf(m), ProcessIncomingMessagesForOther(m);
      s.Success? ==>
        |s.value| == 1 && |o.value| == 1 &&
        (s.value[0].SystemChat? <==> o.value[0].SystemChat?) &&
        (s.value[0].SystemChat? ==> s.value[0].text == o.value[0].text) &&
        (s.value[0].ToolChat? <==> o.value[0].ToolChat?) &&
        (s.value[0].ToolChat? ==> s.value[0] == o.value[0]) &&
        (s.value[0].AssistantChat? && s.value[0].functionCall.None? ==>
          o.value[0] == UserChat(s.value[0].text, m.from))
  {
  }

  // ---------------------------------------------------------------------
  // Dispatch
  // ---------------------------------------------------------------------

  /** The translation of one message that is not provider-native: the arms of
      the type switch, tried in order, with the default arm last. An input that
      fails every guard goes to the default arm; in strict mode the default
      arm's error arises exactly for such inputs, since no other arm raises it. */
  function Translate(agentName: string, strict: bool, m: IMessage): (r: Result<seq<ChatMessage>, Error>)
    ensures FallsThrough(agentName, m) ==> r == Unmatched(strict)
    ensures strict ==> (r == Failure(InvalidMessageType) <==> FallsThrough(agentName, m))
    ensures !FallsThrough(agentName, m) ==> r.Failure? ==> r.error != InvalidMessageType
    ensures !FallsThrough(agentName, m) && m.TextMessage? ==> r == ProcessTextMessage(agentName, m.role, m.content, m.from)
    ensures !FallsThrough(agentName, m) && m.ImageMessage? ==> r == ProcessImageMessage(agentName, m.url, m.data, m.from)
    ensures !FallsThrough(agentName, m) && m.MultiModalMessage? ==> r == ProcessMultiModalMessage(agentName, m.parts, m.from)
    ensures !FallsThrough(agentName, m) && m.ToolCallMessage? ==> r == ProcessToolCallMessage(agentName, m.call)
    ensures m.ToolCallResultMessage? ==> r == Success(ProcessToolCallResultMessage(m.result))
    ensures m.AggregateMessage? ==> r == ProcessFunctionCallMiddlewareMessage(agentName, m.call, m.result, m.from)
    ensures m.LegacyMessage? ==> r == ProcessMessage(agentName, m.legacy)
  {
    match m
    case TextMessage(role, content, from) => ProcessTextMessage(agentName, role, content, from)
    case ImageMessage(url, data, from) =>
      if from.None? || from.value != agentName then ProcessImageMessage(agentName, url, data, from)
      else Unmatched(strict)
    case MultiModalMessage(parts, from) =>
      if from.None? || from.value != agentName then ProcessMultiModalMessage(agentName, parts, from)
      else Unmatched(strict)
    case ToolCallMessage(call) =>
      if call.from.None? || call.from.value == agentName then ProcessToolCallMessage(agentName, call)
      else Unmatched(strict)
    case ToolCallResultMessage(result) => Success(ProcessToolCallResultMessage(result))
    case AggregateMessage(call, result, from) => ProcessFunctionCallMiddlewareMessage(agentName, call, result, from)
    case LegacyMessage(legacy) => ProcessMessage(agentName, legacy)
    case _ => Unmatched(strict)
  }

  /** The inputs that fail every guard of the switch: media from the agent
      itself, tool calls from another agent, and unknown variants. */
  predicate FallsThrough(agentName: string, m: IMessage) {
    match m
    case TextMessage(_, _, _) => false
    case ImageMessage(_, _, from) => from == Some(agentName)
    case MultiModalMessage(_, from) => from == Some(agentName)
    case ToolCallMessage(call) => AuthoredByOther(call.from, agentName)
    case ToolCallResultMessage(_) => false
    case AggregateMessage(_, _, _) => false
    case LegacyMessage(_) => false
    case _ => true
  }

  /** Inputs that fall through are an error in strict mode and translate to
      nothing in lenient mode; the explicit self-authored-media and
      cross-agent checks of the individual translations are never reached. */
  lemma FallThroughFollowsMode(agentName: string, strict: bool, m: IMessage)
    ensures FallsThrough(agentName, m) ==> Translate(agentName, strict, m) == Unmatched(strict)
    ensures Translate(agentName, strict, m).Failure? ==>
      Translate(agentName, strict, m).error !in {SelfAuthoredImage, SelfAuthoredMultiModal}
    ensures m.ToolCallMessage? && Translate(agentName, strict, m).Failure? ==>
      Translate(agentName, strict, m).error == InvalidMessageType
  {
  }

  /** Each provider message wrapped in an envelope with the given author. */
  function Wrap(chats: seq<ChatMessage>, from: Option<string>): (r: seq<IMessage>)
    ensures |r| == |chats|
    ensures forall k :: 0 <= k < |chats| ==> r[k] == ChatMessageEnvelope(chats[k], from)
  {
    seq(|chats|, k requires 0 <= k < |chats| => ChatMessageEnvelope(chats[k], from))
  }

  /** Wrapping commutes with concatenation. */
  lemma WrapAppend(a: seq<ChatMessage>, b: seq<ChatMessage>, from: Option<string>)
    ensures Wrap(a + b, from) == Wrap(a, from) + Wrap(b, from)
  {
    assert |Wrap(a + b, from)| == |Wrap(a, from) + Wrap(b, from)|;
    forall k | 0 <= k < |a + b|
      ensures Wrap(a + b, from)[k] == (Wrap(a, from) + Wrap(b, from))[k]
    {
      if k < |a| {
        assert (a + b)[k] == a[k];
      } else {
        assert (a + b)[k] == b[k - |a|];
      }
    }
  }

  /** One message through the normaliser: a provider-native message passes
      through as it is; any other becomes its translations, each wrapped with the
      message's author, or the message itself when the translation is empty. */
  function ProcessIncomingMessage(agentName: string, strict: bool, m: IMessage): (r: Result<seq<IMessage>, Error>)
    ensures m.ChatMessageEnvelope? ==> r == Success([m])
    ensures !m.ChatMessageEnvelope? ==> (r.Success? <==> Translate(agentName, strict, m).Success?)
    ensures r.Failure? ==> r == Translate(agentName, strict, m).PropagateFailure()
    ensures r.Success? ==> |r.value| >= 1
    ensures r.Success? ==> r.value == [m] || forall k :: 0 <= k < |r.value| ==>
      r.value[k].ChatMessageEnvelope? && r.value[k].from == m.From()
    ensures r.Success? && !m.ChatMessageEnvelope? ==>
      (r.value == [m] <==> Translate(agentName, strict, m).value == [])
    ensures r.Success? && !m.ChatMessageEnvelope? && Translate(agentName, strict, m).value != [] ==>
      r.value == Wrap(Translate(agentName, strict, m).value, m.From())
  {
    if m.ChatMessageEnvelope? then Success([m])
    else
      match Translate(agentName, strict, m)
      case Failure(e) => Failure(e)
      case Success(chats) =>
        if |chats| > 0 then
          assert Wrap(chats, m.From())[0] != m;
          Success(Wrap(chats, m.From()))
        else Success([m])
  }

  /** Per-message outputs concatenated in order; the first failing output makes
      the whole fail. */
  function Flatten(rs: seq<Result<seq<IMessage>, Error>>): (r: Result<seq<IMessage>, Error>)
    ensures r.Success? <==> forall i :: 0 <= i < |rs| ==> rs[i].Success?
    ensures r.Failure? ==>
      exists i :: 0 <= i < |rs| && rs[i] == Failure(r.error) && forall k :: 0 <= k < i ==> rs[k].Success?
  {
    if rs == [] then Success([])
    else
      assert forall k :: 1 <= k < |rs| ==> rs[1..][k - 1] == rs[k];
      match rs[0]
      case Failure(e) => Failure(e)
      case Success(head) =>
        match Flatten(rs[1..])
        case Failure(e) => Failure(e)
        case Success(tail) => Success(head + tail)
  }

  /** Flattening a concatenation flattens each half. */
  lemma {:induction false} FlattenAppend(x: seq<Result<seq<IMessage>, Error>>, y: seq<Result<seq<IMessage>, Error>>)
    requires Flatten(x).Success? && Flatten(y).Success?
    ensures Flatten(x + y) == Success(Flatten(x).value + Flatten(y).value)
  {
    if x == [] {
      assert x + y == y;
      assert [] + Flatten(y).value == Flatten(y).value;
    } else {
      assert (x + y)[0] == x[0] && (x + y)[1..] == x[1..] + y;
      FlattenAppend(x[1..], y);
      var hv, tv, yv := x[0].value, Flatten(x[1..]).value, Flatten(y).value;
      assert hv + (tv + yv) == (hv + tv) + yv;
    }
  }

  /** Outputs that are each non-empty flatten to at least one message per output. */
  lemma {:induction false} FlattenLength(rs: seq<Result<seq<IMessage>, Error>>)
    requires forall i :: 0 <= i < |rs| ==> rs[i].Success? ==> |rs[i].value| >= 1
    ensures Flatten(rs).Success? ==> |Flatten(rs).value| >= |rs|
  {
    if rs != [] {
      assert forall k :: 1 <= k < |rs| ==> rs[1..][k - 1] == rs[k];
      FlattenLength(rs[1..]);
    }
  }

  /** The output of every message of a conversation, in order. */
  function Outputs(agentName: string, strict: bool, ms: seq<IMessage>): (rs: seq<Result<seq<IMessage>, Error>>)
    ensures |rs| == |ms|
    ensures forall i :: 0 <= i < |ms| ==> rs[i] == ProcessIncomingMessage(agentName, strict, ms[i])
  {
    seq(|ms|, i requires 0 <= i < |ms| => ProcessIncomingMessage(agentName, strict, ms[i]))
  }

  /** The outbound normaliser over a whole conversation: the messages' outputs in
      order; the first message that fails makes the whole call fail. */
  function ProcessIncomingMessages(agentName: string, strict: bool, ms: seq<IMessage>): (r: Result<seq<IMessage>, Error>)
    ensures r.Success? <==> forall i :: 0 <= i < |ms| ==> ProcessIncomingMessage(agentName, strict, ms[i]).Success?
    ensures r.Failure? ==>
      exists i :: 0 <= i < |ms| && ProcessIncomingMessage(agentName, strict, ms[i]) == Failure(r.error) &&
                  forall k :: 0 <= k < i ==> ProcessIncomingMessage(agentName, strict, ms[k]).Success?
    ensures r.Success? ==> |r.value| >= |ms|
  {
    var rs := Outputs(agentName, strict, ms);
    FlattenLength(rs);
    Flatten(rs)
  }

  /** Normalising a non-empty conversation: the first message's output, then the rest's. */
  lemma ProcessIncomingMessagesCons(agentName: string, strict: bool, h: IMessage, t: seq<IMessage>)
    requires ProcessIncomingMessage(agentName, strict, h).Success?
    requires ProcessIncomingMessages(agentName, strict, t).Success?
    ensures ProcessIncomingMessages(agentName, strict, [h] + t) ==
      Success(ProcessIncomingMessage(agentName, strict, h).value + ProcessIncomingMessages(agentName, strict, t).value)
  {
    var rs := Outputs(agentName, strict, [h] + t);
    assert rs[0] == ProcessIncomingMessage(agentName, strict, h);
    assert rs[1..] == Outputs(agentName, strict, t);
  }

  /** Normalising a concatenation normalises each half. */
  lemma ProcessIncomingMessagesAppend(agentName: string, strict: bool, a: seq<IMessage>, b: seq<IMessage>)
    requires ProcessIncomingMessages(agentName, strict, a).Success?
    requires ProcessIncomingMessages(agentName, strict, b).Success?
    ensures ProcessIncomingMessages(agentName, strict, a + b) ==
      Success(ProcessIncomingMessages(agentName, strict, a).value + ProcessIncomingMessages(agentName, strict, b).value)
  {
    var x, y := Outputs(agentName, strict, a), Outputs(agentName, strict, b);
    assert Outputs(agentName, strict, a + b) == x + y;
    FlattenAppend(x, y);
  }

  /** A conversation of provider-native messages passes through unchanged. */
  lemma {:induction false} NativeMessagesPassThrough(agentName: string, strict: bool, ms: seq<IMessage>)
    requires forall i :: 0 <= i < |ms| ==> ms[i].ChatMessageEnvelope?
    ensures ProcessIncomingMessages(agentName, strict, ms) == Success(ms)
  {
    if ms == [] {
      assert Outputs(agentName, strict, ms) == [];
    } else {
      NativeMessagesPassThrough(agentName, strict, ms[1..]);
      assert ms == [ms[0]] + ms[1..];
      ProcessIncomingMessagesCons(agentName, strict, ms[0], ms[1..]);
    }
  }

  /** What one message produces is a fixed point of the normaliser. */
  lemma OneMessageOutputIsFixed(agentName: string, strict: bool, m: IMessage)
    requires ProcessIncomingMessage(agentName, strict, m).Success?
    ensures var out := ProcessIncomingMessage(agentName, strict, m).value;
      ProcessIncomingMessages(agentName, strict, out) == Success(out)
  {
    var out := ProcessIncomingMessage(agentName, strict, m).value;
    if out == [m] {
      assert Outputs(agentName, strict, []) == [];
      ProcessIncomingMessagesCons(agentName, strict, m, []);
      assert [m] + [] == [m] && out + [] == out;
    } else {
      NativeMessagesPassThrough(agentName, strict, out);
    }
  }

  /** The normaliser is idempotent: normalising its output changes nothing. */
  lemma {:induction false} ProcessIncomingMessagesIdempotent(agentName: string, strict: bool, ms: seq<IMessage>)
    requires ProcessIncomingMessages(agentName, strict, ms).Success?
    ensures var out := ProcessIncomingMessages(agentName, strict, ms).value;
      ProcessIncomingMessages(agentName, strict, out) == Success(out)
  {
    if ms != [] {
      var head := ProcessIncomingMessage(agentName, strict, ms[0]).value;
      var tail := ProcessIncomingMessages(agentName, strict, ms[1..]).value;
      assert ms == [ms[0]] + ms[1..];
      ProcessIncomingMessagesCons(agentName, strict, ms[0], ms[1..]);
      OneMessageOutputIsFixed(agentName, strict, ms[0]);
      ProcessIncomingMessagesIdempotent(agentName, strict, ms[1..]);
      ProcessIncomingMessagesAppend(agentName, strict, head, tail);
    }
  }

  /** An aggregate authored by the agent itself normalises to what its two parts
      give as separate messages, when both parts share its author and at least
      one result survives the filter. */
  lemma AggregateAsParts(agentName: string, strict: bool, call: ToolCallMsg, result: ToolCallResultMsg)
    requires !AuthoredByOther(call.from, agentName) && result.from == call.from
    requires WithResults(result.toolCalls) != []
    ensures ProcessIncomingMessages(agentName, strict, [AggregateMessage(call, result, call.from)]) ==
      ProcessIncomingMessages(agentName, strict, [ToolCallMessage(call), ToolCallResultMessage(result)])
  {
    var agg := AggregateMessage(call, result, call.from);
    var c, t := ToolCallMessage(call), ToolCallResultMessage(result);
    var a := ProcessToolCallMessage(agentName, call).value;
    var rs := ProcessToolCallResultMessage(result);
    assert Translate(agentName, strict, agg) == Success(a + rs);
    assert Translate(agentName, strict, c) == Success(a);
    assert Translate(agentName, strict, t) == Success(rs);
    WrapAppend(a, rs, call.from);
    var wa, wr := Wrap(a, call.from), Wrap(rs, call.from);
    assert ProcessIncomingMessage(agentName, strict, agg) == Success(wa + wr);
    assert ProcessIncomingMessage(agentName, strict, c) == Success(wa);
    assert ProcessIncomingMessage(agentName, strict, t) == Success(wr);
    assert Outputs(agentName, strict, []) == [];
    ProcessIncomingMessagesCons(agentName, strict, t, []);
    ProcessIncomingMessagesCons(agentName, strict, c, [t]);
    ProcessIncomingMessagesCons(agentName, strict, agg, []);
    assert [c] + [t] == [c, t] && [t] + [] == [t] && [agg] + [] == [agg];
    assert (wa + wr) + [] == wa + (wr + []);
  }
  // ---------------------------------------------------------------------
  // Inbound
  // ---------------------------------------------------------------------

  /** The tool call of the generic model for a provider tool call. */
  function FromChatToolCall(tc: ChatToolCall): ToolCall {
    ToolCall(tc.functionName, tc.functionArguments, Some(tc.id), None)
  }

  /** A completion becomes a conversation message by its finish reason; the first
      content part's text is read before the reason is examined. */
  function PostProcessChatResponseMessage(completion: ChatCompletion, from: Option<string>): (r: Result<IMessage, Error>)
    ensures completion.content == [] ==> r == Failure(MissingContent)
    ensures completion.finishReason == Length ==> r.Failure?
    ensures completion.finishReason == ContentFilter ==> r.Failure?
    ensures completion.finishReason.OtherReason? ==> r.Failure?
    ensures completion.content != [] && completion.finishReason == Length ==> r.error == LengthExceeded
    ensures completion.content != [] && completion.finishReason == ContentFilter ==> r.error == ContentFiltered
    ensures completion.content != [] && completion.finishReason.OtherReason? ==> r.error == InvalidChatResponse
    ensures r.Success? ==> r.value.From() == from
    ensures completion.content != [] && completion.finishReason == Stop ==>
      r == Success(TextMessage(Assistant, completion.content[0], from))
    ensures completion.content != [] && completion.finishReason == ToolCalls ==>
      r.Success? && r.value.ToolCallMessage? && r.value.call.content == Some(completion.content[0]) &&
      |r.value.call.toolCalls| == |completion.toolCalls| &&
      forall i :: 0 <= i < |completion.toolCalls| ==> r.value.call.toolCalls[i] == FromChatToolCall(completion.toolCalls[i])
    ensures completion.content != [] && completion.finishReason == FunctionCall ==>
      (r.Success? <==> completion.functionCall.Some?) &&
      (r.Failure? ==> r.error == MissingFunctionCall) &&
      (r.Success? ==> r.value == ToolCallMessage(ToolCallMsg(
        [ToolCall(completion.functionCall.value.functionName, completion.functionCall.value.functionArguments, None, None)],
        Some(completion.content[0]), from)))
  {
    if completion.content == [] then Failure(MissingContent)
    else
      var textContent := completion.content[0];
      match completion.finishReason
      case Stop => Success(TextMessage(Assistant, textContent, from))
      case ToolCalls =>
        var calls := seq(|completion.toolCalls|, i requires 0 <= i < |completion.toolCalls| =>
          FromChatToolCall(completion.toolCalls[i]));
        Success(ToolCallMessage(ToolCallMsg(calls, Some(textContent), from)))
      case FunctionCall =>
        (match completion.functionCall
         case None => Failure(MissingFunctionCall)
         case Some(fc) => Success(ToolCallMessage(ToolCallMsg(
           [ToolCall(fc.functionName, fc.functionArguments, None, None)], Some(textContent), from))))
      case Length => Failure(LengthExceeded)
      case ContentFilter => Failure(ContentFiltered)
      case OtherReason(_) => Failure(InvalidChatResponse)
  }

  /** A reply that is a completion is converted; any other is returned as it is
      in lenient mode and is an error in strict mode. */
  function PostProcessMessage(strict: bool, m: IMessage): (r: Result<IMessage, Error>)
    ensures !m.CompletionEnvelope? && !strict ==> r == Success(m)
    ensures !m.CompletionEnvelope? && strict ==> r == Failure(InvalidReturnType)
    ensures m.CompletionEnvelope? ==> r == PostProcessChatResponseMessage(m.completion, m.from)
    ensures m.CompletionEnvelope? && r.Success? ==>
      r.value.From() == m.from && (r.value.TextMessage? || r.value.ToolCallMessage?)
  {
    match m
    case CompletionEnvelope(completion, from) => PostProcessChatResponseMessage(completion, from)
    case _ => if !strict then Success(m) else Failure(InvalidReturnType)
  }

  /** Sending a tool-call message and reading back a completion that repeats its
      tool calls with finish reason ToolCalls gives a tool-call message with the
      same names and arguments, in order, each with the id it was sent with. */
  lemma ToolCallRoundTrip(agentName: string, call: ToolCallMsg, text: string, from: Option<string>)
    requires !AuthoredByOther(call.from, agentName)
    ensures var sent := ProcessToolCallMessage(agentName, call).value[0];
      var back := PostProcessChatResponseMessage(ChatCompletion([text], ToolCalls, sent.toolCalls, None), from);
      back.Success? && back.value.ToolCallMessage? &&
      |back.value.call.toolCalls| == |call.toolCalls| &&
      forall i :: 0 <= i < |call.toolCalls| ==>
        back.value.call.toolCalls[i].functionName == call.toolCalls[i].functionName &&
        back.value.call.toolCalls[i].functionArguments == call.toolCalls[i].functionArguments &&
        back.value.call.toolCalls[i].toolCallId == Some(ResolvedId(call.toolCalls[i], i)) &&
        (call.toolCalls[i].toolCallId.Some? ==> back.value.call.toolCalls[i].toolCallId == call.toolCalls[i].toolCallId)
  {
  }
}
