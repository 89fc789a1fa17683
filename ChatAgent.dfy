/** The chat agent: the system-message injection in front of the conversation
    and the merging of configured and per-call tools and stop sequences into
    the completion settings. The client and the network calls are not modelled. */
module ChatAgent {
  import opened Wrappers
  import opened Messages
  import opened FunctionContracts

  /** The system message an agent uses when none is given. */
  const DefaultSystemMessage: string := "You are a helpful AI assistant"

  /** The default token budget. */
  const DefaultMaxTokens: int := 1024

  /** A 32-bit float, carried by its bit pattern and never computed with. */
  datatype Float32 = Float32(bits: bv32)

  /** The default temperature 0.7, as the nearest 32-bit float. */
  const DefaultTemperature: Float32 := Float32(0x3F33_3333)

  /** The provider's response format, known only by its name. */
  datatype ResponseFormat = ResponseFormat(name: string)

  /** A tool offered to the model: a function with its parameter schema. */
  datatype ChatTool = FunctionTool(functionName: string, description: Option<string>, parameters: ObjectSchema)

  /** The per-call options that reach the settings: functions and stop sequences. */
  datatype GenerateReplyOptions = GenerateReplyOptions(
    functions: Option<seq<FunctionContract>>,
    stopSequence: Option<seq<string>>)

  /** The value of a settings object at one moment. */
  datatype Settings = Settings(
    temperature: Option<Float32>,
    maxTokens: Option<int>,
    seed: Option<int>,
    responseFormat: Option<ResponseFormat>,
    tools: seq<ChatTool>,
    stopSequences: seq<string>)

  /** The completion settings, whose tool and stop lists grow in place. */
  class ChatCompletionOptions {
    var temperature: Option<Float32>
    var maxTokens: Option<int>
    var seed: Option<int>
    var responseFormat: Option<ResponseFormat>
    var tools: seq<ChatTool>
    var stopSequences: seq<string>

    function View(): Settings
      reads this
    {
      Settings(temperature, maxTokens, seed, responseFormat, tools, stopSequences)
    }

    /** Settings with the given scalars and no tools or stop sequences. */
    constructor (temperature: Option<Float32>, maxTokens: Option<int>, seed: Option<int>, responseFormat: Option<ResponseFormat>)
      ensures View() == Settings(temperature, maxTokens, seed, responseFormat, [], [])
    {
      this.temperature := temperature;
      this.maxTokens := maxTokens;
      this.seed := seed;
      this.responseFormat := responseFormat;
      tools := [];
      stopSequences := [];
    }

    method AddTool(t: ChatTool)
      modifies this
      ensures View() == old(View()).(tools := old(tools) + [t])
    {
      tools := tools + [t];
    }

    method AddStopSequence(s: string)
      modifies this
      ensures View() == old(View()).(stopSequences := old(stopSequences) + [s])
    {
      stopSequences := stopSequences + [s];
    }

    /** Adds the tools one by one, in order. */
    method AddTools(ts: seq<ChatTool>)
      modifies this
      ensures View() == old(View()).(tools := old(tools) + ts)
    {
      for i := 0 to |ts|
        invariant View() == old(View()).(tools := old(tools) + ts[..i])
      {
        assert ts[..i + 1] == ts[..i] + [ts[i]];
        AddTool(ts[i]);
      }
      assert ts[..|ts|] == ts;
    }

    /** Adds the stop sequences one by one, in order. */
    method AddStopSequences(ss: seq<string>)
      modifies this
      ensures View() == old(View()).(stopSequences := old(stopSequences) + ss)
    {
      for i := 0 to |ss|
        invariant View() == old(View()).(stopSequences := old(stopSequences) + ss[..i])
      {
        assert ss[..i + 1] == ss[..i] + [ss[i]];
        AddStopSequence(ss[i]);
      }
      assert ss[..|ss|] == ss;
    }
  }

  // ---------------------------------------------------------------------
  // Specification of the per-call merge
  // ---------------------------------------------------------------------

  /** The per-call function contracts; a null options or a null list is empty. */
  function PerCallFunctions(o: Option<GenerateReplyOptions>): seq<FunctionContract> {
    if o.Some? then o.value.functions.GetOr([]) else []
  }

  /** The per-call stop sequences that are added: none unless the list is non-empty. */
  function PerCallStops(o: Option<GenerateReplyOptions>): seq<string> {
    if o.Some? && o.value.stopSequence.Some? && |o.value.stopSequence.value| > 0
    then o.value.stopSequence.value else []
  }

  /** The function definitions of the contracts, in order, or the error of the first
      contract that cannot be converted. */
  function Definitions(fs: seq<FunctionContract>): (r: Result<seq<FunctionDefinition>, Error>)
    ensures r.Success? <==> forall k :: 0 <= k < |fs| ==> FunctionDefinitionOf(fs[k]).Success?
    ensures r.Success? ==>
      |r.value| == |fs| && forall k :: 0 <= k < |fs| ==> r.value[k] == FunctionDefinitionOf(fs[k]).value
    ensures r.Failure? ==>
      exists k :: 0 <= k < |fs| && FunctionDefinitionOf(fs[k]).Failure? && r.error == FunctionDefinitionOf(fs[k]).error &&
                  forall j :: 0 <= j < k ==> FunctionDefinitionOf(fs[j]).Success?
  {
    if fs == [] then Success([])
    else
      match FunctionDefinitionOf(fs[0])
      case Failure(e) => Failure(e)
      case Success(d) =>
        var rest := Definitions(fs[1..]);
        assert forall k :: 1 <= k < |fs| ==> fs[1..][k - 1] == fs[k];
        if rest.Failure? then Failure(rest.error) else Success([d] + rest.value)
  }

  /** The conversion fails with the error of the first contract that fails. */
  lemma DefinitionsFailAt(fs: seq<FunctionContract>, i: nat)
    requires i < |fs| && FunctionDefinitionOf(fs[i]).Failure?
    requires forall k :: 0 <= k < i ==> FunctionDefinitionOf(fs[k]).Success?
    ensures Definitions(fs) == Failure(FunctionDefinitionOf(fs[i]).error)
  {
    var r := Definitions(fs);
    var k :| 0 <= k < |fs| && FunctionDefinitionOf(fs[k]).Failure? && r.error == FunctionDefinitionOf(fs[k]).error &&
             forall j :: 0 <= j < k ==> FunctionDefinitionOf(fs[j]).Success?;
    assert k == i;
  }

  /** One more converted contract extends the converted prefix. */
  lemma DefinitionsStep(fs: seq<FunctionContract>, i: nat, defs: seq<FunctionDefinition>, d: FunctionDefinition)
    requires i < |fs| && |defs| == i && FunctionDefinitionOf(fs[i]) == Success(d)
    requires forall k :: 0 <= k < i ==> FunctionDefinitionOf(fs[k]).Success? && defs[k] == FunctionDefinitionOf(fs[k]).value
    ensures forall k :: 0 <= k < i + 1 ==> FunctionDefinitionOf(fs[k]).Success? && (defs + [d])[k] == FunctionDefinitionOf(fs[k]).value
  {
  }

  /** Definitions of all contracts, in order, are the conversion's result. */
  lemma DefinitionsSucceed(fs: seq<FunctionContract>, defs: seq<FunctionDefinition>)
    requires |defs| == |fs|
    requires forall k :: 0 <= k < |fs| ==> FunctionDefinitionOf(fs[k]).Success? && defs[k] == FunctionDefinitionOf(fs[k]).value
    ensures Definitions(fs) == Success(defs)
  {
    assert Definitions(fs).value == defs;
  }

  /** The tool a function definition is offered as. */
  function ToolOf(d: FunctionDefinition): ChatTool {
    FunctionTool(d.functionName, d.description, d.parameters)
  }

  /** The settings a call uses: a copy of the configured scalars, the configured tools
      then the per-call functions as tools, the configured stop sequences then the
      per-call ones; or the error of the first function that cannot be converted. */
  function MergedSettings(configured: Settings, o: Option<GenerateReplyOptions>): Result<Settings, Error> {
    var defs :- Definitions(PerCallFunctions(o));
    Success(configured.(
      tools := configured.tools + seq(|defs|, k requires 0 <= k < |defs| => ToolOf(defs[k])),
      stopSequences := configured.stopSequences + PerCallStops(o)))
  }

  /** The merge succeeds exactly when every per-call function converts. */
  lemma MergedSettingsSucceeds(configured: Settings, o: Option<GenerateReplyOptions>)
    ensures MergedSettings(configured, o).Success? <==>
      forall k :: 0 <= k < |PerCallFunctions(o)| ==> FunctionDefinitionOf(PerCallFunctions(o)[k]).Success?
  {
  }

  /** The merged tools are the configured tools, then one tool per per-call function
      with that function's name, description and parameter schema. */
  lemma MergedSettingsTools(configured: Settings, o: Option<GenerateReplyOptions>)
    requires MergedSettings(configured, o).Success?
    ensures var fs, ts := PerCallFunctions(o), MergedSettings(configured, o).value.tools;
      |ts| == |configured.tools| + |fs| &&
      (forall i :: 0 <= i < |configured.tools| ==> ts[i] == configured.tools[i]) &&
      forall j :: 0 <= j < |fs| ==>
        ts[|configured.tools| + j] == FunctionTool(fs[j].name, fs[j].description, FunctionDefinitionOf(fs[j]).value.parameters)
  {
    var fs := PerCallFunctions(o);
    var defs := Definitions(fs).value;
    var added := seq(|defs|, k requires 0 <= k < |defs| => ToolOf(defs[k]));
    var ts := MergedSettings(configured, o).value.tools;
    assert ts == configured.tools + added;
    forall j | 0 <= j < |fs|
      ensures ts[|configured.tools| + j] == FunctionTool(fs[j].name, fs[j].description, FunctionDefinitionOf(fs[j]).value.parameters)
    {
      assert defs[j] == FunctionDefinitionOf(fs[j]).value;
      assert ts[|configured.tools| + j] == added[j] == ToolOf(defs[j]);
    }
  }

  /** The merged settings copy the configured scalars; their stop sequences are the
      configured ones, then the per-call ones. */
  lemma MergedSettingsStops(configured: Settings, o: Option<GenerateReplyOptions>)
    requires MergedSettings(configured, o).Success?
    ensures var s := MergedSettings(configured, o).value;
      s.temperature == configured.temperature && s.maxTokens == configured.maxTokens &&
      s.seed == configured.seed && s.responseFormat == configured.responseFormat &&
      s.stopSequences[..|configured.stopSequences|] == configured.stopSequences &&
      s.stopSequences[|configured.stopSequences|..] ==
        (if o.Some? && o.value.stopSequence.Some? then o.value.stopSequence.value else [])
  {
    var s := MergedSettings(configured, o).value;
    assert s.stopSequences == configured.stopSequences + PerCallStops(o);
    assert s.stopSequences[..|configured.stopSequences|] == configured.stopSequences;
  }

  /** A call without functions and stop sequences uses a copy of the configured settings. */
  lemma MergedSettingsWithoutOptions(configured: Settings)
    ensures MergedSettings(configured, None) == Success(configured)
    ensures MergedSettings(configured, Some(GenerateReplyOptions(Some([]), Some([])))) == Success(configured)
  {
    var none: seq<FunctionDefinition> := [];
    assert seq(|none|, k requires 0 <= k < |none| => ToolOf(none[k])) == [];
    assert configured.tools + [] == configured.tools;
    assert configured.stopSequences + [] == configured.stopSequences;
  }

  // ---------------------------------------------------------------------
  // Specification of the system-message injection
  // ---------------------------------------------------------------------

  /** The provider messages carried by the envelopes, or an error when some message
      is not a provider-native envelope. */
  function ChatContents(ms: seq<IMessage>): (r: Result<seq<ChatMessage>, Error>)
    ensures r.Success? <==> forall k :: 0 <= k < |ms| ==> ms[k].ChatMessageEnvelope?
    ensures r.Success? ==> |r.value| == |ms| && forall k :: 0 <= k < |ms| ==> r.value[k] == ms[k].chat
    ensures r.Failure? ==> r.error == InvalidAgentMessageType
  {
    if ms == [] then Success([])
    else if !ms[0].ChatMessageEnvelope? then Failure(InvalidAgentMessageType)
    else
      var rest := ChatContents(ms[1..]);
      assert forall k :: 1 <= k < |ms| ==> ms[1..][k - 1] == ms[k];
      if rest.Failure? then rest else Success([ms[0].chat] + rest.value)
  }

  predicate HasSystemMessage(cs: seq<ChatMessage>) {
    exists k :: 0 <= k < |cs| && cs[k].SystemChat?
  }

  /** Some message of the conversation is an envelope around a system message. */
  predicate CarriesSystemMessage(ms: seq<IMessage>) {
    exists k :: 0 <= k < |ms| && ms[k].ChatMessageEnvelope? && ms[k].chat.SystemChat?
  }

  /** The contents hold a system message exactly when some envelope carries one. */
  lemma SystemMessagePresence(ms: seq<IMessage>)
    requires forall k :: 0 <= k < |ms| ==> ms[k].ChatMessageEnvelope?
    ensures HasSystemMessage(ChatContents(ms).value) <==> CarriesSystemMessage(ms)
  {
    var cs := ChatContents(ms).value;
    if HasSystemMessage(cs) {
      var k :| 0 <= k < |cs| && cs[k].SystemChat?;
      assert ms[k].chat.SystemChat?;
    }
    if CarriesSystemMessage(ms) {
      var k :| 0 <= k < |ms| && ms[k].ChatMessageEnvelope? && ms[k].chat.SystemChat?;
      assert cs[k].SystemChat?;
    }
  }

  /** Putting a system message in front of contents that have none. */
  lemma InjectedSystemMessage(cs: seq<ChatMessage>, text: string)
    ensures var out := [SystemChat(Some(text), None)] + cs;
      HasSystemMessage(out) && |out| == |cs| + 1 && out[0] == SystemChat(Some(text), None) &&
      forall k :: 0 <= k < |cs| ==> out[1 + k] == cs[k]
  {
    var out := [SystemChat(Some(text), None)] + cs;
    assert out[0].SystemChat?;
  }

  // ---------------------------------------------------------------------
  // The agent
  // ---------------------------------------------------------------------

  /** The agent: its name, its configured settings and its system message. */
  class OpenAIChatAgent {
    const name: string
    const options: ChatCompletionOptions
    const systemMessage: string

    /** An agent over the given settings. */
    constructor (name: string, options: ChatCompletionOptions, systemMessage: string := DefaultSystemMessage)
      ensures this.name == name && this.options == options && this.systemMessage == systemMessage
    {
      this.name := name;
      this.options := options;
      this.systemMessage := systemMessage;
    }

    /** An agent whose settings are built from the given scalars and tools. */
    constructor FromModel(
      name: string,
      modelName: string,
      systemMessage: string := DefaultSystemMessage,
      temperature: Float32 := DefaultTemperature,
      maxTokens: int := DefaultMaxTokens,
      seed: Option<int> := None,
      chatResponseFormat: Option<ResponseFormat> := None,
      functions: Option<seq<ChatTool>> := None)
      ensures this.name == name && this.systemMessage == systemMessage && fresh(options)
      ensures options.View() == Settings(Some(temperature), Some(maxTokens), seed, chatResponseFormat, functions.GetOr([]), [])
    {
      var o := BuildChatCompletionOptions(modelName, temperature, maxTokens, seed, chatResponseFormat, functions);
      this.name := name;
      this.options := o;
      this.systemMessage := systemMessage;
    }

    /** New settings with the given scalars and the given tools in order; the
        model name is not used. */
    static method BuildChatCompletionOptions(
      modelName: string,
      temperature: Float32 := DefaultTemperature,
      maxTokens: int := DefaultMaxTokens,
      seed: Option<int> := None,
      responseFormat: Option<ResponseFormat> := None,
      chatTools: Option<seq<ChatTool>> := None)
      returns (o: ChatCompletionOptions)
      ensures fresh(o)
      ensures o.View() == Settings(Some(temperature), Some(maxTokens), seed, responseFormat, chatTools.GetOr([]), [])
    {
      o := new ChatCompletionOptions(Some(temperature), Some(maxTokens), seed, responseFormat);
      if chatTools.Some? {
        var ts := chatTools.value;
        for i := 0 to |ts|
          invariant o.View() == Settings(Some(temperature), Some(maxTokens), seed, responseFormat, ts[..i], [])
        {
          assert ts[..i + 1] == ts[..i] + [ts[i]];
          o.AddTool(ts[i]);
        }
        assert ts[..|ts|] == ts;
      }
    }

    /** The provider messages sent for a conversation: the envelopes' contents, behind
        this agent's system message unless they already hold a system message. */
    function ConstructChatMessages(messages: seq<IMessage>): (r: Result<seq<ChatMessage>, Error>)
      ensures r.Success? <==> forall k :: 0 <= k < |messages| ==> messages[k].ChatMessageEnvelope?
      ensures r.Failure? ==> r.error == InvalidAgentMessageType
    {
      var contents :- ChatContents(messages);
      if HasSystemMessage(contents) then Success(contents)
      else Success([SystemChat(Some(systemMessage), None)] + contents)
    }

    /** A conversation that already carries a system message is sent as it is:
        the envelopes' contents, in order, with nothing added. */
    lemma ConstructChatMessagesKeepsSystemMessage(messages: seq<IMessage>)
      requires forall k :: 0 <= k < |messages| ==> messages[k].ChatMessageEnvelope?
      requires CarriesSystemMessage(messages)
      ensures |ConstructChatMessages(messages).value| == |messages|
      ensures forall k :: 0 <= k < |messages| ==> ConstructChatMessages(messages).value[k] == messages[k].chat
    {
      SystemMessagePresence(messages);
    }

    /** A conversation without a system message is sent behind this agent's system
        message: that message first, then the envelopes' contents in order. */
    lemma ConstructChatMessagesInjectsSystemMessage(messages: seq<IMessage>)
      requires forall k :: 0 <= k < |messages| ==> messages[k].ChatMessageEnvelope?
      requires !CarriesSystemMessage(messages)
      ensures |ConstructChatMessages(messages).value| == |messages| + 1
      ensures ConstructChatMessages(messages).value[0] == SystemChat(Some(systemMessage), None)
      ensures forall k :: 0 <= k < |messages| ==> ConstructChatMessages(messages).value[k + 1] == messages[k].chat
    {
      SystemMessagePresence(messages);
      var contents := ChatContents(messages).value;
      InjectedSystemMessage(contents, systemMessage);
      assert ConstructChatMessages(messages).value == [SystemChat(Some(systemMessage), None)] + contents;
    }

    /** What is sent always holds a system message. */
    lemma ConstructChatMessagesHasSystemMessage(messages: seq<IMessage>)
      requires forall k :: 0 <= k < |messages| ==> messages[k].ChatMessageEnvelope?
      ensures HasSystemMessage(ConstructChatMessages(messages).value)
    {
      var contents := ChatContents(messages).value;
      if !HasSystemMessage(contents) {
        InjectedSystemMessage(contents, systemMessage);
      }
    }

    /** Converts the contracts one by one, stopping at the first that fails. */
    static method ConvertFunctions(fs: seq<FunctionContract>) returns (r: Result<seq<FunctionDefinition>, Error>)
      ensures r == Definitions(fs)
    {
      var defs: seq<FunctionDefinition> := [];
      for i := 0 to |fs|
        invariant |defs| == i
        invariant forall k :: 0 <= k < i ==> FunctionDefinitionOf(fs[k]).Success?
        invariant forall k :: 0 <= k < i ==> defs[k] == FunctionDefinitionOf(fs[k]).value
      {
        var d := ToOpenAIFunctionDefinition(fs[i]);
        if d.Failure? {
          DefinitionsFailAt(fs, i);
          return Failure(d.error);
        }
        DefinitionsStep(fs, i, defs, d.value);
        defs := defs + [d.value];
      }
      DefinitionsSucceed(fs, defs);
      r := Success(defs);
    }

    /** The settings for one call, built as the source does: a copy of the configured
        scalars, the configured tools and stop sequences added back, then the per-call
        functions converted and added as tools, then the per-call stop sequences. */
    method CreateChatCompletionOptions(replyOptions: Option<GenerateReplyOptions>)
      returns (r: Result<ChatCompletionOptions, Error>)
      ensures r.Success? <==> MergedSettings(options.View(), replyOptions).Success?
      ensures r.Failure? ==> r.error == MergedSettings(options.View(), replyOptions).error
      ensures r.Success? ==> fresh(r.value) && r.value.View() == MergedSettings(options.View(), replyOptions).value
    {
      var settings := new ChatCompletionOptions(options.temperature, options.maxTokens, options.seed, options.responseFormat);
      settings.AddTools(options.tools);
      settings.AddStopSequences(options.stopSequences);
      assert settings.View() == options.View();

      var converted := ConvertFunctions(PerCallFunctions(replyOptions));
      if converted.Failure? {
        return Failure(converted.error);
      }
      var defs := converted.value;
      if |defs| > 0 {
        settings.AddTools(seq(|defs|, k requires 0 <= k < |defs| => ToolOf(defs[k])));
      } else {
        assert seq(|defs|, k requires 0 <= k < |defs| => ToolOf(defs[k])) == [];
        assert settings.tools + [] == settings.tools;
      }

      if replyOptions.Some? && replyOptions.value.stopSequence.Some? && |replyOptions.value.stopSequence.value| > 0 {
        settings.AddStopSequences(replyOptions.value.stopSequence.value);
      } else {
        assert settings.stopSequences + [] == settings.stopSequences;
      }
      r := Success(settings);
    }
  }
}
