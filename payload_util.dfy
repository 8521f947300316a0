/** `payload_util`: the chat-completion request body sent to the provider. */
module PayloadUtil {
  import opened Records
  import opened PySeq
  import PromptManager

  /** One entry of the request's `messages` list. */
  datatype ChatEntry = ChatEntry(role: string, content: string)

  /** The request body `generate_openai_payload` builds. `tools`,
      `toolChoice` and `seed` are `None` when the key is not inserted. */
  datatype Payload = Payload(
    model: string,
    messages: seq<ChatEntry>,
    temperature: real,
    topP: real,
    maxTokens: int,
    stream: bool,
    tools: Option<seq<ToolSpec>>,
    toolChoice: Option<string>,
    seed: Option<int>)

  const DeviceLinePrefix := "【当前设备】"

  /** The entries placed before the context: the system prompt when it is
      non-empty, then the device line. */
  function Header(systemPrompt: string, device: string): seq<ChatEntry>
  {
    (if systemPrompt != "" then [ChatEntry("system", systemPrompt)] else [])
    + [ChatEntry("system", DeviceLinePrefix + device)]
  }

  function HeaderSize(systemPrompt: string): nat
  {
    if systemPrompt != "" then 2 else 1
  }

  /** Context entries reduced to `role` and `content`. */
  function Projected(context: seq<ContextEntry>): (r: seq<ChatEntry>)
    requires AllHaveRole(context)
    ensures |r| == |context|
    decreases |context|
  {
    if context == [] then []
    else
      var last := context[|context| - 1].msg;
      Projected(context[..|context| - 1]) + [ChatEntry(last.role, last.content)]
  }

  /** New message texts, each under the one given role. */
  function Wrapped(messages: seq<string>, role: string): seq<ChatEntry>
    decreases |messages|
  {
    if messages == [] then []
    else Wrapped(messages[..|messages| - 1], role) + [ChatEntry(role, messages[|messages| - 1])]
  }

  /** The list `build_messages` returns, as a specification. */
  function Layout(systemPrompt: string, context: seq<ContextEntry>, messages: seq<string>,
                  role: string, device: string): seq<ChatEntry>
    requires AllHaveRole(context)
  {
    Header(systemPrompt, device) + Projected(context) + Wrapped(messages, role)
  }

  lemma {:induction false} ProjectedAt(context: seq<ContextEntry>)
    requires AllHaveRole(context)
    ensures forall i :: 0 <= i < |context| ==>
              Projected(context)[i] == ChatEntry(context[i].msg.role, context[i].msg.content)
    decreases |context|
  {
    if context != [] {
      ProjectedAt(context[..|context| - 1]);
    }
  }

  lemma {:induction false} WrappedAt(messages: seq<string>, role: string)
    ensures |Wrapped(messages, role)| == |messages|
    ensures forall j :: 0 <= j < |messages| ==> Wrapped(messages, role)[j] == ChatEntry(role, messages[j])
    decreases |messages|
  {
    if messages != [] {
      WrappedAt(messages[..|messages| - 1], role);
    }
  }

  /** The order and length laws of the layout: optional system prompt, device
      line, every context entry in order reduced to role and content, then
      every new message under `role`. */
  lemma LayoutLaws(systemPrompt: string, context: seq<ContextEntry>, messages: seq<string>,
                   role: string, device: string)
    requires AllHaveRole(context)
    ensures var l := Layout(systemPrompt, context, messages, role, device);
            var h := HeaderSize(systemPrompt);
            && |l| == h + |context| + |messages|
            && (systemPrompt != "" ==> l[0] == ChatEntry("system", systemPrompt))
            && l[h - 1] == ChatEntry("system", DeviceLinePrefix + device)
            && (forall i :: 0 <= i < |context| ==>
                  l[h + i] == ChatEntry(context[i].msg.role, context[i].msg.content))
            && (forall j :: 0 <= j < |messages| ==>
                  l[h + |context| + j] == ChatEntry(role, messages[j]))
  {
    HeaderAt(systemPrompt, device);
    LayoutContextAt(systemPrompt, context, messages, role, device);
    LayoutMessagesAt(systemPrompt, context, messages, role, device);
  }

  lemma LayoutContextAt(systemPrompt: string, context: seq<ContextEntry>, messages: seq<string>,
                        role: string, device: string)
    requires AllHaveRole(context)
    ensures var l := Layout(systemPrompt, context, messages, role, device);
            var h := HeaderSize(systemPrompt);
            |l| >= h + |context| &&
            forall i :: 0 <= i < |context| ==> l[h + i] == ChatEntry(context[i].msg.role, context[i].msg.content)
  {
    HeaderAt(systemPrompt, device);
    forall i | 0 <= i < |context|
      ensures Layout(systemPrompt, context, messages, role, device)[HeaderSize(systemPrompt) + i]
              == ChatEntry(context[i].msg.role, context[i].msg.content)
    {
      LayoutContextEntry(systemPrompt, context, messages, role, device, i);
    }
  }

  lemma LayoutContextEntry(systemPrompt: string, context: seq<ContextEntry>, messages: seq<string>,
                           role: string, device: string, i: int)
    requires AllHaveRole(context) && 0 <= i < |context|
    ensures |Layout(systemPrompt, context, messages, role, device)| > HeaderSize(systemPrompt) + i
    ensures Layout(systemPrompt, context, messages, role, device)[HeaderSize(systemPrompt) + i]
            == ChatEntry(context[i].msg.role, context[i].msg.content)
  {
    var head, p := Header(systemPrompt, device), Projected(context);
    HeaderAt(systemPrompt, device);
    ProjectedAt(context);
    assert (head + p)[|head| + i] == p[i];
  }

  lemma LayoutMessagesAt(systemPrompt: string, context: seq<ContextEntry>, messages: seq<string>,
                         role: string, device: string)
    requires AllHaveRole(context)
    ensures var l := Layout(systemPrompt, context, messages, role, device);
            var h := HeaderSize(systemPrompt);
            |l| == h + |context| + |messages| &&
            forall j :: 0 <= j < |messages| ==> l[h + |context| + j] == ChatEntry(role, messages[j])
  {
    var l := Layout(systemPrompt, context, messages, role, device);
    var front, w := Header(systemPrompt, device) + Projected(context), Wrapped(messages, role);
    HeaderAt(systemPrompt, device);
    WrappedAt(messages, role);
    assert |front| == HeaderSize(systemPrompt) + |context|;
    forall j | 0 <= j < |messages|
      ensures l[|front| + j] == ChatEntry(role, messages[j])
    {
      assert l[|front| + j] == w[j];
    }
  }

  lemma HeaderAt(systemPrompt: string, device: string)
    ensures var head := Header(systemPrompt, device);
            && |head| == HeaderSize(systemPrompt)
            && (systemPrompt != "" ==> head[0] == ChatEntry("system", systemPrompt))
            && head[|head| - 1] == ChatEntry("system", DeviceLinePrefix + device)
  {
  }

  /** `build_messages`, two loops filling a local list. A context entry
      without a `role` key makes the source raise `KeyError`; the
      precondition states that the caller must not pass one. */
  method BuildMessages(systemPrompt: string, context: seq<ContextEntry>, messages: seq<string>,
                       role: string, device: string) returns (final: seq<ChatEntry>)
    requires AllHaveRole(context)
    ensures final == Layout(systemPrompt, context, messages, role, device)
  {
    final := [];
    if systemPrompt != "" {
      final := final + [ChatEntry("system", systemPrompt)];
    }
    final := final + [ChatEntry("system", DeviceLinePrefix + device)];
    for i := 0 to |context|
      invariant final == Header(systemPrompt, device) + Projected(context[..i])
    {
      final := final + [ChatEntry(context[i].msg.role, context[i].msg.content)];
      assert context[..i + 1][..i] == context[..i];
    }
    assert context[..|context|] == context;
    for j := 0 to |messages|
      invariant final == Header(systemPrompt, device) + Projected(context) + Wrapped(messages[..j], role)
    {
      final := final + [ChatEntry(role, messages[j])];
      assert messages[..j + 1][..j] == messages[..j];
    }
    assert messages[..|messages|] == messages;
  }

  /** Python truthiness of the `tools` argument: present and non-empty. */
  predicate Offered(tools: Option<seq<ToolSpec>>)
  {
    tools.Some? && tools.value != []
  }

  function OrElse<T>(o: Option<T>, default: T): T
  {
    if o.Some? then o.value else default
  }

  /** `generate_openai_payload`: the full prompt of `promptType` and the
      layout above, the provider's sampling values or their defaults, and the
      optional keys inserted one by one. */
  function GenerateOpenAiPayload(promptType: string, messages: seq<string>, role: string,
                                 context: seq<ContextEntry>, ai: AiConfig, device: string,
                                 tools: Option<seq<ToolSpec>>, prompts: PromptManager.Prompts): (p: Payload)
    requires AllHaveRole(context)
    ensures p.model == ai.model
    ensures p.messages == Layout(PromptManager.FullPromptOf(prompts, promptType), context, messages, role, device)
    ensures p.temperature == OrElse(ai.temperature, 0.7) && p.topP == OrElse(ai.topP, 1.0)
    ensures p.maxTokens == OrElse(ai.maxTokens, 1024) && p.stream == OrElse(ai.stream, false)
    ensures p.tools.Some? <==> Offered(tools)
    ensures p.toolChoice.Some? <==> Offered(tools)
    ensures Offered(tools) ==> p.tools == tools && p.toolChoice == Some(OrElse(ai.toolChoice, "auto"))
    ensures p.seed == ai.seed
  {
    var systemPrompt := PromptManager.FullPromptOf(prompts, promptType);
    var payload := Payload(ai.model, Layout(systemPrompt, context, messages, role, device),
                           OrElse(ai.temperature, 0.7), OrElse(ai.topP, 1.0),
                           OrElse(ai.maxTokens, 1024), OrElse(ai.stream, false),
                           None, None, None);
    var withTools := if Offered(tools)
                     then payload.(tools := tools, toolChoice := Some(OrElse(ai.toolChoice, "auto")))
                     else payload;
    if ai.seed.Some? then withTools.(seed := ai.seed) else withTools
  }

  /** `generate_payload` with the `return payload` that the function evidently
      intends: the OpenAI-format body for the four supported providers, and
      nothing for any other. The configuration is looked up by id; both
      callers have already checked that it exists. */
  function GeneratePayload(promptType: string, messages: seq<string>, role: string,
                           context: seq<ContextEntry>, aiRef: string, device: string,
                           tools: Option<seq<ToolSpec>>, prompts: PromptManager.Prompts,
                           ais: map<string, AiConfig>): (r: Option<Payload>)
    requires aiRef in ais && (Supported(ais[aiRef].provider) ==> AllHaveRole(context))
    ensures r.Some? <==> Supported(ais[aiRef].provider)
    ensures r.Some? ==> r.value == GenerateOpenAiPayload(promptType, messages, role, context,
                                                          ais[aiRef], device, tools, prompts)
  {
    var ai := ais[aiRef];
    if Supported(ai.provider)
    then Some(GenerateOpenAiPayload(promptType, messages, role, context, ai, device, tools, prompts))
    else None
  }

  /** `generate_payload` as written: the body is built for a supported
      provider and then dropped, because the function ends without a
      `return`, so every call yields `None`. */
  function GeneratePayloadAsWritten(promptType: string, messages: seq<string>, role: string,
                                    context: seq<ContextEntry>, aiRef: string, device: string,
                                    tools: Option<seq<ToolSpec>>, prompts: PromptManager.Prompts,
                                    ais: map<string, AiConfig>): (r: Option<Payload>)
    requires aiRef in ais && (Supported(ais[aiRef].provider) ==> AllHaveRole(context))
    ensures r == None
  {
    var ai := ais[aiRef];
    if Supported(ai.provider) then
      var dropped := GenerateOpenAiPayload(promptType, messages, role, context, ai, device, tools, prompts);
      None
    else None
  }

  /** The discrepancy: for every supported provider the written function
      loses the body that the corrected one returns. */
  lemma AsWrittenLosesPayload(promptType: string, messages: seq<string>, role: string,
                              context: seq<ContextEntry>, aiRef: string, device: string,
                              tools: Option<seq<ToolSpec>>, prompts: PromptManager.Prompts,
                              ais: map<string, AiConfig>)
    requires aiRef in ais && AllHaveRole(context) && Supported(ais[aiRef].provider)
    ensures GeneratePayloadAsWritten(promptType, messages, role, context, aiRef, device, tools, prompts, ais) == None
    ensures GeneratePayload(promptType, messages, role, context, aiRef, device, tools, prompts, ais).Some?
  {
  }

  /** When the context already ends with the user's turn and the same text is
      passed again as the new message, the request carries that turn twice in
      a row. */
  lemma RepeatedUserTurn(systemPrompt: string, context: seq<ContextEntry>, text: string, device: string)
    requires AllHaveRole(context) && context != []
    requires context[|context| - 1].msg.role == "user" && context[|context| - 1].msg.content == text
    ensures var l := Layout(systemPrompt, context, [text], "user", device);
            |l| >= 2 && l[|l| - 1] == ChatEntry("user", text) && l[|l| - 2] == ChatEntry("user", text)
  {
    LayoutLaws(systemPrompt, context, [text], "user", device);
  }
}
