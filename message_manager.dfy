/** `MessageManager.process_message`: store the client's tool result and
    text, ask the provider with the conversation's context, store and return
    its reply. The HTTP call of `_call_ai` is the parameter `post`: given the
    request line and the payload, the decoded reply, or `None` for a non-200
    status, a transport error, or a reply that decodes to an empty object. */
module MessageFlow {
  import opened Records
  import opened PySeq
  import opened AiResponse
  import opened PayloadUtil
  import Conversations
  import Compression
  import Transcript
  import PromptManager

  /** The fields of a chat request the flow reads. `toolResponse` is `None`
      when the key is missing or null; `otherKeys` says whether the object
      has keys besides `tool_call_id` and `content`, so that the empty object
      is `ToolResponse(None, None, false)`. Its `tool_call_id` is never read. */
  datatype ToolResponse = ToolResponse(toolCallId: Option<string>, content: Option<string>, otherKeys: bool)
  datatype Request = Request(
    conversation: Option<string>,
    device: Option<string>,
    message: Option<string>,
    toolResponse: Option<ToolResponse>,
    tools: Option<seq<ToolSpec>>)

  /** What the client receives on success. */
  datatype ClientReply = ClientReply(content: string, toolCalls: seq<ToolCall>, finishReason: Option<string>)

  /** `{"success", "response", "error"}` */
  datatype Outcome = Outcome(success: bool, response: Option<ClientReply>, error: Option<string>)

  function Failure(message: string): (o: Outcome)
    ensures !o.success && o.response.None? && o.error == Some(message)
  {
    Outcome(false, None, Some(message))
  }

  function Succeeded(reply: ClientReply): (o: Outcome)
    ensures o.success && o.response == Some(reply) && o.error.None?
  {
    Outcome(true, Some(reply), None)
  }

  /** The outcome of each `add_message` call's file writes, and of the
      writes of a compaction should one of those calls trigger it. At most
      one of the three can: the countdown restarts at 10 after an attempt. */
  datatype Disk = Disk(toolWrite: bool, userWrite: bool, replyWrite: bool, compactWrite: bool)

  /** The URL, headers and timeout `_call_ai` sends with. */
  datatype AiRequest = AiRequest(url: string, headers: seq<(string, string)>, timeout: int)

  type Poster = (AiRequest, Payload) -> Option<ProviderReply>

  const DefaultBaseUrl := "https://api.openai.com/v1"
  const OllamaBaseUrl := "http://localhost:11434"
  const JsonHeader := ("Content-Type", "application/json")

  /** `_call_ai`'s request line: ollama is addressed at `/api/chat` on a local
      host (any base URL not mentioning localhost is replaced) and without an
      API key; every other provider at `/chat/completions` of its base URL
      with a bearer token. Trailing slashes of the base URL are dropped. */
  function RequestFor(ai: AiConfig): (r: AiRequest)
    ensures r.timeout == (if ai.timeout.Some? then ai.timeout.value else 30)
    ensures ai.provider == "ollama" ==>
              && r.headers == [JsonHeader]
              && EndsWith(r.url, "/api/chat")
              && (!Contains(BaseUrl(ai), "localhost") ==> r.url == OllamaBaseUrl + "/api/chat")
              && (Contains(BaseUrl(ai), "localhost") ==> r.url == RStripChar(BaseUrl(ai), '/') + "/api/chat")
    ensures ai.provider != "ollama" ==>
              && r.headers == [JsonHeader, ("Authorization", "Bearer " + ai.apiKey)]
              && r.url == RStripChar(BaseUrl(ai), '/') + "/chat/completions"
  {
    var given := BaseUrl(ai);
    var isOllama := ai.provider == "ollama";
    var endpoint := if isOllama then "/api/chat" else "/chat/completions";
    var base := if isOllama && !Contains(given, "localhost") then OllamaBaseUrl else given;
    var headers := if isOllama then [JsonHeader] else [JsonHeader, ("Authorization", "Bearer " + ai.apiKey)];
    AiRequest(RStripChar(base, '/') + endpoint, headers,
              if ai.timeout.Some? then ai.timeout.value else 30)
  }

  /** `base_url`, defaulting to OpenAI's. */
  function BaseUrl(ai: AiConfig): string
  {
    if ai.baseUrl.Some? then ai.baseUrl.value else DefaultBaseUrl
  }

  /** An ollama configuration without a base URL goes to the local default
      port, since the OpenAI default does not mention localhost. */
  lemma OllamaDefaultsToLocal(ai: AiConfig)
    requires ai.provider == "ollama" && ai.baseUrl.None?
    ensures RequestFor(ai).url == OllamaBaseUrl + "/api/chat"
    ensures RequestFor(ai).headers == [JsonHeader]
  {
    NotContainsWithoutFirst(DefaultBaseUrl, "localhost");
    assert BaseUrl(ai) == DefaultBaseUrl;
  }

  /** The text counts as a user turn when it is a string that is not all
      whitespace. */
  predicate UserText(message: Option<string>)
  {
    message.Some? && Strip(message.value) != ""
  }

  function NewTurns(message: Option<string>): seq<string>
  {
    if UserText(message) then [message.value] else []
  }

  /** From the AI configuration lookup to the extracted reply, given the
      context read after the client's turns are stored. A summary in the
      context has no `role`, so building the messages raises `KeyError`, which
      the outer handler reports as `服务器错误: 'role'`; that happens only on
      the path where the messages are built, i.e. for a supported provider. */
  function Answer(meta: Metadata, context: seq<ContextEntry>, message: Option<string>, device: string,
                  tools: Option<seq<ToolSpec>>, ais: map<string, AiConfig>,
                  prompts: PromptManager.Prompts, post: Poster): (r: Result<Extracted, string>)
    ensures meta.ai !in ais ==> r == Err("AI配置不存在: " + meta.ai)
    ensures meta.ai in ais && Supported(ais[meta.ai].provider) && !AllHaveRole(context) ==>
              r == Err("服务器错误: 'role'")
    ensures meta.ai in ais && !Supported(ais[meta.ai].provider) ==> r == Err("生成请求参数失败")
    ensures r.Ok? <==>
              && meta.ai in ais && Supported(ais[meta.ai].provider) && AllHaveRole(context)
              && post(RequestFor(ais[meta.ai]),
                      GenerateOpenAiPayload(meta.prompt, NewTurns(message), "user", context,
                                            ais[meta.ai], device, tools, prompts)).Some?
    ensures r.Ok? ==>
              var reply := post(RequestFor(ais[meta.ai]),
                                GenerateOpenAiPayload(meta.prompt, NewTurns(message), "user", context,
                                                      ais[meta.ai], device, tools, prompts)).value;
              r.value == ExtractOpenAi(reply)
  {
    if meta.ai !in ais then Err("AI配置不存在: " + meta.ai)
    else
      var config := ais[meta.ai];
      if Supported(config.provider) && !AllHaveRole(context) then Err("服务器错误: 'role'")
      else
        var payload := GeneratePayload(meta.prompt, NewTurns(message), "user", context, meta.ai,
                              device, tools, prompts, ais);
        Dispatch(config, payload, post)
  }

  /** The same stretch with `generate_payload` as written. */
  function AnswerAsWritten(meta: Metadata, context: seq<ContextEntry>, message: Option<string>, device: string,
                           tools: Option<seq<ToolSpec>>, ais: map<string, AiConfig>,
                           prompts: PromptManager.Prompts, post: Poster): Result<Extracted, string>
  {
    if meta.ai !in ais then Err("AI配置不存在: " + meta.ai)
    else
      var config := ais[meta.ai];
      if Supported(config.provider) && !AllHaveRole(context) then Err("服务器错误: 'role'")
      else
        var payload := GeneratePayloadAsWritten(meta.prompt, NewTurns(message), "user", context, meta.ai,
                                       device, tools, prompts, ais);
        Dispatch(config, payload, post)
  }

  /** Send the payload and extract the reply, with the source's messages for
      each failure. */
  function Dispatch(config: AiConfig, payload: Option<Payload>, post: Poster): Result<Extracted, string>
  {
    match payload
    case None => Err("生成请求参数失败")
    case Some(p) =>
      match post(RequestFor(config), p)
      case None => Err("AI服务无响应")
      case Some(reply) =>
        match ExtractAiResponse(reply, config.provider)
        case None => Err("解析AI响应失败")
        case Some(e) => Ok(e)
  }

  /** As written, no message ever gets an answer: every request that reaches
      the payload step fails there. */
  lemma AsWrittenNeverAnswers(meta: Metadata, context: seq<ContextEntry>, message: Option<string>, device: string,
                              tools: Option<seq<ToolSpec>>, ais: map<string, AiConfig>,
                              prompts: PromptManager.Prompts, post: Poster)
    ensures AnswerAsWritten(meta, context, message, device, tools, ais, prompts, post).Err?
    ensures meta.ai in ais && AllHaveRole(context) ==>
              AnswerAsWritten(meta, context, message, device, tools, ais, prompts, post) == Err("生成请求参数失败")
  {
  }

  /** Once a conversation has a summary, every later message to a supported
      provider fails, because the context then starts with a record without a
      role. */
  lemma ArchivedConversationFails(meta: Metadata, t: Conversations.Tiers, message: Option<string>, device: string,
                                  tools: Option<seq<ToolSpec>>, ais: map<string, AiConfig>,
                                  prompts: PromptManager.Prompts, post: Poster)
    requires t.archive != [] && meta.ai in ais && Supported(ais[meta.ai].provider)
    ensures Answer(meta, Conversations.ContextFor(t), message, device, tools, ais, prompts, post)
            == Err("服务器错误: 'role'")
  {
    Conversations.ContextShape(t);
  }

  /** The provider caller that compaction uses: the same request `_call_ai`
      builds. */
  function CallerFor(post: Poster): Compression.AiCaller
  {
    (c: AiConfig, p: Payload) => post(RequestFor(c), p)
  }

  predicate HasFields(req: Request)
  {
    req.conversation.Some? && req.conversation.value != "" && req.device.Some? && req.device.value != ""
  }

  /** The roles of a history, in order. */
  function Roles(ms: seq<Message>): seq<string>
  {
    if ms == [] then [] else Roles(ms[..|ms| - 1]) + [ms[|ms| - 1].role]
  }

  lemma RolesAppend(ms: seq<Message>, m: Message)
    ensures Roles(ms + [m]) == Roles(ms) + [m.role]
  {
    assert (ms + [m])[..|ms|] == ms;
  }

  lemma {:induction false} RolesConcat(a: seq<Message>, b: seq<Message>)
    ensures Roles(a + b) == Roles(a) + Roles(b)
    decreases |b|
  {
    if b == [] {
      assert a + b == a;
    } else {
      var init, last := b[..|b| - 1], b[|b| - 1];
      RolesConcat(a, init);
      assert a + b == (a + init) + [last];
      RolesAppend(a + init, last);
      ConcatAssociative(Roles(a), Roles(init), [last.role]);
    }
  }

  /** The records `add_message` writes for a tool result, a user turn and a
      reply. */
  function ToolRecord(r: ToolResponse, now: int): Message
  {
    Conversations.NewMessage("tool", if r.content.Some? then r.content.value else "", None, None, 0, now)
  }

  function UserRecord(text: string, now: int): Message
  {
    Conversations.NewMessage("user", text, None, None, 0, now)
  }

  function ReplyRecord(e: Extracted, now: int): Message
  {
    Conversations.NewMessage("assistant", e.message, Some(e.tools), e.reason, e.tokens, now)
  }

  /** `if tool_response:` — present and not the empty object. */
  predicate HasToolTurn(req: Request)
  {
    req.toolResponse.Some?
    && (req.toolResponse.value.toolCallId.Some? || req.toolResponse.value.content.Some?
        || req.toolResponse.value.otherKeys)
  }

  /** The record step 3 adds: the tool result, when one came and was
      written. */
  function ToolPart(req: Request, disk: Disk, now: int): seq<Message>
  {
    if HasToolTurn(req) && disk.toolWrite then [ToolRecord(req.toolResponse.value, now)] else []
  }

  /** The record step 4 adds: the text, when it is not blank and was
      written. */
  function UserPart(req: Request, disk: Disk, now: int): seq<Message>
  {
    if UserText(req.message) && disk.userWrite then [UserRecord(req.message.value, now)] else []
  }

  /** The records steps 3 and 4 add to the raw history, in order. */
  function ClientTurns(req: Request, disk: Disk, now: int): seq<Message>
  {
    ToolPart(req, disk, now) + UserPart(req, disk, now)
  }

  /** The conversation after step 3. */
  function AfterTool(id: string, s: Conversations.Snapshot, req: Request, disk: Disk, now: int,
                     ais: map<string, AiConfig>, prompts: PromptManager.Prompts,
                     parse: Transcript.ObjectParser, callAi: Compression.AiCaller): Conversations.Snapshot
  {
    if HasToolTurn(req) && disk.toolWrite
    then Conversations.Added(id, s, ToolRecord(req.toolResponse.value, now), now, disk.compactWrite,
                             ais, prompts, parse, callAi)
    else s
  }

  /** The conversation after step 4. */
  function AfterUser(id: string, s: Conversations.Snapshot, req: Request, disk: Disk, now: int,
                     ais: map<string, AiConfig>, prompts: PromptManager.Prompts,
                     parse: Transcript.ObjectParser, callAi: Compression.AiCaller): Conversations.Snapshot
  {
    if UserText(req.message) && disk.userWrite
    then Conversations.Added(id, s, UserRecord(req.message.value, now), now, disk.compactWrite,
                             ais, prompts, parse, callAi)
    else s
  }

  /** The conversation after steps 3 and 4. */
  function AfterClient(id: string, s: Conversations.Snapshot, req: Request, disk: Disk, now: int,
                       ais: map<string, AiConfig>, prompts: PromptManager.Prompts,
                       parse: Transcript.ObjectParser, callAi: Compression.AiCaller): Conversations.Snapshot
  {
    AfterUser(id, AfterTool(id, s, req, disk, now, ais, prompts, parse, callAi), req, disk, now,
              ais, prompts, parse, callAi)
  }

  /** The conversation after step 10. */
  function AfterReply(id: string, s: Conversations.Snapshot, e: Extracted, disk: Disk, now: int,
                      ais: map<string, AiConfig>, prompts: PromptManager.Prompts,
                      parse: Transcript.ObjectParser, callAi: Compression.AiCaller): Conversations.Snapshot
  {
    if disk.replyWrite
    then Conversations.Added(id, s, ReplyRecord(e, now), now, disk.compactWrite, ais, prompts, parse, callAi)
    else s
  }

  /** The conversation's metadata and files in the store. */
  function SnapshotOf(conversations: map<string, Metadata>, tiers: map<string, Conversations.Tiers>,
                      id: string): Conversations.Snapshot
    requires id in conversations && id in tiers
  {
    Conversations.Snapshot(conversations[id], tiers[id])
  }

  /** Step 3 adds exactly `ToolPart` to the raw history and loses no
      summary. */
  lemma AfterToolShape(id: string, s: Conversations.Snapshot, req: Request, disk: Disk, now: int,
                       ais: map<string, AiConfig>, prompts: PromptManager.Prompts,
                       parse: Transcript.ObjectParser, callAi: Compression.AiCaller)
    ensures var r := AfterTool(id, s, req, disk, now, ais, prompts, parse, callAi);
            && r.tiers.raw == s.tiers.raw + ToolPart(req, disk, now)
            && |r.tiers.archive| >= |s.tiers.archive|
  {
    if HasToolTurn(req) && disk.toolWrite {
      Conversations.AddedShape(id, s, ToolRecord(req.toolResponse.value, now), now, disk.compactWrite,
                               ais, prompts, parse, callAi);
    }
  }

  /** Step 4 adds exactly `UserPart` to the raw history and loses no
      summary; a stored user turn is the newest tactical message, even when
      its arrival triggered a compaction. */
  lemma AfterUserShape(id: string, s: Conversations.Snapshot, req: Request, disk: Disk, now: int,
                       ais: map<string, AiConfig>, prompts: PromptManager.Prompts,
                       parse: Transcript.ObjectParser, callAi: Compression.AiCaller)
    ensures var r := AfterUser(id, s, req, disk, now, ais, prompts, parse, callAi);
            && r.tiers.raw == s.tiers.raw + UserPart(req, disk, now)
            && |r.tiers.archive| >= |s.tiers.archive|
            && (UserText(req.message) && disk.userWrite ==>
                  r.tiers.tactical != []
                  && r.tiers.tactical[|r.tiers.tactical| - 1] == UserRecord(req.message.value, now))
  {
    if UserText(req.message) && disk.userWrite {
      Conversations.AddedShape(id, s, UserRecord(req.message.value, now), now, disk.compactWrite,
                               ais, prompts, parse, callAi);
    }
  }

  /** Steps 3 and 4 add exactly the client's turns to the raw history and
      lose no summary; a stored user turn is the newest tactical message. */
  lemma AfterClientShape(id: string, s: Conversations.Snapshot, req: Request, disk: Disk, now: int,
                         ais: map<string, AiConfig>, prompts: PromptManager.Prompts,
                         parse: Transcript.ObjectParser, callAi: Compression.AiCaller)
    ensures var r := AfterClient(id, s, req, disk, now, ais, prompts, parse, callAi);
            && r.tiers.raw == s.tiers.raw + ClientTurns(req, disk, now)
            && |r.tiers.archive| >= |s.tiers.archive|
            && (UserText(req.message) && disk.userWrite ==>
                  r.tiers.tactical != []
                  && r.tiers.tactical[|r.tiers.tactical| - 1] == UserRecord(req.message.value, now))
  {
    var t := AfterTool(id, s, req, disk, now, ais, prompts, parse, callAi);
    AfterToolShape(id, s, req, disk, now, ais, prompts, parse, callAi);
    AfterUserShape(id, t, req, disk, now, ais, prompts, parse, callAi);
    ConcatAssociative(s.tiers.raw, ToolPart(req, disk, now), UserPart(req, disk, now));
  }

  /** Step 3 of `process_message`: the tool result, if any, is stored as a
      `tool` turn with its content, or "" without one; a failed write is
      only logged. Only this conversation changes. */
  method StoreToolTurn(store: Conversations.ConversationStore, id: string, req: Request,
                       ais: map<string, AiConfig>, prompts: PromptManager.Prompts,
                       parse: Transcript.ObjectParser, callAi: Compression.AiCaller,
                       disk: Disk, now: int)
    requires id in store.conversations && id in store.tiers
    modifies store
    ensures var r := AfterTool(id, old(SnapshotOf(store.conversations, store.tiers, id)), req, disk, now,
                               ais, prompts, parse, callAi);
            && store.conversations == old(store.conversations)[id := r.metadata]
            && store.tiers == old(store.tiers)[id := r.tiers]
    ensures old(store.Valid()) ==> store.Valid()
  {
    if HasToolTurn(req) {
      var content := if req.toolResponse.value.content.Some? then req.toolResponse.value.content.value else "";
      var toolSaved := store.AddMessage(id, "tool", content, None, None, 0, now, disk.toolWrite,
                                        disk.compactWrite, ais, prompts, parse, callAi);
    }
  }

  /** Step 4 of `process_message`: a non-blank text is stored as a `user`
      turn; `saved` is false only when that write fails. Only this
      conversation changes. */
  method StoreUserTurn(store: Conversations.ConversationStore, id: string, req: Request,
                       ais: map<string, AiConfig>, prompts: PromptManager.Prompts,
                       parse: Transcript.ObjectParser, callAi: Compression.AiCaller,
                       disk: Disk, now: int) returns (saved: bool)
    requires id in store.conversations && id in store.tiers
    modifies store
    ensures saved <==> !UserText(req.message) || disk.userWrite
    ensures var r := AfterUser(id, old(SnapshotOf(store.conversations, store.tiers, id)), req, disk, now,
                               ais, prompts, parse, callAi);
            && store.conversations == old(store.conversations)[id := r.metadata]
            && store.tiers == old(store.tiers)[id := r.tiers]
    ensures old(store.Valid()) ==> store.Valid()
  {
    saved := true;
    if UserText(req.message) {
      saved := store.AddMessage(id, "user", req.message.value, None, None, 0, now, disk.userWrite,
                                disk.compactWrite, ais, prompts, parse, callAi);
    }
  }

  /** Steps 3 and 4 together. */
  method StoreClientTurns(store: Conversations.ConversationStore, id: string, req: Request,
                          ais: map<string, AiConfig>, prompts: PromptManager.Prompts,
                          parse: Transcript.ObjectParser, callAi: Compression.AiCaller,
                          disk: Disk, now: int) returns (saved: bool)
    requires id in store.conversations && id in store.tiers
    modifies store
    ensures saved <==> !UserText(req.message) || disk.userWrite
    ensures var r := AfterClient(id, old(SnapshotOf(store.conversations, store.tiers, id)), req, disk, now,
                                 ais, prompts, parse, callAi);
            && store.conversations == old(store.conversations)[id := r.metadata]
            && store.tiers == old(store.tiers)[id := r.tiers]
    ensures old(store.Valid()) ==> store.Valid()
  {
    StoreToolTurn(store, id, req, ais, prompts, parse, callAi, disk, now);
    ghost var conversations1, tiers1 := store.conversations, store.tiers;
    saved := StoreUserTurn(store, id, req, ais, prompts, parse, callAi, disk, now);
    Conversations.Overwrite(old(store.conversations), id, conversations1[id], store.conversations[id]);
    Conversations.Overwrite(old(store.tiers), id, tiers1[id], store.tiers[id]);
  }

  /** Step 10 of `process_message`: the provider's reply is stored as an
      `assistant` turn carrying its text, tool calls, finish reason and token
      count; a failed write is only logged. Only this conversation
      changes. */
  method StoreReply(store: Conversations.ConversationStore, id: string, e: Extracted,
                    ais: map<string, AiConfig>, prompts: PromptManager.Prompts,
                    parse: Transcript.ObjectParser, callAi: Compression.AiCaller,
                    disk: Disk, now: int)
    requires id in store.conversations && id in store.tiers
    modifies store
    ensures var r := AfterReply(id, old(SnapshotOf(store.conversations, store.tiers, id)), e, disk, now,
                                ais, prompts, parse, callAi);
            && store.conversations == old(store.conversations)[id := r.metadata]
            && store.tiers == old(store.tiers)[id := r.tiers]
    ensures old(store.Valid()) ==> store.Valid()
  {
    var saved := store.AddMessage(id, "assistant", e.message, Some(e.tools), e.reason, e.tokens, now,
                                  disk.replyWrite, disk.compactWrite, ais, prompts, parse, callAi);
  }

  /** The conversation has metadata and a directory. */
  predicate Known(conversations: map<string, Metadata>, tiers: map<string, Conversations.Tiers>, id: string)
  {
    id in conversations && id in tiers
  }

  /** What steps 3 to 11 of `process_message` do to the known conversation
      `id` whose metadata and files were `before`: `mid` is the conversation
      once the client's turns are stored, `used` the context the provider is
      asked with, read from `mid`'s files, and `after` the conversation at the
      end. The provider is chosen by the metadata read before the turns are
      stored. */
  ghost predicate Conversed(id: string, before: Conversations.Snapshot, mid: Conversations.Snapshot, after: Conversations.Snapshot,
                            req: Request, device: string, disk: Disk, now: int,
                            ais: map<string, AiConfig>, prompts: PromptManager.Prompts,
                            parse: Transcript.ObjectParser, post: Poster,
                            out: Outcome, used: seq<ContextEntry>)
  {
    var callAi := CallerFor(post);
    && mid == AfterClient(id, before, req, disk, now, ais, prompts, parse, callAi)
    && (UserText(req.message) && !disk.userWrite ==> out == Failure("保存用户消息失败") && after == mid)
    && (!UserText(req.message) || disk.userWrite ==>
          var r := Answer(before.metadata, used, req.message, device, req.tools, ais, prompts, post);
          && used == Conversations.ContextFor(mid.tiers)
          && (r.Err? ==> out == Failure(r.error) && after == mid)
          && (r.Ok? ==>
                && out == Succeeded(ClientReply(r.value.message, r.value.tools, r.value.reason))
                && after == AfterReply(id, mid, r.value, disk, now, ais, prompts, parse, callAi)))
  }

  /** Steps 3 to 11 of `process_message`, for a conversation that exists.
      Only this conversation changes. */
  method Converse(store: Conversations.ConversationStore, id: string, device: string, req: Request,
                  ais: map<string, AiConfig>, prompts: PromptManager.Prompts,
                  parse: Transcript.ObjectParser, post: Poster, disk: Disk, now: int)
    returns (out: Outcome, ghost used: seq<ContextEntry>, ghost mid: Conversations.Snapshot)
    requires id in store.conversations && id in store.tiers
    modifies store
    ensures out.success <==> out.error.None?
    ensures out.success <==> out.response.Some?
    ensures id in store.conversations && id in store.tiers
    ensures store.conversations == old(store.conversations)[id := store.conversations[id]]
    ensures store.tiers == old(store.tiers)[id := store.tiers[id]]
    ensures Conversed(id, old(SnapshotOf(store.conversations, store.tiers, id)), mid,
                      SnapshotOf(store.conversations, store.tiers, id),
                      req, device, disk, now, ais, prompts, parse, post, out, used)
    ensures old(store.Valid()) ==> store.Valid()
  {
    used := [];
    ghost var before := SnapshotOf(store.conversations, store.tiers, id);
    var metadata := store.conversations[id];
    var callAi := CallerFor(post);
    var userSaved := StoreClientTurns(store, id, req, ais, prompts, parse, callAi, disk, now);
    mid := SnapshotOf(store.conversations, store.tiers, id);
    if !userSaved {
      return Failure("保存用户消息失败"), used, mid;
    }
    var context := store.ContextForAi(id);
    used := context;
    var answer := Answer(metadata, context, req.message, device, req.tools, ais, prompts, post);
    if answer.Err? {
      return Failure(answer.error), used, mid;
    }
    var e := answer.value;
    ghost var conversations1, tiers1 := store.conversations, store.tiers;
    StoreReply(store, id, e, ais, prompts, parse, callAi, disk, now);
    Conversations.Overwrite(old(store.conversations), id, conversations1[id], store.conversations[id]);
    Conversations.Overwrite(old(store.tiers), id, tiers1[id], store.tiers[id]);
    out := Succeeded(ClientReply(e.message, e.tools, e.reason));
  }

  /** `process_message`. Missing fields and an unknown conversation fail with
      nothing changed; otherwise the conversation goes through `Conversed`
      and no other conversation changes. */
  method ProcessMessage(store: Conversations.ConversationStore, req: Request, ais: map<string, AiConfig>,
                        prompts: PromptManager.Prompts, parse: Transcript.ObjectParser, post: Poster,
                        disk: Disk, now: int)
    returns (out: Outcome, ghost used: seq<ContextEntry>, ghost mid: Conversations.Snapshot)
    modifies store
    ensures out.success <==> out.error.None?
    ensures out.success <==> out.response.Some?
    ensures !HasFields(req) ==>
              && out == Failure("缺少conversation或device")
              && store.tiers == old(store.tiers) && store.conversations == old(store.conversations)
    ensures HasFields(req) && !Known(old(store.conversations), old(store.tiers), req.conversation.value) ==>
              && out == Failure("对话不存在: " + req.conversation.value)
              && store.tiers == old(store.tiers) && store.conversations == old(store.conversations)
    ensures HasFields(req) && Known(old(store.conversations), old(store.tiers), req.conversation.value) ==>
              var id := req.conversation.value;
              && id in store.conversations && id in store.tiers
              && store.conversations == old(store.conversations)[id := store.conversations[id]]
              && store.tiers == old(store.tiers)[id := store.tiers[id]]
              && Conversed(id, old(SnapshotOf(store.conversations, store.tiers, id)), mid,
                           SnapshotOf(store.conversations, store.tiers, id), req, req.device.value, disk, now,
                           ais, prompts, parse, post, out, used)
    ensures old(store.Valid()) ==> store.Valid()
  {
    used, mid := [], Conversations.Snapshot(Conversations.NewMetadata("", "", "", "", now), Conversations.EmptyTiers);
    if req.conversation.None? || req.conversation.value == "" || req.device.None? || req.device.value == "" {
      return Failure("缺少conversation或device"), used, mid;
    }
    var id := req.conversation.value;
    var device := req.device.value;
    var contextData := store.ConversationContext(id);
    if contextData.None? {
      return Failure("对话不存在: " + id), used, mid;
    }
    out, used, mid := Converse(store, id, device, req, ais, prompts, parse, post, disk, now);
  }

  /** The reply record step 10 appends: the provider's reply when the flow
      got as far as asking, the provider answered and the write
      succeeded. */
  function ReplyPart(meta: Metadata, used: seq<ContextEntry>, req: Request, device: string, disk: Disk, now: int,
                     ais: map<string, AiConfig>, prompts: PromptManager.Prompts, post: Poster): (r: seq<Message>)
    ensures |r| <= 1 && (r != [] ==> r[0].role == "assistant")
  {
    var a := Answer(meta, used, req.message, device, req.tools, ais, prompts, post);
    if (!UserText(req.message) || disk.userWrite) && a.Ok? && disk.replyWrite
    then [ReplyRecord(a.value, now)] else []
  }

  /** Storing the client's turns adds exactly those turns to the raw history
      and loses no summary. */
  lemma ConversedRaw(id: string, before: Conversations.Snapshot, mid: Conversations.Snapshot,
                     after: Conversations.Snapshot, req: Request, device: string, disk: Disk, now: int,
                     ais: map<string, AiConfig>, prompts: PromptManager.Prompts,
                     parse: Transcript.ObjectParser, post: Poster,
                     out: Outcome, used: seq<ContextEntry>)
    requires Conversed(id, before, mid, after, req, device, disk, now, ais, prompts, parse, post, out, used)
    ensures mid.tiers.raw == before.tiers.raw + ClientTurns(req, disk, now)
    ensures |mid.tiers.archive| >= |before.tiers.archive|
  {
    AfterClientShape(id, before, req, disk, now, ais, prompts, parse, CallerFor(post));
  }

  /** After the client's turns, the raw history gains the reply exactly when
      the provider answered and the write succeeded; a failed message changes
      nothing more. */
  lemma ConversedReply(id: string, before: Conversations.Snapshot, mid: Conversations.Snapshot,
                       after: Conversations.Snapshot, req: Request, device: string, disk: Disk, now: int,
                       ais: map<string, AiConfig>, prompts: PromptManager.Prompts,
                       parse: Transcript.ObjectParser, post: Poster,
                       out: Outcome, used: seq<ContextEntry>)
    requires Conversed(id, before, mid, after, req, device, disk, now, ais, prompts, parse, post, out, used)
    ensures !out.success ==> after == mid
    ensures var reply := ReplyPart(before.metadata, used, req, device, disk, now, ais, prompts, post);
            && after.tiers.raw == mid.tiers.raw + reply
            && (reply != [] <==> out.success && disk.replyWrite)
  {
    var r := Answer(before.metadata, used, req.message, device, req.tools, ais, prompts, post);
    if UserText(req.message) && !disk.userWrite {
      assert after == mid && !out.success;
    } else if r.Err? {
      assert after == mid && !out.success;
    } else if disk.replyWrite {
      assert out.success;
      Conversations.AddedShape(id, mid, ReplyRecord(r.value, now), now, disk.compactWrite,
                               ais, prompts, parse, CallerFor(post));
    }
  }

  /** When the text is stored, it is the newest entry of the context the
      provider is asked with. */
  lemma ConversedUserLast(id: string, before: Conversations.Snapshot, mid: Conversations.Snapshot, after: Conversations.Snapshot,
                          req: Request, device: string, disk: Disk, now: int,
                          ais: map<string, AiConfig>, prompts: PromptManager.Prompts,
                          parse: Transcript.ObjectParser, post: Poster,
                          out: Outcome, used: seq<ContextEntry>)
    requires Conversed(id, before, mid, after, req, device, disk, now, ais, prompts, parse, post, out, used)
    requires UserText(req.message) && disk.userWrite
    ensures used != [] && used[|used| - 1] == Active(UserRecord(req.message.value, now))
  {
    AfterClientShape(id, before, req, disk, now, ais, prompts, parse, CallerFor(post));
    Conversations.ContextShape(mid.tiers);
  }

  /** The roles a message adds to the raw history are, in order: `tool` when
      a tool result came and was written, `user` when the text is non-blank
      and was written, `assistant` when the provider answered and the reply
      was written. */
  lemma ConversedRoles(id: string, before: Conversations.Snapshot, mid: Conversations.Snapshot, after: Conversations.Snapshot,
                       req: Request, device: string, disk: Disk, now: int,
                       ais: map<string, AiConfig>, prompts: PromptManager.Prompts,
                       parse: Transcript.ObjectParser, post: Poster,
                       out: Outcome, used: seq<ContextEntry>)
    requires Conversed(id, before, mid, after, req, device, disk, now, ais, prompts, parse, post, out, used)
    ensures Roles(after.tiers.raw)
            == Roles(before.tiers.raw)
               + (if HasToolTurn(req) && disk.toolWrite then ["tool"] else [])
               + (if UserText(req.message) && disk.userWrite then ["user"] else [])
               + (if out.success && disk.replyWrite then ["assistant"] else [])
  {
    ConversedRaw(id, before, mid, after, req, device, disk, now, ais, prompts, parse, post, out, used);
    ConversedReply(id, before, mid, after, req, device, disk, now, ais, prompts, parse, post, out, used);
    var reply := ReplyPart(before.metadata, used, req, device, disk, now, ais, prompts, post);
    TurnRoles(before.tiers.raw, req, disk, now, reply);
  }

  /** The roles of the client's turns and an optional reply appended to a
      history. */
  lemma TurnRoles(raw: seq<Message>, req: Request, disk: Disk, now: int, reply: seq<Message>)
    requires |reply| <= 1 && (reply != [] ==> reply[0].role == "assistant")
    ensures Roles(raw + ClientTurns(req, disk, now) + reply)
            == Roles(raw)
               + (if HasToolTurn(req) && disk.toolWrite then ["tool"] else [])
               + (if UserText(req.message) && disk.userWrite then ["user"] else [])
               + (if reply != [] then ["assistant"] else [])
  {
    var toolPart, userPart := ToolPart(req, disk, now), UserPart(req, disk, now);
    RolesConcat(raw + (toolPart + userPart), reply);
    RolesConcat(raw, toolPart + userPart);
    RolesConcat(toolPart, userPart);
    RolesOfOne(toolPart);
    RolesOfOne(userPart);
    RolesOfOne(reply);
    ConcatAssociative(Roles(raw), Roles(toolPart), Roles(userPart));
  }

  lemma RolesOfOne(ms: seq<Message>)
    requires |ms| <= 1
    ensures Roles(ms) == if ms == [] then [] else [ms[0].role]
  {
    if ms != [] {
      RolesAppend([], ms[0]);
      assert [] + [ms[0]] == ms;
    }
  }

  /** Once a conversation has a summary, every later message that reaches the
      provider step fails for a supported provider with `服务器错误: 'role'`,
      and nothing but the client's turns is stored. */
  lemma ConversedAfterArchive(id: string, before: Conversations.Snapshot, mid: Conversations.Snapshot, after: Conversations.Snapshot,
                              req: Request, device: string, disk: Disk, now: int,
                              ais: map<string, AiConfig>, prompts: PromptManager.Prompts,
                              parse: Transcript.ObjectParser, post: Poster,
                              out: Outcome, used: seq<ContextEntry>)
    requires Conversed(id, before, mid, after, req, device, disk, now, ais, prompts, parse, post, out, used)
    requires before.tiers.archive != [] && before.metadata.ai in ais
    requires Supported(ais[before.metadata.ai].provider)
    requires !UserText(req.message) || disk.userWrite
    ensures out == Failure("服务器错误: 'role'")
    ensures after == mid
    ensures after.tiers.raw == before.tiers.raw + ClientTurns(req, disk, now)
  {
    ConversedRaw(id, before, mid, after, req, device, disk, now, ais, prompts, parse, post, out, used);
    ArchivedConversationFails(before.metadata, mid.tiers, req.message, device, req.tools, ais, prompts, post);
  }

  /** The user's text reaches the provider twice in a row: once as the newest
      turn of the stored context and once as the new message. */
  lemma ConversedRepeatsUserTurn(id: string, before: Conversations.Snapshot, mid: Conversations.Snapshot, after: Conversations.Snapshot,
                                 req: Request, device: string, disk: Disk, now: int,
                                 ais: map<string, AiConfig>, prompts: PromptManager.Prompts,
                                 parse: Transcript.ObjectParser, post: Poster,
                                 out: Outcome, used: seq<ContextEntry>, systemPrompt: string)
    requires Conversed(id, before, mid, after, req, device, disk, now, ais, prompts, parse, post, out, used)
    requires UserText(req.message) && disk.userWrite && AllHaveRole(used)
    ensures var l := Layout(systemPrompt, used, NewTurns(req.message), "user", device);
            && |l| >= 2
            && l[|l| - 1] == ChatEntry("user", req.message.value)
            && l[|l| - 2] == ChatEntry("user", req.message.value)
  {
    ConversedUserLast(id, before, mid, after, req, device, disk, now, ais, prompts, parse, post, out, used);
    RepeatedUserTurn(systemPrompt, used, req.message.value, device);
  }
}
