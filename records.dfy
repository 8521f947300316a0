/** The records the server passes between its managers. The source keeps them
    as JSON dictionaries; here each shape is a datatype with one field per key
    the code reads or writes. */
module Records {

  datatype Option<+T> = None | Some(value: T)

  datatype Result<+T, +E> = Ok(value: T) | Err(error: E)

  /** A key of a JSON object as Python's `dict.get` sees it: missing, present
      with `null`, or present with a value. */
  datatype Field<+T> = Absent | Null | Present(value: T)

  /** One tool call of an assistant turn: `{"id", "function": {"name", "arguments"}}`. */
  datatype ToolCall = ToolCall(id: string, name: string, arguments: string)

  /** One entry of the raw and tactical tiers, with the keys `add_message`
      writes: `role`, `content`, `timestamp` and, when set, `tool_calls`,
      `finish_reason` and `usage.total_tokens`. `toolCallId` is the
      `tool_call_id` key the transcript renderer looks for. */
  datatype Message = Message(
    role: string,
    content: string,
    timestamp: int,
    toolCalls: Option<seq<ToolCall>>,
    finishReason: Option<string>,
    usage: Option<int>,
    toolCallId: Option<string>)

  /** One archive record: `{"type", "content", "original_count", "timestamp"}`. */
  datatype Summary = Summary(kind: string, content: string, originalCount: int, timestamp: int)

  /** An element of the list `get_context_for_ai` returns: either an archive
      record or a tactical message. Only the latter has a `role` key. */
  datatype ContextEntry = Memory(summary: Summary) | Active(msg: Message)

  predicate AllHaveRole(context: seq<ContextEntry>)
  {
    forall i :: 0 <= i < |context| ==> context[i].Active?
  }

  /** The per-conversation metadata record kept in `data.json`. */
  datatype Metadata = Metadata(
    name: string,
    prompt: string,
    ai: string,
    interval: int,
    device: string,
    created: int,
    updated: int,
    messageCount: int,
    lastCompressAttempt: int)

  /** A stored AI provider configuration. `name`, `api_key`, `provider` and
      `model` are checked present when a configuration is stored; the other
      keys are optional. Temperature and top_p are floats passed through
      unchanged. */
  datatype AiConfig = AiConfig(
    name: string,
    apiKey: string,
    provider: string,
    model: string,
    baseUrl: Option<string>,
    timeout: Option<int>,
    temperature: Option<real>,
    topP: Option<real>,
    maxTokens: Option<int>,
    stream: Option<bool>,
    toolChoice: Option<string>,
    seed: Option<int>)

  /** A function tool offered to the provider. */
  datatype ToolParam = ToolParam(name: string, kind: string, description: string)
  datatype ToolSpec = ToolSpec(kind: string, name: string, description: string,
                               params: seq<ToolParam>, required: seq<string>)

  /** An OpenAI-shaped completion reply, reduced to the keys the server reads. */
  datatype ReplyMessage = ReplyMessage(content: Field<string>, toolCalls: Field<seq<ToolCall>>)
  datatype Choice = Choice(message: Option<ReplyMessage>, finishReason: Field<string>)
  datatype Usage = Usage(totalTokens: Option<int>)
  datatype ProviderReply = ProviderReply(choices: Field<seq<Choice>>, usage: Option<Usage>)

  /** The providers whose payloads and replies share the OpenAI format. */
  predicate Supported(provider: string)
  {
    provider == "openai" || provider == "deepseek" || provider == "ollama" || provider == "siliconflow"
  }
}
