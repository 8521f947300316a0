/** `extract_openai_response` and `extract_ai_response`: the provider's reply
    reduced to the record `{message, tools, reason, tokens}`. */
module AiResponse {
  import opened Records

  /** The extracted record. `reason` is `None` when the reply sets
      `finish_reason` to JSON null. */
  datatype Extracted = Extracted(message: string, tools: seq<ToolCall>, reason: Option<string>, tokens: int)

  /** The record before anything is read from the reply. */
  const Defaults := Extracted("", [], Some("unknown"), 0)

  /** `choices` is present and a non-empty list. */
  predicate HasChoices(reply: ProviderReply)
  {
    reply.choices.Present? && |reply.choices.value| > 0
  }

  /** The `message` object of a choice; a missing one reads as `{}`. */
  function MessageOf(choice: Choice): ReplyMessage
  {
    if choice.message.Some? then choice.message.value else ReplyMessage(Absent, Absent)
  }

  /** `extract_openai_response`: defaults unless there are choices; then the
      first choice alone supplies the text, the tool calls and the reason, and
      the top-level usage supplies the token count. */
  function ExtractOpenAi(reply: ProviderReply): (r: Extracted)
    ensures !HasChoices(reply) ==> r == Defaults
    ensures HasChoices(reply) ==>
              var m := MessageOf(reply.choices.value[0]);
              && (m.content.Present? ==> r.message == m.content.value)
              && (!m.content.Present? ==> r.message == "")
              && (r.tools != [] <==> m.toolCalls.Present? && m.toolCalls.value != [])
              && (r.tools != [] ==> r.tools == m.toolCalls.value)
    ensures HasChoices(reply) ==>
              var f := reply.choices.value[0].finishReason;
              && (f.Absent? ==> r.reason == Some("unknown"))
              && (f.Null? ==> r.reason == None)
              && (f.Present? ==> r.reason == Some(f.value))
    ensures HasChoices(reply) ==>
              r.tokens == if reply.usage.Some? && reply.usage.value.totalTokens.Some?
                          then reply.usage.value.totalTokens.value else 0
  {
    if !HasChoices(reply) then Defaults
    else
      var choice := reply.choices.value[0];
      var m := MessageOf(choice);
      var text := if m.content.Present? then m.content.value else "";
      var tools := if m.toolCalls.Present? && m.toolCalls.value != [] then m.toolCalls.value else [];
      var reason := match choice.finishReason
        case Absent => Some("unknown")
        case Null => None
        case Present(s) => Some(s);
      var tokens := if reply.usage.Some? && reply.usage.value.totalTokens.Some?
                    then reply.usage.value.totalTokens.value else 0;
      Extracted(text, tools, reason, tokens)
  }

  /** Choices after the first are never read. */
  lemma OnlyFirstChoiceRead(a: ProviderReply, b: ProviderReply)
    requires HasChoices(a) && HasChoices(b)
    requires a.choices.value[0] == b.choices.value[0] && a.usage == b.usage
    ensures ExtractOpenAi(a) == ExtractOpenAi(b)
  {
  }

  /** `extract_ai_response`: the OpenAI extraction for the four supported
      providers, and the empty dictionary (`None` here) for any other. */
  function ExtractAiResponse(reply: ProviderReply, provider: string): (r: Option<Extracted>)
    ensures r.Some? <==> Supported(provider)
    ensures r.Some? ==> r.value == ExtractOpenAi(reply)
  {
    if Supported(provider) then Some(ExtractOpenAi(reply)) else None
  }
}
