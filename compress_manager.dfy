/** `CompressManager.compress`, the decision part: given the tactical tier,
    the conversation's metadata and the configured providers, whether to fold
    the older messages into one archive summary, and with which text. Writing
    the result back is `Conversations.Compress`; calling the provider is the
    parameter `callAi`, which yields `None` when no reply comes back. */
module Compression {
  import opened Records
  import opened PySeq
  import opened AiResponse
  import opened PayloadUtil
  import opened Transcript
  import PromptManager

  type AiCaller = (AiConfig, Payload) -> Option<ProviderReply>

  /** Why no summary is produced. */
  datatype SkipReason =
    | TooFewMessages
    | NoConversation
    | NoAi
    | UnknownAiConfig
    | NothingToCompress
    | NoPayload
    | NoReply
    | Declined(reason: string)
    | EmptySummary

  datatype Decision = Skip(why: SkipReason) | Fold(summary: string)

  /** A tactical tier of at most this many messages is left alone. */
  const TriggerSize := 10

  /** The most recent messages that stay in the tactical tier. */
  const KeepRecent := 5

  const DeclineToolName := "no_compress"

  /** The one tool offered with a compaction request, by which the model
      can refuse. */
  const NoCompressTool := ToolSpec("function", DeclineToolName, "当对话未完成，不适合压缩时调用",
                                   [ToolParam("reason", "string", "不适合压缩的原因")], ["reason"])

  /** The messages that get summarised: all but the last `KeepRecent`. */
  function ToCompress(tactical: seq<Message>): seq<Message>
  {
    Upto(tactical, -KeepRecent)
  }

  const RequestHead := "请分析以上对话历史，判断是否适合压缩并生成压缩总结。\n\n对话历史（共"
  const RequestMid := "条消息）：\n"

  /** The user message of the compaction request: an instruction, the
      number of messages and their transcript. */
  function RequestText(toCompress: seq<Message>, parse: ObjectParser): string
  {
    CountLine(|toCompress|) + Join(Lines(toCompress, parse), "\n")
  }

  /** The opening of the request text, naming the number of messages. */
  function CountLine(n: nat): string
  {
    RequestHead + NatToString(n) + RequestMid
  }

  function TaskDevice(id: string): string
  {
    "压缩任务-" + id
  }

  /** The payload for the compaction request: the conversation's own prompt
      and provider, no context, the request text as the only user message
      and the decline tool. */
  function CompressionPayload(id: string, toCompress: seq<Message>, meta: Metadata,
                              ais: map<string, AiConfig>, prompts: PromptManager.Prompts,
                              parse: ObjectParser): Option<Payload>
    requires meta.ai in ais
  {
    GeneratePayload(meta.prompt, [RequestText(toCompress, parse)], "user", [], meta.ai,
                    TaskDevice(id), Some([NoCompressTool]), prompts, ais)
  }

  /** The same request built by `generate_payload` as written. */
  function CompressionPayloadAsWritten(id: string, toCompress: seq<Message>, meta: Metadata,
                                       ais: map<string, AiConfig>, prompts: PromptManager.Prompts,
                                       parse: ObjectParser): Option<Payload>
    requires meta.ai in ais
  {
    GeneratePayloadAsWritten(meta.prompt, [RequestText(toCompress, parse)], "user", [], meta.ai,
                             TaskDevice(id), Some([NoCompressTool]), prompts, ais)
  }

  /** Reading the reply: a first tool call to the decline tool refuses; else
      the stripped text is the summary unless it is empty. A provider outside
      the four supported yields an empty extraction, hence an empty summary. */
  function Judge(extracted: Option<Extracted>): (d: Decision)
    ensures d.Fold? ==> extracted.Some? && d.summary == Strip(extracted.value.message)
    ensures d.Fold? ==> d.summary != "" && Strip(d.summary) == d.summary
  {
    if extracted.None? then Skip(EmptySummary)
    else
      var e := extracted.value;
      if e.tools != [] && e.tools[0].name == DeclineToolName then Skip(Declined(e.tools[0].arguments))
      else
        var summary := Strip(e.message);
        StripIdempotent(e.message);
        if summary == "" then Skip(EmptySummary) else Fold(summary)
  }

  function AfterPayload(payload: Option<Payload>, config: AiConfig, callAi: AiCaller): Decision
  {
    match payload
    case None => Skip(NoPayload)
    case Some(p) =>
      match callAi(config, p)
      case None => Skip(NoReply)
      case Some(reply) => Judge(ExtractAiResponse(reply, config.provider))
  }

  /** The checks made before any request is built, in the source's order.
      The second length check and the empty-slice check can never fire once
      the first has passed; they are kept as the source has them. */
  function Guards(tactical: seq<Message>, meta: Option<Metadata>, ais: map<string, AiConfig>): Option<SkipReason>
  {
    if |tactical| <= TriggerSize then Some(TooFewMessages)
    else if meta.None? then Some(NoConversation)
    else if meta.value.ai == "" then Some(NoAi)
    else if meta.value.ai !in ais then Some(UnknownAiConfig)
    else if |tactical| <= KeepRecent then Some(TooFewMessages)
    else if |ToCompress(tactical)| == 0 then Some(NothingToCompress)
    else None
  }

  /** `compress` up to the write-back, with `generate_payload` returning the
      payload it builds. */
  function CompressDecision(id: string, tactical: seq<Message>, meta: Option<Metadata>,
                            ais: map<string, AiConfig>, prompts: PromptManager.Prompts,
                            parse: ObjectParser, callAi: AiCaller): (d: Decision)
    ensures |tactical| <= TriggerSize ==> d == Skip(TooFewMessages)
    ensures d.Fold? ==> meta.Some? && meta.value.ai in ais && Supported(ais[meta.value.ai].provider)
    ensures d.Fold? ==> d.summary != "" && Strip(d.summary) == d.summary
  {
    match Guards(tactical, meta, ais)
    case Some(why) => Skip(why)
    case None =>
      var m := meta.value;
      AfterPayload(CompressionPayload(id, ToCompress(tactical), m, ais, prompts, parse), ais[m.ai], callAi)
  }

  /** `compress` as written: `generate_payload` returns nothing, so the
      request is never sent. */
  function CompressDecisionAsWritten(id: string, tactical: seq<Message>, meta: Option<Metadata>,
                                     ais: map<string, AiConfig>, prompts: PromptManager.Prompts,
                                     parse: ObjectParser, callAi: AiCaller): (d: Decision)
    ensures Guards(tactical, meta, ais).None? ==> d == Skip(NoPayload)
  {
    match Guards(tactical, meta, ais)
    case Some(why) => Skip(why)
    case None =>
      var m := meta.value;
      AfterPayload(CompressionPayloadAsWritten(id, ToCompress(tactical), m, ais, prompts, parse), ais[m.ai], callAi)
  }

  /** `ai_manager.call_ai` as written: the AI manager has no such method, so
      the call raises, `compress` catches it and reports failure exactly as
      for an absent reply. */
  function CallAiAsWritten(config: AiConfig, payload: Payload): Option<ProviderReply>
  {
    None
  }

  /** A fold happens exactly when every check passes, the provider is
      supported, it replies, the first tool call of the reply is not the
      decline tool, and the stripped reply text is non-empty. */
  lemma CompressFoldsIff(id: string, tactical: seq<Message>, meta: Option<Metadata>,
                         ais: map<string, AiConfig>, prompts: PromptManager.Prompts,
                         parse: ObjectParser, callAi: AiCaller)
    ensures CompressDecision(id, tactical, meta, ais, prompts, parse, callAi).Fold?
            <==>
            && Guards(tactical, meta, ais).None?
            && var config := ais[meta.value.ai];
               var p := CompressionPayload(id, ToCompress(tactical), meta.value, ais, prompts, parse);
               && Supported(config.provider)
               && callAi(config, p.value).Some?
               && var e := ExtractOpenAi(callAi(config, p.value).value);
                  && !(e.tools != [] && e.tools[0].name == DeclineToolName)
                  && Strip(e.message) != ""
    ensures var d := CompressDecision(id, tactical, meta, ais, prompts, parse, callAi);
            d.Fold? ==>
              && Guards(tactical, meta, ais).None?
              && var config := ais[meta.value.ai];
                 var p := CompressionPayload(id, ToCompress(tactical), meta.value, ais, prompts, parse);
                 && p.Some? && callAi(config, p.value).Some?
                 && d.summary == Strip(ExtractOpenAi(callAi(config, p.value).value).message)
  {
  }

  /** Past the checks, the tier is long enough and the configuration exists,
      so all but the last five messages are summarised. */
  lemma GuardsPass(tactical: seq<Message>, meta: Metadata, ais: map<string, AiConfig>)
    requires Guards(tactical, Some(meta), ais).None?
    ensures |tactical| > TriggerSize && meta.ai in ais
    ensures ToCompress(tactical) == tactical[..|tactical| - KeepRecent]
    ensures |ToCompress(tactical)| == |tactical| - KeepRecent
  {
    NegativeSplit(tactical, KeepRecent);
  }

  /** The compaction request carries the conversation's own full prompt (when
      non-empty), the task device line and the request text as the one user
      message; the only tool offered is the decline tool. */
  lemma RequestPayload(id: string, toCompress: seq<Message>, meta: Metadata,
                       ais: map<string, AiConfig>, prompts: PromptManager.Prompts, parse: ObjectParser)
    requires meta.ai in ais && Supported(ais[meta.ai].provider)
    ensures var p := CompressionPayload(id, toCompress, meta, ais, prompts, parse);
            var system := PromptManager.FullPromptOf(prompts, meta.prompt);
            && p.Some?
            && p.value.tools == Some([NoCompressTool])
            && p.value.messages == Header(system, TaskDevice(id)) + [ChatEntry("user", RequestText(toCompress, parse))]
  {
    var text := RequestText(toCompress, parse);
    var system := PromptManager.FullPromptOf(prompts, meta.prompt);
    assert Projected([]) == [];
    assert Wrapped([text], "user") == [ChatEntry("user", text)] by {
      var one: seq<string> := [text];
      assert one[..0] == [];
    }
    assert Layout(system, [], [text], "user", TaskDevice(id))
           == Header(system, TaskDevice(id)) + [ChatEntry("user", text)];
  }

  /** The request text names how many messages are summarised: all but the
      last five of the tier. */
  lemma RequestTextCount(tactical: seq<Message>, parse: ObjectParser)
    requires |tactical| > KeepRecent
    ensures StartsWith(RequestText(ToCompress(tactical), parse), CountLine(|tactical| - KeepRecent))
  {
    var toCompress := ToCompress(tactical);
    assert |toCompress| == |tactical| - KeepRecent by {
      NegativeSplit(tactical, KeepRecent);
    }
    StartsWithConcat(CountLine(|toCompress|), Join(Lines(toCompress, parse), "\n"));
  }

  /** A reply whose first tool call is the decline tool never folds,
      whatever text accompanies it. */
  lemma DeclineNeverFolds(e: Extracted)
    requires e.tools != [] && e.tools[0].name == DeclineToolName
    ensures Judge(Some(e)) == Skip(Declined(e.tools[0].arguments))
  {
  }

  /** With `generate_payload` as written, no tactical tier is ever folded. */
  lemma CompressAsWrittenNeverFolds(id: string, tactical: seq<Message>, meta: Option<Metadata>,
                                    ais: map<string, AiConfig>, prompts: PromptManager.Prompts,
                                    parse: ObjectParser, callAi: AiCaller)
    ensures !CompressDecisionAsWritten(id, tactical, meta, ais, prompts, parse, callAi).Fold?
  {
    match Guards(tactical, meta, ais)
    case Some(_) =>
    case None =>
  }

  /** With the missing `call_ai`, nothing is folded either, even once the
      payload is returned. */
  lemma MissingCallAiNeverFolds(id: string, tactical: seq<Message>, meta: Option<Metadata>,
                                ais: map<string, AiConfig>, prompts: PromptManager.Prompts,
                                parse: ObjectParser)
    ensures !CompressDecision(id, tactical, meta, ais, prompts, parse, CallAiAsWritten).Fold?
  {
  }
}
