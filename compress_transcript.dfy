/** `CompressManager._format_messages_for_compression`: the plain-text
    transcript of the tactical messages that a compaction request carries.
    JSON parsing (`json.loads`, with `str(v)` and `type(v).__name__` of each
    value) is a parameter: `parse(s)` is the object's fields in order when `s`
    parses as a JSON object, and `None` otherwise. */
module Transcript {
  import opened Records
  import opened PySeq

  datatype JsonField = JsonField(key: string, text: string, typeName: string)

  type ObjectParser = string -> Option<seq<JsonField>>

  /** Characters of a non-JSON tool result kept in the transcript. */
  const ContentLimit: nat := 100

  const ContentPrefix := "返回内容: "
  const ComplexData := "返回数据（格式复杂）"

  /** `k=v` for each argument. */
  function ArgPairs(fields: seq<JsonField>): seq<string>
    decreases |fields|
  {
    if fields == [] then []
    else ArgPairs(fields[..|fields| - 1]) + [fields[|fields| - 1].key + "=" + fields[|fields| - 1].text]
  }

  /** The arguments of a tool call: `k=v, ...` when they parse as an object,
      otherwise the raw argument string. */
  function ArgsText(args: string, parse: ObjectParser): string
  {
    match parse(args)
    case Some(fields) => Join(ArgPairs(fields), ", ")
    case None => args
  }

  function CallSummary(call: ToolCall, parse: ObjectParser): string
  {
    "调用工具: " + call.name + "(" + ArgsText(call.arguments, parse) + ")"
  }

  function CallSummaries(calls: seq<ToolCall>, parse: ObjectParser): seq<string>
    decreases |calls|
  {
    if calls == [] then []
    else CallSummaries(calls[..|calls| - 1], parse) + [CallSummary(calls[|calls| - 1], parse)]
  }

  /** Python's repr of the `{key: type name}` dictionary. */
  function TypeMap(fields: seq<JsonField>): string
  {
    "{" + Join(TypeEntries(fields), ", ") + "}"
  }

  function TypeEntries(fields: seq<JsonField>): seq<string>
    decreases |fields|
  {
    if fields == [] then []
    else TypeEntries(fields[..|fields| - 1])
         + ["'" + fields[|fields| - 1].key + "': '" + fields[|fields| - 1].typeName + "'"]
  }

  predicate JsonShaped(content: string)
  {
    StartsWith(content, "{") && EndsWith(content, "}")
  }

  /** How a tool result is shown: JSON-shaped content as its key to type
      mapping (or a fixed text when it does not parse), anything else as its
      first 100 characters, with "..." when something was cut. */
  function ContentSummary(content: string, parse: ObjectParser): (r: string)
    ensures JsonShaped(content) && parse(content).None? ==> r == ComplexData
    ensures JsonShaped(content) && parse(content).Some? ==>
              r == "返回数据: " + TypeMap(parse(content).value)
    ensures !JsonShaped(content) ==>
              && StartsWith(r, ContentPrefix + Take(content, ContentLimit))
              && |r| <= |ContentPrefix| + ContentLimit + 3
              && (|content| > ContentLimit <==> EndsWith(r, "...") && |r| == |ContentPrefix| + ContentLimit + 3)
              && (|content| <= ContentLimit ==> r == ContentPrefix + content)
  {
    if JsonShaped(content) then
      match parse(content)
      case Some(fields) => "返回数据: " + TypeMap(fields)
      case None => ComplexData
    else if |content| > ContentLimit then ContentPrefix + content[..ContentLimit] + "..."
    else ContentPrefix + content
  }

  /** The first 8 characters of `tool_call_id`, "unknown" when it is missing. */
  function IdPrefix(m: Message): (r: string)
    ensures |r| <= 8
    ensures m.toolCallId.None? ==> r == "unknown"
    ensures m.toolCallId.Some? ==>
              |r| == Min(8, |m.toolCallId.value|) && r == m.toolCallId.value[..|r|]
  {
    Take(if m.toolCallId.Some? then m.toolCallId.value else "unknown", 8)
  }

  predicate HasToolCalls(m: Message)
  {
    m.toolCalls.Some? && m.toolCalls.value != []
  }

  predicate Rendered(role: string)
  {
    role == "user" || role == "assistant" || role == "tool"
  }

  /** The lines one message contributes. */
  function MessageLines(m: Message, parse: ObjectParser): seq<string>
  {
    if m.role == "user" then ["[用户] " + m.content]
    else if m.role == "assistant" then
      if HasToolCalls(m) then
        var toolText := Join(CallSummaries(m.toolCalls.value, parse), "；");
        ["[助手] " + (if m.content != "" then m.content else "调用工具")]
        + (if toolText != "" then ["  -> " + toolText] else [])
      else ["[助手] " + m.content]
    else if m.role == "tool" then
      ["[工具响应 " + IdPrefix(m) + "] " + ContentSummary(m.content, parse)]
    else []
  }

  /** One summary per tool call, in the order of the calls. */
  lemma {:induction false} CallSummariesAt(calls: seq<ToolCall>, parse: ObjectParser)
    ensures |CallSummaries(calls, parse)| == |calls|
    ensures forall k :: 0 <= k < |calls| ==> CallSummaries(calls, parse)[k] == CallSummary(calls[k], parse)
    decreases |calls|
  {
    if calls != [] {
      var init := calls[..|calls| - 1];
      CallSummariesAt(init, parse);
      forall k | 0 <= k < |calls| - 1
        ensures CallSummaries(calls, parse)[k] == CallSummary(calls[k], parse)
      {
        assert init[k] == calls[k];
      }
    }
  }

  /** What each role contributes: one tagged line for a user turn, a tool
      result or a plain assistant turn; two lines (the text, or a stand-in,
      and the call summaries) for an assistant turn with tool calls; nothing
      for any other role. */
  lemma MessageLinesShape(m: Message, parse: ObjectParser)
    ensures MessageLines(m, parse) == [] <==> !Rendered(m.role)
    ensures m.role == "user" ==> MessageLines(m, parse) == ["[用户] " + m.content]
    ensures m.role == "assistant" && !HasToolCalls(m) ==> MessageLines(m, parse) == ["[助手] " + m.content]
    ensures m.role == "assistant" && HasToolCalls(m) ==>
              var r := MessageLines(m, parse);
              && |r| == 2
              && r[0] == "[助手] " + (if m.content != "" then m.content else "调用工具")
              && r[1] == "  -> " + Join(CallSummaries(m.toolCalls.value, parse), "；")
              && StartsWith(r[1], "  -> " + CallSummary(m.toolCalls.value[0], parse))
    ensures m.role == "tool" ==>
              MessageLines(m, parse) == ["[工具响应 " + IdPrefix(m) + "] " + ContentSummary(m.content, parse)]
  {
    if m.role == "assistant" && HasToolCalls(m) {
      var calls := m.toolCalls.value;
      var summaries := CallSummaries(calls, parse);
      CallSummariesAt(calls, parse);
      var toolText := Join(summaries, "；");
      assert |toolText| >= |summaries[|summaries| - 1]| > 0;
      JoinStartsWithFirst(summaries, "；");
      var line := "  -> " + toolText;
      assert line[..|"  -> " + summaries[0]|] == "  -> " + toolText[..|summaries[0]|];
    }
  }

  /** The lines of each message in turn, for any rendering of one message. */
  function LinesBy(messages: seq<Message>, render: Message -> seq<string>): seq<string>
    decreases |messages|
  {
    if messages == [] then []
    else LinesBy(messages[..|messages| - 1], render) + render(messages[|messages| - 1])
  }

  lemma {:induction false} LinesByAppend(a: seq<Message>, b: seq<Message>, render: Message -> seq<string>)
    ensures LinesBy(a + b, render) == LinesBy(a, render) + LinesBy(b, render)
    decreases |b|
  {
    if b == [] {
      assert a + b == a;
    } else {
      var b', last := b[..|b| - 1], b[|b| - 1];
      LinesByAppend(a, b', render);
      assert (a + b)[..|a + b| - 1] == a + b';
      assert (a + b)[|a + b| - 1] == last;
      ConcatAssociative(LinesBy(a, render), LinesBy(b', render), render(last));
    }
  }

  function Render(parse: ObjectParser): Message -> seq<string>
  {
    m => MessageLines(m, parse)
  }

  /** The transcript lines of a message list, in order. */
  function Lines(messages: seq<Message>, parse: ObjectParser): seq<string>
  {
    LinesBy(messages, Render(parse))
  }

  /** The transcript of a concatenation is the concatenation of transcripts. */
  lemma LinesAppend(a: seq<Message>, b: seq<Message>, parse: ObjectParser)
    ensures Lines(a + b, parse) == Lines(a, parse) + Lines(b, parse)
  {
    LinesByAppend(a, b, Render(parse));
  }

  /** One more message adds its own lines at the end. */
  lemma LinesSnoc(s: seq<Message>, m: Message, parse: ObjectParser)
    ensures Lines(s + [m], parse) == Lines(s, parse) + MessageLines(m, parse)
  {
    assert (s + [m])[..|s|] == s;
  }

  lemma LinesOfOne(m: Message, parse: ObjectParser)
    ensures Lines([m], parse) == MessageLines(m, parse)
  {
    LinesSnoc([], m, parse);
    assert [] + [m] == [m];
  }

  /** A message of any other role (system, for one) leaves no trace. */
  lemma SilentRole(a: seq<Message>, m: Message, b: seq<Message>, parse: ObjectParser)
    requires !Rendered(m.role)
    ensures Lines(a + [m] + b, parse) == Lines(a + b, parse)
  {
    MessageLinesShape(m, parse);
    LinesOfOne(m, parse);
    LinesAppend(a + [m], b, parse);
    LinesAppend(a, [m], parse);
    LinesAppend(a, b, parse);
  }

  /** A run of user turns gives exactly one tagged line per turn. */
  lemma {:induction false} UserTurns(messages: seq<Message>, parse: ObjectParser)
    requires forall i :: 0 <= i < |messages| ==> messages[i].role == "user"
    ensures |Lines(messages, parse)| == |messages|
    ensures forall i :: 0 <= i < |messages| ==> Lines(messages, parse)[i] == "[用户] " + messages[i].content
    decreases |messages|
  {
    if messages != [] {
      var init, last := messages[..|messages| - 1], messages[|messages| - 1];
      UserTurns(init, parse);
      assert messages == init + [last];
      LinesSnoc(init, last, parse);
      MessageLinesShape(last, parse);
    }
  }

  /** `_format_messages_for_compression`: a loop over the messages that fills
      a list of lines, with an inner loop over an assistant turn's tool calls,
      and the lines joined with newlines. */
  method FormatForCompression(messages: seq<Message>, parse: ObjectParser) returns (text: string)
    ensures text == Join(Lines(messages, parse), "\n")
  {
    var formatted: seq<string> := [];
    for i := 0 to |messages|
      invariant formatted == Lines(messages[..i], parse)
    {
      var msg := messages[i];
      var content := msg.content;
      if msg.role == "user" {
        formatted := formatted + ["[用户] " + content];
      } else if msg.role == "assistant" {
        if msg.toolCalls.Some? && msg.toolCalls.value != [] {
          var calls := msg.toolCalls.value;
          var summaries: seq<string> := [];
          for k := 0 to |calls|
            invariant summaries == CallSummaries(calls[..k], parse)
          {
            var argsText := ArgsText(calls[k].arguments, parse);
            summaries := summaries + ["调用工具: " + calls[k].name + "(" + argsText + ")"];
            assert calls[..k + 1][..k] == calls[..k];
          }
          assert calls[..|calls|] == calls;
          var toolText := Join(summaries, "；");
          formatted := formatted + ["[助手] " + (if content != "" then content else "调用工具")];
          if toolText != "" {
            formatted := formatted + ["  -> " + toolText];
          }
        } else {
          formatted := formatted + ["[助手] " + content];
        }
      } else if msg.role == "tool" {
        var toolCallId := if msg.toolCallId.Some? then msg.toolCallId.value else "unknown";
        var summary;
        if StartsWith(content, "{") && EndsWith(content, "}") {
          match parse(content)
          case Some(fields) =>
            summary := "返回数据: " + TypeMap(fields);
          case None =>
            summary := ComplexData;
        } else if |content| > ContentLimit {
          summary := ContentPrefix + content[..ContentLimit] + "...";
        } else {
          summary := ContentPrefix + content;
        }
        formatted := formatted + ["[工具响应 " + Take(toolCallId, 8) + "] " + summary];
      }
      assert messages[..i + 1] == messages[..i] + [msg];
      LinesSnoc(messages[..i], msg, parse);
    }
    assert messages[..|messages|] == messages;
    text := Join(formatted, "\n");
  }
}
