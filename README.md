# Chrry-Server conversation core in Dafny

Chrry-Server is a small chat backend. A client sends a message to a
conversation. The server stores it, asks an OpenAI-compatible provider for a
reply, stores the reply and returns it. This project models the core of that
flow and proves its laws:

- **Conversation store** (`Conversations`, class `ConversationStore`). Each
  conversation has a metadata record and three tiers of history:
  - `raw`: every message ever added;
  - `tactical`: the messages not yet summarised;
  - `archive`: the summaries.

  `AddMessage` appends to `raw` and `tactical`, counts the message and steps
  a countdown. When the countdown is at zero it asks for a compaction and
  restarts at 10. A compaction keeps the five newest tactical messages and
  archives one summary that counts the others. The invariant `Valid` ties
  the files to the metadata:
  - the countdown stays in 0..10;
  - the message count equals the length of `raw`;
  - `tactical` is a suffix of `raw`;
  - the summaries count exactly the messages that left `tactical`.

  Every state-changing method preserves `Valid`: the store's own methods,
  `StepCountdown` included, and every step of the message flow.
  The constructor establishes it when it finds no conversation directory;
  files found on disk are taken as they are.
- **Compaction decision** (`Compression`) and its **transcript** (`Transcript`).
  The decision is a chain of guards, then a provider request that offers a
  single `no_compress` tool, then the reading of the reply. The transcript is
  the plain-text rendering of the messages being summarised.
- **Request body** (`PayloadUtil`): the message layout and the sampling
  defaults.
- **Reply extraction** (`AiResponse`).
- **Prompt and provider-configuration stores** (`PromptManager`, `AiManager`).
- **Message flow** (`MessageFlow`): the order of store writes in
  `process_message`, its error messages, and the URL and header rules of
  `_call_ai`.
- **HTTP response shapes** (`ResponseUtil`).

Everything outside the process is a parameter:

- `now` is the clock. One reading serves a whole call: the source reads
  `time.time()` afresh for each record, for the update time, for the attempt
  stamp and for each summary, and those readings may differ by the time the
  call takes.
- `freshId` is the generated conversation id.
- `saved`, `written`, `compactWritten`, `removed` and `Disk` are the outcomes
  of file operations. `Disk` holds one outcome per `add_message` of a
  message, and one for the compaction that at most one of them triggers.
- `parse` is JSON object parsing.
- `callAi` and `post` are the network call. Each yields `None` when no reply
  comes back.

Python's slicing (negative and out-of-range bounds), `str.strip`,
`str.rstrip(c)`, `str.join` and `in` on strings are modelled exactly in
`PySeq`. So `update_after_compression` is modelled for every `keep`,
including 0.

Two behaviours of the code as written are proved, not hidden:

- **A summary breaks later requests.** Archive summaries carry no `role`, but
  `build_messages` reads `msg["role"]` for every context entry. So once a
  conversation has been compacted, every later message to a supported
  provider fails with `服务器错误: 'role'`. `MessageFlow.ProcessMessage`
  ends in `MessageFlow.Conversed`, and `MessageFlow.ConversedAfterArchive`
  proves the failure for every such run. It rests on
  `MessageFlow.ArchivedConversationFails` and `Conversations.ContextShape`.
  `PayloadUtil.BuildMessages` states the condition as its precondition.
- **The user turn is sent twice.** `process_message` stores the user's text
  and then passes it again as the new message, so the provider sees that
  turn twice in a row. `MessageFlow.ConversedRepeatsUserTurn` proves it of
  every run of `process_message` that stores the text, using
  `PayloadUtil.RepeatedUserTurn`.

Both behaviours sit behind the two defects listed under Findings. The flow
of the model uses the corrected functions; with the functions as written,
no message is ever answered and no conversation is ever compacted.

A stored tool result never has a `tool_call_id`, because `add_message`
cannot record one (`Conversations.NewMessage`). The transcript therefore
always labels it `[工具响应 unknown]`.

## Model

| member | source | states |
|---|---|---|
| ResponseUtil.Success | utils/response_utils.py:6-24 | status 200, keys exactly `success` (true) and `data`; a missing `data` becomes an empty object, any other passes through |
| ResponseUtil.DefaultCause | utils/response_utils.py:40-49 | 400, 403 and 422 map to their documented causes, every other status to `InternalError` |
| ResponseUtil.Error | utils/response_utils.py:26-56 | status unchanged, keys exactly `success` (false) and `cause`; the given cause, else the default for the status |
| ResponseUtil.ShapesDistinguishable | utils/response_utils.py:19-54 | success and error bodies differ in `success`; an error has no `data`, a success no `cause` |
| ResponseUtil.DefaultCauseTable | utils/response_utils.py:41-49 | a specific default cause exists exactly for 400, 403 and 422 |
| PromptManager.LoadPrompts | managers/prompt_manager.py:18-28 | the stored dictionary, or exactly one `common` entry holding the default prompt |
| PromptManager.PromptOf | managers/prompt_manager.py:59-63 | the entry's prompt, or "" when the entry or its `prompt` key is missing |
| PromptManager.FullPromptOf | managers/prompt_manager.py:65-73 | the common prompt alone when the specific one is empty, else common, a blank line, specific |
| PromptManager.WithPrompt | managers/prompt_manager.py:49-57 | the name is added or updated with the prompt and update time; `created` only for a new name; every other entry unchanged |
| PromptManager.WithCommon | managers/prompt_manager.py:40-47 | `common` gets the prompt and update time, keeps its `created`, gets none when new; every other entry unchanged |
| PromptManager.Listed | managers/prompt_manager.py:75-82 | exactly the entries other than `common`, unchanged |
| PromptManager.Without | managers/prompt_manager.py:84-90 | removes the name exactly when it exists and is not `common`; otherwise the dictionary is unchanged |
| PromptManager.GetAfterSet | managers/prompt_manager.py:49-63 | reading a name after setting it gives the new prompt; other names read as before |
| PromptManager.FullPromptAfterSet | managers/prompt_manager.py:49-73 | after setting a non-empty specific prompt, the full prompt is common + blank line + that prompt |
| PromptManager.ListingIgnoresCommon | managers/prompt_manager.py:40-82 | setting `common` never changes the listing |
| PromptManager.DeleteUndoesCreate | managers/prompt_manager.py:49-90 | deleting a just-created name restores the dictionary |
| PromptManager.PromptStore.constructor | managers/prompt_manager.py:11-28 | the store starts from the loaded dictionary |
| PromptManager.PromptStore.SetCommon | managers/prompt_manager.py:40-47 | the dictionary becomes `WithCommon` of the old one; the result is the save outcome |
| PromptManager.PromptStore.SetPrompt | managers/prompt_manager.py:49-57 | the dictionary becomes `WithPrompt` of the old one; the result is the save outcome |
| PromptManager.PromptStore.DeletePrompt | managers/prompt_manager.py:84-90 | `common` or a missing name gives False and no change; otherwise the name is removed and the save outcome returned |
| AiManager.Lookup | managers/ai_manager.py:37-39 | a configuration exactly for a known id, and it is the stored one |
| AiManager.GetAfterSet | managers/ai_manager.py:37-43 | after `set(u, c)`, `get(u)` is `c` and other ids read as before |
| AiManager.GetAfterDelete | managers/ai_manager.py:37-56 | after deleting `u`, `u` is unknown and other ids read as before |
| AiManager.AiConfigStore.constructor | managers/ai_manager.py:9-25 | the stored dictionary, or empty when there is none |
| AiManager.AiConfigStore.Set | managers/ai_manager.py:41-43 | the id maps to the new configuration; the result is the save outcome |
| AiManager.AiConfigStore.List | managers/ai_manager.py:45-47 | the whole dictionary, as a value |
| AiManager.AiConfigStore.Delete | managers/ai_manager.py:49-56 | unknown id gives False and no change; otherwise removed and the save outcome returned |
| AiResponse.ExtractOpenAi | utils/ai_response_util.py:5-69 | defaults without choices; otherwise the first choice's text (missing or null becomes ""), its tool calls when non-empty, its finish reason (default `unknown`), and the usage total (default 0) |
| AiResponse.OnlyFirstChoiceRead | utils/ai_response_util.py:34-50 | two replies with the same first choice and usage extract the same |
| AiResponse.ExtractAiResponse | utils/ai_response_util.py:71-76 | a result exactly for the four supported providers, and it is the OpenAI extraction |
| PayloadUtil.LayoutLaws | utils/payload_util.py:5-31 | length is [prompt non-empty] + 1 + context + messages; system prompt first when non-empty, then the device line, context reduced to role and content in order, then each message under the given role |
| PayloadUtil.BuildMessages | utils/payload_util.py:5-31 | the two loops produce exactly the layout above |
| PayloadUtil.GenerateOpenAiPayload | utils/payload_util.py:33-81 | model and full prompt layout; sampling values or defaults 0.7, 1.0, 1024, false; `tools` and `tool_choice` (default `auto`) present exactly when tools are offered; `seed` present exactly when configured |
| PayloadUtil.GeneratePayload | utils/payload_util.py:83-113 | corrected: a body exactly for the four supported providers, and it is the OpenAI body; a role-less context is excluded only for a supported provider, where the source raises |
| PayloadUtil.GeneratePayloadAsWritten | utils/payload_util.py:83-113 | as written: always nothing; an unsupported provider needs no condition on the context |
| PayloadUtil.AsWrittenLosesPayload | utils/payload_util.py:83-113 | for a supported provider the written function returns nothing where the corrected one returns a body |
| PayloadUtil.RepeatedUserTurn | managers/message_manager.py:77-104 | a context ending in the user's turn plus the same text as new message puts that turn twice in a row at the end |
| Transcript.ContentSummary | managers/compress_manager.py:207-222 | JSON-shaped content becomes its key-to-type map, or the fixed text when it does not parse; other content keeps its first 100 characters, with "..." exactly when longer |
| Transcript.IdPrefix | managers/compress_manager.py:205-224 | the first min(8, length) characters of the id, `unknown` when missing |
| Transcript.MessageLinesShape | managers/compress_manager.py:172-224 | one `[用户]` line per user turn; one `[助手]` line for a plain assistant turn; two lines (text or `调用工具`, then `  -> ` followed by every call's summary joined with `；`) with tool calls; one `[工具响应 id]` line per tool result; nothing for any other role |
| Transcript.LinesAppend | managers/compress_manager.py:172-224 | the transcript of a concatenation is the concatenation of transcripts |
| Transcript.SilentRole | managers/compress_manager.py:176-224 | a message of any other role leaves no trace |
| Transcript.UserTurns | managers/compress_manager.py:177-178 | a run of user turns gives exactly one tagged line per turn, in order |
| Transcript.CallSummariesAt | managers/compress_manager.py:183-195 | one summary per tool call, the k-th summarising the k-th call |
| Transcript.FormatForCompression | managers/compress_manager.py:168-226 | the loops produce the lines above joined with newlines |
| Compression.Judge | managers/compress_manager.py:132-146 | a decline tool call refuses; otherwise a fold only with non-empty text, and the summary is exactly the stripped text of the reply |
| Compression.CompressDecision | managers/compress_manager.py:21-166 | corrected: at most 10 messages never fold; a fold needs the conversation, its configuration and a supported provider; the summary is non-empty and stripped (its exact value is stated by `CompressFoldsIff`) |
| Compression.CompressFoldsIff | managers/compress_manager.py:21-146 | a fold happens exactly when every guard passes, the provider is supported and replies, the first tool call is not `no_compress`, and the stripped text is non-empty; the summary is then the stripped text of the extracted reply to the request built from the tier |
| Compression.GuardsPass | managers/compress_manager.py:60-70 | once every check passes, the tier has more than ten messages, the configuration exists, and exactly all but the last five messages are summarised |
| Compression.RequestPayload | managers/compress_manager.py:97-116 | the request is built: the conversation's own full prompt when non-empty, the `压缩任务-<id>` device line, the request text as the one user message, and exactly the `no_compress` tool |
| Compression.RequestTextCount | managers/compress_manager.py:66-80 | the request text opens with the instruction naming the number of summarised messages, the tier's length minus five |
| Compression.DeclineNeverFolds | managers/compress_manager.py:135-140 | a reply whose first tool call is `no_compress` never folds, whatever its text |
| Compression.CompressDecisionAsWritten | managers/compress_manager.py:108-120 | as written: once the guards pass, the missing payload stops every compaction |
| Compression.CompressAsWrittenNeverFolds | managers/compress_manager.py:108-120 | as written, no tactical tier is ever folded |
| Compression.MissingCallAiNeverFolds | managers/compress_manager.py:124-129 | with the nonexistent `call_ai`, no fold even when the payload is returned |
| Conversations.NewMetadata | managers/conversation_manager.py:67-85 | countdown 10, count 0, no attempt yet, both times now, the given name, prompt, AI and device |
| Conversations.NewMessage | managers/conversation_manager.py:125-137 | role, content and time; tool calls and finish reason exactly as given; usage exactly for a positive token count; no tool call id |
| Conversations.AppendCapped | managers/conversation_manager.py:199-213 | the item is last and the result is a suffix of old + item; with no bound exactly old + item, else the newest `min(bound, n+1)` |
| Conversations.Compacted | managers/conversation_manager.py:341-370 | raw untouched; unchanged when tactical has at most `keep`; else tactical is its `[-keep:]` and one summary counting `[:-keep]` is archived |
| Conversations.CompactedKeepsRecent | managers/conversation_manager.py:341-362 | with keep 5 the last five messages stay in order, the summary counts the rest, and together they are the old tactical tier |
| Conversations.CompactKeepsConsistent | managers/conversation_manager.py:341-370 | a compaction keeps the store invariant |
| Conversations.ContextShape | managers/conversation_manager.py:249-251 | min(8, archive) newest summaries in order, then all of tactical; every entry has a role exactly when the archive is empty |
| Conversations.MemoryEntries | managers/conversation_manager.py:250 | the newest min(8, archive) summaries, in order |
| Conversations.ActiveEntries | managers/conversation_manager.py:251 | every tactical message, in order |
| Conversations.RunSchedule | managers/conversation_manager.py:153-186 | after k messages the countdown is 10 - k mod 11 and k div 11 attempts were made: compaction is attempted on the 11th, 22nd, ... message |
| Conversations.Stepped | managers/conversation_manager.py:153-186 | the new countdown is one step of the schedule |
| Conversations.Settled | managers/conversation_manager.py:158-180 | the countdown step never changes raw |
| Conversations.AppendKeepsConsistent | managers/conversation_manager.py:139-148 | appending the message and counting it keeps the invariant |
| Conversations.AddKeepsAll | managers/conversation_manager.py:139-186 | a whole `add_message` keeps the invariant for every conversation |
| Conversations.StepKeepsAll | managers/conversation_manager.py:150-186 | a countdown step, with or without compaction, keeps the invariant for every conversation |
| Conversations.AddedShape | managers/conversation_manager.py:92-197 | one `add_message` appends the record to raw, leaves it the newest tactical message, never shrinks the archive, and counts the message with the new update time |
| Conversations.SettledKeepsNewest | managers/conversation_manager.py:150-186 | the countdown step keeps the newest tactical message last and never shrinks the archive |
| Conversations.ConversationStore.constructor | managers/conversation_manager.py:14-32 | the stored metadata or empty, and the directories found |
| Conversations.ConversationStore.CreateConversation | managers/conversation_manager.py:44-90 | the fresh id gets initial metadata and three empty tiers; invariant kept |
| Conversations.ConversationStore.ConversationContext | managers/conversation_manager.py:260-289 | a snapshot exactly for a known conversation with a directory, holding its metadata and tiers |
| Conversations.ConversationStore.ContextForAi | managers/conversation_manager.py:215-258 | empty for an unknown conversation or a missing directory, else the context layout |
| Conversations.ConversationStore.TacticalContent | managers/conversation_manager.py:291-307 | empty for an unknown conversation or a missing directory, else the tactical tier |
| Conversations.ConversationStore.ListConversations | managers/conversation_manager.py:382-390 | with a non-empty device exactly that device's conversations, else all, entries unchanged |
| Conversations.ConversationStore.UpdateAfterCompression | managers/conversation_manager.py:309-380 | False with no change for an unknown conversation or missing directory; True with no change for a tactical tier of at most `keep`; otherwise the tiers compacted and True when the writes succeed, False with no change when they fail; metadata untouched; invariant kept |
| Conversations.ConversationStore.AddMessage | managers/conversation_manager.py:92-197 | True exactly for a known conversation with a directory and a successful write; otherwise no change; on success this conversation becomes `Added` of its old metadata and files and no other changes: raw and tactical gain the record, count and time advance, the countdown steps, compaction on the new tactical tier at zero; on success the new record is the newest tactical message and the archive does not shrink; invariant kept. Compaction runs through the corrected `CompressDecision` with whichever `callAi` is passed: `CallerFor(post)` in the flow, while `CallAiAsWritten` gives the program as written, which never compacts (`MissingCallAiNeverFolds`) |
| Conversations.ConversationStore.StepCountdown | managers/conversation_manager.py:150-186 | positive countdown decremented; at zero, compaction (applied only when its writes succeed) then restart at 10 and stamp the attempt, whatever the outcome; invariant kept |
| Conversations.ConversationStore.DeleteConversation | managers/conversation_manager.py:392-409 | unknown id or failed directory removal gives False and no change; otherwise the id leaves both maps and the save outcome is returned |
| Conversations.Compress | managers/compress_manager.py:21-166 | True exactly on a fold of the corrected `CompressDecision` whose write-back succeeds (or has nothing to trim); the tiers are compacted keeping five around the decided summary exactly on a fold whose writes succeed; otherwise nothing changes; metadata untouched. As written it never folds (see Findings) |
| MessageFlow.Failure | managers/message_manager.py:191-197 | not successful, no response, the message as error |
| MessageFlow.Succeeded | managers/message_manager.py:183-189 | successful, the reply as response, no error |
| MessageFlow.RequestFor | managers/message_manager.py:148-167 | timeout or 30; ollama at `/api/chat` with only the JSON header, moved to the local default unless the base mentions localhost; others at `/chat/completions` with a bearer token; trailing slashes dropped |
| MessageFlow.OllamaDefaultsToLocal | managers/message_manager.py:148-155 | an ollama configuration without base URL goes to `http://localhost:11434/api/chat` |
| MessageFlow.Answer | managers/message_manager.py:86-124 | unknown configuration, a role-less context for a supported provider, an unsupported provider each fail with their messages; success exactly when the provider replies, and then the OpenAI extraction of that reply |
| MessageFlow.AsWrittenNeverAnswers | managers/message_manager.py:94-106 | as written, every message fails, at the payload step when it gets there |
| MessageFlow.ArchivedConversationFails | managers/message_manager.py:91-143 | once a conversation has a summary, every message to a supported provider fails with `服务器错误: 'role'` |
| MessageFlow.StoreToolTurn | managers/message_manager.py:64-74 | the conversation becomes `AfterTool` of its old metadata and files: one `add_message` of the `tool` record with the response's content (or "") exactly when a non-empty response came and was written; no other conversation changes; invariant kept |
| MessageFlow.StoreUserTurn | managers/message_manager.py:76-84 | the conversation becomes `AfterUser`: one `add_message` of the `user` record exactly when the text is non-blank and was written; no other conversation changes; invariant kept; the result is false only when the write failed |
| MessageFlow.StoreClientTurns | managers/message_manager.py:64-84 | the conversation becomes `AfterClient`, step 3 then step 4; no other conversation changes; invariant kept; the result is false only when the user turn was not written |
| MessageFlow.StoreReply | managers/message_manager.py:121-131 | the conversation becomes `AfterReply`: one `add_message` of the `assistant` record with the reply's text, tool calls, finish reason and token count exactly when the write succeeds; no other conversation changes; invariant kept |
| MessageFlow.AfterToolShape | managers/message_manager.py:64-74 | step 3 adds exactly `ToolPart` to raw and never shrinks the archive |
| MessageFlow.AfterUserShape | managers/message_manager.py:76-84 | step 4 adds exactly `UserPart` to raw, never shrinks the archive, and a stored user turn is the newest tactical message |
| MessageFlow.AfterClientShape | managers/message_manager.py:64-84 | steps 3 and 4 add exactly `ClientTurns`, tool before user |
| MessageFlow.RolesConcat | managers/message_manager.py:64-131 | the roles of a concatenation are the concatenated roles |
| MessageFlow.Converse | managers/message_manager.py:63-139 | for a known conversation, `Conversed`: the conversation after the client's turns is exactly `AfterClient` of the old one; the user-save failure message; otherwise the context read from that conversation's files is what `Answer` is asked with, an error is returned with nothing more stored, a success is returned and the conversation ends as `AfterReply` of that reply; no other conversation changes; invariant kept |
| MessageFlow.ProcessMessage | managers/message_manager.py:19-143 | missing fields and an unknown conversation fail with the conversations and their files unchanged; otherwise `Conversed` as for `Converse`, with no other conversation changed; invariant kept. Provider and compaction calls go through the corrected functions; with the functions as written every message fails (`AsWrittenNeverAnswers`) |
| MessageFlow.ConversedRaw | managers/message_manager.py:63-84 | after the client's turns, raw is the old raw plus exactly `ClientTurns`, and the archive has not shrunk |
| MessageFlow.ConversedReply | managers/message_manager.py:86-131 | a failed message ends with the conversation as the client's turns left it; otherwise raw gains exactly the reply record, present exactly when the provider answered and the write succeeded |
| MessageFlow.ConversedUserLast | managers/message_manager.py:77-89 | when the text is stored, it is the newest entry of the context sent to the provider |
| MessageFlow.TurnRoles | managers/message_manager.py:64-131 | the roles of the client's turns and an optional reply, in order |
| MessageFlow.ConversedRoles | managers/message_manager.py:63-131 | the roles appended by one message are tool, user, assistant in that order, each present exactly when that turn came and was written |
| MessageFlow.ConversedAfterArchive | managers/message_manager.py:91-143 | in a conversation with a summary, a message that reaches the provider step fails with `服务器错误: 'role'` for a supported provider, and the conversation ends as the client's turns left it |
| MessageFlow.ConversedRepeatsUserTurn | managers/message_manager.py:77-104 | when the text is stored, the request's last two entries are both that user turn |

## Left out

- File I/O is not modelled. Each conversation directory is one `Tiers` value. A directory with some of its three files missing or unreadable is not modelled, and neither is a metadata or prompt file that becomes unreadable after start-up.
- Conversations.ConversationStore.AddMessage: a write that fails part-way, leaving raw appended but not tactical, is not modelled. The `written` flag makes the whole call fail with no change. The unchecked result of the metadata save is ignored, as in the source.
- Conversations.ConversationStore.StepCountdown: the `except ImportError` branch (managers/conversation_manager.py:182) is not modelled. The import it was meant to guard sits at module level (managers/conversation_manager.py:7), outside the `try` at line 167, and `compress_manager` imports `conversation_manager` back at module level (managers/compress_manager.py:11). Loaded in either order, one of the two `from … import` lines names an object not yet defined, so the program fails when it is loaded. The model assumes both modules load; the call inside the `try` cannot then raise `ImportError`.
- Conversations.ConversationStore.UpdateAfterCompression: a failure between the archive write and the tactical write (managers/conversation_manager.py:364-369), which leaves the summary archived while the tactical tier keeps the summarised messages, is not modelled. `written` makes the whole write-back succeed or fail; the half-written state would break `Valid`, counting those messages twice.
- Conversations.ConversationStore.DeleteConversation: a `rmtree` that removes part of a directory before failing is not modelled.
- Sampling values are carried as `real` and are never computed on. A key present with JSON null is treated as absent.
- Transcript.TypeMap renders Python's dict repr with single quotes around every key and type name. Keys that contain a quote, where repr would switch quoting, and keys holding a backslash or a non-printable character, which repr escapes, are not modelled.
- AiResponse.ExtractOpenAi: the exception path is not modelled. It fires for a `message` or `usage` that is JSON null, and then returns a partly filled result with `_raw`.
- Conversations.NewMessage: `total_tokens` is an integer. A null token count, which raises in the source, is not modelled.
- MessageFlow.ProcessMessage: message values that are not strings, and an empty AI configuration object (which Python treats as false), are not modelled. The `tool_call_id` of a tool response is never read by the source, so it is dropped.
- MessageFlow.Poster: a reply that decodes to an empty JSON object reads as no reply (`None`), as the source's truthiness test does.
- Metadata keys read with `.get` defaults (`interval`, `prompt`, `ai`, `device`, `provider`) are always present in the model.
- The Flask routes in `main.py`, `utils/api_key_util.py`, `utils/file_utils.py` and the logger are not part of this model.
- PromptManager.PromptStore.GetPrompt, GetFullPrompt and ListPrompts and AiManager.AiConfigStore.Get read the store through `PromptOf`, `FullPromptOf`, `Listed` and `Lookup`. Their properties are stated on those functions.

## Findings

| source | as written | input that shows it | evidently intended | confidence | as-written member | corrected member |
|---|---|---|---|---|---|---|
| utils/payload_util.py:83-113 | `generate_payload` builds the body and ends without `return`, so it yields `None` | any call whose configuration's provider is `openai` | return the body it built | high; not executed | PayloadUtil.GeneratePayloadAsWritten, PayloadUtil.AsWrittenLosesPayload | PayloadUtil.GeneratePayload |
| managers/compress_manager.py:125 | calls `ai_manager.call_ai`, which `AIConfigManager` does not define; the `AttributeError` is caught and `compress` returns False | a tactical tier of 11 messages whose conversation uses an `openai` configuration, once the missing `return` above is fixed | send the request as `_call_ai` does and read its reply | high; not executed | Compression.CallAiAsWritten, Compression.MissingCallAiNeverFolds | Compression.CompressDecision, Compression.CompressFoldsIff |
