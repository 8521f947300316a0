/** `ConversationManager`: the metadata of every conversation, and for each
    conversation whose directory exists its three tiers of history. The three
    JSON files of a directory are the fields of `Tiers`; reading and writing
    them is replaced by reading and assigning the map `tiers`. */
module Conversations {
  import opened Records
  import opened PySeq
  import Compression
  import Transcript
  import PromptManager

  /** `raw_context.json` (every message ever added), `tactical.json` (the
      messages not yet summarised) and `archive.json` (the summaries). */
  datatype Tiers = Tiers(raw: seq<Message>, tactical: seq<Message>, archive: seq<Summary>)

  /** What `get_conversation_context` returns for a known conversation. */
  datatype Snapshot = Snapshot(metadata: Metadata, tiers: Tiers)

  /** The countdown value of a new conversation and after every compaction attempt. */
  const FullInterval := 10

  /** How many archive summaries the provider sees. */
  const MemoryWindow := 8

  const EmptyTiers := Tiers([], [], [])

  /** The metadata record `create_conversation` writes. */
  function NewMetadata(name: string, promptType: string, aiRef: string, deviceId: string, now: int): (m: Metadata)
    ensures m.interval == FullInterval && m.messageCount == 0 && m.lastCompressAttempt == 0
    ensures m.created == now && m.updated == now
    ensures m.name == name && m.prompt == promptType && m.ai == aiRef && m.device == deviceId
  {
    Metadata(name, promptType, aiRef, FullInterval, deviceId, now, now, 0, 0)
  }

  /** The record `add_message` stores: the optional keys are set only when
      given, and `usage` only for a positive token count. No `tool_call_id`
      is ever written. */
  function NewMessage(role: string, content: string, toolCalls: Option<seq<ToolCall>>,
                      finishReason: Option<string>, totalTokens: int, now: int): (m: Message)
    ensures m.role == role && m.content == content && m.timestamp == now
    ensures m.toolCalls == toolCalls && m.finishReason == finishReason
    ensures m.usage.Some? <==> totalTokens > 0
    ensures m.usage.Some? ==> m.usage.value == totalTokens
    ensures m.toolCallId.None?
  {
    Message(role, content, now, toolCalls, finishReason,
            if totalTokens > 0 then Some(totalTokens) else None, None)
  }

  /** `_append_to_file`: append, then keep only the newest `maxItems` when
      that bound is positive. Every caller uses the default 0 (no bound). */
  function AppendCapped<T>(existing: seq<T>, item: T, maxItems: int): (r: seq<T>)
    ensures r != [] && r[|r| - 1] == item
    ensures IsSuffix(r, existing + [item])
    ensures maxItems <= 0 ==> r == existing + [item]
    ensures maxItems > 0 ==> |r| == Min(maxItems, |existing| + 1)
  {
    var appended := existing + [item];
    if maxItems > 0 && |appended| > maxItems then From(appended, -maxItems) else appended
  }

  /** Both history files receive the new message. */
  function Appended(t: Tiers, m: Message): Tiers
  {
    Tiers(AppendCapped(t.raw, m, 0), AppendCapped(t.tactical, m, 0), t.archive)
  }

  /** `update_after_compression` on one conversation's tiers: nothing when
      the tactical tier has at most `keep` messages; otherwise the newest
      `keep` stay and one summary record counting the others is archived. */
  function Compacted(t: Tiers, summary: string, keep: int, now: int): (r: Tiers)
    ensures r.raw == t.raw
    ensures |t.tactical| <= keep ==> r == t
    ensures |t.tactical| > keep ==>
              && r.tactical == From(t.tactical, -keep)
              && r.archive == t.archive + [Summary("compressed", summary, |Upto(t.tactical, -keep)|, now)]
  {
    if |t.tactical| <= keep then t
    else
      var toKeep := From(t.tactical, -keep);
      var toCompress := Upto(t.tactical, -keep);
      Tiers(t.raw, toKeep, t.archive + [Summary("compressed", summary, |toCompress|, now)])
  }

  /** With the keep count of 5 that compaction uses, the last five messages
      stay, in order, and the summary counts exactly the ones before them. */
  lemma CompactedKeepsRecent(t: Tiers, summary: string, now: int)
    requires |t.tactical| > Compression.KeepRecent
    ensures var r := Compacted(t, summary, Compression.KeepRecent, now);
            && r.tactical == t.tactical[|t.tactical| - 5..]
            && r.archive[|r.archive| - 1].originalCount == |t.tactical| - 5
            && t.tactical[..|t.tactical| - 5] + r.tactical == t.tactical
  {
    NegativeSplit(t.tactical, Compression.KeepRecent);
  }

  /** The list `get_context_for_ai` builds: the last eight summaries, then the
      whole tactical tier. */
  function ContextFor(t: Tiers): seq<ContextEntry>
  {
    MemoryEntries(t.archive) + ActiveEntries(t.tactical)
  }

  /** The newest `MemoryWindow` summaries, in order. */
  function MemoryEntries(archive: seq<Summary>): (r: seq<ContextEntry>)
    ensures |r| == Min(MemoryWindow, |archive|)
    ensures forall i :: 0 <= i < |r| ==> r[i] == Memory(archive[|archive| - |r| + i])
  {
    var memory := From(archive, -MemoryWindow);
    seq(|memory|, i requires 0 <= i < |memory| => Memory(memory[i]))
  }

  function ActiveEntries(tactical: seq<Message>): (r: seq<ContextEntry>)
    ensures |r| == |tactical|
    ensures forall j :: 0 <= j < |r| ==> r[j] == Active(tactical[j])
  {
    seq(|tactical|, j requires 0 <= j < |tactical| => Active(tactical[j]))
  }

  /** The context holds at most eight summaries, the most recent ones in
      order, followed by every tactical message; it reaches the provider
      intact only while the archive is empty, since a summary has no role. */
  lemma ContextShape(t: Tiers)
    ensures var c := ContextFor(t);
            var k := Min(MemoryWindow, |t.archive|);
            && |c| == k + |t.tactical|
            && (forall i :: 0 <= i < k ==> c[i] == Memory(t.archive[|t.archive| - k + i]))
            && (forall j :: 0 <= j < |t.tactical| ==> c[k + j] == Active(t.tactical[j]))
            && (AllHaveRole(c) <==> t.archive == [])
  {
    var m, a := MemoryEntries(t.archive), ActiveEntries(t.tactical);
    var c := m + a;
    var k := |m|;
    forall i | 0 <= i < k
      ensures c[i] == Memory(t.archive[|t.archive| - k + i])
    {
      assert c[i] == m[i];
    }
    forall j | 0 <= j < |t.tactical|
      ensures c[k + j] == Active(t.tactical[j])
    {
      assert c[k + j] == a[j];
    }
    if t.archive != [] {
      assert !c[0].Active?;
    }
  }

  /** One step of the countdown in `add_message`: a positive interval is
      decreased, and at zero a compaction is attempted and the interval
      restarts at 10 whatever the outcome. */
  function Tick(interval: int): (r: (int, bool))
  {
    if interval > 0 then (interval - 1, false) else (FullInterval, true)
  }

  /** The countdown after `k` messages of a new conversation, and the number
      of compaction attempts made so far. */
  function Run(k: nat): (int, nat)
  {
    if k == 0 then (FullInterval, 0)
    else
      var (interval, attempts) := Run(k - 1);
      var (next, attempted) := Tick(interval);
      (next, if attempted then attempts + 1 else attempts)
  }

  /** Compaction is attempted on the 11th, 22nd, 33rd, ... message and never
      in between. */
  lemma {:induction false} RunSchedule(k: nat)
    ensures Run(k) == (FullInterval - k % 11, k / 11)
  {
    if k > 0 {
      RunSchedule(k - 1);
      if (k - 1) % 11 == 10 {
        assert k % 11 == 0 && k / 11 == (k - 1) / 11 + 1;
      } else {
        assert k % 11 == (k - 1) % 11 + 1 && k / 11 == (k - 1) / 11;
      }
    }
  }

  /** The metadata after a message is counted. */
  function Counted(meta: Metadata, now: int): Metadata
  {
    meta.(messageCount := meta.messageCount + 1, updated := now)
  }

  /** The metadata after the countdown step: the attempt is stamped only when
      one is made. */
  function Stepped(meta: Metadata, now: int): (r: Metadata)
    ensures r.interval == Tick(meta.interval).0
  {
    if meta.interval > 0 then meta.(interval := meta.interval - 1)
    else meta.(interval := FullInterval, lastCompressAttempt := now)
  }

  /** The tiers after a countdown step: compacted when an attempt is made,
      the provider returns a summary and the compaction's writes succeed
      (`written`), otherwise unchanged. */
  function Settled(t: Tiers, attempted: bool, decision: Compression.Decision, written: bool, now: int): (r: Tiers)
    ensures r.raw == t.raw
  {
    if attempted && decision.Fold? && written then Compacted(t, decision.summary, Compression.KeepRecent, now)
    else t
  }

  /** The metadata and files of conversation `id` after `add_message` stores
      `m` in them: the message is appended and counted, then the countdown
      steps, compacting the tactical tier that now ends with `m` when it
      reaches zero. `compactWritten` is whether that compaction's writes
      succeed. */
  function Added(id: string, s: Snapshot, m: Message, now: int, compactWritten: bool,
                 ais: map<string, AiConfig>, prompts: PromptManager.Prompts,
                 parse: Transcript.ObjectParser, callAi: Compression.AiCaller): Snapshot
  {
    var counted := Counted(s.metadata, now);
    var appended := Appended(s.tiers, m);
    var decision := Compression.CompressDecision(id, appended.tactical, Some(counted), ais, prompts, parse, callAi);
    Snapshot(Stepped(counted, now), Settled(appended, Tick(counted.interval).1, decision, compactWritten, now))
  }

  /** `add_message` appends `m` to the raw history and counts it; `m` stays
      the newest tactical message whatever the countdown does, and no
      summary is lost. */
  lemma AddedShape(id: string, s: Snapshot, m: Message, now: int, compactWritten: bool,
                   ais: map<string, AiConfig>, prompts: PromptManager.Prompts,
                   parse: Transcript.ObjectParser, callAi: Compression.AiCaller)
    ensures var r := Added(id, s, m, now, compactWritten, ais, prompts, parse, callAi);
            && r.tiers.raw == s.tiers.raw + [m]
            && r.tiers.tactical != [] && r.tiers.tactical[|r.tiers.tactical| - 1] == m
            && |r.tiers.archive| >= |s.tiers.archive|
            && r.metadata.messageCount == s.metadata.messageCount + 1
            && r.metadata.updated == now
  {
    var counted := Counted(s.metadata, now);
    var appended := Appended(s.tiers, m);
    var decision := Compression.CompressDecision(id, appended.tactical, Some(counted), ais, prompts, parse, callAi);
    SettledKeepsNewest(appended, Tick(counted.interval).1, decision, compactWritten, now);
  }

  /** A countdown step never drops the newest tactical message and never
      loses a summary: compaction keeps the newest five messages and only
      adds to the archive. */
  lemma SettledKeepsNewest(t: Tiers, attempted: bool, decision: Compression.Decision, written: bool, now: int)
    requires t.tactical != []
    ensures var r := Settled(t, attempted, decision, written, now);
            && r.tactical != [] && r.tactical[|r.tactical| - 1] == t.tactical[|t.tactical| - 1]
            && |r.archive| >= |t.archive|
  {
    if attempted && decision.Fold? && written && |t.tactical| > Compression.KeepRecent {
      NegativeSplit(t.tactical, Compression.KeepRecent);
    }
  }

  function SumCounts(archive: seq<Summary>): int
  {
    if archive == [] then 0
    else SumCounts(archive[..|archive| - 1]) + archive[|archive| - 1].originalCount
  }

  /** How the files of one conversation relate to its metadata: the countdown
      stays in 0..10, the message count is the length of the raw history, the
      tactical tier is the newest part of it, and the summaries account for
      exactly the messages that left the tactical tier. */
  ghost predicate Consistent(meta: Metadata, t: Tiers)
  {
    && 0 <= meta.interval <= FullInterval
    && |t.raw| == meta.messageCount
    && IsSuffix(t.tactical, t.raw)
    && SumCounts(t.archive) + |t.tactical| == |t.raw|
  }

  lemma AppendKeepsConsistent(meta: Metadata, t: Tiers, m: Message, interval: int, now: int)
    requires Consistent(meta, t) && 0 <= interval <= FullInterval
    ensures Consistent(meta.(messageCount := meta.messageCount + 1, interval := interval, updated := now),
                       Appended(t, m))
  {
    SuffixExtend(t.tactical, t.raw, m);
  }

  lemma Overwrite<K, V>(m: map<K, V>, k: K, a: V, b: V)
    ensures m[k := a][k := b] == m[k := b]
  {
  }

  /** Every conversation with a directory has metadata consistent with its files. */
  ghost predicate AllConsistent(conversations: map<string, Metadata>, tiers: map<string, Tiers>)
  {
    forall id :: id in tiers ==> id in conversations && Consistent(conversations[id], tiers[id])
  }

  lemma UpdateKeepsAll(conversations: map<string, Metadata>, tiers: map<string, Tiers>,
                       id: string, meta: Metadata, t: Tiers)
    requires AllConsistent(conversations, tiers) && Consistent(meta, t)
    ensures AllConsistent(conversations[id := meta], tiers[id := t])
  {
  }

  /** `add_message` keeps every conversation consistent: the appended
      message is counted, the countdown stays in range, and a compaction
      moves messages from the tactical tier into a summary that counts them. */
  lemma AddKeepsAll(conversations: map<string, Metadata>, tiers: map<string, Tiers>, id: string,
                    m: Message, now: int, compactWritten: bool,
                    ais: map<string, AiConfig>, prompts: PromptManager.Prompts,
                    parse: Transcript.ObjectParser, callAi: Compression.AiCaller)
    requires AllConsistent(conversations, tiers) && id in conversations && id in tiers
    ensures var r := Added(id, Snapshot(conversations[id], tiers[id]), m, now, compactWritten,
                           ais, prompts, parse, callAi);
            AllConsistent(conversations[id := r.metadata], tiers[id := r.tiers])
  {
    var meta := conversations[id];
    var counted := Counted(meta, now);
    var appended := Appended(tiers[id], m);
    var decision := Compression.CompressDecision(id, appended.tactical, Some(counted), ais, prompts, parse, callAi);
    AppendKeepsConsistent(meta, tiers[id], m, meta.interval, now);
    assert Consistent(counted, appended);
    var stepped := Stepped(counted, now);
    assert Consistent(stepped, appended);
    if Tick(counted.interval).1 && decision.Fold? && compactWritten {
      CompactKeepsConsistent(stepped, appended, decision.summary, Compression.KeepRecent, now);
    }
    UpdateKeepsAll(conversations, tiers, id, stepped,
                   Settled(appended, Tick(counted.interval).1, decision, compactWritten, now));
  }

  /** The countdown step alone keeps every conversation consistent. */
  lemma StepKeepsAll(conversations: map<string, Metadata>, tiers: map<string, Tiers>, id: string,
                     decision: Compression.Decision, written: bool, now: int)
    requires AllConsistent(conversations, tiers) && id in conversations && id in tiers
    ensures var meta := conversations[id];
            AllConsistent(conversations[id := Stepped(meta, now)],
                          tiers[id := Settled(tiers[id], Tick(meta.interval).1, decision, written, now)])
  {
    var meta := conversations[id];
    var stepped := Stepped(meta, now);
    assert Consistent(stepped, tiers[id]);
    if Tick(meta.interval).1 && decision.Fold? && written {
      CompactKeepsConsistent(stepped, tiers[id], decision.summary, Compression.KeepRecent, now);
    }
    UpdateKeepsAll(conversations, tiers, id, stepped, Settled(tiers[id], Tick(meta.interval).1, decision, written, now));
  }

  lemma CompactKeepsConsistent(meta: Metadata, t: Tiers, summary: string, keep: int, now: int)
    requires Consistent(meta, t)
    ensures Consistent(meta, Compacted(t, summary, keep, now))
  {
    if |t.tactical| > keep {
      var r := Compacted(t, summary, keep, now);
      SplitAt(t.tactical, -keep);
      assert r.archive[..|r.archive| - 1] == t.archive;
      var toKeep := From(t.tactical, -keep);
      assert IsSuffix(toKeep, t.tactical);
      SuffixTransitive(toKeep, t.tactical, t.raw);
    }
  }

  /** The conversation store. A conversation in `conversations` whose
      directory is missing has no entry in `tiers`. */
  class ConversationStore {
    var conversations: map<string, Metadata>
    var tiers: map<string, Tiers>

    ghost predicate Valid()
      reads this
    {
      AllConsistent(conversations, tiers)
    }

    /** `__init__`: the metadata file's content, or nothing when it is absent
        or unreadable, and the directories found on disk. */
    constructor (stored: Option<map<string, Metadata>>, directories: map<string, Tiers>)
      ensures conversations == (if stored.Some? then stored.value else map[])
      ensures tiers == directories
      ensures directories == map[] ==> Valid()
    {
      conversations := if stored.Some? then stored.value else map[];
      tiers := directories;
    }

    /** `create_conversation`: a fresh id (the `uuid4` value is the
        parameter), three empty files and the initial metadata. */
    method CreateConversation(name: string, promptType: string, aiRef: string, deviceId: string,
                              freshId: string, now: int) returns (id: string)
      modifies this
      ensures id == freshId
      ensures conversations == old(conversations)[id := NewMetadata(name, promptType, aiRef, deviceId, now)]
      ensures tiers == old(tiers)[id := EmptyTiers]
      ensures old(Valid()) ==> Valid()
    {
      id := freshId;
      tiers := tiers[id := EmptyTiers];
      conversations := conversations[id := NewMetadata(name, promptType, aiRef, deviceId, now)];
    }

    /** `get_conversation_context`: the metadata and the tiers, or nothing
        for an unknown conversation or a missing directory. */
    function ConversationContext(id: string): (r: Option<Snapshot>)
      reads this
      ensures r.Some? <==> id in conversations && id in tiers
      ensures r.Some? ==> r.value == Snapshot(conversations[id], tiers[id])
    {
      if id !in conversations || id !in tiers then None
      else Some(Snapshot(conversations[id], tiers[id]))
    }

    /** `get_context_for_ai`: empty for an unknown conversation or a missing
        directory. */
    function ContextForAi(id: string): (r: seq<ContextEntry>)
      reads this
      ensures id !in conversations || id !in tiers ==> r == []
      ensures id in conversations && id in tiers ==> r == ContextFor(tiers[id])
    {
      if id !in conversations || id !in tiers then [] else ContextFor(tiers[id])
    }

    /** `get_tactical_content` */
    function TacticalContent(id: string): (r: seq<Message>)
      reads this
      ensures id !in conversations || id !in tiers ==> r == []
      ensures id in conversations && id in tiers ==> r == tiers[id].tactical
    {
      if id !in conversations || id !in tiers then [] else tiers[id].tactical
    }

    /** `list_conversations`: with a non-empty device, exactly the
        conversations of that device; otherwise all of them. */
    function ListConversations(device: Option<string>): (r: map<string, Metadata>)
      reads this
      ensures forall id :: id in r ==> id in conversations && r[id] == conversations[id]
      ensures device.Some? && device.value != "" ==>
                forall id :: id in conversations ==> (id in r <==> conversations[id].device == device.value)
      ensures device.None? || device.value == "" ==> r == conversations
    {
      if device.Some? && device.value != "" then
        map id | id in conversations && conversations[id].device == device.value :: conversations[id]
      else conversations
    }

    /** `update_after_compression`. Fails for an unknown conversation or a
        missing directory. A tactical tier of at most `keep` messages is
        left alone and reported as success; otherwise the tier is compacted
        when the archive and tactical writes succeed (`written`), and the
        call fails with nothing changed when they do not. */
    method UpdateAfterCompression(id: string, summary: string, keep: int, now: int, written: bool)
      returns (ok: bool)
      modifies this
      ensures conversations == old(conversations)
      ensures ok <==> id in conversations && id in old(tiers) && (written || |old(tiers)[id].tactical| <= keep)
      ensures !ok ==> tiers == old(tiers)
      ensures ok ==> tiers == old(tiers)[id := Compacted(old(tiers)[id], summary, keep, now)]
      ensures old(Valid()) ==> Valid()
    {
      if id !in conversations || id !in tiers {
        return false;
      }
      var t := tiers[id];
      if |t.tactical| <= keep {
        return true;
      }
      if !written {
        return false;
      }
      var toKeep := From(t.tactical, -keep);
      var toCompress := Upto(t.tactical, -keep);
      var archive := t.archive + [Summary("compressed", summary, |toCompress|, now)];
      tiers := tiers[id := Tiers(t.raw, toKeep, archive)];
      ok := true;
      if old(Valid()) {
        CompactKeepsConsistent(conversations[id], t, summary, keep, now);
      }
    }

    /** `add_message`. `written` is whether the file writes succeed; when
        they fail the call reports failure and nothing changes. Otherwise
        the conversation becomes `Added` of its old metadata and files, and
        every other conversation is left as it was. */
    method AddMessage(id: string, role: string, content: string, toolCalls: Option<seq<ToolCall>>,
                      finishReason: Option<string>, totalTokens: int, now: int, written: bool,
                      compactWritten: bool, ais: map<string, AiConfig>, prompts: PromptManager.Prompts,
                      parse: Transcript.ObjectParser, callAi: Compression.AiCaller) returns (ok: bool)
      modifies this
      ensures ok <==> id in old(conversations) && id in old(tiers) && written
      ensures !ok ==> conversations == old(conversations) && tiers == old(tiers)
      ensures ok ==>
                var r := Added(id, Snapshot(old(conversations[id]), old(tiers[id])),
                               NewMessage(role, content, toolCalls, finishReason, totalTokens, now),
                               now, compactWritten, ais, prompts, parse, callAi);
                && conversations == old(conversations)[id := r.metadata]
                && tiers == old(tiers)[id := r.tiers]
      ensures id in old(tiers) ==> id in tiers
      ensures id in old(conversations) ==> id in conversations
      ensures ok ==> tiers[id].raw == old(tiers[id].raw) + [NewMessage(role, content, toolCalls, finishReason, totalTokens, now)]
      ensures ok ==> && tiers[id].tactical != []
                     && tiers[id].tactical[|tiers[id].tactical| - 1]
                        == NewMessage(role, content, toolCalls, finishReason, totalTokens, now)
                     && |tiers[id].archive| >= |old(tiers[id].archive)|
      ensures old(Valid()) ==> Valid()
    {
      if id !in conversations || id !in tiers || !written {
        return false;
      }
      var message := NewMessage(role, content, toolCalls, finishReason, totalTokens, now);
      var t := tiers[id];
      var appended := Appended(t, message);
      tiers := tiers[id := appended];
      var meta := conversations[id];
      var counted := Counted(meta, now);
      conversations := conversations[id := counted];
      ghost var decision := Compression.CompressDecision(id, appended.tactical, Some(counted),
                                                         ais, prompts, parse, callAi);
      StepCountdown(id, now, compactWritten, ais, prompts, parse, callAi);
      ghost var r := Added(id, Snapshot(meta, t), message, now, compactWritten, ais, prompts, parse, callAi);
      Overwrite(old(tiers), id, appended, r.tiers);
      Overwrite(old(conversations), id, counted, r.metadata);
      ok := true;
      AddedShape(id, Snapshot(meta, t), message, now, compactWritten, ais, prompts, parse, callAi);
      if old(Valid()) {
        AddKeepsAll(old(conversations), old(tiers), id, message, now, compactWritten, ais, prompts, parse, callAi);
      }
    }

    /** The countdown part of `add_message`: a positive interval is
        decreased; at zero the tactical tier is handed to compaction and,
        whatever the outcome, the interval restarts at 10 and the attempt is
        stamped. `written` is whether the compaction's writes succeed. */
    method StepCountdown(id: string, now: int, written: bool, ais: map<string, AiConfig>,
                         prompts: PromptManager.Prompts,
                         parse: Transcript.ObjectParser, callAi: Compression.AiCaller)
      requires id in conversations && id in tiers
      modifies this
      ensures var meta := old(conversations[id]);
              var t := old(tiers[id]);
              var decision := Compression.CompressDecision(id, t.tactical, Some(meta), ais, prompts, parse, callAi);
              && conversations == old(conversations)[id := Stepped(meta, now)]
              && tiers == old(tiers)[id := Settled(t, Tick(meta.interval).1, decision, written, now)]
      ensures old(Valid()) ==> Valid()
    {
      var meta := conversations[id];
      var current := meta.interval;
      if current > 0 {
        conversations := conversations[id := meta.(interval := current - 1)];
      } else {
        var tactical := tiers[id].tactical;
        assert ConversationContext(id) == Some(Snapshot(meta, tiers[id]));
        var compressed := Compress(this, id, tactical, ais, prompts, parse, callAi, now, written);
        // Success and failure both restart the countdown and stamp the attempt.
        conversations := conversations[id := meta.(interval := FullInterval, lastCompressAttempt := now)];
      }
      if old(Valid()) {
        StepKeepsAll(old(conversations), old(tiers), id,
                     Compression.CompressDecision(id, old(tiers[id]).tactical, Some(meta), ais, prompts, parse, callAi),
                     written, now);
      }
    }

    /** `delete_conversation`. `removed` is whether deleting the directory
        succeeds, `saved` whether the metadata file is written. */
    method DeleteConversation(id: string, removed: bool, saved: bool) returns (ok: bool)
      modifies this
      ensures id !in old(conversations) ==> !ok && conversations == old(conversations) && tiers == old(tiers)
      ensures id in old(conversations) && id in old(tiers) && !removed ==>
                !ok && conversations == old(conversations) && tiers == old(tiers)
      ensures id in old(conversations) && (id !in old(tiers) || removed) ==>
                ok == saved && conversations == old(conversations) - {id} && tiers == old(tiers) - {id}
      ensures old(Valid()) ==> Valid()
    {
      if id !in conversations {
        return false;
      }
      if id in tiers {
        if !removed {
          return false;
        }
        tiers := tiers - {id};
      }
      conversations := conversations - {id};
      ok := saved;
    }
  }

  /** `CompressManager.compress` with its write-back: decide on the tactical
      tier read from disk, and on a summary compact the conversation keeping
      the five newest messages. `written` is whether the write-back's file
      writes succeed; a failed write-back makes `compress` report failure. */
  method Compress(store: ConversationStore, id: string, tactical: seq<Message>,
                  ais: map<string, AiConfig>, prompts: PromptManager.Prompts,
                  parse: Transcript.ObjectParser, callAi: Compression.AiCaller, now: int, written: bool)
    returns (ok: bool)
    modifies store
    ensures store.conversations == old(store.conversations)
    ensures var snapshot := old(store.ConversationContext(id));
            var meta := if snapshot.Some? then Some(snapshot.value.metadata) else None;
            var d := Compression.CompressDecision(id, tactical, meta, ais, prompts, parse, callAi);
            && (ok <==> d.Fold? && (written || |snapshot.value.tiers.tactical| <= Compression.KeepRecent))
            && store.tiers == if d.Fold? && written
                              then old(store.tiers)[id := Compacted(old(store.tiers)[id], d.summary, Compression.KeepRecent, now)]
                              else old(store.tiers)
    ensures old(store.Valid()) ==> store.Valid()
  {
    var snapshot := store.ConversationContext(id);
    var meta := if snapshot.Some? then Some(snapshot.value.metadata) else None;
    var decision := Compression.CompressDecision(id, tactical, meta, ais, prompts, parse, callAi);
    match decision
    case Skip(_) =>
      ok := false;
    case Fold(summary) =>
      ok := store.UpdateAfterCompression(id, summary, Compression.KeepRecent, now, written);
  }
}
