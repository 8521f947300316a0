/** `PromptManager`: a dictionary of named prompt entries, where `common` is
    the shared prefix that every full prompt starts with. */
module PromptManager {
  import opened Records

  /** One entry of `prompts.json`: `{"prompt", "created", "updated"}`, each key optional. */
  datatype PromptEntry = PromptEntry(prompt: Option<string>, created: Option<int>, updated: Option<int>)

  type Prompts = map<string, PromptEntry>

  const CommonName := "common"
  const DefaultCommonPrompt := "You are a helpful AI assistant."

  /** `_load_prompts`: the stored dictionary, or when there is none (file
      missing or unreadable) a single `common` entry with the default text. */
  function LoadPrompts(stored: Option<Prompts>): (m: Prompts)
    ensures stored.Some? ==> m == stored.value
    ensures stored.None? ==> m.Keys == {CommonName} && PromptOf(m, CommonName) == DefaultCommonPrompt
  {
    if stored.Some? then stored.value
    else map[CommonName := PromptEntry(Some(DefaultCommonPrompt), None, None)]
  }

  /** `get_prompt`: the text of `name`, or "" when the entry or its `prompt` key is missing. */
  function PromptOf(m: Prompts, name: string): (r: string)
    ensures (name !in m || m[name].prompt.None?) ==> r == ""
    ensures name in m && m[name].prompt.Some? ==> r == m[name].prompt.value
  {
    if name in m && m[name].prompt.Some? then m[name].prompt.value else ""
  }

  /** `get_full_prompt`: the common prompt, followed by a blank line and the
      specific prompt when that is non-empty. */
  function FullPromptOf(m: Prompts, promptType: string): (r: string)
    ensures PromptOf(m, promptType) == "" ==> r == PromptOf(m, CommonName)
    ensures PromptOf(m, promptType) != "" ==>
              r == PromptOf(m, CommonName) + "\n\n" + PromptOf(m, promptType)
  {
    var common := PromptOf(m, CommonName);
    var specific := PromptOf(m, promptType);
    if specific == "" then common else common + "\n\n" + specific
  }

  /** The dictionary after `set_prompt(name, prompt)` at time `now`: a new
      name gets `created`; an existing one keeps its other keys. */
  function WithPrompt(m: Prompts, name: string, prompt: string, now: int): (r: Prompts)
    ensures r.Keys == m.Keys + {name}
    ensures r[name].prompt == Some(prompt) && r[name].updated == Some(now)
    ensures r[name].created == if name in m then m[name].created else Some(now)
    ensures forall k :: k in m && k != name ==> r[k] == m[k]
  {
    var base := if name in m then m[name] else PromptEntry(None, Some(now), None);
    m[name := base.(prompt := Some(prompt), updated := Some(now))]
  }

  /** The dictionary after `set_common(prompt)`: like `set_prompt` on
      `common`, except that a new `common` entry gets no `created`. */
  function WithCommon(m: Prompts, prompt: string, now: int): (r: Prompts)
    ensures r.Keys == m.Keys + {CommonName}
    ensures r[CommonName].prompt == Some(prompt) && r[CommonName].updated == Some(now)
    ensures r[CommonName].created == if CommonName in m then m[CommonName].created else None
    ensures forall k :: k in m && k != CommonName ==> r[k] == m[k]
  {
    var base := if CommonName in m then m[CommonName] else PromptEntry(None, None, None);
    m[CommonName := base.(prompt := Some(prompt), updated := Some(now))]
  }

  /** `list_prompts`: a copy of every entry except `common`. */
  function Listed(m: Prompts): (r: Prompts)
    ensures r.Keys == m.Keys - {CommonName}
    ensures forall k :: k in r ==> r[k] == m[k]
  {
    m - {CommonName}
  }

  /** Whether `delete_prompt(name)` removes anything. */
  predicate Deletable(m: Prompts, name: string)
  {
    name != CommonName && name in m
  }

  /** The dictionary after `delete_prompt(name)`. */
  function Without(m: Prompts, name: string): (r: Prompts)
    ensures Deletable(m, name) ==> r.Keys == m.Keys - {name}
    ensures !Deletable(m, name) ==> r == m
    ensures forall k :: k in r ==> r[k] == m[k]
  {
    if Deletable(m, name) then m - {name} else m
  }

  /** Reading a prompt back returns what was set, and other names read as before. */
  lemma GetAfterSet(m: Prompts, name: string, prompt: string, now: int, other: string)
    ensures PromptOf(WithPrompt(m, name, prompt, now), name) == prompt
    ensures other != name ==> PromptOf(WithPrompt(m, name, prompt, now), other) == PromptOf(m, other)
  {
  }

  /** Once a non-empty specific prompt is set, the full prompt is the common
      prompt, a blank line, and that text. */
  lemma FullPromptAfterSet(m: Prompts, name: string, prompt: string, now: int)
    requires name != CommonName && prompt != ""
    ensures FullPromptOf(WithPrompt(m, name, prompt, now), name) == PromptOf(m, CommonName) + "\n\n" + prompt
  {
    GetAfterSet(m, name, prompt, now, CommonName);
  }

  /** Setting `common` never shows up in, or changes, the listing. */
  lemma ListingIgnoresCommon(m: Prompts, prompt: string, now: int)
    ensures Listed(WithCommon(m, prompt, now)) == Listed(m)
  {
  }

  /** Deleting a name that was just created restores the dictionary. */
  lemma DeleteUndoesCreate(m: Prompts, name: string, prompt: string, now: int)
    requires name != CommonName && name !in m
    ensures Without(WithPrompt(m, name, prompt, now), name) == m
  {
    assert WithPrompt(m, name, prompt, now) - {name} == m;
  }

  /** The prompt store object. Every mutation changes the in-memory dictionary
      first and then reports the outcome of the file write, `saved`. */
  class PromptStore {
    var prompts: Prompts

    constructor (stored: Option<Prompts>)
      ensures prompts == LoadPrompts(stored)
    {
      prompts := LoadPrompts(stored);
    }

    method SetCommon(prompt: string, now: int, saved: bool) returns (ok: bool)
      modifies this
      ensures prompts == WithCommon(old(prompts), prompt, now)
      ensures ok == saved
    {
      if CommonName !in prompts {
        prompts := prompts[CommonName := PromptEntry(None, None, None)];
      }
      prompts := prompts[CommonName := prompts[CommonName].(prompt := Some(prompt))];
      prompts := prompts[CommonName := prompts[CommonName].(updated := Some(now))];
      ok := saved;
    }

    method SetPrompt(name: string, prompt: string, now: int, saved: bool) returns (ok: bool)
      modifies this
      ensures prompts == WithPrompt(old(prompts), name, prompt, now)
      ensures ok == saved
    {
      if name !in prompts {
        prompts := prompts[name := PromptEntry(None, None, None)];
        prompts := prompts[name := prompts[name].(created := Some(now))];
      }
      prompts := prompts[name := prompts[name].(prompt := Some(prompt))];
      prompts := prompts[name := prompts[name].(updated := Some(now))];
      ok := saved;
    }

    function GetPrompt(name: string): string
      reads this
    {
      PromptOf(prompts, name)
    }

    function GetFullPrompt(promptType: string): string
      reads this
    {
      FullPromptOf(prompts, promptType)
    }

    function ListPrompts(): Prompts
      reads this
    {
      Listed(prompts)
    }

    method DeletePrompt(name: string, saved: bool) returns (ok: bool)
      modifies this
      ensures prompts == Without(old(prompts), name)
      ensures ok == (Deletable(old(prompts), name) && saved)
    {
      if name == CommonName || name !in prompts {
        return false;
      }
      prompts := prompts - {name};
      ok := saved;
    }
  }
}
