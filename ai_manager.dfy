/** `AIConfigManager`: a dictionary from configuration id to provider configuration. */
module AiManager {
  import opened Records

  type Configs = map<string, AiConfig>

  /** `get(uuid)`: the stored configuration, or `None` for an unknown id. */
  function Lookup(m: Configs, uuid: string): (r: Option<AiConfig>)
    ensures r.Some? <==> uuid in m
    ensures r.Some? ==> r.value == m[uuid]
  {
    if uuid in m then Some(m[uuid]) else None
  }

  /** After `set(u, c)`, `get(u)` is `c` and every other id reads as before. */
  lemma GetAfterSet(m: Configs, u: string, c: AiConfig, v: string)
    ensures Lookup(m[u := c], u) == Some(c)
    ensures v != u ==> Lookup(m[u := c], v) == Lookup(m, v)
  {
  }

  /** After a delete of `u`, `u` is unknown and every other id reads as before. */
  lemma GetAfterDelete(m: Configs, u: string, v: string)
    ensures Lookup(m - {u}, u) == None
    ensures v != u ==> Lookup(m - {u}, v) == Lookup(m, v)
  {
  }

  /** The configuration store object. `saved` is the outcome of the file write. */
  class AiConfigStore {
    var ais: Configs

    /** `_load_ai`: the stored dictionary, or empty when there is none. */
    constructor (stored: Option<Configs>)
      ensures ais == if stored.Some? then stored.value else map[]
    {
      ais := if stored.Some? then stored.value else map[];
    }

    function Get(uuid: string): Option<AiConfig>
      reads this
    {
      Lookup(ais, uuid)
    }

    method Set(uuid: string, config: AiConfig, saved: bool) returns (ok: bool)
      modifies this
      ensures ais == old(ais)[uuid := config]
      ensures ok == saved
    {
      ais := ais[uuid := config];
      ok := saved;
    }

    /** `list()`: the dictionary as a value, so a caller changing its copy
        cannot reach the store. */
    function List(): (r: Configs)
      reads this
      ensures r == ais
    {
      ais
    }

    method Delete(uuid: string, saved: bool) returns (ok: bool)
      modifies this
      ensures uuid !in old(ais) ==> !ok && ais == old(ais)
      ensures uuid in old(ais) ==> ok == saved && ais == old(ais) - {uuid}
    {
      if uuid !in ais {
        return false;
      }
      ais := ais - {uuid};
      ok := saved;
    }
  }
}
