/**
 * The scope table as the code writes it. The serving side stores a fresh
 * protocol server under a scope key the first time the scope is served; the
 * trigger path loads the value under a scope key and asserts that it is a
 * scope entry. No code stores a scope entry, so every trigger event that
 * finds its scope fails that assertion. The rest of the model stores scope
 * entries, which is what the trigger path expects.
 */
module ScopeTableAsWritten {

  /** What the scope table holds under a key, by its dynamic type. */
  datatype Stored = ProtocolServer(name: string, version: string) | ScopeEntry

  /** The outcome of the trigger path's lookup: no value, a scope entry, or a failed type assertion. */
  datatype Lookup = NotFound | Entry | Panic

  /** The serving side's load-or-store, as written: an unseen key gets a protocol server named after it. */
  function StoreOnServe(m: map<string, Stored>, key: string, version: string): (r: map<string, Stored>)
    ensures key in r && r.Keys == m.Keys + {key}
    ensures key in m ==> r == m
  {
    if key in m then m else m[key := ProtocolServer(key, version)]
  }

  /** The trigger path's load and type assertion, as written. */
  function LookupEntry(m: map<string, Stored>, key: string): Lookup
  {
    if key !in m then NotFound else if m[key].ScopeEntry? then Entry else Panic
  }

  /** Every value in the table is a protocol server: what the only writes in the code leave behind. */
  ghost predicate AsWritten(m: map<string, Stored>)
  {
    forall k :: k in m ==> m[k].ProtocolServer?
  }

  /** Storing on serve and deleting a key, the only writes to the table, keep it as written. */
  lemma AsWrittenPreserved(m: map<string, Stored>, key: string, version: string)
    requires AsWritten(m)
    ensures AsWritten(StoreOnServe(m, key, version))
    ensures AsWritten(m - {key})
  {
  }

  /** In a table as written, a trigger event that finds its scope fails the type assertion. */
  lemma TriggerOnServedScopePanics(m: map<string, Stored>, key: string)
    requires AsWritten(m) && key in m
    ensures LookupEntry(m, key) == Panic
  {
  }

  /**
   * The smallest instance: the first backfill of scope "default/tok" replays
   * a matching trigger right after the scope was stored, and its lookup fails.
   */
  lemma FirstBackfillPanics()
    ensures LookupEntry(StoreOnServe(map[], "default/tok", "1"), "default/tok") == Panic
  {
  }
}
