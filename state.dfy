/**
  The case record the steps share: `AgentState`, a dict from field names to
  values that every step reads from and writes into in place.
*/
module AgentState {
  import opened Values

  /** `state.get(key)`: a missing key reads as `None`. */
  function Get(entries: map<string, Value>, key: string): Value
  {
    if key in entries then entries[key] else Null
  }

  /** `state.get(key, default)`: the default only for a missing key, not for a stored `None`. */
  function GetOr(entries: map<string, Value>, key: string, default: Value): Value
  {
    if key in entries then entries[key] else default
  }

  /** `state.get(key) is not None`. */
  predicate IsSet(entries: map<string, Value>, key: string)
  {
    Get(entries, key) != Null
  }

  /** The two reads differ only for a missing key. */
  lemma GetOrOfMissing(entries: map<string, Value>, key: string, default: Value)
    ensures key !in entries ==> GetOr(entries, key, default) == default && Get(entries, key) == Null
    ensures key in entries ==> GetOr(entries, key, default) == Get(entries, key)
  {
  }

  class CaseRecord {
    var entries: map<string, Value>

    constructor (entries: map<string, Value>)
      ensures this.entries == entries
    {
      this.entries := entries;
    }

    /** `state[key] = value`. */
    method Set(key: string, value: Value)
      modifies this
      ensures entries == old(entries)[key := value]
    {
      entries := entries[key := value];
    }
  }
}
