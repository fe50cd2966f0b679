/**
 * The browser's key-value storage, as both stores use it.
 *
 * A slot either holds the serialization of a value (`Stored`), which parses
 * back to exactly that value, or text that does not parse (`Corrupt`).
 * JSON text itself is not modelled, and neither is a slot holding
 * well-formed JSON of some other shape: the stores cast what they parse
 * without checking its shape.
 */
module Persistence {
  import opened Wrappers

  datatype Snapshot<T> = Stored(value: T) | Corrupt

  /** Read a slot: absent and unparsable slots both read as `None`. */
  function Load<T>(storage: map<string, Snapshot<T>>, key: string): (r: Option<T>)
    ensures r.Some? <==> key in storage && storage[key].Stored?
    ensures r.Some? ==> storage[key] == Stored(r.value)
  {
    if key in storage then
      match storage[key]
      case Stored(v) => Some(v)
      case Corrupt => None
    else None
  }

  /** Write the serialization of `v` into slot `key`, replacing what was there. */
  function Save<T>(storage: map<string, Snapshot<T>>, key: string, v: T): (r: map<string, Snapshot<T>>)
    ensures r.Keys == storage.Keys + {key}
    ensures r[key] == Stored(v)
    ensures forall k :: k in storage && k != key ==> r[k] == storage[k]
  {
    storage[key := Stored(v)]
  }

  /** Delete slot `key`; deleting an absent slot changes nothing. */
  function Delete<T>(storage: map<string, Snapshot<T>>, key: string): (r: map<string, Snapshot<T>>)
    ensures r.Keys == storage.Keys - {key}
    ensures forall k :: k in r ==> r[k] == storage[k]
  {
    storage - {key}
  }

  /** What is saved loads back unchanged, and no other slot is affected. */
  lemma SaveThenLoad<T>(storage: map<string, Snapshot<T>>, key: string, v: T, other: string)
    ensures Load(Save(storage, key, v), key) == Some(v)
    ensures other != key ==> Load(Save(storage, key, v), other) == Load(storage, other)
  {
  }

  /** A deleted slot loads as absent, and no other slot is affected. */
  lemma DeleteThenLoad<T>(storage: map<string, Snapshot<T>>, key: string, other: string)
    ensures Load(Delete(storage, key), key) == None
    ensures other != key ==> Load(Delete(storage, key), other) == Load(storage, other)
  {
  }
}
