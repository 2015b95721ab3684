/**
 * The key-value wrapper of redisClient.js: createKey, readKey, updateKey and
 * deleteKey over one store of string keys and string values. The store is a
 * map; each call takes a `fault` flag standing for the store call failing,
 * which every wrapper swallows (it logs and carries on).
 *
 * createKey stores under JSON.stringify(key) with value JSON.stringify(value),
 * while the other three use the raw key; the lemmas at the end spell out what
 * that asymmetry means for a caller.
 */
module RedisClient {
  import Json
  import opened Wrappers

  /** What readKey hands back: the stored text, `null` for a missing or empty entry, `undefined` when the store failed. */
  datatype Read = Value(text: string) | Null | Undefined

  /** The entries after a successful createKey(key, value). */
  function AfterCreate(m: map<string, string>, key: string, value: string): (r: map<string, string>)
    ensures r.Keys == m.Keys + {Json.Quote(key)} && r[Json.Quote(key)] == Json.Quote(value)
    ensures forall k :: k in m && k != Json.Quote(key) ==> r[k] == m[k]
  {
    m[Json.Quote(key) := Json.Quote(value)]
  }

  /** The entries after a successful updateKey(key, value). */
  function AfterUpdate(m: map<string, string>, key: string, value: string): (r: map<string, string>)
    ensures r.Keys == m.Keys + {key} && r[key] == value
    ensures forall k :: k in m && k != key ==> r[k] == m[k]
  {
    m[key := value]
  }

  /** The entries after a successful deleteKey(key). */
  function AfterDelete(m: map<string, string>, key: string): (r: map<string, string>)
    ensures r.Keys == m.Keys - {key}
    ensures forall k :: k in r ==> r[k] == m[k]
  {
    m - {key}
  }

  /** What a successful readKey(key) returns: only a truthy (non-empty) stored string is returned. */
  function Lookup(m: map<string, string>, key: string): (r: Read)
    ensures r != Undefined
    ensures r.Value? ==> r.text != ""
  {
    if key in m && m[key] != "" then Value(m[key]) else Null
  }

  /** The module-level `client`: a string store that the four wrappers read and update in place. */
  class Store {
    var entries: map<string, string>

    constructor (initial: map<string, string>)
      ensures entries == initial
    {
      entries := initial;
    }

    /** createKey: set(JSON.stringify(key), JSON.stringify(value)); a store error changes nothing and is not reported. */
    method CreateKey(key: string, value: string, fault: bool)
      modifies this
      ensures entries == if fault then old(entries) else AfterCreate(old(entries), key, value)
    {
      if !fault {
        entries := entries[Json.Quote(key) := Json.Quote(value)];
      }
    }

    /** readKey: get(key) with the raw key; a truthy value is returned, a missing or empty one gives null, a store error undefined. */
    method ReadKey(key: string, fault: bool) returns (r: Read)
      ensures fault ==> r == Undefined
      ensures !fault ==> r == Lookup(entries, key)
    {
      if fault {
        return Undefined;
      }
      if key in entries && entries[key] != "" {
        r := Value(entries[key]);
      } else {
        r := Null;
      }
    }

    /** updateKey: set(key, newValue) with the raw key and the raw value. */
    method UpdateKey(key: string, newValue: string, fault: bool)
      modifies this
      ensures entries == if fault then old(entries) else AfterUpdate(old(entries), key, newValue)
    {
      if !fault {
        entries := entries[key := newValue];
      }
    }

    /** deleteKey: del(key) with the raw key. */
    method DeleteKey(key: string, fault: bool)
      modifies this
      ensures entries == if fault then old(entries) else AfterDelete(old(entries), key)
    {
      if !fault {
        entries := entries - {key};
      }
    }
  }

  /** readKey(k) right after createKey(k, v) sees whatever was under the raw k before: the new entry is not under k. */
  lemma ReadMissesCreated(m: map<string, string>, k: string, v: string)
    ensures Lookup(AfterCreate(m, k, v), k) == Lookup(m, k)
    ensures k !in m ==> Lookup(AfterCreate(m, k, v), k) == Null
  {
    Json.QuoteChanges(k);
  }

  /** The entry createKey writes is found under the encoded key, and both key and value decode back to what was passed. */
  lemma CreatedUnderEncodedKey(m: map<string, string>, k: string, v: string)
    ensures Lookup(AfterCreate(m, k, v), Json.Quote(k)) == Value(Json.Quote(v))
    ensures Json.Unquote(Json.Quote(k)) == Some(k)
    ensures Json.Unquote(AfterCreate(m, k, v)[Json.Quote(k)]) == Some(v)
  {
    Json.QuoteChanges(v);
    Json.UnquoteQuote(k);
    Json.UnquoteQuote(v);
  }

  /** createKey touches only the encoded key. */
  lemma CreateKeepsOthers(m: map<string, string>, k: string, v: string, other: string)
    requires other != Json.Quote(k)
    ensures Lookup(AfterCreate(m, k, v), other) == Lookup(m, other)
  {
  }

  /** updateKey(k, v) followed by readKey(k) returns v when v is non-empty, and null when it is empty. */
  lemma ReadAfterUpdate(m: map<string, string>, k: string, v: string)
    ensures Lookup(AfterUpdate(m, k, v), k) == if v == "" then Null else Value(v)
  {
  }

  /** deleteKey(k) removes the raw k only: every other entry, including the one createKey(k, ...) made, stays. */
  lemma DeleteOnlyRawKey(m: map<string, string>, k: string, other: string)
    requires other != k
    ensures Lookup(AfterDelete(m, k), k) == Null
    ensures other in m ==> other in AfterDelete(m, k) && AfterDelete(m, k)[other] == m[other]
    ensures other !in m ==> other !in AfterDelete(m, k)
  {
  }

  /** deleteKey(k) cannot undo createKey(k, v). */
  lemma DeleteMissesCreated(m: map<string, string>, k: string, v: string)
    ensures Json.Quote(k) in AfterDelete(AfterCreate(m, k, v), k)
    ensures AfterDelete(AfterCreate(m, k, v), k)[Json.Quote(k)] == Json.Quote(v)
  {
    Json.QuoteChanges(k);
  }
}
