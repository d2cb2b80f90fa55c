/** Persistence of settings under one key (app/hooks/useLocalStorage.ts).
    The browser's `localStorage` is a map from keys to strings; `JSON.stringify`
    and `JSON.parse` are an abstract `encode`/`decode` pair whose decode may
    fail. A thrown storage call is an input flag of the operation it hits. */
module LocalStorage {

  import opened Options

  /** `window.localStorage`; `windowDefined` is false during server rendering,
      when no storage is touched. */
  class Storage {
    const windowDefined: bool
    var entries: map<string, string>

    constructor (windowDefined: bool, entries: map<string, string>)
      ensures this.windowDefined == windowDefined && this.entries == entries
    {
      this.windowDefined := windowDefined;
      this.entries := entries;
    }
  }

  /** `getInitialValue`: the decoded entry under `key` when there is a
      non-empty one that decodes; the default otherwise, and always the
      default without a window or when reading throws. */
  function InitialValue<T>(windowDefined: bool, entries: map<string, string>, key: string,
                           readFails: bool, decode: string -> Option<T>, defaultValue: T): T
  {
    if !windowDefined || readFails then defaultValue
    else if key in entries && entries[key] != "" then
      match decode(entries[key])
      case Some(v) => v
      case None => defaultValue
    else defaultValue
  }

  /** What `encode`/`decode` must satisfy for a stored value to come back. */
  ghost predicate RoundTrips<T>(encode: T -> string, decode: string -> Option<T>, v: T)
  {
    decode(encode(v)) == Some(v) && encode(v) != ""
  }

  /** A value stored under `key` is what the next initial read returns. */
  lemma StoredValueIsReadBack<T>(entries: map<string, string>, key: string, v: T,
                                 encode: T -> string, decode: string -> Option<T>, defaultValue: T)
    requires RoundTrips(encode, decode, v)
    ensures InitialValue(true, entries[key := encode(v)], key, false, decode, defaultValue) == v
  {
  }

  /** After the key is removed the next initial read yields the default. */
  lemma RemovedKeyReadsDefault<T>(entries: map<string, string>, key: string,
                                  decode: string -> Option<T>, defaultValue: T)
    ensures InitialValue(true, entries - {key}, key, false, decode, defaultValue) == defaultValue
  {
  }

  /** Writing or removing one key does not change what another key reads. */
  lemma KeysAreIndependent<T>(entries: map<string, string>, key: string, other: string, s: string,
                              decode: string -> Option<T>, defaultValue: T, readFails: bool)
    requires other != key
    ensures InitialValue(true, entries[key := s], other, readFails, decode, defaultValue) ==
      InitialValue(true, entries, other, readFails, decode, defaultValue)
    ensures InitialValue(true, entries - {key}, other, readFails, decode, defaultValue) ==
      InitialValue(true, entries, other, readFails, decode, defaultValue)
  {
  }

  /** An entry that does not decode is never returned: the read falls back
      to the default. */
  lemma UndecodableReadsDefault<T>(entries: map<string, string>, key: string,
                                   decode: string -> Option<T>, defaultValue: T)
    requires key in entries && decode(entries[key]).None?
    ensures InitialValue(true, entries, key, false, decode, defaultValue) == defaultValue
  {
  }

  /** The state of one `useLocalStorage(key, defaultValue)` hook. */
  class LocalStorageHook<T> {
    const key: string
    const defaultValue: T
    const storage: Storage
    const encode: T -> string
    const decode: string -> Option<T>
    var value: T

    function Read(readFails: bool): T
      reads storage
    {
      InitialValue(storage.windowDefined, storage.entries, key, readFails, decode, defaultValue)
    }

    constructor (key: string, defaultValue: T, storage: Storage,
                 encode: T -> string, decode: string -> Option<T>, readFails: bool)
      ensures this.key == key && this.defaultValue == defaultValue && this.storage == storage
      ensures this.encode == encode && this.decode == decode
      ensures value == Read(readFails)
    {
      this.key := key;
      this.defaultValue := defaultValue;
      this.storage := storage;
      this.encode := encode;
      this.decode := decode;
      value := InitialValue(storage.windowDefined, storage.entries, key, readFails, decode, defaultValue);
    }

    /** The mount effect: the value is read again. */
    method Reload(readFails: bool)
      modifies this`value
      ensures value == Read(readFails)
    {
      value := InitialValue(storage.windowDefined, storage.entries, key, readFails, decode, defaultValue);
    }

    /** `setStoredValue`: the in-memory value is replaced even when the
        write throws (`writeFails`); storage is written only with a window. */
    method SetStoredValue(newValue: T, writeFails: bool)
      modifies this`value, storage`entries
      ensures value == newValue
      ensures storage.entries ==
        if storage.windowDefined && !writeFails then old(storage.entries)[key := encode(newValue)]
        else old(storage.entries)
    {
      value := newValue;
      if !storage.windowDefined {
        return;
      }
      if !writeFails {
        storage.entries := storage.entries[key := encode(newValue)];
      }
    }

    /** `resetValue`: back to the default, and the key is removed. */
    method ResetValue(removeFails: bool)
      modifies this`value, storage`entries
      ensures value == defaultValue
      ensures storage.entries ==
        if storage.windowDefined && !removeFails then old(storage.entries) - {key}
        else old(storage.entries)
    {
      value := defaultValue;
      if !storage.windowDefined {
        return;
      }
      if !removeFails {
        storage.entries := storage.entries - {key};
      }
    }
  }

  /** `{ ...settings, ...updates }` on records modelled as maps. */
  function Merge<V>(settings: map<string, V>, updates: map<string, V>): (r: map<string, V>)
    ensures r.Keys == settings.Keys + updates.Keys
    ensures forall k :: k in updates ==> r[k] == updates[k]
    ensures forall k :: k in settings && k !in updates ==> r[k] == settings[k]
  {
    settings + updates
  }

  /** Applying the same partial update twice is the same as once. */
  lemma MergeIdempotent<V>(settings: map<string, V>, updates: map<string, V>)
    ensures Merge(Merge(settings, updates), updates) == Merge(settings, updates)
  {
  }

  /** Two successive partial updates act as one combined update, the later
      winning on shared keys. */
  lemma MergeComposes<V>(settings: map<string, V>, u1: map<string, V>, u2: map<string, V>)
    ensures Merge(Merge(settings, u1), u2) == Merge(settings, Merge(u1, u2))
  {
  }

  /** `updateSettings` of `useLocalStorageSettings`: merge into the current
      record and store the result. */
  method UpdateSettings<V>(hook: LocalStorageHook<map<string, V>>, updates: map<string, V>, writeFails: bool)
    modifies hook`value, hook.storage`entries
    ensures hook.value == Merge(old(hook.value), updates)
    ensures hook.storage.entries ==
      if hook.storage.windowDefined && !writeFails then old(hook.storage.entries)[hook.key := hook.encode(hook.value)]
      else old(hook.storage.entries)
  {
    hook.SetStoredValue(Merge(hook.value, updates), writeFails);
  }
}
