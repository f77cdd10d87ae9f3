/**
 * The browser `localStorage` the stores mirror their lists into, the JSON text they store, and the
 * load rule shared by ProductService, CustomerService, OrderService and AuthService: a stored
 * snapshot wins, a corrupt one is deleted and the store is re-seeded, a missing one triggers the
 * seed, and a seed that fails gives the empty list.
 *
 * `JSON.stringify`/`JSON.parse` are a `Codec` whose decoder may fail; a storage write that throws
 * (quota exceeded) is an explicit `writeOk` flag chosen by the caller; whether the code runs in a
 * browser is a `browser` flag; the HTTP seed fetch is an `Option` whose `None` is a failed request.
 */
module Persistence {
  import opened Wrappers

  /** `JSON.stringify` and `JSON.parse`: parsing may fail, for text that is not a valid encoding. */
  datatype Codec<!V> = Codec(encode: V -> string, decode: string -> Option<V>)

  /** What the model takes JSON to satisfy: parsing what was printed gives it back, and the text is never empty. */
  ghost predicate Lawful<V(!new)>(c: Codec<V>) {
    forall v :: c.decode(c.encode(v)) == Some(v) && c.encode(v) != ""
  }

  /** The key-value store of one browser origin. */
  class LocalStorage {
    var entries: map<string, string>

    constructor(initial: map<string, string>)
      ensures entries == initial
    {
      entries := initial;
    }

    /** `getItem`: the stored text, or `null`. */
    function GetItem(key: string): (r: Option<string>)
      reads this
      ensures r.Some? <==> key in entries
      ensures r.Some? ==> r.value == entries[key]
    {
      if key in entries then Some(entries[key]) else None
    }

    /** `setItem`: when the write throws (`writeOk` false) nothing is stored. */
    method SetItem(key: string, value: string, writeOk: bool) returns (ok: bool)
      modifies this
      ensures ok == writeOk
      ensures entries == Written(old(entries), key, value, writeOk)
    {
      ok := writeOk;
      if writeOk {
        entries := entries[key := value];
      }
    }

    /** `removeItem` */
    method RemoveItem(key: string)
      modifies this
      ensures entries == old(entries) - {key}
    {
      entries := entries - {key};
    }
  }

  /** The entries after a write that succeeded or not. */
  function Written(entries: map<string, string>, key: string, value: string, ok: bool): (r: map<string, string>)
    ensures ok ==> key in r && r[key] == value
    ensures forall k :: k != key ==> (k in r <==> k in entries)
    ensures forall k :: k in r && k != key ==> r[k] == entries[k]
    ensures !ok ==> r == entries
  {
    if ok then entries[key := value] else entries
  }

  /** What `if (localStorage.getItem(key))` sees: a stored value that is not the empty string. */
  predicate Present(entries: map<string, string>, key: string) {
    key in entries && entries[key] != ""
  }

  /** What `if (data) { JSON.parse(data) }` finds under a key: nothing, text that does not parse, or a value. */
  datatype Stored<V> = Absent | Corrupt | Parsed(value: V)

  /** Reading one key through the platform wrapper, which sees nothing outside a browser. */
  function ReadStored<V>(browser: bool, entries: map<string, string>, key: string, codec: Codec<V>): (r: Stored<V>)
    ensures r.Absent? <==> !browser || !Present(entries, key)
    ensures r.Corrupt? ==> codec.decode(entries[key]).None?
    ensures r.Parsed? ==> codec.decode(entries[key]) == Some(r.value)
  {
    if !browser || !Present(entries, key) then Absent
    else match codec.decode(entries[key])
      case None => Corrupt
      case Some(v) => Parsed(v)
  }

  /** A value written under a key is read back unchanged. */
  lemma ReadWritten<V(!new)>(entries: map<string, string>, key: string, codec: Codec<V>, v: V)
    requires Lawful(codec)
    ensures ReadStored(true, entries[key := codec.encode(v)], key, codec) == Parsed(v)
  {
    assert codec.decode(codec.encode(v)) == Some(v) && codec.encode(v) != "";
  }

  /** A published list together with the storage entries it leaves behind. */
  datatype Snapshot<T> = Snapshot(items: seq<T>, entries: map<string, string>)

  /**
   * The `load…FromJson` step: a fetched seed is published and, in the browser, written under `key`;
   * a failed fetch publishes `[]`, and writes the encoded `[]` only when `persistEmptyOnError`.
   */
  function Seed<T>(browser: bool, key: string, entries: map<string, string>, codec: Codec<seq<T>>,
                   seed: Option<seq<T>>, writeOk: bool, persistEmptyOnError: bool): (r: Snapshot<T>)
    ensures r.items == seed.GetOr([])
    ensures !browser ==> r.entries == entries
    ensures seed.None? && !persistEmptyOnError ==> r.entries == entries
    ensures forall k :: k != key ==> (k in r.entries <==> k in entries)
    ensures forall k :: k in r.entries && k != key ==> r.entries[k] == entries[k]
    ensures browser && writeOk && (seed.Some? || persistEmptyOnError) ==>
              key in r.entries && r.entries[key] == codec.encode(r.items)
    ensures !writeOk ==> r.entries == entries
  {
    match seed
    case Some(xs) => Snapshot(xs, Written(entries, key, codec.encode(xs), browser && writeOk))
    case None => Snapshot([], Written(entries, key, codec.encode([]), browser && persistEmptyOnError && writeOk))
  }

  /** The whole load path, from the constructor's browser test to the seed fallback. */
  function Load<T>(browser: bool, key: string, entries: map<string, string>, codec: Codec<seq<T>>,
                   seed: Option<seq<T>>, writeOk: bool, persistEmptyOnError: bool): (r: Snapshot<T>)
    ensures !browser ==> r == Seed(false, key, entries, codec, seed, writeOk, persistEmptyOnError)
    ensures browser && Present(entries, key) && codec.decode(entries[key]).Some? ==>
              r == Snapshot(codec.decode(entries[key]).value, entries)
    ensures browser && Present(entries, key) && codec.decode(entries[key]).None? ==>
              r == Seed(true, key, entries - {key}, codec, seed, writeOk, persistEmptyOnError)
    ensures browser && !Present(entries, key) ==>
              r == Seed(true, key, entries, codec, seed, writeOk, persistEmptyOnError)
  {
    if browser && Present(entries, key) then
      match codec.decode(entries[key])
      case Some(xs) => Snapshot(xs, entries)
      case None => Seed(true, key, entries - {key}, codec, seed, writeOk, persistEmptyOnError)
    else Seed(browser, key, entries, codec, seed, writeOk, persistEmptyOnError)
  }

  /** A load never touches any other key. */
  lemma LoadOtherKeys<T>(browser: bool, key: string, entries: map<string, string>, codec: Codec<seq<T>>,
                         seed: Option<seq<T>>, writeOk: bool, persistEmptyOnError: bool, other: string)
    requires other != key
    ensures var r := Load(browser, key, entries, codec, seed, writeOk, persistEmptyOnError);
            (other in r.entries <==> other in entries) &&
            (other in entries ==> r.entries[other] == entries[other])
  {
  }

  /** Outside a browser the seed is all there is, whatever storage holds. */
  lemma ServerLoadIgnoresStorage<T>(key: string, e1: map<string, string>, e2: map<string, string>,
                                    codec: Codec<seq<T>>, seed: Option<seq<T>>, writeOk: bool, p: bool)
    ensures Load(false, key, e1, codec, seed, writeOk, p).items == Load(false, key, e2, codec, seed, writeOk, p).items
    ensures Load(false, key, e1, codec, seed, writeOk, p).entries == e1
  {
  }

  /**
   * A list written under `key` is what the next load publishes: the storage is a faithful mirror.
   */
  lemma {:induction false} ReloadWritten<T(!new)>(key: string, entries: map<string, string>, codec: Codec<seq<T>>,
                                                  xs: seq<T>, seed: Option<seq<T>>, writeOk: bool, p: bool)
    requires Lawful(codec)
    ensures Load(true, key, entries[key := codec.encode(xs)], codec, seed, writeOk, p) ==
            Snapshot(xs, entries[key := codec.encode(xs)])
  {
    var e := entries[key := codec.encode(xs)];
    assert codec.decode(codec.encode(xs)) == Some(xs) && codec.encode(xs) != "";
    assert Present(e, key);
  }

  /**
   * In the browser, once a load has written its seed, loading again publishes the same list without
   * fetching: this holds when the seed arrived, or when the seed failed but the store persists the
   * empty list (the orders store); the other stores fetch again after a failed seed.
   */
  lemma {:induction false} LoadIsStable<T(!new)>(key: string, entries: map<string, string>, codec: Codec<seq<T>>,
                                                 seed: Option<seq<T>>, p: bool, seed2: Option<seq<T>>, writeOk2: bool)
    requires Lawful(codec)
    requires seed.Some? || p
    ensures var first := Load(true, key, entries, codec, seed, true, p);
            Load(true, key, first.entries, codec, seed2, writeOk2, p) == first
  {
    var first := Load(true, key, entries, codec, seed, true, p);
    if Present(entries, key) && codec.decode(entries[key]).Some? {
    } else {
      var base := if Present(entries, key) then entries - {key} else entries;
      assert first == Seed(true, key, base, codec, seed, true, p);
      assert first.entries == base[key := codec.encode(first.items)];
      ReloadWritten(key, base, codec, first.items, seed2, writeOk2, p);
    }
  }

  /** After a failed seed, a store that does not persist `[]` fetches again on the next load. */
  lemma FailedSeedRefetches<T>(key: string, entries: map<string, string>, codec: Codec<seq<T>>,
                               writeOk: bool, seed2: Option<seq<T>>, writeOk2: bool)
    requires !Present(entries, key)
    ensures var first := Load(true, key, entries, codec, None, writeOk, false);
            first.items == [] &&
            Load(true, key, first.entries, codec, seed2, writeOk2, false).items == seed2.GetOr([])
  {
  }

  /** The write step of the mutators: in the browser, store the encoded list; elsewhere do nothing. */
  method Persist<T>(storage: LocalStorage, browser: bool, key: string, codec: Codec<seq<T>>, xs: seq<T>, writeOk: bool)
    returns (ok: bool)
    modifies storage
    ensures ok == (!browser || writeOk)
    ensures storage.entries == Written(old(storage.entries), key, codec.encode(xs), browser && writeOk)
  {
    ok := true;
    if browser {
      ok := storage.SetItem(key, codec.encode(xs), writeOk);
    }
  }

  /** The load path, step by step: read, parse, remove a corrupt value, fall back to the seed. */
  method LoadInto<T>(storage: LocalStorage, browser: bool, key: string, codec: Codec<seq<T>>,
                     seed: Option<seq<T>>, writeOk: bool, persistEmptyOnError: bool)
    returns (items: seq<T>)
    modifies storage
    ensures Snapshot(items, storage.entries) == Load(browser, key, old(storage.entries), codec, seed, writeOk, persistEmptyOnError)
  {
    if browser {
      var stored := storage.GetItem(key);
      if stored.Some? && stored.value != "" {
        var parsed := codec.decode(stored.value);
        if parsed.Some? {
          return parsed.value;
        }
        storage.RemoveItem(key);
      }
    }
    match seed {
      case Some(xs) =>
        items := xs;
        var _ := Persist(storage, browser, key, codec, xs, writeOk);
      case None =>
        items := [];
        if persistEmptyOnError {
          var _ := Persist(storage, browser, key, codec, [], writeOk);
        }
    }
  }
}
