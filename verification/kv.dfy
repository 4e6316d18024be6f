/**
 * The Workers KV namespace `env.uploads` as the handlers use it: `put` with
 * metadata and an expiration TTL, and `getWithMetadata`. The medium itself is
 * abstract: a map from key to entry, with an explicit clock `now` (seconds),
 * and an entry counts as absent once `now` is past its expiry instant.
 */
module Kv {
  import opened Common

  /** The typed metadata bag the handlers attach to a value. */
  datatype Metadata = Metadata(contentType: Option<string>, password: Option<string>)

  /** A stored value, its metadata (`null` when put without any) and its expiry instant. */
  datatype Entry = Entry(value: seq<byte>, metadata: Option<Metadata>, expiresAt: int)

  type Entries = map<string, Entry>

  /** An entry is visible up to and including its expiry instant. */
  predicate Live(e: Entry, now: int) {
    now <= e.expiresAt
  }

  /** What `getWithMetadata(key)` observes at time `now`. */
  function Lookup(entries: Entries, key: string, now: int): Option<Entry> {
    if key in entries && Live(entries[key], now) then Some(entries[key]) else None
  }

  /** The namespace: one mutable map of entries. */
  class Store {
    var entries: Entries

    constructor ()
      ensures entries == map[]
    {
      entries := map[];
    }

    /**
     * `put(key, value, { expirationTtl, metadata })`: replace semantics, no
     * check that `key` is new.
     */
    method Put(key: string, value: seq<byte>, metadata: Option<Metadata>, expirationTtl: nat, now: int)
      modifies this
      ensures entries == old(entries)[key := Entry(value, metadata, now + expirationTtl)]
    {
      entries := entries[key := Entry(value, metadata, now + expirationTtl)];
    }

    /** `getWithMetadata(key, 'arrayBuffer')`: the live entry under `key`, or nothing. */
    method GetWithMetadata(key: string, now: int) returns (file: Option<Entry>)
      ensures file.Some? <==> key in entries && now <= entries[key].expiresAt
      ensures file.Some? ==> file.value == entries[key]
      ensures file == Lookup(entries, key, now)
    {
      if key in entries && Live(entries[key], now) {
        file := Some(entries[key]);
      } else {
        file := None;
      }
    }
  }

  /**
   * After a put, the key yields exactly the value and metadata put, until the
   * TTL has run out, and is absent afterwards; every other key reads as before.
   */
  lemma PutThenGet(entries: Entries, key: string, value: seq<byte>, metadata: Option<Metadata>,
                   ttl: nat, now: int, later: int, other: string)
    requires other != key
    ensures var after := entries[key := Entry(value, metadata, now + ttl)];
      && (later <= now + ttl ==> Lookup(after, key, later) == Some(Entry(value, metadata, now + ttl)))
      && (later > now + ttl ==> Lookup(after, key, later) == None)
      && Lookup(after, other, later) == Lookup(entries, other, later)
  {
  }

  /**
   * An expired entry is indistinguishable from one that was never stored: every
   * lookup at `now` gives the same answer with or without it.
   */
  lemma ExpiredIsAbsent(entries: Entries, key: string, now: int, probe: string)
    requires key in entries && entries[key].expiresAt < now
    ensures Lookup(entries, probe, now) == Lookup(entries - {key}, probe, now)
  {
  }
}
