/** The shared response store the cache layers use: rendered responses
    keyed by tenant, path and language. */
module ResponseCache {
  import opened Basics

  /** A cache key: no other request dimension tells two entries apart. */
  datatype Key = Key(tid: int, path: string, language: string)

  /** A stored response: its content type and its body. */
  datatype Entry = Entry(contentType: string, body: Data)

  /** The store after invalidating tenant `tid`: every entry of that tenant
      is gone, every entry of another tenant is kept as it was. */
  function Drop(entries: map<Key, Entry>, tid: int): (kept: map<Key, Entry>)
    ensures forall k :: k in kept ==> k in entries && k.tid != tid && kept[k] == entries[k]
    ensures forall k :: k in entries && k.tid != tid ==> k in kept
  {
    map k | k in entries && k.tid != tid :: entries[k]
  }

  /** Invalidating a tenant twice drops nothing more than invalidating it once. */
  lemma DropIdempotent(entries: map<Key, Entry>, tid: int)
    ensures Drop(Drop(entries, tid), tid) == Drop(entries, tid)
  {
  }

  /** Invalidating one tenant does not touch another tenant's entries. */
  lemma DropKeepsOtherTenants(entries: map<Key, Entry>, tid: int, k: Key)
    requires k.tid != tid
    ensures (k in Drop(entries, tid)) == (k in entries)
    ensures k in entries ==> Drop(entries, tid)[k] == entries[k]
  {
  }

  /** The process-wide store, with a log of the tenants it was told to
      invalidate. */
  class Cache {
    var entries: map<Key, Entry>
    var invalidated: seq<int>

    constructor ()
      ensures entries == map[] && invalidated == []
    {
      entries := map[];
      invalidated := [];
    }

    /** The entry stored under `k`, if any. */
    method Get(k: Key) returns (e: Option<Entry>)
      ensures e.Some? <==> k in entries
      ensures e.Some? ==> e.value == entries[k]
    {
      if k in entries {
        e := Some(entries[k]);
      } else {
        e := None;
      }
    }

    /** Stores `e` under `k` and returns the stored entry. */
    method Set(k: Key, e: Entry) returns (stored: Entry)
      modifies this
      ensures entries == old(entries)[k := e]
      ensures invalidated == old(invalidated)
      ensures stored == e
    {
      entries := entries[k := e];
      stored := e;
    }

    /** Drops every entry of tenant `tid` and records the call. */
    method Invalidate(tid: int)
      modifies this
      ensures entries == Drop(old(entries), tid)
      ensures invalidated == old(invalidated) + [tid]
    {
      entries := Drop(entries, tid);
      invalidated := invalidated + [tid];
    }
  }
}
