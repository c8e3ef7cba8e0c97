/** The in-memory cache of session records: time to live, capacity with eviction of an oldest entry, invalidation. */
module SessionCache {
  import opened Types

  datatype Key = Key(org: nat, session: nat)

  datatype Record = Record(org: nat, session: nat, state: SessionState)

  datatype Entry = Entry(record: Record, insertedAt: int)

  datatype Config = Config(ttl: nat, maxEntries: nat)

  type Entries = map<Key, Entry>

  function KeyOf(r: Record): Key {
    Key(r.org, r.session)
  }

  // ── Specification ─────────────────────────────────────────────────────────

  predicate Alive(e: Entry, now: int, ttl: nat) {
    now - e.insertedAt <= ttl
  }

  function Lookup(m: Entries, key: Key, now: int, ttl: nat): Option<Record> {
    if key in m && Alive(m[key], now, ttl) then Some(m[key].record) else None
  }

  /** A lookup drops the entry it finds expired. */
  function AfterGet(m: Entries, key: Key, now: int, ttl: nat): Entries {
    if Lookup(m, key, now, ttl).Some? then m else m - {key}
  }

  predicate NeedsRoom(m: Entries, key: Key, config: Config) {
    config.maxEntries > 0 && key !in m && |m| >= config.maxEntries
  }

  ghost predicate IsOldest(m: Entries, victim: Key) {
    victim in m && forall k :: k in m ==> m[victim].insertedAt <= m[k].insertedAt
  }

  /** An insert replaces its key's entry; a new key at capacity first evicts some oldest entry. */
  ghost predicate Inserts(m: Entries, t: Entries, record: Record, now: int, config: Config) {
    var key := KeyOf(record);
    if NeedsRoom(m, key, config) && m != map[] then
      exists victim :: IsOldest(m, victim) && t == (m - {victim})[key := Entry(record, now)]
    else t == m[key := Entry(record, now)]
  }

  // ── The cache object ──────────────────────────────────────────────────────

  class Cache {
    const config: Config
    var entries: Entries

    constructor (config: Config)
      ensures this.config == config && entries == map[]
    {
      this.config := config;
      entries := map[];
    }

    /** Look a record up. The clock is read once under the shared lock and again before evicting. */
    method Get(key: Key, now: int, later: int) returns (r: Option<Record>)
      requires now <= later
      modifies this`entries
      ensures r == Lookup(old(entries), key, now, config.ttl)
      ensures entries == AfterGet(old(entries), key, now, config.ttl)
    {
      if key in entries && now - entries[key].insertedAt <= config.ttl {
        return Some(entries[key].record);
      }
      if key in entries && later - entries[key].insertedAt > config.ttl {
        entries := entries - {key};
      }
      assert key !in entries;
      r := None;
      assert entries == old(entries) - {key};
    }

    /** The key of an entry inserted first, found by scanning the map. */
    method OldestKey() returns (oldest: Key)
      requires entries != map[]
      ensures IsOldest(entries, oldest)
    {
      var rest := entries.Keys;
      oldest :| oldest in rest;
      rest := rest - {oldest};
      while rest != {}
        invariant rest <= entries.Keys && oldest in entries
        invariant forall k :: k in entries && k !in rest ==> entries[oldest].insertedAt <= entries[k].insertedAt
        decreases |rest|
      {
        var k :| k in rest;
        if entries[k].insertedAt < entries[oldest].insertedAt {
          oldest := k;
        }
        rest := rest - {k};
      }
    }

    method Insert(record: Record, now: int)
      modifies this`entries
      ensures Inserts(old(entries), entries, record, now, config)
    {
      var key := KeyOf(record);
      if config.maxEntries > 0 && key !in entries && |entries| >= config.maxEntries {
        if entries != map[] {
          var oldest := OldestKey();
          entries := entries - {oldest};
        }
      }
      entries := entries[key := Entry(record, now)];
    }

    method Invalidate(key: Key)
      modifies this`entries
      ensures entries == old(entries) - {key}
    {
      entries := entries - {key};
    }
  }

  // ── Whole histories ───────────────────────────────────────────────────────

  datatype Event = Looked(key: Key, at: int) | Inserted(record: Record, at: int) | Invalidated(key: Key)

  ghost predicate Follows(m: Entries, t: Entries, event: Event, config: Config) {
    match event
    case Looked(key, at) => t == AfterGet(m, key, at, config.ttl)
    case Inserted(record, at) => Inserts(m, t, record, at, config)
    case Invalidated(key) => t == m - {key}
  }

  /** The contents of a cache after each event of its life, starting empty. */
  ghost predicate IsHistory(states: seq<Entries>, events: seq<Event>, config: Config) {
    && |states| == |events| + 1
    && states[0] == map[]
    && forall i {:trigger events[i]} :: 0 <= i < |events| ==> Follows(states[i], states[i + 1], events[i], config)
  }

  lemma InsertKeepsBound(m: Entries, t: Entries, record: Record, now: int, config: Config)
    requires config.maxEntries > 0 && |m| <= config.maxEntries && Inserts(m, t, record, now, config)
    ensures |t| <= config.maxEntries
  {
    var key := KeyOf(record);
    if NeedsRoom(m, key, config) && m != map[] {
      var victim :| IsOldest(m, victim) && t == (m - {victim})[key := Entry(record, now)];
      assert t.Keys == m.Keys - {victim} + {key};
      assert |m.Keys| == |m| && |t.Keys| == |t|;
    } else {
      assert t.Keys == m.Keys + {key};
      assert |m.Keys| == |m| && |t.Keys| == |t|;
      if key in m {
        assert t.Keys == m.Keys;
      }
    }
  }

  lemma RemoveKeepsBound(m: Entries, key: Key)
    ensures |m - {key}| <= |m|
  {
    assert (m - {key}).Keys == m.Keys - {key};
    assert |m.Keys| == |m| && |(m - {key}).Keys| == |m - {key}|;
  }

  /** Size never exceeds a non-zero capacity. */
  lemma {:induction false} SizeIsBounded(states: seq<Entries>, events: seq<Event>, config: Config, n: nat)
    requires IsHistory(states, events, config) && n < |states| && config.maxEntries > 0
    ensures |states[n]| <= config.maxEntries
  {
    if n > 0 {
      SizeIsBounded(states, events, config, n - 1);
      match events[n - 1]
      case Looked(key, _) => RemoveKeepsBound(states[n - 1], key);
      case Inserted(record, at) => InsertKeepsBound(states[n - 1], states[n], record, at, config);
      case Invalidated(key) => RemoveKeepsBound(states[n - 1], key);
    }
  }

  /** The event puts a new record under the key or removes it. */
  predicate Rewrites(event: Event, key: Key) {
    (event.Inserted? && KeyOf(event.record) == key) || (event.Invalidated? && event.key == key)
  }

  /** The last event before n that rewrites the key is the insert at i. */
  ghost predicate LatestInsert(events: seq<Event>, key: Key, i: nat, n: nat) {
    && i < n <= |events| && events[i].Inserted? && KeyOf(events[i].record) == key
    && forall j :: i < j < n ==> !Rewrites(events[j], key)
  }

  /** Every entry comes from the latest insert of its key. */
  lemma {:induction false} EntryIsLatestInsert(states: seq<Entries>, events: seq<Event>, config: Config, n: nat, key: Key) returns (i: nat)
    requires IsHistory(states, events, config) && n < |states| && key in states[n]
    ensures LatestInsert(events, key, i, n) && states[n][key] == Entry(events[i].record, events[i].at)
    decreases n
  {
    assert n > 0;
    var event := events[n - 1];
    if event.Inserted? && KeyOf(event.record) == key {
      i := n - 1;
    } else {
      i := EntryIsLatestInsert(states, events, config, n - 1, key);
    }
  }

  /** A hit is the latest insert for its key, not invalidated since, and within its time to live. */
  lemma HitIsLatestInsert(states: seq<Entries>, events: seq<Event>, config: Config, n: nat, key: Key, now: int) returns (i: nat)
    requires IsHistory(states, events, config) && n < |states| && Lookup(states[n], key, now, config.ttl).Some?
    ensures LatestInsert(events, key, i, n) && Lookup(states[n], key, now, config.ttl) == Some(events[i].record)
    ensures now - events[i].at <= config.ttl
  {
    i := EntryIsLatestInsert(states, events, config, n, key);
  }

  /** Without a capacity, an insert stays until it is rewritten, or looked up when it had expired. */
  lemma {:induction false} InsertStays(states: seq<Entries>, events: seq<Event>, config: Config, i: nat, n: nat, key: Key)
    requires IsHistory(states, events, config) && n < |states| && config.maxEntries == 0 && LatestInsert(events, key, i, n)
    requires forall j :: i < j < n && events[j].Looked? && events[j].key == key ==> events[j].at - events[i].at <= config.ttl
    ensures key in states[n] && states[n][key] == Entry(events[i].record, events[i].at)
    decreases n
  {
    assert Follows(states[n - 1], states[n], events[n - 1], config);
    if i < n - 1 {
      InsertStays(states, events, config, i, n - 1, key);
    }
  }

  /** Without a capacity and with a clock that never goes back, a lookup hits exactly when the latest insert is still alive. */
  lemma HitIff(states: seq<Entries>, events: seq<Event>, config: Config, n: nat, key: Key, now: int)
    requires IsHistory(states, events, config) && n < |states| && config.maxEntries == 0
    requires forall j :: 0 <= j < n && events[j].Looked? ==> events[j].at <= now
    ensures Lookup(states[n], key, now, config.ttl).Some?
            <==> exists i :: 0 <= i < n && LatestInsert(events, key, i, n) && now - events[i].at <= config.ttl
  {
    if Lookup(states[n], key, now, config.ttl).Some? {
      var i := HitIsLatestInsert(states, events, config, n, key, now);
    }
    if i :| 0 <= i < n && LatestInsert(events, key, i, n) && now - events[i].at <= config.ttl {
      InsertStays(states, events, config, i, n, key);
    }
  }
}
