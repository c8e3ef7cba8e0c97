/**
 The session cache in front of the engine. An operation first makes sure its session exists, through
 the cache; what it does afterwards is any function of the stores that never deletes a session row.
 */
module CachedEngine {
  import opened Types
  import opened SessionCache
  import EngineProtocol

  datatype Row = Row(org: nat, state: SessionState)

  type Sessions = map<nat, Row>

  datatype Stores<X> = Stores(sessions: Sessions, other: X)

  /** An engine operation: the session it opens, if it is an intercept, and everything it does after that. */
  datatype Op<!X, Y> = Op(opens: Option<Key>, rest: Stores<X> -> (Stores<X>, Y))

  /** A session is read only by the organisation that owns it. */
  function GetSession(sessions: Sessions, key: Key): Option<Record> {
    if key.session in sessions && sessions[key.session].org == key.org
    then Some(Record(key.org, key.session, sessions[key.session].state)) else None
  }

  /** Creating does nothing if any organisation has the session id. */
  function CreateSession(sessions: Sessions, key: Key): Sessions {
    if key.session in sessions then sessions else sessions[key.session := Row(key.org, Active)]
  }

  /** Making sure of a session without any cache. */
  function Opened(sessions: Sessions, key: Key): Sessions {
    if GetSession(sessions, key).Some? then sessions else CreateSession(sessions, key)
  }

  /** Every cached key has its session row, of the same organisation. */
  ghost predicate Backed(m: Entries, sessions: Sessions) {
    forall key :: key in m ==> GetSession(sessions, key).Some?
  }

  ghost predicate KeepsRows(sessions: Sessions, t: Sessions) {
    forall id :: id in sessions ==> id in t && t[id].org == sessions[id].org
  }

  lemma KeptRowsBack(m: Entries, sessions: Sessions, t: Sessions)
    requires Backed(m, sessions) && KeepsRows(sessions, t)
    ensures Backed(m, t)
  {
  }

  lemma InsertIsBacked(m: Entries, t: Entries, record: Record, now: int, config: Config, sessions: Sessions)
    requires Backed(m, sessions) && GetSession(sessions, KeyOf(record)).Some? && Inserts(m, t, record, now, config)
    ensures Backed(t, sessions)
  {
  }

  // ── The code ──────────────────────────────────────────────────────────────

  class Gate {
    const cache: Cache
    var sessions: Sessions

    ghost predicate Valid()
      reads this, cache
    {
      Backed(cache.entries, sessions)
    }

    constructor (config: Config, sessions: Sessions)
      ensures Valid() && fresh(cache) && this.sessions == sessions && cache.config == config
    {
      cache := new Cache(config);
      this.sessions := sessions;
    }

    /** Ask the cache, then the store, then create; remember what was read. Same sessions as with no cache at all. */
    method Open(key: Key, now: int, later: int, insertAt: int)
      requires Valid() && now <= later
      modifies this`sessions, cache`entries
      ensures Valid() && sessions == Opened(old(sessions), key)
      ensures CacheOpens(old(cache.entries), cache.entries, old(sessions), key, Timing(now, insertAt, {}), cache.config)
    {
      var existing := cache.Get(key, now, later);
      if existing.None? {
        var row := GetSession(sessions, key);
        if row.Some? {
          cache.Insert(row.value, insertAt);
          InsertIsBacked(AfterGet(old(cache.entries), key, now, cache.config.ttl), cache.entries, row.value, insertAt,
                         cache.config, sessions);
        } else {
          sessions := CreateSession(sessions, key);
          KeptRowsBack(cache.entries, old(sessions), sessions);
          var record := GetSession(sessions, key);
          if record.Some? {
            ghost var before := cache.entries;
            cache.Insert(record.value, insertAt);
            InsertIsBacked(before, cache.entries, record.value, insertAt, cache.config, sessions);
          }
        }
      }
    }
  }

  // ── Whole runs, with and without the cache ────────────────────────────────

  /** When the clock is read, and which keys the operation invalidates at its end. */
  datatype Timing = Timing(now: int, insertAt: int, drops: set<Key>)

  function CachedSessions(m: Entries, sessions: Sessions, key: Key, now: int, ttl: nat): Sessions {
    if Lookup(m, key, now, ttl).Some? then sessions
    else if GetSession(sessions, key).Some? then sessions
    else CreateSession(sessions, key)
  }

  /** The cache after opening: unchanged on a hit; otherwise what the store then has is inserted. */
  ghost predicate CacheOpens(m: Entries, t: Entries, sessions: Sessions, key: Key, timing: Timing, config: Config) {
    if Lookup(m, key, timing.now, config.ttl).Some? then t == m
    else
      var read := GetSession(CachedSessions(m, sessions, key, timing.now, config.ttl), key);
      var evicted := AfterGet(m, key, timing.now, config.ttl);
      if read.Some? then Inserts(evicted, t, read.value, timing.insertAt, config) else t == evicted
  }

  ghost predicate CachedStep<X, Y>(st: Stores<X>, m: Entries, op: Op<X, Y>, timing: Timing, config: Config,
                                   st': Stores<X>, m': Entries, out: Y) {
    match op.opens
    case None => (st', out) == op.rest(st) && m' == m - timing.drops
    case Some(key) =>
      && (st', out) == op.rest(st.(sessions := CachedSessions(m, st.sessions, key, timing.now, config.ttl)))
      && exists t :: CacheOpens(m, t, st.sessions, key, timing, config) && m' == t - timing.drops
  }

  ghost predicate PlainStep<X, Y>(st: Stores<X>, op: Op<X, Y>, st': Stores<X>, out: Y) {
    match op.opens
    case None => (st', out) == op.rest(st)
    case Some(key) => (st', out) == op.rest(st.(sessions := Opened(st.sessions, key)))
  }

  ghost predicate KeepsSessions<X(!new), Y>(op: Op<X, Y>) {
    forall st: Stores<X> :: KeepsRows(st.sessions, op.rest(st).0.sessions)
  }

  ghost predicate CachedRun<X, Y>(ops: seq<Op<X, Y>>, timings: seq<Timing>, config: Config,
                                  stores: seq<Stores<X>>, caches: seq<Entries>, outs: seq<Y>) {
    && |timings| == |ops| && |outs| == |ops| && |stores| == |ops| + 1 && |caches| == |ops| + 1
    && caches[0] == map[]
    && forall i {:trigger outs[i]} :: 0 <= i < |ops| ==>
         CachedStep(stores[i], caches[i], ops[i], timings[i], config, stores[i + 1], caches[i + 1], outs[i])
  }

  ghost predicate PlainRun<X, Y>(ops: seq<Op<X, Y>>, stores: seq<Stores<X>>, outs: seq<Y>) {
    && |outs| == |ops| && |stores| == |ops| + 1
    && forall i {:trigger outs[i]} :: 0 <= i < |ops| ==> PlainStep(stores[i], ops[i], stores[i + 1], outs[i])
  }

  lemma StepIsPlain<X(!new), Y>(st: Stores<X>, m: Entries, op: Op<X, Y>, timing: Timing, config: Config,
                                st': Stores<X>, m': Entries, out: Y)
    requires Backed(m, st.sessions) && KeepsSessions(op) && CachedStep(st, m, op, timing, config, st', m', out)
    ensures PlainStep(st, op, st', out) && Backed(m', st'.sessions)
  {
    match op.opens
    case None =>
      assert KeepsRows(st.sessions, op.rest(st).0.sessions);
    case Some(key) =>
      var ready := CachedSessions(m, st.sessions, key, timing.now, config.ttl);
      assert ready == Opened(st.sessions, key);
      var t :| CacheOpens(m, t, st.sessions, key, timing, config) && m' == t - timing.drops;
      OpeningIsBacked(m, t, st.sessions, key, timing, config);
      assert KeepsRows(ready, op.rest(st.(sessions := ready)).0.sessions);
      KeptRowsBack(t, ready, st'.sessions);
  }

  lemma OpeningIsBacked(m: Entries, t: Entries, sessions: Sessions, key: Key, timing: Timing, config: Config)
    requires Backed(m, sessions) && CacheOpens(m, t, sessions, key, timing, config)
    ensures Backed(t, CachedSessions(m, sessions, key, timing.now, config.ttl))
  {
    var ready := CachedSessions(m, sessions, key, timing.now, config.ttl);
    if Lookup(m, key, timing.now, config.ttl).None? {
      var evicted := AfterGet(m, key, timing.now, config.ttl);
      KeptRowsBack(evicted, sessions, ready);
      var read := GetSession(ready, key);
      if read.Some? {
        InsertIsBacked(evicted, t, read.value, timing.insertAt, config, ready);
      }
    }
  }

  lemma {:induction false} RunStaysBacked<X(!new), Y>(ops: seq<Op<X, Y>>, timings: seq<Timing>, config: Config,
                                                      stores: seq<Stores<X>>, caches: seq<Entries>, outs: seq<Y>, n: nat)
    requires CachedRun(ops, timings, config, stores, caches, outs) && n <= |ops|
    requires forall i :: 0 <= i < |ops| ==> KeepsSessions(ops[i])
    ensures Backed(caches[n], stores[n].sessions)
  {
    if n > 0 {
      RunStaysBacked(ops, timings, config, stores, caches, outs, n - 1);
      var i := n - 1;
      assert CachedStep(stores[i], caches[i], ops[i], timings[i], config, stores[i + 1], caches[i + 1], outs[i]);
      StepIsPlain(stores[i], caches[i], ops[i], timings[i], config, stores[n], caches[n], outs[i]);
    }
  }

  /** Whatever the clock, the expiries, the evictions and the invalidations, a cached run is a run of the engine with no cache. */
  lemma CachedRunIsPlain<X(!new), Y>(ops: seq<Op<X, Y>>, timings: seq<Timing>, config: Config,
                                     stores: seq<Stores<X>>, caches: seq<Entries>, outs: seq<Y>)
    requires CachedRun(ops, timings, config, stores, caches, outs)
    requires forall i :: 0 <= i < |ops| ==> KeepsSessions(ops[i])
    ensures PlainRun(ops, stores, outs)
  {
    forall i {:trigger outs[i]} | 0 <= i < |ops|
      ensures PlainStep(stores[i], ops[i], stores[i + 1], outs[i])
    {
      RunStaysBacked(ops, timings, config, stores, caches, outs, i);
      StepIsPlain(stores[i], caches[i], ops[i], timings[i], config, stores[i + 1], caches[i + 1], outs[i]);
    }
  }

  lemma {:induction false} PlainRunsAgree<X, Y>(ops: seq<Op<X, Y>>, stores: seq<Stores<X>>, outs: seq<Y>,
                                                stores': seq<Stores<X>>, outs': seq<Y>, n: nat)
    requires PlainRun(ops, stores, outs) && PlainRun(ops, stores', outs') && stores[0] == stores'[0] && n <= |ops|
    ensures stores[n] == stores'[n] && outs[..n] == outs'[..n]
  {
    if n > 0 {
      var i := n - 1;
      PlainRunsAgree(ops, stores, outs, stores', outs', i);
      assert PlainStep(stores[i], ops[i], stores[n], outs[i]) && PlainStep(stores'[i], ops[i], stores'[n], outs'[i]);
      assert outs[..n] == outs[..i] + [outs[i]] && outs'[..n] == outs'[..i] + [outs'[i]];
    }
  }

  /** Two engines given the same operations, one cached and one not, give the same outcomes and the same stores. */
  lemma CacheIsInvisible<X(!new), Y>(ops: seq<Op<X, Y>>, timings: seq<Timing>, config: Config,
                                     stores: seq<Stores<X>>, caches: seq<Entries>, outs: seq<Y>,
                                     plainStores: seq<Stores<X>>, plainOuts: seq<Y>)
    requires CachedRun(ops, timings, config, stores, caches, outs) && PlainRun(ops, plainStores, plainOuts)
    requires stores[0] == plainStores[0] && forall i :: 0 <= i < |ops| ==> KeepsSessions(ops[i])
    ensures outs == plainOuts && stores == plainStores
  {
    CachedRunIsPlain(ops, timings, config, stores, caches, outs);
    forall n | 0 <= n <= |ops|
      ensures stores[n] == plainStores[n]
    {
      PlainRunsAgree(ops, stores, outs, plainStores, plainOuts, n);
    }
    PlainRunsAgree(ops, stores, outs, plainStores, plainOuts, |ops|);
    assert outs[..|ops|] == outs && plainOuts[..|ops|] == plainOuts;
  }

  /** The premise holds of every step of the engine: no session row is ever deleted. */
  lemma EngineKeepsSessions(s: EngineProtocol.World, step: EngineProtocol.Step)
    requires EngineProtocol.Enabled(s, step)
    ensures s.db.sessions.Keys <= EngineProtocol.Next(s, step).db.sessions.Keys
  {
  }
}
