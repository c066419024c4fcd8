/**
 * The per-topic caches both classes keep in JavaScript Maps: `iterators` (one consumer handle per
 * topic) and `topicRedises` (one client connection per topic). Both are filled on first use and
 * read afterwards.
 */
module Registry {
  import opened Messages

  /** A client connection, identified by the order in which it was opened. */
  type ClientId = nat

  /** The async iterable `consume` returns: it pulls from `topic` with the `timeout` it was made with. */
  datatype Handle = Handle(topic: string, timeout: nat)

  /** An iterator result `{ done, value }`. */
  datatype Step = Step(done: bool, value: Option<Msg>)

  /**
   * `if (!cache.has(key)) cache.set(key, created); return cache.get(key)`: the entry cached under
   * `key`, inserting `created` only when there is none.
   */
  function GetOrInsert<V>(cache: map<string, V>, key: string, created: V): (r: (map<string, V>, V))
    ensures r.0.Keys == cache.Keys + {key}
    ensures forall k | k in cache :: r.0[k] == cache[k]
    ensures r.0[key] == r.1
    ensures r.1 == (if key in cache then cache[key] else created)
  {
    if key in cache then (cache, cache[key]) else (cache[key := created], created)
  }

  /** A second lookup of the same key returns what the first returned and changes nothing. */
  lemma GetOrInsertIdempotent<V>(cache: map<string, V>, key: string, created: V, later: V)
    ensures var (c1, v1) := GetOrInsert(cache, key, created);
            GetOrInsert(c1, key, later) == (c1, v1)
  {
  }

  /** Every cached client is numbered below `connections` (the number opened so far), and no two keys share a client. */
  ghost predicate ClientsDistinct(clients: map<string, ClientId>, connections: nat) {
    && (forall k | k in clients :: clients[k] < connections)
    && (forall k1, k2 | k1 in clients && k2 in clients && k1 != k2 :: clients[k1] != clients[k2])
  }

  /**
   * Caching a new client under the next connection number keeps the clients distinct, so a new
   * connection is opened exactly for a key seen for the first time.
   */
  lemma RegisterKeepsClientsDistinct(clients: map<string, ClientId>, connections: nat, key: string)
    requires ClientsDistinct(clients, connections)
    ensures var (c, id) := GetOrInsert(clients, key, connections);
            ClientsDistinct(c, if key in clients then connections else connections + 1)
            && (id == connections <==> key !in clients)
  {
  }
}
