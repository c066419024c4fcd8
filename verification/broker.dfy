/**
 * The cluster broker (src/core/broker.ts). Payload keys are `id + dataSuffix`; the suffix is the
 * broker's constant `DATA_SUFFIX`. Every client is a cluster client and all of them are kept in one
 * map, `topicRedises`, under the names "default-redis-client", "event-redis-client" and the consumed
 * topics. The cluster's keyspace is one store; each master node lists its own share of the keys.
 */
module ClusterBroker {
  import opened Messages
  import opened KeyNaming
  import opened Redis
  import opened Registry
  import opened Delivery

  /** A master node of the cluster. */
  type NodeId = nat

  /** The name of the command client in the client map. */
  const DefaultClient := "default-redis-client"
  /** The name of the subscription client in the client map. */
  const EventClient := "event-redis-client"

  /** `.flat()`: the key listings of the nodes, concatenated in node order. */
  function Flatten(listings: seq<seq<string>>): (keys: seq<string>)
    ensures forall k :: k in keys <==> exists i | 0 <= i < |listings| :: k in listings[i]
  {
    if listings == [] then []
    else
      listings[0] + Flatten(listings[1..])
  }

  /** Flattening keeps the node order: the keys of earlier nodes come first. */
  lemma {:induction false} FlattenAppend(a: seq<seq<string>>, b: seq<seq<string>>)
    ensures Flatten(a + b) == Flatten(a) + Flatten(b)
  {
    if a == [] {
      assert a + b == b;
    } else {
      assert (a + b)[0] == a[0];
      assert (a + b)[1..] == a[1..] + b;
      FlattenAppend(a[1..], b);
    }
  }

  /** Scanning the flattened listings is scanning node by node, stopping at the first rejection. */
  lemma RecoverNodeByNode(r: Keyspace, scheme: KeyScheme, first: seq<seq<string>>, last: seq<string>, test: TimerTest)
    requires scheme.Valid()
    ensures var run := Recovered(r, scheme, Flatten(first), test);
            Recovered(r, scheme, Flatten(first + [last]), test) ==
              if run.completed then Recovered(run.store, scheme, last, test).After(run.dispatched) else run
  {
    FlattenAppend(first, [last]);
    assert [last][1..] == [];
    assert Flatten([last]) == last;
    RecoverSplits(r, scheme, Flatten(first), last, test);
  }

  class ResterBroker {
    /** The cluster's keyspace. */
    const redis: Store
    const scheme: KeyScheme
    /** Number of `message` events emitted so far. */
    var events: nat
    /** Number of `message` listeners registered with `on`. */
    var listeners: nat
    /** The `iterators` map: one consumer handle per topic. */
    var iterators: map<string, Handle>
    /** The `topicRedises` map: every cluster client, by name. */
    var clients: map<string, ClientId>
    /** Cluster clients opened so far. */
    var connections: nat
    /** The master nodes of the command client, set when it is ready. */
    var nodes: seq<NodeId>
    /** The master nodes whose expiry notifications are subscribed, in subscription order. */
    var listening: seq<NodeId>
    /** Delayed messages produced here and not pushed yet. */
    ghost var pending: map<string, Msg>
    /** The ids of every message pushed by this broker, in order. */
    ghost var dispatched: seq<string>

    ghost predicate Valid()
      reads this, redis
    {
      && scheme.Suffix? && scheme.Valid()
      && Tracked(redis.State(), scheme, pending, dispatched)
      && events == |dispatched|
      && ClientsDistinct(clients, connections)
      && DefaultClient in clients && clients[DefaultClient] == 0
      && EventClient in clients && clients[EventClient] == 1
      && (forall t | t in iterators :: iterators[t].topic == t)
    }

    /**
     * The broker on a cluster whose keyspace is `initial`, with payload suffix `dataSuffix`. It
     * creates the command client and then the subscription client through `Create`.
     */
    constructor (initial: Keyspace, dataSuffix: string)
      requires dataSuffix != "" && initial.Valid() && PayloadsMatch(initial, Suffix(dataSuffix))
      ensures Valid() && fresh(redis)
      ensures redis.State() == initial && scheme == Suffix(dataSuffix)
      ensures clients == map[DefaultClient := 0, EventClient := 1] && connections == 2
      ensures events == 0 && listeners == 0 && iterators == map[] && nodes == [] && listening == []
      ensures pending == map[] && dispatched == []
    {
      redis := new Store(initial);
      scheme := Suffix(dataSuffix);
      events, listeners := 0, 0;
      iterators, clients, connections := map[], map[], 0;
      nodes, listening := [], [];
      pending, dispatched := map[], [];
      new;
      var default := Create(DefaultClient);
      var event := Create(EventClient);
    }

    /**
     * `create(name)`: the client registered under `name`; a new one, numbered `connections`, is
     * opened and registered only when there is none.
     */
    method Create(name: string) returns (c: ClientId)
      requires ClientsDistinct(clients, connections)
      modifies this`clients, this`connections
      ensures ClientsDistinct(clients, connections)
      ensures (clients, c) == GetOrInsert(old(clients), name, old(connections))
      ensures connections == if name in old(clients) then old(connections) else old(connections) + 1
      ensures c == old(connections) <==> name !in old(clients)
    {
      RegisterKeepsClientsDistinct(clients, connections, name);
      if name in clients {
        return clients[name];
      }
      c := connections;
      connections := connections + 1;
      clients := clients[name := c];
    }

    /**
     * `init`: subscribe every master node of the subscription client to expiry notifications, in
     * order; from then on `OnExpired` runs for the expiries each of them reports.
     */
    method Init(masters: seq<NodeId>)
      modifies this`listening
      ensures listening == old(listening) + masters
      ensures old(Valid()) ==> Valid()
    {
      for i := 0 to |masters|
        invariant listening == old(listening) + masters[..i]
      {
        listening := listening + [masters[i]];
      }
      assert masters[..|masters|] == masters;
    }

    /** `getMessage`: the message stored for `id`, which is always that id's own and never pushed yet. */
    function GetMessage(id: string): (m: Option<Msg>)
      requires Valid()
      reads this, redis
      ensures m == Delivery.GetMessage(redis.State(), scheme, id)
      ensures m.Some? ==> m.value.id == id && id !in dispatched
    {
      match redis.Get(DataKey(scheme, id))
      case Some(Encoded(m)) =>
        StoredMessageNotDispatched(redis.State(), scheme, pending, dispatched, id);
        Some(m)
      case _ => None
    }

    /**
     * `push`: delete the payload key, then append the message to the tail of its topic, then emit
     * one event. Its callers pass a message whose id is a UUID never pushed before.
     */
    method Push(m: Msg)
      requires Valid() && IsUuid(m.id) && m.id !in dispatched
      modifies this`events, this`dispatched, this`pending, redis
      ensures Valid()
      ensures redis.State() == Dispatch(old(redis.State()), scheme, m)
      ensures events == old(events) + 1
      ensures dispatched == old(dispatched) + [m.id] && pending == old(pending) - {m.id}
    {
      TrackedDispatch(redis.State(), scheme, pending, dispatched, m);
      redis.Del(DataKey(scheme, m.id));
      redis.RPush(m.topic, m);
      events := events + 1;
      dispatched := dispatched + [m.id];
      pending := pending - {m.id};
    }

    /** The writes of a delayed `produce`, one after another: timer key, payload key, deadline. */
    method Schedule(m: Msg, at: int)
      requires Valid() && Unused(redis.State(), scheme, dispatched, m.id)
      modifies this`pending, redis
      ensures Valid()
      ensures redis.State() == Scheduled(old(redis.State()), scheme, m, at)
      ensures pending == old(pending)[m.id := m]
    {
      TrackedSchedule(redis.State(), scheme, pending, dispatched, m, at);
      redis.Set(m.id, Text(""));
      redis.Set(DataKey(scheme, m.id), Encoded(m));
      redis.PExpireAt(m.id, at);
      pending := pending[m.id := m];
    }

    /**
     * `produce`: `id` is the fresh UUID the generator returns. A delayed message gets its timer and
     * payload keys and becomes pending; any other message is pushed at once.
     */
    method Produce(topic: string, body: Body, delay: Option<int>, id: string, now: int) returns (r: string)
      requires Valid() && Unused(redis.State(), scheme, dispatched, id)
      modifies this`events, this`dispatched, this`pending, redis
      ensures Valid() && r == id
      ensures redis.State() == Produced(old(redis.State()), scheme, id, topic, body, delay, now)
      ensures IsDelayed(delay) ==>
        && pending == old(pending)[id := Msg(id, topic, body, delay)]
        && dispatched == old(dispatched) && events == old(events)
      ensures !IsDelayed(delay) ==>
        && pending == old(pending) && dispatched == old(dispatched) + [id] && events == old(events) + 1
    {
      var m := Msg(id, topic, body, delay);
      if delay.Some? && delay.value > 0 {
        Schedule(m, now + delay.value);
      } else {
        assert id !in pending;
        Push(m);
        assert pending == old(pending);
      }
      r := id;
    }

    /**
     * The cluster's expiry at time `now`: the due keys go and their names are reported. Only timer
     * keys carry deadlines, so every pending payload is still there afterwards.
     */
    method Expire(now: int) returns (expired: set<string>)
      requires Valid()
      modifies redis
      ensures Valid()
      ensures expired == old(redis.State()).Due(now)
      ensures redis.State() == old(redis.State()).Expire(now)
      ensures forall id | id in pending :: Delivery.GetMessage(redis.State(), scheme, id) == Some(pending[id])
    {
      TrackedExpire(redis.State(), scheme, pending, dispatched, now);
      expired := redis.Expire(now);
    }

    /**
     * The expired-key handler of a subscribed master: a name that is not a UUID is ignored, a
     * missing payload makes the push reject before any store call, and otherwise the stored message
     * is pushed.
     */
    method OnExpired(node: NodeId, name: string)
      requires Valid() && node in listening
      modifies this`events, this`dispatched, this`pending, redis
      ensures Valid()
      ensures redis.State() == HandleExpired(old(redis.State()), scheme, name)
      ensures ExpiredMessage(old(redis.State()), scheme, name).None? ==>
        events == old(events) && dispatched == old(dispatched) && pending == old(pending)
      ensures ExpiredMessage(old(redis.State()), scheme, name).Some? ==>
        events == old(events) + 1 && dispatched == old(dispatched) + [name] && pending == old(pending) - {name}
    {
      if !IsUuid(name) {
        return;
      }
      var m := GetMessage(name);
      if m.None? {
        return;
      }
      Push(m.value);
    }

    /**
     * The ready handler of the command client: record its master nodes, then recover from the key
     * listings those nodes return, one listing per node.
     */
    method OnReady(masters: seq<NodeId>, listings: seq<seq<string>>) returns (completed: bool)
      requires Valid() && |listings| == |masters|
      modifies this`nodes, this`events, this`dispatched, this`pending, redis
      ensures Valid() && nodes == masters
      ensures var run := Recovered(old(redis.State()), scheme, Flatten(listings), Intended);
              && redis.State() == run.store && completed == run.completed
              && dispatched == old(dispatched) + Ids(run.dispatched)
              && pending == old(pending) - IdSet(run.dispatched)
    {
      nodes := masters;
      completed := Recover(listings);
    }

    /**
     * `recover`: scan the keys every master listed, in node order, pushing the message of every key
     * whose id parses and whose timer key is gone. A push of a missing payload rejects the scan
     * (`completed` is false) and the remaining keys are left alone.
     */
    method Recover(listings: seq<seq<string>>) returns (completed: bool)
      requires Valid() && |listings| == |nodes|
      modifies this`events, this`dispatched, this`pending, redis
      ensures Valid()
      ensures var run := Recovered(old(redis.State()), scheme, Flatten(listings), Intended);
              && redis.State() == run.store && completed == run.completed
              && dispatched == old(dispatched) + Ids(run.dispatched)
              && pending == old(pending) - IdSet(run.dispatched)
      ensures completed ==> NoLapsedPayload(old(redis.State()), redis.State(), scheme, Flatten(listings), Intended)
      ensures forall m | m in Recovered(old(redis.State()), scheme, Flatten(listings), Intended).dispatched ::
                m.id !in old(redis.State()).strings
    {
      var keys := Flatten(listings);
      ghost var r0 := redis.State();
      IntendedRecoverSkipsLiveTimers(r0, scheme, keys);
      ghost var done: seq<Msg> := [];
      completed := true;
      var i := 0;
      while i < |keys|
        invariant i <= |keys|
        invariant Valid()
        invariant Recovered(r0, scheme, keys, Intended) == Recovered(redis.State(), scheme, keys[i..], Intended).After(done)
        invariant dispatched == old(dispatched) + Ids(done)
        invariant pending == old(pending) - IdSet(done)
        decreases |keys| - i
      {
        RecoverAdvance(r0, redis.State(), scheme, keys, i, done, Intended);
        var ok, pushed := RecoverKey(keys[i]);
        if !ok {
          completed := false;
          return;
        }
        if pushed.Some? {
          IdsSnoc(old(dispatched), old(pending), done, pushed.value);
          done := done + [pushed.value];
        }
        i := i + 1;
      }
      assert keys[i..] == [];
      RecoverLeavesNoLapsedPayload(r0, scheme, keys, Intended);
    }

    /**
     * One pass of `recover`'s loop body for `key`: when the id parses and its timer key is gone,
     * push the stored message; `ok` is false when there is none and the push rejects.
     */
    method RecoverKey(key: string) returns (ok: bool, ghost pushed: Option<Msg>)
      requires Valid()
      modifies this`events, this`dispatched, this`pending, redis
      ensures Valid()
      ensures var target := RecoverTarget(old(redis.State()), scheme, key, Intended);
              && (target.None? ==> ok && pushed.None?)
              && (target.Some? ==>
                    pushed == Delivery.GetMessage(old(redis.State()), scheme, target.value) && ok == pushed.Some?)
      ensures pushed.None? ==>
        redis.State() == old(redis.State()) && dispatched == old(dispatched) && pending == old(pending)
      ensures pushed.Some? ==>
        && redis.State() == Dispatch(old(redis.State()), scheme, pushed.value)
        && dispatched == old(dispatched) + [pushed.value.id] && pending == old(pending) - {pushed.value.id}
    {
      ok, pushed := true, None;
      var id := ParseId(scheme, key);
      if id.Some? && redis.Get(id.value).None? {
        var m := GetMessage(id.value);
        if m.None? {
          ok := false;
          return;
        }
        Push(m.value);
        pushed := m;
      }
    }

    /**
     * `consume`: the handle cached for `topic`, created with this call's `timeout` only when there is
     * none; a later call keeps the first call's timeout.
     */
    method Consume(topic: string, timeout: nat) returns (h: Handle)
      requires Valid()
      modifies this`iterators
      ensures Valid()
      ensures (iterators, h) == GetOrInsert(old(iterators), topic, Handle(topic, timeout))
      ensures h.topic == topic
    {
      if topic !in iterators {
        iterators := iterators[topic := Handle(topic, timeout)];
      }
      h := iterators[topic];
    }

    /**
     * `next`: take the topic's client from the client map, creating it on first use, then pop the
     * head of the topic list, or nothing when it is empty. The map is the one `Create` fills, so a
     * topic named like the command client pops through that client.
     */
    method Next(topic: string, timeout: nat) returns (m: Option<Msg>)
      requires Valid()
      modifies this`clients, this`connections, redis
      ensures Valid()
      ensures (m, redis.State()) == old(redis.State()).LPop(topic)
      ensures clients == GetOrInsert(old(clients), topic, old(connections)).0
      ensures connections == if topic in old(clients) then old(connections) else old(connections) + 1
      ensures topic == DefaultClient ==> clients[topic] == 0 && connections == old(connections)
    {
      if topic !in clients {
        var c := Create(topic);
      }
      m := redis.LPop(topic);
      TrackedIgnoresLists(old(redis.State()), redis.State(), scheme, pending, dispatched);
    }

    /** The handle's `next`: done exactly when `next` finds nothing. */
    method Pull(h: Handle) returns (step: Step)
      requires Valid()
      modifies this`clients, this`connections, redis
      ensures Valid()
      ensures step.done <==> step.value.None?
      ensures (step.value, redis.State()) == old(redis.State()).LPop(h.topic)
      ensures clients == GetOrInsert(old(clients), h.topic, old(connections)).0
      ensures connections == if h.topic in old(clients) then old(connections) else old(connections) + 1
    {
      var value := Next(h.topic, h.timeout);
      if value.None? {
        step := Step(true, None);
      } else {
        step := Step(false, value);
      }
    }

    /** `on('message', action)`: register one more listener. */
    method On()
      modifies this`listeners
      ensures listeners == old(listeners) + 1
      ensures old(Valid()) ==> Valid()
    {
      listeners := listeners + 1;
    }
  }
}
