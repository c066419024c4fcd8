/**
 * The single-node delayed message queue (src/core/queue.ts). Payload keys are `"data-" + id`, the
 * keys the startup scan lists with the pattern `data-*`. One Redis server holds everything; the
 * queue opens one connection for commands, one for the expiry subscription and one per consumed
 * topic.
 */
module SingleNode {
  import opened Messages
  import opened KeyNaming
  import opened Redis
  import opened Registry
  import opened Delivery

  /** The prefix of every payload key. */
  const DataPrefix := "data-"

  class Queue {
    /** The Redis server behind both the command and the subscription connection. */
    const redis: Store
    const scheme: KeyScheme
    /** Whether the expired-key subscription (`init`) is in place. */
    var subscribed: bool
    /** Number of `message` events emitted so far. */
    var events: nat
    /** Number of `message` listeners registered with `on`. */
    var listeners: nat
    /** The `iterators` map: one consumer handle per topic. */
    var iterators: map<string, Handle>
    /** The `topicRedises` map: one blocking-pop connection per topic. */
    var topicClients: map<string, ClientId>
    /** Connections opened so far; numbers 0 and 1 are the command and subscription connections. */
    var connections: nat
    /** Delayed messages produced here and not pushed yet. */
    ghost var pending: map<string, Msg>
    /** The ids of every message pushed by this queue, in order. */
    ghost var dispatched: seq<string>

    ghost predicate Valid()
      reads this, redis
    {
      && scheme == Prefix(DataPrefix)
      && Tracked(redis.State(), scheme, pending, dispatched)
      && events == |dispatched|
      && ClientsDistinct(topicClients, connections)
      && (forall t | t in topicClients :: 2 <= topicClients[t])
      && 2 <= connections
      && (forall t | t in iterators :: iterators[t].topic == t)
    }

    /**
     * The queue on a server whose keyspace is `initial`. Whatever payloads the server already holds
     * were written by `produce`, so each holds its own id's message.
     */
    constructor (initial: Keyspace)
      requires initial.Valid() && PayloadsMatch(initial, Prefix(DataPrefix))
      ensures Valid() && fresh(redis)
      ensures redis.State() == initial
      ensures !subscribed && events == 0 && listeners == 0
      ensures iterators == map[] && topicClients == map[] && connections == 2
      ensures pending == map[] && dispatched == []
    {
      redis := new Store(initial);
      scheme := Prefix(DataPrefix);
      subscribed := false;
      events, listeners := 0, 0;
      iterators, topicClients := map[], map[];
      connections := 2;
      pending, dispatched := map[], [];
    }

    /** `init`: subscribe to expiry notifications; from now on `OnExpired` runs for every expiry. */
    method Init()
      modifies this`subscribed
      ensures subscribed
      ensures old(Valid()) ==> Valid()
    {
      subscribed := true;
    }

    /** `getMessage`: the message stored for `id`, which is always that id's own and never pushed yet. */
    function GetMessage(id: string): (m: Option<Msg>)
      requires Valid()
      reads this, redis
      ensures m == Delivery.GetMessage(redis.State(), scheme, id)
      ensures m.Some? ==> m.value.id == id && id !in dispatched
    {
      match redis.Get(DataKey(scheme, id))
      case Some(Encoded(m)) =>
        StoredMessageNotDispatched(redis.State(), scheme, pending, dispatched, id);
        Some(m)
      case _ => None
    }

    /**
     * `push`: delete the payload key, append the message to the tail of its topic, emit one event.
     * Its callers pass a message whose id is a UUID never pushed before.
     */
    method Push(m: Msg)
      requires Valid() && IsUuid(m.id) && m.id !in dispatched
      modifies this`events, this`dispatched, this`pending, redis
      ensures Valid()
      ensures redis.State() == Dispatch(old(redis.State()), scheme, m)
      ensures events == old(events) + 1
      ensures dispatched == old(dispatched) + [m.id] && pending == old(pending) - {m.id}
    {
      TrackedDispatch(redis.State(), scheme, pending, dispatched, m);
      redis.Del(DataKey(scheme, m.id));
      redis.RPush(m.topic, m);
      events := events + 1;
      dispatched := dispatched + [m.id];
      pending := pending - {m.id};
    }

    /** The `multi` block of a delayed `produce`: timer key, payload key, then its deadline. */
    method Schedule(m: Msg, at: int)
      requires Valid() && Unused(redis.State(), scheme, dispatched, m.id)
      modifies this`pending, redis
      ensures Valid()
      ensures redis.State() == Scheduled(old(redis.State()), scheme, m, at)
      ensures pending == old(pending)[m.id := m]
    {
      TrackedSchedule(redis.State(), scheme, pending, dispatched, m, at);
      redis.Set(m.id, Text(""));
      redis.Set(DataKey(scheme, m.id), Encoded(m));
      redis.PExpireAt(m.id, at);
      pending := pending[m.id := m];
    }

    /**
     * `produce`: `id` is the fresh UUID the generator returns. A delayed message gets its timer and
     * payload keys and becomes pending; any other message is pushed at once.
     */
    method Produce(topic: string, body: Body, delay: Option<int>, id: string, now: int) returns (r: string)
      requires Valid() && Unused(redis.State(), scheme, dispatched, id)
      modifies this`events, this`dispatched, this`pending, redis
      ensures Valid() && r == id
      ensures redis.State() == Produced(old(redis.State()), scheme, id, topic, body, delay, now)
      ensures IsDelayed(delay) ==>
        && pending == old(pending)[id := Msg(id, topic, body, delay)]
        && dispatched == old(dispatched) && events == old(events)
      ensures !IsDelayed(delay) ==>
        && pending == old(pending) && dispatched == old(dispatched) + [id] && events == old(events) + 1
    {
      var m := Msg(id, topic, body, delay);
      if delay.Some? && delay.value > 0 {
        Schedule(m, now + delay.value);
      } else {
        assert id !in pending;
        Push(m);
        assert pending == old(pending);
      }
      r := id;
    }

    /**
     * The server's expiry at time `now`: the due keys go and their names are reported. Only timer
     * keys carry deadlines, so every pending payload is still there afterwards.
     */
    method Expire(now: int) returns (expired: set<string>)
      requires Valid()
      modifies redis
      ensures Valid()
      ensures expired == old(redis.State()).Due(now)
      ensures redis.State() == old(redis.State()).Expire(now)
      ensures forall id | id in pending :: Delivery.GetMessage(redis.State(), scheme, id) == Some(pending[id])
    {
      TrackedExpire(redis.State(), scheme, pending, dispatched, now);
      expired := redis.Expire(now);
    }

    /**
     * The expired-key handler: a name that is not a UUID is ignored, a missing payload makes the push
     * reject before any store call, and otherwise the stored message is pushed.
     */
    method OnExpired(name: string)
      requires Valid() && subscribed
      modifies this`events, this`dispatched, this`pending, redis
      ensures Valid()
      ensures redis.State() == HandleExpired(old(redis.State()), scheme, name)
      ensures ExpiredMessage(old(redis.State()), scheme, name).None? ==>
        events == old(events) && dispatched == old(dispatched) && pending == old(pending)
      ensures ExpiredMessage(old(redis.State()), scheme, name).Some? ==>
        events == old(events) + 1 && dispatched == old(dispatched) + [name] && pending == old(pending) - {name}
    {
      if !IsUuid(name) {
        return;
      }
      var m := GetMessage(name);
      if m.None? {
        return;
      }
      Push(m.value);
    }

    /**
     * `recover`: scan the payload keys the server listed, in order, pushing the message of every key
     * whose id parses and whose timer key is gone. A push of a missing payload rejects the scan
     * (`completed` is false) and the remaining keys are left alone.
     */
    method Recover(keys: seq<string>) returns (completed: bool)
      requires Valid()
      modifies this`events, this`dispatched, this`pending, redis
      ensures Valid()
      ensures var run := Recovered(old(redis.State()), scheme, keys, Intended);
              && redis.State() == run.store && completed == run.completed
              && dispatched == old(dispatched) + Ids(run.dispatched)
              && pending == old(pending) - IdSet(run.dispatched)
      ensures completed ==> NoLapsedPayload(old(redis.State()), redis.State(), scheme, keys, Intended)
      ensures forall m | m in Recovered(old(redis.State()), scheme, keys, Intended).dispatched ::
                m.id !in old(redis.State()).strings
    {
      ghost var r0 := redis.State();
      IntendedRecoverSkipsLiveTimers(r0, scheme, keys);
      ghost var done: seq<Msg> := [];
      completed := true;
      var i := 0;
      while i < |keys|
        invariant i <= |keys|
        invariant Valid()
        invariant Recovered(r0, scheme, keys, Intended) == Recovered(redis.State(), scheme, keys[i..], Intended).After(done)
        invariant dispatched == old(dispatched) + Ids(done)
        invariant pending == old(pending) - IdSet(done)
        decreases |keys| - i
      {
        RecoverAdvance(r0, redis.State(), scheme, keys, i, done, Intended);
        var ok, pushed := RecoverKey(keys[i]);
        if !ok {
          completed := false;
          return;
        }
        if pushed.Some? {
          IdsSnoc(old(dispatched), old(pending), done, pushed.value);
          done := done + [pushed.value];
        }
        i := i + 1;
      }
      assert keys[i..] == [];
      RecoverLeavesNoLapsedPayload(r0, scheme, keys, Intended);
    }

    /**
     * One pass of `recover`'s loop body for `key`: when the id parses and its timer key is gone,
     * push the stored message; `ok` is false when there is none and the push rejects.
     */
    method RecoverKey(key: string) returns (ok: bool, ghost pushed: Option<Msg>)
      requires Valid()
      modifies this`events, this`dispatched, this`pending, redis
      ensures Valid()
      ensures var target := RecoverTarget(old(redis.State()), scheme, key, Intended);
              && (target.None? ==> ok && pushed.None?)
              && (target.Some? ==>
                    pushed == Delivery.GetMessage(old(redis.State()), scheme, target.value) && ok == pushed.Some?)
      ensures pushed.None? ==>
        redis.State() == old(redis.State()) && dispatched == old(dispatched) && pending == old(pending)
      ensures pushed.Some? ==>
        && redis.State() == Dispatch(old(redis.State()), scheme, pushed.value)
        && dispatched == old(dispatched) + [pushed.value.id] && pending == old(pending) - {pushed.value.id}
    {
      ok, pushed := true, None;
      var id := ParseId(scheme, key);
      if id.Some? && redis.Get(id.value).None? {
        var m := GetMessage(id.value);
        if m.None? {
          ok := false;
          return;
        }
        Push(m.value);
        pushed := m;
      }
    }

    /**
     * `consume`: the handle cached for `topic`, created with this call's `timeout` only when there is
     * none; a later call keeps the first call's timeout.
     */
    method Consume(topic: string, timeout: nat) returns (h: Handle)
      requires Valid()
      modifies this`iterators
      ensures Valid()
      ensures (iterators, h) == GetOrInsert(old(iterators), topic, Handle(topic, timeout))
      ensures h.topic == topic
    {
      if topic !in iterators {
        iterators := iterators[topic := Handle(topic, timeout)];
      }
      h := iterators[topic];
    }

    /**
     * `next`: open the topic's connection on first use, then pop the head of the topic list, or
     * nothing when it is empty.
     */
    method Next(topic: string, timeout: nat) returns (m: Option<Msg>)
      requires Valid()
      modifies this`topicClients, this`connections, redis
      ensures Valid()
      ensures (m, redis.State()) == old(redis.State()).LPop(topic)
      ensures topicClients == GetOrInsert(old(topicClients), topic, old(connections)).0
      ensures connections == if topic in old(topicClients) then old(connections) else old(connections) + 1
    {
      RegisterKeepsClientsDistinct(topicClients, connections, topic);
      if topic !in topicClients {
        topicClients := topicClients[topic := connections];
        connections := connections + 1;
      }
      m := redis.LPop(topic);
      TrackedIgnoresLists(old(redis.State()), redis.State(), scheme, pending, dispatched);
    }

    /** The handle's `next`: done exactly when `next` finds nothing. */
    method Pull(h: Handle) returns (step: Step)
      requires Valid()
      modifies this`topicClients, this`connections, redis
      ensures Valid()
      ensures step.done <==> step.value.None?
      ensures (step.value, redis.State()) == old(redis.State()).LPop(h.topic)
      ensures topicClients == GetOrInsert(old(topicClients), h.topic, old(connections)).0
      ensures connections == if h.topic in old(topicClients) then old(connections) else old(connections) + 1
    {
      var value := Next(h.topic, h.timeout);
      if value.None? {
        step := Step(true, None);
      } else {
        step := Step(false, value);
      }
    }

    /** `on('message', action)`: register one more listener. */
    method On()
      modifies this`listeners
      ensures listeners == old(listeners) + 1
      ensures old(Valid()) ==> Valid()
    {
      listeners := listeners + 1;
    }
  }
}
