# rester-queue: delayed delivery over Redis, modelled in Dafny

rester-queue is a delayed message queue built on Redis. A producer hands it a message made of a topic, a body and an optional delay.

- A message without a positive delay is **pushed** at once. Push deletes the message's payload key and appends the whole message to the tail of the Redis list named after its topic.
- A delayed message gets two keys:
  - an empty **timer key**, named by the message's UUID, which expires after the delay;
  - a **payload key**, holding the message.
- When Redis reports that a timer key expired, the **expired-key handler** reads the payload and pushes it.
- At startup, **recover** lists the payload keys and pushes those whose timer is gone.
- Consumers call **next**, which pops the head of a topic list. **consume** wraps next in one cached iterator per topic.

There are two variants of the same logic:

- `Queue` (src/core/queue.ts) runs against a single Redis server. Its payload keys are `"data-" + id`.
- `ResterBroker` (src/core/broker.ts) runs against a Redis Cluster. Its payload keys are `id + DATA_SUFFIX`, and recovery lists keys on every master node.

The project has these modules:

- `Messages`: the message record.
- `KeyNaming`: src/broker/utils.ts. It covers
  - `getDataKey` and `parseID`, over a key scheme that adds a prefix or a suffix;
  - the uuid package's `validate`;
  - the first segment of `split`.
- `Redis`: the part of Redis the queue uses.
  - The value `Keyspace` holds string keys with absolute deadlines, and lists.
  - The class `Store` performs the same operations in place.
- `Registry`: the per-topic caches (`iterators`, `topicRedises`).
- `Delivery`: produce, push, the expired-key handler and recovery, as functions of the keyspace. It also holds the invariant a queue keeps and the lemmas about them.
- `SingleNode`: the class `Queue`.
- `ClusterBroker`: the class `ResterBroker`.

The classes update a `Store` in place. Each method is proved to leave the store in the state the `Delivery` function describes. Each method also keeps the invariant `Delivery.Tracked`:

- the payload of every pending delayed message stays stored;
- a pushed id has no payload key left;
- no id is pushed twice;
- one `message` event is emitted per push.

Time is a parameter `now`. Redis's expiry is an explicit `Expire(now)` step that removes the due keys and reports their names. As in Redis, a key is due once the time is strictly past its deadline. The handler is then run for each reported name.

## Model

| member | source | states |
|---|---|---|
| KeyNaming.IsUuid | src/broker/utils.ts:20 | the uuid package's `validate`, written out; `KeyNaming.UuidAlphabet` and `KeyNaming.DataKeyIsNotUuid` characterise it |
| KeyNaming.DataKey | src/broker/utils.ts:10 | `getDataKey` for a prefix or a suffix scheme; characterised by `KeyNaming.DataKeyInjective` and the round-trip lemmas below |
| KeyNaming.DataKeyInjective | src/broker/utils.ts:10 | `getDataKey` is the id with the affix attached: two ids have the same payload key exactly when they are equal, and the key is the affix's length longer than the id |
| KeyNaming.DataKeyIsNotUuid | src/broker/utils.ts:10 | the payload key of a UUID is never itself a UUID, so it can never be mistaken for a timer key |
| KeyNaming.FirstSegment | src/broker/utils.ts:19 | `key.split(sep)[0]`: a prefix of the key with no occurrence of `sep` before its end; `sep` occurs right after it; it is the whole key when `sep` does not occur |
| KeyNaming.ParseId | src/broker/utils.ts:18-21 | `parseID` returns only valid UUIDs; for the suffix scheme the result is the text before the first suffix; for the prefix scheme the key is the payload key of the result |
| KeyNaming.SuffixRoundTrip | src/broker/utils.ts:10-21 | when no occurrence of the suffix starts inside the id, splitting `id + suffix` gives back `id`; parsing gives `id` exactly when it is a UUID |
| KeyNaming.SuffixRoundTripForUuid | src/broker/utils.ts:10-21 | `parseID(getDataKey(id)) == id` for every UUID, whenever the suffix starts with a character no UUID contains |
| KeyNaming.ParseWithoutSuffix | src/broker/utils.ts:19-20 | a key with no suffix in it parses to the whole key if that is a UUID, else to nothing |
| KeyNaming.ParseBeforeFirstSuffix | src/broker/utils.ts:19-20 | a key whose first suffix starts at `i` parses to `key[..i]` if that is a UUID, and to nothing otherwise, the empty segment included |
| KeyNaming.ParsedKeyShape | src/broker/utils.ts:19-20 | a key that parses to `id` is either `id` itself or starts with `getDataKey(id)` |
| KeyNaming.PrefixRoundTrip | src/core/queue.ts:47-49 | for the `data-` prefix scheme, parsing the payload key of `id` gives `id` exactly when `id` is a UUID |
| Redis.PushThenPop | src/core/queue.ts:134-140 | popping after a push returns the old head of the list; if the list was empty, it returns the pushed message |
| Redis.PushPushPopPop | src/core/queue.ts:62-69 | two messages pushed to an empty list are popped in the order they were pushed, leaving it empty |
| Registry.GetOrInsert | src/core/queue.ts:111-124 | the cache gains only `key`, keeps every old entry, and returns the old entry for a known key or the newly created one |
| Registry.GetOrInsertIdempotent | src/core/queue.ts:110-125 | a second lookup of the same key returns what the first returned and changes nothing, whatever it would create |
| Registry.RegisterKeepsClientsDistinct | src/core/queue.ts:135-137 | caching a client under the next connection number keeps clients distinct; a new connection is opened exactly for a key not seen before |
| Delivery.GetMessage | src/core/queue.ts:77-81 | `getMessage(id)` returns a message exactly when the payload key of `id` holds one, and returns that message |
| Delivery.Dispatch | src/core/queue.ts:62-69 | push removes exactly the payload key of the message and appends the message, `delay` included, to the tail of its own topic; other lists are unchanged |
| Delivery.Scheduled | src/core/queue.ts:91-96 | a delayed produce sets the timer key to `""` with deadline `at` and the payload key to the message; no other string key and no list changes |
| Delivery.Produced | src/core/queue.ts:89-101 | `produce`: `Scheduled` at `now + delay` for a positive numeric delay, `Dispatch` otherwise; characterised by `Delivery.DelayedDelivery`, `Delivery.ImmediateMessagesInOrder` and `Delivery.TrackedProduce` |
| Delivery.ExpiredMessage | src/core/queue.ts:36-40 | the handler pushes something only for a UUID name whose payload key holds a message, and then pushes that message |
| Delivery.HandleExpired | src/core/queue.ts:36-40 | a name that is not a UUID changes nothing; a missing payload changes nothing (`push(undefined)` rejects first); otherwise the stored message is pushed |
| Delivery.TimerGone | src/core/queue.ts:50 | the timer test of recovery: `AsWritten` is the code's falsy reply, `Intended` is the corrected "timer key absent" of the finding below |
| Delivery.RecoverTarget | src/core/queue.ts:49-50 | the id a listed key leads to: its parse, when the timer of that id counts as gone |
| Delivery.Recovered | src/core/queue.ts:46-55 | `recover` as a scan over the listed keys, stopping at a rejected push; characterised by the `Recover…` lemmas below in both directions |
| Delivery.RecoverSplits | src/core/queue.ts:48-54 | scanning `keys + more` is scanning `keys` and then, unless that was rejected, `more` from where it stopped; after a rejection no later key is visited |
| Delivery.RecoverShrinks | src/core/queue.ts:46-55 | recovery only deletes string keys, values and deadlines of the rest are unchanged, and no pushed message's payload key is left |
| Delivery.RecoverAppends | src/core/queue.ts:46-55 | after recovery each topic list is the old list followed by the pushed messages of that topic, in push order |
| Delivery.RecoverPushesStoredPayloads | src/core/queue.ts:49-52 | every message recovery pushes has a UUID id and was stored under that id's payload key |
| Delivery.RecoverPushesListedTargets | src/core/queue.ts:48-52 | every pushed message's id is what `parseID` makes of a listed key, and that id's timer counted as gone before the scan; the converse of `Delivery.RecoverCompleteness` |
| Delivery.RecoverDeletesOnlyPushedPayloads | src/core/queue.ts:46-55 | the string keys after recovery are the old ones minus exactly the payload keys of the pushed messages; no timer key and no unlisted payload goes |
| Delivery.RecoverPushesOnce | src/core/queue.ts:48-54 | recovery pushes each id at most once |
| Delivery.RecoverCompleteness | src/core/queue.ts:48-54 | a scan that runs to the end leaves no payload key for any listed key whose id parses and whose timer counted as gone |
| Delivery.RecoverLeavesNoLapsedPayload | src/core/queue.ts:46-55 | the same for every listed key at once |
| Delivery.RecoverCompletes | src/core/queue.ts:48-54 | a scan runs to the end (no `push(undefined)` rejects it) when no two listed keys parse to the same id and every parsed id has a stored message, as holds when produce is the only writer |
| Delivery.RecoverDeliversEveryLapsedPayload | src/core/queue.ts:46-55 | under those same conditions and with no completion hypothesis, recovery delivers every listed message whose timer counted as gone, leaving no payload key for it |
| KeyNaming.PrefixParseInjective | src/core/queue.ts:47-49 | under the `data-` prefix scheme two keys that parse to the same id are the same key, so the distinct keys `KEYS` returns meet the distinctness condition of `Delivery.RecoverCompletes` |
| Delivery.RecoverAdvance | src/core/queue.ts:48-54 | one step of the recovery loop: a key is skipped, rejects the scan, or pushes its message and extends what was pushed |
| Delivery.SecondExpiryPushesNothing | src/core/queue.ts:36-40 | handling the same expired name twice has the effect of handling it once |
| Delivery.ListenerAndRecoveryDeliverOnce | src/core/queue.ts:36-55 | after the handler has run for a name, recovery pushes no message with that id; after recovery, the handler pushes nothing for an id recovery pushed |
| Delivery.LiveTimerRecoveredAsWritten | src/core/queue.ts:50 | as written, recovering right after a delayed produce pushes the message even though its timer key exists and is not due |
| Delivery.IntendedRecoverSkipsLiveTimers | src/core/queue.ts:50 | with the intended test, recovery never pushes a message whose timer key is still in the keyspace |
| Delivery.DelayedDelivery | src/core/queue.ts:89-101 | a delayed produce leaves every list unchanged; the timer is due exactly when the time is past `now + delay`; the handler then appends the message to its topic |
| Delivery.ImmediateMessagesInOrder | src/core/queue.ts:89-101 | two immediate messages on an empty topic are popped in the order they were produced |
| Delivery.StoredMessageNotDispatched | src/core/queue.ts:77-81 | under the invariant, a message found for `id` has id `id`, and `id` was never pushed |
| Delivery.TrackedDispatch | src/core/queue.ts:62-69 | pushing a message not pushed before keeps the invariant; its id moves from pending to pushed |
| Delivery.TrackedSchedule | src/core/queue.ts:91-96 | scheduling under an unused UUID keeps the invariant and makes the message pending |
| Delivery.TrackedProduce | src/core/queue.ts:89-101 | producing under an unused UUID keeps the invariant, in both branches |
| Delivery.TrackedExpire | src/core/queue.ts:95 | expiry keeps the invariant: pending payloads carry no deadline, so none is lost |
| Delivery.TrackedIgnoresLists | src/core/queue.ts:138 | popping from a list keeps the invariant |
| SingleNode.Queue.constructor | src/core/queue.ts:23-28 | a queue on a given keyspace, with two connections open, no listeners, no handles and nothing pending |
| SingleNode.Queue.Init | src/core/queue.ts:33-41 | the subscription is in place; nothing else changes |
| SingleNode.Queue.GetMessage | src/core/queue.ts:77-81 | the message stored for `id`; it always carries `id` and was never pushed |
| SingleNode.Queue.Push | src/core/queue.ts:62-69 | the store becomes `Dispatch` of the old one, one event is emitted, the id moves from pending to pushed, and the invariant is kept |
| SingleNode.Queue.Schedule | src/core/queue.ts:92-96 | the store becomes `Scheduled` of the old one and the message becomes pending |
| SingleNode.Queue.Produce | src/core/queue.ts:89-101 | returns the id it stored or pushed; delayed messages become pending, and the others are pushed with one event |
| SingleNode.Queue.Expire | src/core/queue.ts:95 | the due keys go and are reported; every pending message can still be read back afterwards |
| SingleNode.Queue.OnExpired | src/core/queue.ts:36-40 | the store becomes `HandleExpired` of the old one; there is an event and a push exactly when the handler finds a message |
| SingleNode.Queue.Recover | src/core/queue.ts:46-55 | the store, the pushed ids and the completion flag are those of the recovery scan with the corrected timer test; a completed scan leaves no lapsed payload; no pushed message had a live timer key |
| SingleNode.Queue.RecoverKey | src/core/queue.ts:49-53 | one loop step with the corrected timer test: it pushes the stored message exactly when the key has a target, and rejects when the target has none |
| SingleNode.Queue.Consume | src/core/queue.ts:110-125 | returns the handle cached for the topic, created with this call's timeout only on first use |
| SingleNode.Queue.Next | src/core/queue.ts:134-140 | pops the head of the topic list, or returns nothing and leaves the store as it was; opens a connection only on a topic's first use |
| SingleNode.Queue.Pull | src/core/queue.ts:114-120 | reports `done` exactly when `next` finds nothing, and otherwise returns the popped message; a connection is opened only on the topic's first use |
| SingleNode.Queue.On | src/core/queue.ts:148-150 | one more listener is registered and the invariant is kept |
| ClusterBroker.Flatten | src/core/broker.ts:73-75 | the keys of all node listings, in node order; a key is listed exactly when some node lists it |
| ClusterBroker.FlattenAppend | src/core/broker.ts:75 | flattening keeps node order: the keys of earlier nodes come first |
| ClusterBroker.RecoverNodeByNode | src/core/broker.ts:73-82 | scanning the flattened listings is scanning node by node, stopping at the first rejection |
| ClusterBroker.ResterBroker.constructor | src/core/broker.ts:27-37 | a broker with exactly two clients, "default-redis-client" as 0 and "event-redis-client" as 1, no handles and nothing pending |
| ClusterBroker.ResterBroker.Create | src/core/broker.ts:45-52 | returns the client registered under the name; only an unknown name registers exactly one new client |
| ClusterBroker.ResterBroker.Init | src/core/broker.ts:57-67 | every master node is subscribed, in order |
| ClusterBroker.ResterBroker.GetMessage | src/core/broker.ts:102-106 | the message stored for `id`; it always carries `id` and was never pushed |
| ClusterBroker.ResterBroker.Push | src/core/broker.ts:90-94 | delete, then append, then one event; the store becomes `Dispatch` of the old one |
| ClusterBroker.ResterBroker.Schedule | src/core/broker.ts:116-119 | timer key, payload key, then deadline; the store becomes `Scheduled` of the old one |
| ClusterBroker.ResterBroker.Produce | src/core/broker.ts:114-124 | returns the id it stored or pushed; delayed messages become pending, and the others are pushed with one event |
| ClusterBroker.ResterBroker.Expire | src/core/broker.ts:119 | the due keys go and are reported; every pending message can still be read back afterwards |
| ClusterBroker.ResterBroker.OnExpired | src/core/broker.ts:61-65 | the handler of a subscribed master: the store becomes `HandleExpired` of the old one, with an event exactly when a message is pushed |
| ClusterBroker.ResterBroker.OnReady | src/core/broker.ts:32-35 | records the master nodes, then recovers from their listings with the corrected timer test |
| ClusterBroker.ResterBroker.Recover | src/core/broker.ts:72-83 | the recovery scan over the flattened listings, with the corrected timer test; a completed scan leaves no lapsed payload; no pushed message had a live timer key |
| ClusterBroker.ResterBroker.RecoverKey | src/core/broker.ts:77-81 | one loop step with the corrected timer test: it pushes the stored message exactly when the key has a target, and rejects when the target has none |
| ClusterBroker.ResterBroker.Consume | src/core/broker.ts:133-148 | returns the handle cached for the topic, created with this call's timeout only on first use |
| ClusterBroker.ResterBroker.Next | src/core/broker.ts:157-163 | pops the head of the topic list or returns nothing; the client map is shared with `create`, so the topic "default-redis-client" pops through client 0 and opens nothing |
| ClusterBroker.ResterBroker.Pull | src/core/broker.ts:137-143 | reports `done` exactly when `next` finds nothing, and otherwise returns the popped message; a client is created only on the topic's first use |
| ClusterBroker.ResterBroker.On | src/core/broker.ts:171-173 | one more listener is registered |

## Left out

- Redis and ioredis I/O. Commands are calls on one abstract store, and connections are numbers. These calls are not modelled:
  - `config SET notify-keyspace-events`;
  - `subscribe`, and the `db` in the channel name;
  - `Cluster.nodes()`. Master nodes are parameters.
  - `KEYS`. Its reply is a parameter, in the order given.
- Concurrency:
  - The constructor of `Queue` starts `init` and `recover` without waiting; here they are separate methods, and their race with each other and with expiries is not modelled.
  - The broker's two `ready` handlers are the methods `OnReady` and `Init`; their relative order is not modelled.
  - Every method and handler is one sequential step. The intermediate states between broker.ts's separate awaits are not modelled (between `del` and `rpush` in push, and between the three writes of a delayed produce). Neither is the atomicity of queue.ts's `multi`.
- Blocking: `blpop` on an empty list returns nothing at once. The timeout is kept only in the handle, as consume's integer milliseconds; the conversion `timeout / 1000` to seconds and the wait itself are not modelled.
- Real time: `Date.now()` is the parameter `now`. Delays and deadlines are integer milliseconds, not JavaScript floats.
- UUID generation: `uuid()` is the parameter `id`. Its precondition (`Unused`) says it is a valid UUID with no keys and no earlier push.
- UUID validation: `validate` is written out as the uuid package's pattern, which accepts:
  - 8-4-4-4-12 hexadecimal digits in either case;
  - version digit 1 to 5;
  - variant digit 8, 9, a or b;
  - or the nil UUID.
- JSON codec:
  - Stored values are messages or text, not JSON strings.
  - A payload value that is non-empty but not a serialised message reads here as "no message". The code would hand the parsed fallback to push.
- Bodies are text.
- The value of `DATA_SUFFIX`: src/broker/constants.ts is not part of this model. The broker takes the suffix as a constructor parameter, required to be non-empty.
- The utils module that queue.ts imports is not part of this model. Its prefix scheme `"data-" + id` is inferred from the pattern `data-*` of the startup scan.
- Key types: string keys and list keys live in separate maps, so a topic named like a string key does not collide with it. Redis would answer WRONGTYPE.
- Events: the EventEmitter becomes a count of emitted `message` events and a count of registered listeners. The listeners' actions are not modelled.
- The unhandled rejection of `push(undefined)` in the handler is modelled as "nothing changes"; the rejection itself is not modelled.
- SingleNode.Queue.constructor: requires that every payload key already in the store holds the message of its own id (`PayloadsMatch`), as it does when payload keys are written only by produce. The source connects to any content. With an outside writer, two payload keys may hold the same message: recovery then pushes it twice and leaves the second key behind. `Delivery.RecoverPushesOnce`, `Delivery.RecoverCompleteness`, `Delivery.RecoverLeavesNoLapsedPayload`, `Delivery.RecoverCompletes`, `Delivery.RecoverDeliversEveryLapsedPayload`, `Delivery.RecoverPushesStoredPayloads`, `Delivery.RecoverPushesListedTargets`, `Delivery.IntendedRecoverSkipsLiveTimers`, `Delivery.SecondExpiryPushesNothing` and `Delivery.ListenerAndRecoveryDeliverOnce` rest on this assumption and do not cover that case.
- ClusterBroker.ResterBroker.constructor: the same assumption on the initial store, with the same consequences.
- SingleNode.Queue.Push: requires an id that is a UUID and was never pushed, which the source does not check. Its three callers guarantee it, given the constructor's assumption above: produce uses a fresh id, and the handler and recovery use a stored payload's own id. The requirement only serves the ghost invariant.
- ClusterBroker.ResterBroker.Push: the same requirement, for the same reason.
- SingleNode.Queue.Recover: uses the corrected timer test of the finding below ("timer key absent") instead of the truthiness test the code performs. The code's behaviour is `Delivery.Recovered` with `TimerTest.AsWritten`.
- ClusterBroker.ResterBroker.Recover: the same correction.
- SingleNode.Queue.RecoverKey: tests `get(id)` for absence (the corrected test) rather than for a falsy reply as src/core/queue.ts:50 does.
- ClusterBroker.ResterBroker.RecoverKey: the same correction of src/core/broker.ts:78.
- ClusterBroker.ResterBroker.OnReady: recovers through `ClusterBroker.ResterBroker.Recover`, so it runs the corrected test.
- ClusterBroker.ResterBroker.Next: pops normally for the topic "event-redis-client". In the source that topic reuses the event client, whose master connections `init` put into subscriber mode, and a subscribed connection rejects BLPOP; that rejection is not modelled.
- SingleNode.Queue.OnExpired: requires the subscription to be in place, since the handler exists only after `init`.
- ClusterBroker.ResterBroker.Recover: requires one key listing per recorded master node, as the code produces them.

## Findings

| source | as written | input that shows it | evidently intended | confidence | as-written member | corrected member |
|---|---|---|---|---|---|---|
| src/core/queue.ts:50 (also src/core/broker.ts:78) | `!await this.redis.get(id)` treats the timer as gone when its value is falsy, but produce writes the timer value `''` (src/core/queue.ts:93), which is falsy | produce a message with delay 60000 at time t, then run recover at t + 1: `get(id)` returns `''` and the message is pushed about 59 seconds early | recover skips an id while its timer key exists, that is, when `get(id)` is not null | not executed; high | Delivery.LiveTimerRecoveredAsWritten | Delivery.IntendedRecoverSkipsLiveTimers |
