/**
 * The delivery logic that src/core/queue.ts and src/core/broker.ts both implement, as functions of
 * the Redis keyspace: producing, pushing (dispatch), the expired-key handler and the recovery scan.
 * The classes of SingleNode and ClusterBroker perform the same steps as store calls and are proved
 * to end in the states these functions describe.
 */
module Delivery {
  import opened Messages
  import opened KeyNaming
  import opened Redis

  /**
   * `getMessage(id)`: the message under the payload key of `id`. A missing key and the empty value
   * are falsy and give nothing.
   */
  function GetMessage(r: Keyspace, scheme: KeyScheme, id: string): (m: Option<Msg>)
    ensures m.Some? <==> DataKey(scheme, id) in r.strings && r.strings[DataKey(scheme, id)].Encoded?
    ensures m.Some? ==> r.strings[DataKey(scheme, id)] == Encoded(m.value)
  {
    match r.Get(DataKey(scheme, id))
    case Some(Encoded(m)) => Some(m)
    case _ => None
  }

  /**
   * `push(message)`: delete the payload key of the message's id and append the whole message, its
   * `delay` included, to the tail of its topic list. Nothing else changes.
   */
  function Dispatch(r: Keyspace, scheme: KeyScheme, m: Msg): (r': Keyspace)
    ensures r'.strings == r.strings - {DataKey(scheme, m.id)}
    ensures r'.deadline == r.deadline - {DataKey(scheme, m.id)}
    ensures r'.List(m.topic) == r.List(m.topic) + [m]
    ensures forall t | t != m.topic :: r'.List(t) == r.List(t)
  {
    r.Del(DataKey(scheme, m.id)).RPush(m.topic, m)
  }

  /**
   * The writes of a delayed `produce`: an empty timer key `m.id` expiring at `at` and a payload key
   * holding the message. No other string key and no topic list changes.
   */
  function Scheduled(r: Keyspace, scheme: KeyScheme, m: Msg, at: int): (r': Keyspace)
    requires scheme.Valid()
    ensures r'.Get(m.id) == Some(Text(""))
    ensures r'.Get(DataKey(scheme, m.id)) == Some(Encoded(m))
    ensures r'.deadline == (r.deadline - {DataKey(scheme, m.id)})[m.id := at]
    ensures forall k | k != m.id && k != DataKey(scheme, m.id) :: r'.Get(k) == r.Get(k)
    ensures r'.lists == r.lists
  {
    DataKeyInjective(scheme, m.id, m.id);
    r.Set(m.id, Text("")).Set(DataKey(scheme, m.id), Encoded(m)).PExpireAt(m.id, at)
  }

  /** `produce`: a message with a positive delay is scheduled for `now + delay`, any other is pushed. */
  function Produced(r: Keyspace, scheme: KeyScheme, id: string, topic: string, body: Body,
                    delay: Option<int>, now: int): Keyspace
    requires scheme.Valid()
  {
    var m := Msg(id, topic, body, delay);
    if IsDelayed(delay) then Scheduled(r, scheme, m, now + delay.value) else Dispatch(r, scheme, m)
  }

  /**
   * The message the expired-key handler pushes for an expired key `name`: nothing unless the name
   * is a UUID whose payload is stored (a missing payload makes `push(undefined)` throw before any
   * store call).
   */
  function ExpiredMessage(r: Keyspace, scheme: KeyScheme, name: string): (m: Option<Msg>)
    ensures m.Some? ==> IsUuid(name) && r.Get(DataKey(scheme, name)) == Some(Encoded(m.value))
    ensures IsUuid(name) ==> m == GetMessage(r, scheme, name)
  {
    if IsUuid(name) then GetMessage(r, scheme, name) else None
  }

  /** The keyspace after the expired-key handler has run for `name`. */
  function HandleExpired(r: Keyspace, scheme: KeyScheme, name: string): (r': Keyspace)
    ensures !IsUuid(name) ==> r' == r
    ensures GetMessage(r, scheme, name).None? ==> r' == r
    ensures ExpiredMessage(r, scheme, name).Some? ==>
      r' == Dispatch(r, scheme, ExpiredMessage(r, scheme, name).value)
  {
    match ExpiredMessage(r, scheme, name)
    case None => r
    case Some(m) => Dispatch(r, scheme, m)
  }

  /**
   * How recovery decides that the timer of an id is gone. `AsWritten` is the code's `!await
   * get(id)`, a truthiness test under which the empty timer value reads as gone; `Intended` asks
   * whether the timer key exists at all.
   */
  datatype TimerTest = AsWritten | Intended

  predicate TimerGone(test: TimerTest, reply: Option<Value>) {
    match test
    case AsWritten => !Truthy(reply)
    case Intended => reply.None?
  }

  /** The id recovery dispatches for a listed key: one that parses and whose timer counts as gone. */
  function RecoverTarget(r: Keyspace, scheme: KeyScheme, key: string, test: TimerTest): Option<string>
    requires scheme.Valid()
  {
    match ParseId(scheme, key)
    case None => None
    case Some(id) => if TimerGone(test, r.Get(id)) then Some(id) else None
  }

  /**
   * The outcome of a recovery scan: the final keyspace, the messages pushed in order, and whether
   * the scan ran to the end (false: a `push(undefined)` rejected it and later keys were skipped).
   */
  datatype Run = Run(store: Keyspace, dispatched: seq<Msg>, completed: bool) {
    function After(earlier: seq<Msg>): Run {
      Run(store, earlier + dispatched, completed)
    }
  }

  /** `recover`: visit the listed keys in order and push each target's payload. */
  function Recovered(r: Keyspace, scheme: KeyScheme, keys: seq<string>, test: TimerTest): Run
    requires scheme.Valid()
    decreases |keys|
  {
    if keys == [] then Run(r, [], true)
    else match RecoverTarget(r, scheme, keys[0], test)
      case None => Recovered(r, scheme, keys[1..], test)
      case Some(id) =>
        match GetMessage(r, scheme, id)
        case None => Run(r, [], false)
        case Some(m) => Recovered(Dispatch(r, scheme, m), scheme, keys[1..], test).After([m])
  }

  /** The ids of `ms`, in order. */
  function Ids(ms: seq<Msg>): seq<string> {
    seq(|ms|, i requires 0 <= i < |ms| => ms[i].id)
  }

  /** The ids of `ms`, as a set. */
  function IdSet(ms: seq<Msg>): set<string> {
    set m | m in ms :: m.id
  }

  lemma IdsSnoc(prior: seq<string>, pending: map<string, Msg>, done: seq<Msg>, m: Msg)
    ensures prior + Ids(done) + [m.id] == prior + Ids(done + [m])
    ensures pending - IdSet(done) - {m.id} == pending - IdSet(done + [m])
  {
  }

  /**
   * How a loop over `keys` follows the scan: if the scan of `keys` from `r0` is the scan of what is
   * left from the current keyspace `r`, after the messages `done`, then one more key either is
   * skipped, rejects the scan, or pushes its message and extends `done`.
   */
  lemma RecoverAdvance(r0: Keyspace, r: Keyspace, scheme: KeyScheme, keys: seq<string>, i: nat,
                       done: seq<Msg>, test: TimerTest)
    requires scheme.Valid() && i < |keys|
    requires Recovered(r0, scheme, keys, test) == Recovered(r, scheme, keys[i..], test).After(done)
    ensures var target := RecoverTarget(r, scheme, keys[i], test);
            && (target.None? ==>
                  Recovered(r0, scheme, keys, test) == Recovered(r, scheme, keys[i + 1..], test).After(done))
            && (target.Some? && GetMessage(r, scheme, target.value).None? ==>
                  Recovered(r0, scheme, keys, test) == Run(r, done, false))
            && (target.Some? && GetMessage(r, scheme, target.value).Some? ==>
                  var m := GetMessage(r, scheme, target.value).value;
                  Recovered(r0, scheme, keys, test) ==
                    Recovered(Dispatch(r, scheme, m), scheme, keys[i + 1..], test).After(done + [m]))
  {
  }

  /** The messages of `ms` on topic `t`, in order. */
  function OnTopic(ms: seq<Msg>, t: string): (r: seq<Msg>)
    ensures forall m | m in r :: m in ms && m.topic == t
  {
    if ms == [] then []
    else (if ms[0].topic == t then [ms[0]] else []) + OnTopic(ms[1..], t)
  }

  /** Every payload key holds the message with that id, as `produce` writes it. */
  ghost predicate PayloadsMatch(r: Keyspace, scheme: KeyScheme) {
    forall id {:trigger DataKey(scheme, id)} ::
      DataKey(scheme, id) in r.strings && r.strings[DataKey(scheme, id)].Encoded? ==>
        r.strings[DataKey(scheme, id)].msg.id == id
  }

  /** `r'` has a subset of the string keys of `r`, with the same values and deadlines. */
  ghost predicate Shrunk(r: Keyspace, r': Keyspace) {
    && r'.strings.Keys <= r.strings.Keys
    && (forall k | k in r'.strings :: r'.strings[k] == r.strings[k])
    && r'.deadline.Keys <= r.deadline.Keys
    && (forall k | k in r'.deadline :: r'.deadline[k] == r.deadline[k])
  }

  lemma ShrunkTransitive(r1: Keyspace, r2: Keyspace, r3: Keyspace)
    requires Shrunk(r1, r2) && Shrunk(r2, r3)
    ensures Shrunk(r1, r3)
  {
  }

  lemma DispatchShrinks(r: Keyspace, scheme: KeyScheme, m: Msg)
    ensures Shrunk(r, Dispatch(r, scheme, m))
    ensures PayloadsMatch(r, scheme) ==> PayloadsMatch(Dispatch(r, scheme, m), scheme)
  {
  }

  /**
   * Scanning `keys + more` is scanning `keys` and then, unless that was rejected, `more` from
   * where it stopped: once a push rejects, the keys after it are never visited.
   */
  lemma {:induction false} RecoverSplits(r: Keyspace, scheme: KeyScheme, keys: seq<string>,
                                         more: seq<string>, test: TimerTest)
    requires scheme.Valid()
    ensures var run := Recovered(r, scheme, keys, test);
            Recovered(r, scheme, keys + more, test) ==
              if run.completed then Recovered(run.store, scheme, more, test).After(run.dispatched) else run
    decreases |keys|
  {
    if keys == [] {
      assert keys + more == more;
      var tail := Recovered(r, scheme, more, test);
      assert [] + tail.dispatched == tail.dispatched;
    } else {
      assert (keys + more)[0] == keys[0];
      assert (keys + more)[1..] == keys[1..] + more;
      match RecoverTarget(r, scheme, keys[0], test)
      case None =>
        RecoverSplits(r, scheme, keys[1..], more, test);
      case Some(id) =>
        match GetMessage(r, scheme, id)
        case None =>
        case Some(m) =>
          var r1 := Dispatch(r, scheme, m);
          RecoverSplits(r1, scheme, keys[1..], more, test);
          var run1 := Recovered(r1, scheme, keys[1..], test);
          if run1.completed {
            var tail := Recovered(run1.store, scheme, more, test);
            assert [m] + (run1.dispatched + tail.dispatched) == ([m] + run1.dispatched) + tail.dispatched;
          }
    }
  }

  /**
   * Recovery only deletes string keys: among them the payload key of every message it pushes.
   */
  lemma {:induction false} RecoverShrinks(r: Keyspace, scheme: KeyScheme, keys: seq<string>, test: TimerTest)
    requires scheme.Valid()
    ensures var run := Recovered(r, scheme, keys, test);
            && Shrunk(r, run.store)
            && (forall m | m in run.dispatched :: DataKey(scheme, m.id) !in run.store.strings)
    decreases |keys|
  {
    if keys != [] {
      match RecoverTarget(r, scheme, keys[0], test)
      case None =>
        RecoverShrinks(r, scheme, keys[1..], test);
      case Some(id) =>
        match GetMessage(r, scheme, id)
        case None =>
        case Some(m) =>
          var r1 := Dispatch(r, scheme, m);
          DispatchShrinks(r, scheme, m);
          RecoverShrinks(r1, scheme, keys[1..], test);
          var run1 := Recovered(r1, scheme, keys[1..], test);
          ShrunkTransitive(r, r1, run1.store);
          assert Recovered(r, scheme, keys, test).dispatched == [m] + run1.dispatched;
    }
  }

  /** One step of the scan: a key whose target has a stored message pushes it and goes on. */
  lemma RecoverStep(r: Keyspace, scheme: KeyScheme, keys: seq<string>, test: TimerTest, m: Msg)
    requires scheme.Valid() && keys != [] && RecoverTarget(r, scheme, keys[0], test).Some?
    requires GetMessage(r, scheme, RecoverTarget(r, scheme, keys[0], test).value) == Some(m)
    ensures Recovered(r, scheme, keys, test) == Recovered(Dispatch(r, scheme, m), scheme, keys[1..], test).After([m])
  {
  }

  /** One step of the scan: a key without a target is skipped. */
  lemma RecoverSkip(r: Keyspace, scheme: KeyScheme, keys: seq<string>, test: TimerTest)
    requires scheme.Valid() && keys != [] && RecoverTarget(r, scheme, keys[0], test).None?
    ensures Recovered(r, scheme, keys, test) == Recovered(r, scheme, keys[1..], test)
  {
  }

  lemma DispatchList(r: Keyspace, scheme: KeyScheme, m: Msg, t: string)
    ensures Dispatch(r, scheme, m).List(t) == r.List(t) + (if m.topic == t then [m] else [])
  {
  }

  /** Recovery appends each pushed message to the tail of its own topic list, in the order pushed. */
  lemma {:induction false} RecoverAppends(r: Keyspace, scheme: KeyScheme, keys: seq<string>, test: TimerTest, t: string)
    requires scheme.Valid()
    ensures var run := Recovered(r, scheme, keys, test);
            run.store.List(t) == r.List(t) + OnTopic(run.dispatched, t)
    decreases |keys|
  {
    if keys != [] {
      var target := RecoverTarget(r, scheme, keys[0], test);
      if target.None? {
        RecoverSkip(r, scheme, keys, test);
        RecoverAppends(r, scheme, keys[1..], test, t);
      } else if GetMessage(r, scheme, target.value).Some? {
        var m := GetMessage(r, scheme, target.value).value;
        var r1 := Dispatch(r, scheme, m);
        RecoverStep(r, scheme, keys, test, m);
        DispatchList(r, scheme, m, t);
        RecoverAppends(r1, scheme, keys[1..], test, t);
        var rest := Recovered(r1, scheme, keys[1..], test).dispatched;
        OnTopicCons(m, rest, t);
        AppendAssociates(r.List(t), if m.topic == t then [m] else [], OnTopic(rest, t));
      }
    }
  }

  /** Regrouping a concatenation; stated apart so that RecoverAppends stays cheap to check. */
  lemma AppendAssociates(a: seq<Msg>, b: seq<Msg>, c: seq<Msg>)
    ensures a + b + c == a + (b + c)
  {
  }

  lemma OnTopicCons(m: Msg, rest: seq<Msg>, t: string)
    ensures OnTopic([m] + rest, t) == (if m.topic == t then [m] else []) + OnTopic(rest, t)
  {
  }

  /**
   * When every payload key holds its own id's message, recovery pushes only messages that were
   * stored under their payload keys.
   */
  lemma {:induction false} RecoverPushesStoredPayloads(r: Keyspace, scheme: KeyScheme,
                                                       keys: seq<string>, test: TimerTest)
    requires scheme.Valid() && PayloadsMatch(r, scheme)
    ensures forall m | m in Recovered(r, scheme, keys, test).dispatched ::
              IsUuid(m.id) && r.Get(DataKey(scheme, m.id)) == Some(Encoded(m))
    decreases |keys|
  {
    if keys != [] {
      var target := RecoverTarget(r, scheme, keys[0], test);
      if target.None? {
        RecoverPushesStoredPayloads(r, scheme, keys[1..], test);
      } else if GetMessage(r, scheme, target.value).Some? {
        var m := GetMessage(r, scheme, target.value).value;
        var r1 := Dispatch(r, scheme, m);
        DispatchShrinks(r, scheme, m);
        RecoverStep(r, scheme, keys, test, m);
        RecoverPushesStoredPayloads(r1, scheme, keys[1..], test);
      }
    }
  }

  /** No two messages of `ms` share an id. */
  predicate DistinctIds(ms: seq<Msg>) {
    forall i, j | 0 <= i < j < |ms| :: ms[i].id != ms[j].id
  }

  /** `id` is what `parseID` makes of some key in `keys`, and its timer counts as gone in `r`. */
  ghost predicate ListedTarget(r: Keyspace, scheme: KeyScheme, keys: seq<string>, test: TimerTest, id: string)
    requires scheme.Valid()
  {
    exists k | k in keys :: ParseId(scheme, k) == Some(id) && TimerGone(test, r.Get(id))
  }

  /**
   * Recovery pushes nothing but targets of listed keys: every pushed message's id is what
   * `parseID` makes of some listed key, and that id's timer counted as gone before the scan.
   */
  lemma {:induction false} RecoverPushesListedTargets(r: Keyspace, scheme: KeyScheme,
                                                      keys: seq<string>, test: TimerTest)
    requires scheme.Valid() && PayloadsMatch(r, scheme)
    ensures forall m | m in Recovered(r, scheme, keys, test).dispatched :: ListedTarget(r, scheme, keys, test, m.id)
    decreases |keys|
  {
    if keys != [] {
      var target := RecoverTarget(r, scheme, keys[0], test);
      if target.None? {
        RecoverSkip(r, scheme, keys, test);
        RecoverPushesListedTargets(r, scheme, keys[1..], test);
        forall m | m in Recovered(r, scheme, keys[1..], test).dispatched
          ensures ListedTarget(r, scheme, keys, test, m.id)
        {
          ListedTargetWidens(r, r, scheme, keys, test, m.id);
        }
      } else if GetMessage(r, scheme, target.value).Some? {
        var m := GetMessage(r, scheme, target.value).value;
        var r1 := Dispatch(r, scheme, m);
        RecoverStep(r, scheme, keys, test, m);
        RecoverPushesListedTargets(r1, scheme, keys[1..], test);
        RecoverPushesStoredPayloads(r1, scheme, keys[1..], test);
        DataKeyIsNotUuid(scheme, m.id);
        assert ListedTarget(r, scheme, keys, test, m.id) by {
          assert keys[0] in keys;
        }
        forall m2 | m2 in Recovered(r1, scheme, keys[1..], test).dispatched
          ensures ListedTarget(r, scheme, keys, test, m2.id)
        {
          assert r1.Get(m2.id) == r.Get(m2.id);
          ListedTargetWidens(r1, r, scheme, keys, test, m2.id);
        }
      }
    }
  }

  /** A target of the keys after the first is a target of all of them, read in a keyspace with the same timer. */
  lemma ListedTargetWidens(r1: Keyspace, r: Keyspace, scheme: KeyScheme, keys: seq<string>, test: TimerTest, id: string)
    requires scheme.Valid() && keys != [] && r1.Get(id) == r.Get(id)
    requires ListedTarget(r1, scheme, keys[1..], test, id)
    ensures ListedTarget(r, scheme, keys, test, id)
  {
  }

  /** Recovery deletes exactly the payload keys of the messages it pushes, and no other key. */
  lemma {:induction false} RecoverDeletesOnlyPushedPayloads(r: Keyspace, scheme: KeyScheme,
                                                            keys: seq<string>, test: TimerTest)
    requires scheme.Valid()
    ensures var run := Recovered(r, scheme, keys, test);
            run.store.strings.Keys == r.strings.Keys - (set m | m in run.dispatched :: DataKey(scheme, m.id))
    decreases |keys|
  {
    if keys != [] {
      var target := RecoverTarget(r, scheme, keys[0], test);
      if target.None? {
        RecoverSkip(r, scheme, keys, test);
        RecoverDeletesOnlyPushedPayloads(r, scheme, keys[1..], test);
      } else if GetMessage(r, scheme, target.value).Some? {
        var m := GetMessage(r, scheme, target.value).value;
        var r1 := Dispatch(r, scheme, m);
        RecoverStep(r, scheme, keys, test, m);
        RecoverDeletesOnlyPushedPayloads(r1, scheme, keys[1..], test);
        var rest := Recovered(r1, scheme, keys[1..], test).dispatched;
        assert (set m2 | m2 in [m] + rest :: DataKey(scheme, m2.id))
            == {DataKey(scheme, m.id)} + (set m2 | m2 in rest :: DataKey(scheme, m2.id));
      }
    }
  }

  /** Under the same condition recovery pushes each id at most once. */
  lemma {:induction false} RecoverPushesOnce(r: Keyspace, scheme: KeyScheme, keys: seq<string>, test: TimerTest)
    requires scheme.Valid() && PayloadsMatch(r, scheme)
    ensures DistinctIds(Recovered(r, scheme, keys, test).dispatched)
    decreases |keys|
  {
    if keys != [] {
      var target := RecoverTarget(r, scheme, keys[0], test);
      if target.None? {
        assert Recovered(r, scheme, keys, test) == Recovered(r, scheme, keys[1..], test);
        RecoverPushesOnce(r, scheme, keys[1..], test);
      } else if GetMessage(r, scheme, target.value).Some? {
        var m := GetMessage(r, scheme, target.value).value;
        var r1 := Dispatch(r, scheme, m);
        DispatchShrinks(r, scheme, m);
        RecoverStep(r, scheme, keys, test, m);
        RecoverPushesOnce(r1, scheme, keys[1..], test);
        RecoverPushesStoredPayloads(r1, scheme, keys[1..], test);
        var rest := Recovered(r1, scheme, keys[1..], test).dispatched;
        forall m2 | m2 in rest
          ensures m2.id != m.id
        {
          assert r1.Get(DataKey(scheme, m2.id)).Some?;
        }
        DistinctIdsCons(m, rest);
      }
    }
  }

  lemma DistinctIdsCons(m: Msg, rest: seq<Msg>)
    requires DistinctIds(rest) && forall m2 | m2 in rest :: m2.id != m.id
    ensures DistinctIds([m] + rest)
  {
  }

  /** Deleting string keys never makes a timer count as present again. */
  lemma TimerGoneAfterShrink(r: Keyspace, r': Keyspace, test: TimerTest, id: string)
    requires Shrunk(r, r') && TimerGone(test, r.Get(id))
    ensures TimerGone(test, r'.Get(id))
  {
  }

  /**
   * Recovery completeness: when a scan runs to the end, every listed key that parses to an id whose
   * timer counts as gone has had its payload pushed, so no payload key of it is left.
   */
  lemma {:induction false} RecoverCompleteness(r: Keyspace, scheme: KeyScheme, keys: seq<string>,
                                               test: TimerTest, key: string)
    requires scheme.Valid() && PayloadsMatch(r, scheme)
    requires Recovered(r, scheme, keys, test).completed
    requires key in keys && ParseId(scheme, key).Some?
    requires TimerGone(test, r.Get(ParseId(scheme, key).value))
    ensures DataKey(scheme, ParseId(scheme, key).value) !in Recovered(r, scheme, keys, test).store.strings
    decreases |keys|
  {
    var id := ParseId(scheme, key).value;
    var run := Recovered(r, scheme, keys, test);
    match RecoverTarget(r, scheme, keys[0], test)
    case None =>
      assert keys[0] != key;
      RecoverCompleteness(r, scheme, keys[1..], test, key);
    case Some(id0) =>
      match GetMessage(r, scheme, id0)
      case None =>
      case Some(m) =>
        var r1 := Dispatch(r, scheme, m);
        DispatchShrinks(r, scheme, m);
        RecoverShrinks(r1, scheme, keys[1..], test);
        if key == keys[0] {
          assert m.id == id;
        } else {
          TimerGoneAfterShrink(r, r1, test, id);
          RecoverCompleteness(r1, scheme, keys[1..], test, key);
        }
  }

  /**
   * No listed key that parses to an id whose timer counted as gone in `r` has a payload key left
   * in `r'`.
   */
  ghost predicate NoLapsedPayload(r: Keyspace, r': Keyspace, scheme: KeyScheme, keys: seq<string>, test: TimerTest)
    requires scheme.Valid()
  {
    forall k | k in keys && ParseId(scheme, k).Some? && TimerGone(test, r.Get(ParseId(scheme, k).value)) ::
      DataKey(scheme, ParseId(scheme, k).value) !in r'.strings
  }

  /** RecoverCompleteness for every listed key at once. */
  lemma RecoverLeavesNoLapsedPayload(r: Keyspace, scheme: KeyScheme, keys: seq<string>, test: TimerTest)
    requires scheme.Valid() && PayloadsMatch(r, scheme)
    ensures var run := Recovered(r, scheme, keys, test);
            run.completed ==> NoLapsedPayload(r, run.store, scheme, keys, test)
  {
    var run := Recovered(r, scheme, keys, test);
    if run.completed {
      forall k | k in keys && ParseId(scheme, k).Some? && TimerGone(test, r.Get(ParseId(scheme, k).value))
        ensures DataKey(scheme, ParseId(scheme, k).value) !in run.store.strings
      {
        RecoverCompleteness(r, scheme, keys, test, k);
      }
    }
  }

  /**
   * A scan in which no two listed keys parse to the same id, and every parsed id has a stored
   * message, runs to the end: no `push(undefined)` rejects it.
   */
  lemma {:induction false} RecoverCompletes(r: Keyspace, scheme: KeyScheme, keys: seq<string>, test: TimerTest)
    requires scheme.Valid() && PayloadsMatch(r, scheme)
    requires forall i, j | 0 <= i < j < |keys| ::
               ParseId(scheme, keys[i]).None? || ParseId(scheme, keys[i]) != ParseId(scheme, keys[j])
    requires forall k | k in keys && ParseId(scheme, k).Some? :: GetMessage(r, scheme, ParseId(scheme, k).value).Some?
    ensures Recovered(r, scheme, keys, test).completed
    decreases |keys|
  {
    if keys != [] {
      var target := RecoverTarget(r, scheme, keys[0], test);
      if target.None? {
        RecoverSkip(r, scheme, keys, test);
        RecoverCompletes(r, scheme, keys[1..], test);
      } else {
        var m := GetMessage(r, scheme, target.value).value;
        var r1 := Dispatch(r, scheme, m);
        RecoverStep(r, scheme, keys, test, m);
        DispatchShrinks(r, scheme, m);
        forall k | k in keys[1..] && ParseId(scheme, k).Some?
          ensures GetMessage(r1, scheme, ParseId(scheme, k).value).Some?
        {
          var j :| 0 <= j < |keys[1..]| && keys[1..][j] == k;
          assert keys[j + 1] == k;
          DataKeyInjective(scheme, ParseId(scheme, k).value, m.id);
        }
        RecoverCompletes(r1, scheme, keys[1..], test);
      }
    }
  }

  /**
   * Recovery over distinct parsing keys whose payloads are all stored leaves no lapsed payload:
   * every listed message whose timer counted as gone is delivered.
   */
  lemma RecoverDeliversEveryLapsedPayload(r: Keyspace, scheme: KeyScheme, keys: seq<string>, test: TimerTest)
    requires scheme.Valid() && PayloadsMatch(r, scheme)
    requires forall i, j | 0 <= i < j < |keys| ::
               ParseId(scheme, keys[i]).None? || ParseId(scheme, keys[i]) != ParseId(scheme, keys[j])
    requires forall k | k in keys && ParseId(scheme, k).Some? :: GetMessage(r, scheme, ParseId(scheme, k).value).Some?
    ensures NoLapsedPayload(r, Recovered(r, scheme, keys, test).store, scheme, keys, test)
  {
    RecoverCompletes(r, scheme, keys, test);
    RecoverLeavesNoLapsedPayload(r, scheme, keys, test);
  }

  /**
   * A second expiry of the same name pushes nothing: the first handling deleted the payload key,
   * so `getMessage` finds nothing the second time.
   */
  lemma SecondExpiryPushesNothing(r: Keyspace, scheme: KeyScheme, name: string)
    requires PayloadsMatch(r, scheme)
    ensures HandleExpired(HandleExpired(r, scheme, name), scheme, name) == HandleExpired(r, scheme, name)
  {
  }

  /**
   * The listener and the recovery scan together deliver a message once: after the handler has run
   * for `name`, recovery pushes no message with that id; after recovery, the handler pushes
   * nothing for any id recovery pushed.
   */
  lemma ListenerAndRecoveryDeliverOnce(r: Keyspace, scheme: KeyScheme, keys: seq<string>,
                                       test: TimerTest, name: string)
    requires scheme.Valid() && PayloadsMatch(r, scheme)
    ensures forall m | m in Recovered(HandleExpired(r, scheme, name), scheme, keys, test).dispatched ::
              m.id != name
    ensures var run := Recovered(r, scheme, keys, test);
            forall m | m in run.dispatched :: HandleExpired(run.store, scheme, m.id) == run.store
  {
    var r1 := HandleExpired(r, scheme, name);
    match ExpiredMessage(r, scheme, name) {
      case None =>
      case Some(m) =>
        assert m.id == name;
        DispatchShrinks(r, scheme, m);
    }
    RecoverPushesStoredPayloads(r1, scheme, keys, test);
    RecoverShrinks(r, scheme, keys, test);
  }

  /**
   * The single-key scan that shows recovery as written: right after a delayed `produce`, while
   * the timer key is live, recovering the payload key pushes the message anyway, because the empty
   * timer value is falsy.
   */
  lemma LiveTimerRecoveredAsWritten(r: Keyspace, scheme: KeyScheme, id: string, topic: string,
                                    body: Body, delay: int, now: int)
    requires scheme.Valid() && delay > 0
    requires ParseId(scheme, DataKey(scheme, id)) == Some(id)
    ensures var r1 := Produced(r, scheme, id, topic, body, Some(delay), now);
            var run := Recovered(r1, scheme, [DataKey(scheme, id)], AsWritten);
            && id in r1.strings && id in r1.deadline && r1.deadline[id] > now
            && run.completed
            && run.dispatched == [Msg(id, topic, body, Some(delay))]
            && run.store.List(topic) == r.List(topic) + [Msg(id, topic, body, Some(delay))]
  {
    var r1 := Produced(r, scheme, id, topic, body, Some(delay), now);
    var keys := [DataKey(scheme, id)];
    assert RecoverTarget(r1, scheme, keys[0], AsWritten) == Some(id);
    assert keys[1..] == [];
  }

  /**
   * The intended test never pushes a message whose timer key is still in the keyspace, while
   * RecoverCompleteness still guarantees that every message whose timer is gone is pushed.
   */
  lemma {:induction false} IntendedRecoverSkipsLiveTimers(r: Keyspace, scheme: KeyScheme, keys: seq<string>)
    requires scheme.Valid() && PayloadsMatch(r, scheme)
    ensures forall m | m in Recovered(r, scheme, keys, Intended).dispatched :: IsUuid(m.id) && m.id !in r.strings
    decreases |keys|
  {
    if keys != [] {
      match RecoverTarget(r, scheme, keys[0], Intended)
      case None =>
        IntendedRecoverSkipsLiveTimers(r, scheme, keys[1..]);
      case Some(id) =>
        match GetMessage(r, scheme, id)
        case None =>
        case Some(m) =>
          var r1 := Dispatch(r, scheme, m);
          DispatchShrinks(r, scheme, m);
          IntendedRecoverSkipsLiveTimers(r1, scheme, keys[1..]);
          forall m2 | m2 in Recovered(r1, scheme, keys[1..], Intended).dispatched
            ensures m2.id !in r.strings
          {
            DataKeyIsNotUuid(scheme, m.id);
          }
    }
  }

  /**
   * A delayed message stays out of every topic list until its deadline: the timer key is due
   * exactly from `now + delay` on, and once expired its handler appends the message to the tail of
   * its topic.
   */
  lemma DelayedDelivery(r: Keyspace, scheme: KeyScheme, id: string, topic: string, body: Body,
                        delay: int, now: int, t: int)
    requires scheme.Valid() && IsUuid(id) && delay > 0
    ensures var r1 := Produced(r, scheme, id, topic, body, Some(delay), now);
            && r1.lists == r.lists
            && (id in r1.Due(t) <==> now + delay < t)
            && (now + delay < t ==>
                  HandleExpired(r1.Expire(t), scheme, id).List(topic) ==
                    r.List(topic) + [Msg(id, topic, body, Some(delay))])
  {
  }

  /** Two immediate messages on one empty topic are consumed in the order they were produced. */
  lemma ImmediateMessagesInOrder(r: Keyspace, scheme: KeyScheme, idA: string, idB: string,
                                 topic: string, bodyA: Body, bodyB: Body, now: int)
    requires scheme.Valid() && r.List(topic) == []
    ensures var r2 := Produced(Produced(r, scheme, idA, topic, bodyA, None, now),
                               scheme, idB, topic, bodyB, None, now);
            var (first, r3) := r2.LPop(topic);
            var (second, _) := r3.LPop(topic);
            first == Some(Msg(idA, topic, bodyA, None)) && second == Some(Msg(idB, topic, bodyB, None))
  {
  }

  /** The payload of a pending delayed message: stored under its key, with no expiry time. */
  ghost predicate PendingStored(r: Keyspace, scheme: KeyScheme, id: string, m: Msg) {
    && m.id == id
    && DataKey(scheme, id) in r.strings
    && r.strings[DataKey(scheme, id)] == Encoded(m)
    && DataKey(scheme, id) !in r.deadline
  }

  /**
   * The delivery invariant of a queue object. `pending` are the delayed messages it produced and
   * has not pushed; `dispatched` the ids it pushed, in order. A pending payload stays stored (no
   * message is lost), a pushed id has no payload key left (a payload exists only until its
   * message is pushed), and no id is pushed twice.
   */
  ghost predicate Tracked(r: Keyspace, scheme: KeyScheme, pending: map<string, Msg>, dispatched: seq<string>) {
    && r.Valid()
    && PayloadsMatch(r, scheme)
    && (forall id | id in pending :: PendingStored(r, scheme, id, pending[id]))
    && (forall i | 0 <= i < |dispatched| :: IsUuid(dispatched[i]) && DataKey(scheme, dispatched[i]) !in r.strings)
    && (forall i, j | 0 <= i < j < |dispatched| :: dispatched[i] != dispatched[j])
  }

  /** A new id from the generator: a UUID with no timer, no payload and no earlier push. */
  ghost predicate Unused(r: Keyspace, scheme: KeyScheme, dispatched: seq<string>, id: string) {
    IsUuid(id) && id !in r.strings && DataKey(scheme, id) !in r.strings && id !in dispatched
  }

  /** A message the handler or recovery finds is its own id's, and that id was never pushed. */
  lemma StoredMessageNotDispatched(r: Keyspace, scheme: KeyScheme, pending: map<string, Msg>,
                                   dispatched: seq<string>, id: string)
    requires Tracked(r, scheme, pending, dispatched) && GetMessage(r, scheme, id).Some?
    ensures GetMessage(r, scheme, id).value.id == id && id !in dispatched
  {
  }

  /** Pushing a message not pushed before keeps the invariant; its id moves from pending to pushed. */
  lemma TrackedDispatch(r: Keyspace, scheme: KeyScheme, pending: map<string, Msg>, dispatched: seq<string>, m: Msg)
    requires Tracked(r, scheme, pending, dispatched) && IsUuid(m.id) && m.id !in dispatched
    ensures Tracked(Dispatch(r, scheme, m), scheme, pending - {m.id}, dispatched + [m.id])
  {
  }

  /** Scheduling a message under an unused id keeps the invariant; the message becomes pending. */
  lemma TrackedSchedule(r: Keyspace, scheme: KeyScheme, pending: map<string, Msg>, dispatched: seq<string>,
                        m: Msg, at: int)
    requires scheme.Valid() && Tracked(r, scheme, pending, dispatched) && Unused(r, scheme, dispatched, m.id)
    ensures Tracked(Scheduled(r, scheme, m, at), scheme, pending[m.id := m], dispatched)
  {
    var r' := Scheduled(r, scheme, m, at);
    DataKeyIsNotUuid(scheme, m.id);
    forall x | x in pending
      ensures PendingStored(r', scheme, x, pending[x])
    {
      DataKeyInjective(scheme, x, m.id);
    }
    forall i | 0 <= i < |dispatched|
      ensures DataKey(scheme, dispatched[i]) !in r'.strings
    {
      DataKeyIsNotUuid(scheme, dispatched[i]);
      DataKeyInjective(scheme, dispatched[i], m.id);
    }
    forall x {:trigger DataKey(scheme, x)}
      | DataKey(scheme, x) in r'.strings && r'.strings[DataKey(scheme, x)].Encoded?
      ensures r'.strings[DataKey(scheme, x)].msg.id == x
    {
      DataKeyInjective(scheme, x, m.id);
    }
  }

  /** Producing under an unused id keeps the invariant. */
  lemma TrackedProduce(r: Keyspace, scheme: KeyScheme, pending: map<string, Msg>, dispatched: seq<string>,
                       id: string, topic: string, body: Body, delay: Option<int>, now: int)
    requires scheme.Valid() && Tracked(r, scheme, pending, dispatched) && Unused(r, scheme, dispatched, id)
    ensures IsDelayed(delay) ==>
      Tracked(Produced(r, scheme, id, topic, body, delay, now), scheme,
              pending[id := Msg(id, topic, body, delay)], dispatched)
    ensures !IsDelayed(delay) ==>
      Tracked(Produced(r, scheme, id, topic, body, delay, now), scheme, pending, dispatched + [id])
  {
    var m := Msg(id, topic, body, delay);
    if IsDelayed(delay) {
      TrackedSchedule(r, scheme, pending, dispatched, m, now + delay.value);
    } else {
      assert id !in pending;
      TrackedDispatch(r, scheme, pending, dispatched, m);
      assert pending - {id} == pending;
    }
  }

  /** Expiry removes timer keys only: pending payloads carry no deadline, so they survive it. */
  lemma TrackedExpire(r: Keyspace, scheme: KeyScheme, pending: map<string, Msg>, dispatched: seq<string>, now: int)
    requires Tracked(r, scheme, pending, dispatched)
    ensures Tracked(r.Expire(now), scheme, pending, dispatched)
  {
  }

  /** The invariant speaks of string keys only, so list operations keep it. */
  lemma TrackedIgnoresLists(r: Keyspace, r': Keyspace, scheme: KeyScheme, pending: map<string, Msg>, dispatched: seq<string>)
    requires Tracked(r, scheme, pending, dispatched)
    requires r'.strings == r.strings && r'.deadline == r.deadline
    ensures Tracked(r', scheme, pending, dispatched)
  {
  }
}
