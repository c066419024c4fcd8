/**
 * The part of Redis the queue relies on: string keys with optional absolute expiry times, and
 * lists of messages. Time is explicit: `Expire(now)` removes every key whose deadline has come.
 * String keys and list keys are kept in separate maps.
 */
module Redis {
  import opened Messages

  /** A string value: the empty timer value, or a message serialised by `stringify`. */
  datatype Value = Text(text: string) | Encoded(msg: Msg)

  /** JavaScript truthiness of a GET reply: null and "" are falsy; serialised JSON is never empty. */
  predicate Truthy(reply: Option<Value>) {
    match reply
    case None => false
    case Some(Text(s)) => s != ""
    case Some(Encoded(_)) => true
  }

  datatype Keyspace = Keyspace(strings: map<string, Value>, deadline: map<string, int>, lists: map<string, seq<Msg>>)
  {
    /** Only existing keys carry an expiry time. */
    predicate Valid() {
      deadline.Keys <= strings.Keys
    }

    function Get(key: string): Option<Value> {
      if key in strings then Some(strings[key]) else None
    }

    /** SET: store the value and discard any expiry time. */
    function Set(key: string, v: Value): (r: Keyspace)
      ensures Valid() ==> r.Valid()
    {
      Keyspace(strings[key := v], deadline - {key}, lists)
    }

    /** DEL of a string key. */
    function Del(key: string): (r: Keyspace)
      ensures Valid() ==> r.Valid()
    {
      Keyspace(strings - {key}, deadline - {key}, lists)
    }

    /** PEXPIREAT: give an existing key an absolute deadline; a missing key is left alone. */
    function PExpireAt(key: string, at: int): (r: Keyspace)
      ensures Valid() ==> r.Valid()
    {
      if key in strings then Keyspace(strings, deadline[key := at], lists) else this
    }

    /** The list stored under `name`; a missing list reads as empty. */
    function List(name: string): seq<Msg> {
      if name in lists then lists[name] else []
    }

    /** RPUSH: append at the tail. */
    function RPush(name: string, m: Msg): (r: Keyspace)
      ensures Valid() ==> r.Valid()
    {
      Keyspace(strings, deadline, lists[name := List(name) + [m]])
    }

    /** LPOP (a BLPOP that does not wait): remove and return the head, or nothing when empty. */
    function LPop(name: string): (Option<Msg>, Keyspace) {
      if List(name) == [] then (None, this)
      else (Some(List(name)[0]), Keyspace(strings, deadline, lists[name := List(name)[1..]]))
    }

    /** Keys whose deadline is at or before `now`. */
    function Due(now: int): set<string> {
      set k | k in deadline && deadline[k] < now
    }

    /** Remove every due key. */
    function Expire(now: int): (r: Keyspace)
      ensures Valid() ==> r.Valid()
    {
      Keyspace(strings - Due(now), deadline - Due(now), lists)
    }
  }

  /** Popping after a push returns the list's old head, or the pushed message if it was empty. */
  lemma PushThenPop(r: Keyspace, name: string, m: Msg)
    ensures r.List(name) == [] ==> r.RPush(name, m).LPop(name).0 == Some(m)
    ensures r.List(name) != [] ==>
      r.RPush(name, m).LPop(name) == (Some(r.List(name)[0]), r.LPop(name).1.RPush(name, m))
  {
    if r.List(name) != [] {
      var l := r.List(name);
      assert (l + [m])[1..] == l[1..] + [m];
      var popped := r.LPop(name).1;
      assert popped.List(name) == l[1..];
      assert r.RPush(name, m).LPop(name).1.lists == r.lists[name := l[1..] + [m]] == popped.RPush(name, m).lists;
    }
  }

  /** Messages pushed to an empty list are popped back in the order they were pushed. */
  lemma PushPushPopPop(r: Keyspace, name: string, a: Msg, b: Msg)
    requires r.List(name) == []
    ensures var (first, r1) := r.RPush(name, a).RPush(name, b).LPop(name);
            var (second, r2) := r1.LPop(name);
            first == Some(a) && second == Some(b) && r2.List(name) == []
  {
  }

  /** The Redis server: the one keyspace every connection of the queue talks to. */
  class Store {
    var strings: map<string, Value>
    var deadline: map<string, int>
    var lists: map<string, seq<Msg>>

    function State(): Keyspace
      reads this
    {
      Keyspace(strings, deadline, lists)
    }

    constructor (initial: Keyspace)
      ensures State() == initial
    {
      strings, deadline, lists := initial.strings, initial.deadline, initial.lists;
    }

    function Get(key: string): Option<Value>
      reads this
    {
      State().Get(key)
    }

    method Set(key: string, v: Value)
      modifies this
      ensures State() == old(State()).Set(key, v)
    {
      strings, deadline := strings[key := v], deadline - {key};
    }

    method Del(key: string)
      modifies this
      ensures State() == old(State()).Del(key)
    {
      strings, deadline := strings - {key}, deadline - {key};
    }

    method PExpireAt(key: string, at: int)
      modifies this
      ensures State() == old(State()).PExpireAt(key, at)
    {
      if key in strings {
        deadline := deadline[key := at];
      }
    }

    method RPush(name: string, m: Msg)
      modifies this
      ensures State() == old(State()).RPush(name, m)
    {
      lists := lists[name := State().List(name) + [m]];
    }

    method LPop(name: string) returns (m: Option<Msg>)
      modifies this
      ensures (m, State()) == old(State()).LPop(name)
    {
      var l := State().List(name);
      if l == [] {
        m := None;
      } else {
        m := Some(l[0]);
        lists := lists[name := l[1..]];
      }
    }

    /** The server's expiry at time `now`: removes the due keys and reports their names. */
    method Expire(now: int) returns (expired: set<string>)
      modifies this
      ensures expired == old(State()).Due(now)
      ensures State() == old(State()).Expire(now)
    {
      expired := State().Due(now);
      strings, deadline := strings - expired, deadline - expired;
    }
  }
}
