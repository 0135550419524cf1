/** The registry of configuration subscriptions: per configuration the
    descriptor last seen and the change callbacks, keyed through the
    unique-configuration comparer. */
module Subscriptions {
  import opened Wrappers
  import opened Descriptors

  /** A change callback, identified by the delegate it stands for. */
  type Callback = nat

  /** `a -= b` on a delegate invocation list: the last occurrence of `b` is
      dropped; a list without `b` is returned unchanged. */
  function RemoveLast(callbacks: seq<Callback>, cb: Callback): (r: seq<Callback>)
    ensures cb !in callbacks ==> r == callbacks
    ensures cb in callbacks ==> |r| == |callbacks| - 1 && multiset(r) == multiset(callbacks) - multiset{cb}
  {
    if callbacks == [] then []
    else
      var init, last := callbacks[..|callbacks| - 1], callbacks[|callbacks| - 1];
      assert callbacks == init + [last];
      if last == cb then init
      else
        assert cb in callbacks ==> cb in init;
        RemoveLast(init, cb) + [last]
  }

  /** Removing a callback just added restores the invocation list. */
  lemma RemoveLastAfterAppend(callbacks: seq<Callback>, cb: Callback)
    ensures RemoveLast(callbacks + [cb], cb) == callbacks
  {
    assert (callbacks + [cb])[..|callbacks|] == callbacks;
  }

  /** A callback invoked with a descriptor. */
  datatype Notification = Notification(callback: Callback, descriptor: Descriptor)

  /** Every callback in the list, in order, invoked with `d`: the fan-out
      of a change notification. */
  function Notifications(callbacks: seq<Callback>, d: Descriptor): (r: seq<Notification>)
    ensures |r| == |callbacks|
    ensures forall i :: 0 <= i < |r| ==> r[i] == Notification(callbacks[i], d)
  {
    if callbacks == [] then [] else [Notification(callbacks[0], d)] + Notifications(callbacks[1..], d)
  }

  /** What the registry holds for one configuration. */
  datatype Subscription = Subscription(descriptor: Descriptor, callbacks: seq<Callback>)

  /** The dictionary key of a configuration under the comparer. */
  function Key(c: UniqueConfiguration, hashCode: string -> int): int {
    ComparerHashCode(c, hashCode)
  }

  /** `AddSubscribe` on the registry's contents: a known configuration gets
      one more callback, an unknown one a new entry; the flag says which. */
  function AddSpec(m: map<int, Subscription>, key: int, d: Descriptor, cb: Callback): (map<int, Subscription>, bool) {
    if key in m then (m[key := m[key].(callbacks := m[key].callbacks + [cb])], false)
    else (m[key := Subscription(d, [cb])], true)
  }

  /** `RemoveSubscribe` on the registry's contents: the callback is dropped;
      the entry goes with its last callback, and only then is the flag set. */
  function RemoveSpec(m: map<int, Subscription>, key: int, cb: Callback): (map<int, Subscription>, bool) {
    if key !in m then (m, false)
    else
      var rest := RemoveLast(m[key].callbacks, cb);
      if rest == [] then (m - {key}, true)
      else (m[key := m[key].(callbacks := rest)], false)
  }

  /** Every entry keeps at least one callback. */
  ghost predicate WellFormed(m: map<int, Subscription>) {
    forall k :: k in m ==> m[k].callbacks != []
  }

  /** Adding and removing keep every entry non-empty. */
  lemma SpecPreservesWellFormed(m: map<int, Subscription>, key: int, d: Descriptor, cb: Callback)
    requires WellFormed(m)
    ensures WellFormed(AddSpec(m, key, d, cb).0)
    ensures WellFormed(RemoveSpec(m, key, cb).0)
  {
  }

  /** Removing the callback just added undoes the addition, and reports the
      entry gone exactly when the addition had created it. */
  lemma RemoveUndoesAdd(m: map<int, Subscription>, key: int, d: Descriptor, cb: Callback)
    requires WellFormed(m)
    ensures RemoveSpec(AddSpec(m, key, d, cb).0, key, cb) == (m, AddSpec(m, key, d, cb).1)
    ensures AddSpec(m, key, d, cb).1 <==> key !in m
  {
    if key in m {
      RemoveUndoesAppend(m, key, cb);
    } else {
      RemoveUndoesCreate(m, key, d, cb);
    }
  }

  lemma RemoveUndoesAppend(m: map<int, Subscription>, key: int, cb: Callback)
    requires WellFormed(m) && key in m
    ensures RemoveSpec(m[key := m[key].(callbacks := m[key].callbacks + [cb])], key, cb) == (m, false)
  {
    var added := m[key := m[key].(callbacks := m[key].callbacks + [cb])];
    RemoveLastAfterAppend(m[key].callbacks, cb);
    assert added[key := added[key].(callbacks := m[key].callbacks)] == m;
  }

  lemma RemoveUndoesCreate(m: map<int, Subscription>, key: int, d: Descriptor, cb: Callback)
    requires key !in m
    ensures RemoveSpec(m[key := Subscription(d, [cb])], key, cb) == (m, true)
  {
    var added := m[key := Subscription(d, [cb])];
    RemoveLastAfterAppend([], cb);
    assert [] + [cb] == [cb];
    assert added - {key} == m;
  }

  /** `n` copies of one callback. */
  function Repeat(cb: Callback, n: nat): (r: seq<Callback>)
    ensures |r| == n
  {
    if n == 0 then [] else Repeat(cb, n - 1) + [cb]
  }

  /** `n` additions of one callback. */
  function AddTimes(m: map<int, Subscription>, key: int, d: Descriptor, cb: Callback, n: nat): map<int, Subscription>
    decreases n
  {
    if n == 0 then m else AddSpec(AddTimes(m, key, d, cb, n - 1), key, d, cb).0
  }

  /** `n >= 1` additions of one callback to an unknown configuration leave
      an entry holding that callback `n` times. */
  lemma {:induction false} AddTimesEntry(m: map<int, Subscription>, key: int, d: Descriptor, cb: Callback, n: nat)
    requires key !in m && n >= 1
    ensures AddTimes(m, key, d, cb, n) == m[key := Subscription(d, Repeat(cb, n))]
    decreases n
  {
    if n > 1 {
      AddTimesEntry(m, key, d, cb, n - 1);
    } else {
      assert Repeat(cb, 1) == [cb];
    }
  }

  /** Removing the callback last added to an entry of an otherwise unchanged
      registry: the entry keeps the earlier callbacks, or goes when there
      were none, and only then is the flag set. */
  lemma RemoveLastAdded(m: map<int, Subscription>, key: int, d: Descriptor, cb: Callback, earlier: seq<Callback>)
    requires key !in m
    ensures earlier == [] ==> RemoveSpec(m[key := Subscription(d, earlier + [cb])], key, cb) == (m, true)
    ensures earlier != [] ==> RemoveSpec(m[key := Subscription(d, earlier + [cb])], key, cb) == (m[key := Subscription(d, earlier)], false)
  {
    var before := m[key := Subscription(d, earlier + [cb])];
    RemoveLastAfterAppend(earlier, cb);
    if earlier == [] {
      assert before - {key} == m;
    } else {
      assert before[key := before[key].(callbacks := earlier)] == m[key := Subscription(d, earlier)];
    }
  }

  /** `n` removals of one callback. */
  function RemoveTimes(m: map<int, Subscription>, key: int, cb: Callback, n: nat): (r: (map<int, Subscription>, bool))
    decreases n
  {
    if n == 0 then (m, false)
    else RemoveSpec(RemoveTimes(m, key, cb, n - 1).0, key, cb)
  }

  /** A callback subscribed `n` times must be removed `n` times: after
      `j < n` removals the subscription is still there and the last removal
      reported it kept; the `n`-th removal reports it gone and leaves the
      registry as it was before the subscriptions. */
  lemma {:induction false} RemoveAfterRepeatedAdd(m: map<int, Subscription>, key: int, d: Descriptor, cb: Callback, n: nat, j: nat)
    requires key !in m && 1 <= j <= n
    ensures var after := RemoveTimes(AddTimes(m, key, d, cb, n), key, cb, j);
            after == if j == n then (m, true) else (m[key := Subscription(d, Repeat(cb, n - j))], false)
    decreases j
  {
    AddTimesEntry(m, key, d, cb, n);
    if j > 1 {
      RemoveAfterRepeatedAdd(m, key, d, cb, n, j - 1);
    }
    RemoveLastAdded(m, key, d, cb, Repeat(cb, n - j));
  }

  /** A non-empty map has a key. */
  lemma SomeKey<K, V>(m: map<K, V>) returns (k: K)
    requires |m| > 0
    ensures k in m
  {
    assert |m.Keys| == |m|;
    k :| k in m.Keys;
  }

  /** A subscription state object: shared by reference, its callbacks and
      descriptor are updated in place. */
  class SubscribeState {
    var notifyCallback: seq<Callback>
    var descriptor: Descriptor

    constructor (descriptor: Descriptor, notifyCallback: Callback)
      ensures this.descriptor == descriptor && this.notifyCallback == [notifyCallback]
    {
      this.descriptor := descriptor;
      this.notifyCallback := [notifyCallback];
    }
  }

  class SubscriptionCollection {
    var states: map<int, SubscribeState>
    const hashCode: string -> int

    ghost function Objects(): set<object>
      reads this
    {
      set k | k in states :: states[k]
    }

    /** Different configurations have different state objects, and each
        keeps at least one callback. */
    ghost predicate Valid()
      reads this, Objects()
    {
      && (forall k1, k2 :: k1 in states && k2 in states && k1 != k2 ==> states[k1] != states[k2])
      && WellFormed(Contents())
    }

    /** The registry as a value. */
    ghost function Contents(): map<int, Subscription>
      reads this, Objects()
    {
      map k | k in states :: Subscription(states[k].descriptor, states[k].notifyCallback)
    }

    constructor (hashCode: string -> int)
      ensures Valid() && Contents() == map[] && this.hashCode == hashCode
    {
      states := map[];
      this.hashCode := hashCode;
    }

    method AddSubscribe(d: Descriptor, cb: Callback) returns (added: bool)
      requires Valid()
      modifies this, Objects()
      ensures Valid()
      ensures (Contents(), added) == AddSpec(old(Contents()), Key(d.Identity(), hashCode), d, cb)
      ensures forall k :: k in states ==> states[k] in old(Objects()) || fresh(states[k])
    {
      var key := Key(d.Identity(), hashCode);
      if key in states {
        ghost var before := Contents();
        var state := states[key];
        state.notifyCallback := state.notifyCallback + [cb];
        ghost var expected := before[key := before[key].(callbacks := before[key].callbacks + [cb])];
        forall k | k in states
          ensures k in Contents() && Contents()[k] == expected[k]
        {
          if k != key {
            assert states[k] != state;
          }
        }
        assert Contents() == expected;
        added := false;
      } else {
        ghost var before := Contents();
        var state := new SubscribeState(d, cb);
        states := states[key := state];
        ghost var expected := before[key := Subscription(d, [cb])];
        forall k | k in states
          ensures k in Contents() && Contents()[k] == expected[k]
        {
        }
        assert Contents() == expected;
        added := true;
      }
    }

    method RemoveSubscribe(d: Descriptor, cb: Callback) returns (removed: bool)
      requires Valid()
      modifies this, Objects()
      ensures Valid()
      ensures (Contents(), removed) == RemoveSpec(old(Contents()), Key(d.Identity(), hashCode), cb)
      ensures forall k :: k in states ==> states[k] in old(Objects())
    {
      var key := Key(d.Identity(), hashCode);
      if key in states {
        var rest := RemoveLast(states[key].notifyCallback, cb);
        if rest == [] {
          DropState(key);
          return true;
        }
        ReplaceCallbacks(key, rest);
      }
      return false;
    }

    /** The last callback of a configuration is gone: its state object
        leaves the registry. */
    method DropState(key: int)
      requires Valid() && key in states
      modifies this
      ensures Valid() && states == old(states) - {key}
      ensures Contents() == old(Contents()) - {key}
    {
      ghost var before := Contents();
      states := states - {key};
      assert Contents() == before - {key};
    }

    /** A configuration keeps the callbacks `rest`, in its own state object. */
    method ReplaceCallbacks(key: int, rest: seq<Callback>)
      requires Valid() && key in states && rest != []
      modifies states[key]
      ensures Valid() && states == old(states)
      ensures Contents() == old(Contents())[key := old(Contents())[key].(callbacks := rest)]
    {
      ghost var before := Contents();
      var state := states[key];
      state.notifyCallback := rest;
      ghost var expected := before[key := before[key].(callbacks := rest)];
      forall k | k in states
        ensures k in Contents() && Contents()[k] == expected[k]
      {
        if k != key {
          assert states[k] != state;
        }
      }
      assert Contents() == expected;
    }

    /** `TryGetSubscribe`: the shared state of a configuration. */
    method TryGetSubscribe(c: UniqueConfiguration) returns (found: bool, state: SubscribeState?)
      ensures found <==> Key(c, hashCode) in states
      ensures found ==> state == states[Key(c, hashCode)]
      ensures !found ==> state == null
    {
      var key := Key(c, hashCode);
      if key in states {
        return true, states[key];
      }
      return false, null;
    }

    /** `GetAllSubscription`: every state object once, in some order. */
    method GetAllSubscription() returns (all: seq<SubscribeState>)
      requires Valid()
      ensures |all| == |states| && forall x :: x in all <==> x in Objects()
      ensures forall i, j :: 0 <= i < j < |all| ==> all[i] != all[j]
    {
      all := [];
      var rest := states;
      while |rest| > 0
        invariant rest.Keys <= states.Keys && forall k :: k in rest ==> rest[k] == states[k]
        invariant |all| + |rest| == |states|
        invariant forall i :: 0 <= i < |all| ==> all[i] in Objects() && all[i] !in rest.Values
        invariant forall k :: k in states && k !in rest ==> states[k] in all
        invariant forall i, j :: 0 <= i < j < |all| ==> all[i] != all[j]
        decreases |rest|
      {
        ghost var some := SomeKey(rest);
        var k :| k in rest;
        assert forall k' :: k' in rest && k' != k ==> rest[k'] != rest[k];
        all := all + [rest[k]];
        rest := rest - {k};
      }
    }

    method Dispose()
      modifies this
      ensures Valid() && Contents() == map[]
    {
      states := map[];
    }
  }
}
