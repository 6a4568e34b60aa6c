/**
  The single-value publish/subscribe store built by `createContextStore`:
  one mutable value, a `Set` of zero-argument listeners, and the operations
  get, set, subscribe (returning an unsubscribe capability) and clear.

  A listener is a callback compared by identity; the model names each one by
  a `ListenerId`. A JavaScript `Set` iterates in insertion order, so the
  listener set is kept as a sequence without duplicates, oldest first. Each
  call of a listener is recorded, in call order, in the store's `fired` log,
  together with the value `get()` returns while that listener runs.
*/
module ContextStore {

  type ListenerId = nat

  /** No listener occurs twice: the sequence is the contents of a `Set`. */
  ghost predicate Distinct(ls: seq<ListenerId>) {
    forall i, j :: 0 <= i < j < |ls| ==> ls[i] != ls[j]
  }

  /** `Set.prototype.add`: a new element goes last, a present one keeps its place. */
  function Add(ls: seq<ListenerId>, l: ListenerId): (r: seq<ListenerId>)
    ensures forall x :: x in r <==> x in ls || x == l
    ensures ls <= r
    ensures Distinct(ls) ==> Distinct(r)
  {
    if l in ls then ls else ls + [l]
  }

  /** `Set.prototype.delete`: drops `l` and keeps every other element in its order. */
  function Remove(ls: seq<ListenerId>, l: ListenerId): (r: seq<ListenerId>)
    ensures forall x :: x in r <==> x in ls && x != l
    ensures Distinct(ls) ==> Distinct(r)
  {
    if ls == [] then []
    else
      DistinctTail(ls);
      var rest := Remove(ls[1..], l);
      if ls[0] == l then rest
      else
        DistinctCons(ls[0], rest);
        [ls[0]] + rest
  }

  lemma DistinctTail(ls: seq<ListenerId>)
    requires ls != []
    ensures Distinct(ls) ==> Distinct(ls[1..]) && ls[0] !in ls[1..]
  {
    if Distinct(ls) {
      forall i, j | 0 <= i < j < |ls[1..]| ensures ls[1..][i] != ls[1..][j] {
        assert ls[1..][i] == ls[i + 1] && ls[1..][j] == ls[j + 1];
      }
      forall j | 0 <= j < |ls[1..]| ensures ls[1..][j] != ls[0] {
        assert ls[1..][j] == ls[j + 1];
      }
    }
  }

  lemma DistinctCons(x: ListenerId, ls: seq<ListenerId>)
    ensures x !in ls && Distinct(ls) ==> Distinct([x] + ls)
  {
    if x !in ls && Distinct(ls) {
      forall i, j | 0 <= i < j < |[x] + ls| ensures ([x] + ls)[i] != ([x] + ls)[j] {
        assert ([x] + ls)[j] == ls[j - 1];
        if i > 0 {
          assert ([x] + ls)[i] == ls[i - 1];
        }
      }
    }
  }

  lemma {:induction false} RemoveAbsent(ls: seq<ListenerId>, l: ListenerId)
    requires l !in ls
    ensures Remove(ls, l) == ls
  {
    if ls != [] {
      RemoveAbsent(ls[1..], l);
    }
  }

  /** In a set without duplicates, deleting the element at position `k` closes the gap. */
  lemma {:induction false} RemoveAt(ls: seq<ListenerId>, k: nat)
    requires Distinct(ls) && k < |ls|
    ensures Remove(ls, ls[k]) == ls[..k] + ls[k + 1..]
  {
    if k == 0 {
      RemoveAbsent(ls[1..], ls[0]);
    } else {
      assert ls[1..][k - 1] == ls[k];
      RemoveAt(ls[1..], k - 1);
      assert ls[1..][..k - 1] == ls[1..k];
      assert ls[1..][k..] == ls[k + 1..];
      assert [ls[0]] + ls[1..k] == ls[..k];
    }
  }

  lemma {:induction false} RemoveAppend(ls: seq<ListenerId>, tail: seq<ListenerId>, l: ListenerId)
    ensures Remove(ls + tail, l) == Remove(ls, l) + Remove(tail, l)
  {
    if ls == [] {
      assert ls + tail == tail;
    } else {
      assert (ls + tail)[1..] == ls[1..] + tail;
      RemoveAppend(ls[1..], tail, l);
    }
  }

  /** In a set, every element occurs exactly once: the ground of "each listener is called once". */
  lemma {:induction false} DistinctOccursOnce(ls: seq<ListenerId>, l: ListenerId)
    requires Distinct(ls)
    ensures multiset(ls)[l] == if l in ls then 1 else 0
  {
    if ls != [] {
      assert ls == [ls[0]] + ls[1..];
      DistinctTail(ls);
      DistinctOccursOnce(ls[1..], l);
      assert multiset(ls) == multiset([ls[0]]) + multiset(ls[1..]);
    }
  }

  /** One listener call: which listener ran, and the value `get()` returned while it ran. */
  datatype Call<V> = Call(listener: ListenerId, seen: V)

  /** The calls one `set` of `v` makes: every listener of the set, in order, each seeing `v`. */
  function Calls<V>(ls: seq<ListenerId>, v: V): (r: seq<Call<V>>)
    ensures |r| == |ls|
    ensures forall i :: 0 <= i < |ls| ==> r[i].listener == ls[i] && r[i].seen == v
  {
    seq(|ls|, i requires 0 <= i < |ls| => Call(ls[i], v))
  }

  /** The listeners a log of calls called, in call order. */
  function CalledIds<V>(calls: seq<Call<V>>): (r: seq<ListenerId>)
    ensures |r| == |calls|
    ensures forall i :: 0 <= i < |calls| ==> r[i] == calls[i].listener
  {
    seq(|calls|, i requires 0 <= i < |calls| => calls[i].listener)
  }

  lemma CalledIdsOfSet<V>(fired: seq<Call<V>>, ls: seq<ListenerId>, v: V)
    ensures CalledIds(fired + Calls(ls, v)) == CalledIds(fired) + ls
  {
    var a, b := CalledIds(fired + Calls(ls, v)), CalledIds(fired) + ls;
    assert |a| == |b|;
    forall i | 0 <= i < |a| ensures a[i] == b[i] {
      if i >= |fired| {
        assert (fired + Calls(ls, v))[i] == Calls(ls, v)[i - |fired|];
      }
    }
  }

  /** The whole observable state of a store: its value, its listeners and the calls made to them. */
  datatype StoreState<V> = StoreState(value: V, listeners: seq<ListenerId>, fired: seq<Call<V>>)

  /** One call on the store's surface. */
  datatype Op<V> =
    | SetOp(newValue: V)
    | SubscribeOp(callback: ListenerId)
    | UnsubscribeOp(callback: ListenerId)
    | ClearOp

  /** `createContextStore(initialValue)`: the value, and an empty listener set. */
  function Init<V>(initialValue: V): (s: StoreState<V>)
    ensures s.value == initialValue && s.listeners == [] && s.fired == []
  {
    StoreState(initialValue, [], [])
  }

  /**
    The effect of one operation on the store's state: only `set` changes the
    value or calls listeners, and it only adds calls to the log.
  */
  function Step<V>(s: StoreState<V>, op: Op<V>): (r: StoreState<V>)
    ensures op.SetOp? ==> r.value == op.newValue && r.listeners == s.listeners && s.fired <= r.fired
    ensures !op.SetOp? ==> r.value == s.value && r.fired == s.fired
  {
    match op
    case SetOp(v) => s.(value := v, fired := s.fired + Calls(s.listeners, v))
    case SubscribeOp(l) => s.(listeners := Add(s.listeners, l))
    case UnsubscribeOp(l) => s.(listeners := Remove(s.listeners, l))
    case ClearOp => s.(listeners := [])
  }

  /** The effect of a sequence of operations, first to last. */
  function Run<V>(s: StoreState<V>, ops: seq<Op<V>>): (r: StoreState<V>)
    ensures s.fired <= r.fired
    decreases |ops|
  {
    if ops == [] then s else Run(Step(s, ops[0]), ops[1..])
  }

  predicate Subscribes<V>(op: Op<V>, l: ListenerId) {
    op.SubscribeOp? && op.callback == l
  }

  /** Whatever is done to it, the listener collection stays a set. */
  lemma {:induction false} RunKeepsDistinct<V>(s: StoreState<V>, ops: seq<Op<V>>)
    requires Distinct(s.listeners)
    ensures Distinct(Run(s, ops).listeners)
    decreases |ops|
  {
    if ops != [] {
      RunKeepsDistinct(Step(s, ops[0]), ops[1..]);
    }
  }

  /** Before any `set`, `get` returns the initial value. */
  lemma {:induction false} GetWithoutSet<V>(s: StoreState<V>, ops: seq<Op<V>>)
    requires forall j :: 0 <= j < |ops| ==> !ops[j].SetOp?
    ensures Run(s, ops).value == s.value
    decreases |ops|
  {
    if ops != [] {
      GetWithoutSet(Step(s, ops[0]), ops[1..]);
    }
  }

  /** Read-your-writes: `get` returns the value of the last `set`, whatever came after it. */
  lemma {:induction false} GetReturnsLastSet<V>(s: StoreState<V>, ops: seq<Op<V>>, k: nat)
    requires k < |ops| && ops[k].SetOp?
    requires forall j :: k < j < |ops| ==> !ops[j].SetOp?
    ensures Run(s, ops).value == ops[k].newValue
    decreases |ops|
  {
    if k == 0 {
      GetWithoutSet(Step(s, ops[0]), ops[1..]);
    } else {
      GetReturnsLastSet(Step(s, ops[0]), ops[1..], k - 1);
    }
  }

  /**
    A `set` calls every listener in the set exactly once, and no other, and
    every one of those calls sees the new value.
  */
  lemma SetCallsEachListenerOnce<V>(s: StoreState<V>, v: V, l: ListenerId)
    requires Distinct(s.listeners)
    ensures Step(s, SetOp(v)).value == v
    ensures multiset(CalledIds(Step(s, SetOp(v)).fired))[l] ==
      multiset(CalledIds(s.fired))[l] + (if l in s.listeners then 1 else 0)
    ensures forall i :: |s.fired| <= i < |Step(s, SetOp(v)).fired| ==> Step(s, SetOp(v)).fired[i].seen == v
  {
    DistinctOccursOnce(s.listeners, l);
    CalledIdsOfSet(s.fired, s.listeners, v);
    var t := Step(s, SetOp(v));
    forall i | |s.fired| <= i < |t.fired| ensures t.fired[i].seen == v {
      assert t.fired[i] == Calls(s.listeners, v)[i - |s.fired|];
    }
  }

  /** A listener that is not subscribed, and is not subscribed again, is never called. */
  lemma {:induction false} AbsentListenerNeverCalled<V>(s: StoreState<V>, ops: seq<Op<V>>, l: ListenerId)
    requires l !in s.listeners
    requires forall j :: 0 <= j < |ops| ==> !Subscribes(ops[j], l)
    ensures l !in Run(s, ops).listeners
    ensures multiset(CalledIds(Run(s, ops).fired))[l] == multiset(CalledIds(s.fired))[l]
    decreases |ops|
  {
    if ops != [] {
      var t := Step(s, ops[0]);
      assert multiset(CalledIds(t.fired))[l] == multiset(CalledIds(s.fired))[l] by {
        if ops[0].SetOp? {
          CalledIdsOfSet(s.fired, s.listeners, ops[0].newValue);
          assert multiset(CalledIds(t.fired)) == multiset(CalledIds(s.fired)) + multiset(s.listeners);
        }
      }
      AbsentListenerNeverCalled(t, ops[1..], l);
    }
  }

  /** After `clear`, no listener is called until something subscribes again. */
  lemma {:induction false} ClearSilencesStore<V>(s: StoreState<V>, ops: seq<Op<V>>)
    requires forall j :: 0 <= j < |ops| ==> !ops[j].SubscribeOp?
    ensures Run(Step(s, ClearOp), ops).fired == s.fired
    ensures Run(Step(s, ClearOp), ops).listeners == []
  {
    NoListenersNoCalls(Step(s, ClearOp), ops);
  }

  lemma {:induction false} NoListenersNoCalls<V>(s: StoreState<V>, ops: seq<Op<V>>)
    requires s.listeners == []
    requires forall j :: 0 <= j < |ops| ==> !ops[j].SubscribeOp?
    ensures Run(s, ops).fired == s.fired && Run(s, ops).listeners == []
    decreases |ops|
  {
    if ops != [] {
      var t := Step(s, ops[0]);
      assert t.fired == s.fired && t.listeners == [] by {
        if ops[0].SetOp? {
          assert Calls(s.listeners, ops[0].newValue) == [];
          assert s.fired + [] == s.fired;
        }
      }
      NoListenersNoCalls(t, ops[1..]);
    }
  }

  /** Subscribing the same callback twice leaves a single entry. */
  lemma SubscribeTwiceIsOnce<V>(s: StoreState<V>, l: ListenerId)
    requires Distinct(s.listeners)
    ensures Step(Step(s, SubscribeOp(l)), SubscribeOp(l)) == Step(s, SubscribeOp(l))
    ensures multiset(Step(Step(s, SubscribeOp(l)), SubscribeOp(l)).listeners)[l] == 1
  {
    DistinctOccursOnce(Add(s.listeners, l), l);
  }

  /** Calling an unsubscribe capability a second time has no further effect. */
  lemma UnsubscribeTwiceIsOnce<V>(s: StoreState<V>, l: ListenerId)
    ensures Step(Step(s, UnsubscribeOp(l)), UnsubscribeOp(l)) == Step(s, UnsubscribeOp(l))
  {
    RemoveAbsent(Remove(s.listeners, l), l);
  }

  /** Unsubscribing removes exactly `l`: the others stay, in their order, and the value and log are kept. */
  lemma UnsubscribeRemovesOnlyIt<V>(s: StoreState<V>, k: nat)
    requires Distinct(s.listeners) && k < |s.listeners|
    ensures Step(s, UnsubscribeOp(s.listeners[k])).listeners == s.listeners[..k] + s.listeners[k + 1..]
    ensures Step(s, UnsubscribeOp(s.listeners[k])).value == s.value
    ensures Step(s, UnsubscribeOp(s.listeners[k])).fired == s.fired
  {
    RemoveAt(s.listeners, k);
  }

  /** Subscribing a new listener and calling the returned capability restores the store exactly. */
  lemma SubscribeThenUnsubscribe<V>(s: StoreState<V>, l: ListenerId)
    requires l !in s.listeners
    ensures Step(Step(s, SubscribeOp(l)), UnsubscribeOp(l)) == s
  {
    RemoveAppend(s.listeners, [l], l);
    RemoveAbsent(s.listeners, l);
  }

  /** The capability `subscribe` returns: the store it came from and the callback it removes. */
  datatype Unsubscriber<V> = Unsubscriber(store: Store<V>, callback: ListenerId)

  class Store<V> {
    var value: V
    /** The listener `Set`, in insertion order. */
    var listeners: seq<ListenerId>
    /** Every listener call made by `set`, in call order, with the value it saw. */
    var fired: seq<Call<V>>

    ghost predicate Valid()
      reads this
    {
      Distinct(listeners)
    }

    ghost function State(): StoreState<V>
      reads this
    {
      StoreState(value, listeners, fired)
    }

    /** `get`: the store's current value. */
    function Get(): (v: V)
      reads this
      ensures v == State().value
    {
      value
    }

    /** `createContextStore(initialValue)`. */
    constructor (initialValue: V)
      ensures Valid() && State() == Init(initialValue)
    {
      value := initialValue;
      listeners := [];
      fired := [];
    }

    /** `set`: replaces the value, then calls every listener of the set as it stands, in insertion order. */
    method Set(newValue: V)
      requires Valid()
      modifies this
      ensures Valid() && State() == Step(old(State()), SetOp(newValue))
      ensures Get() == newValue && listeners == old(listeners)
      ensures fired == old(fired) + Calls(old(listeners), newValue)
    {
      value := newValue;
      ghost var calls := Calls(listeners, newValue);
      var i := 0;
      while i < |listeners|
        invariant 0 <= i <= |listeners|
        invariant value == newValue && listeners == old(listeners)
        invariant fired == old(fired) + calls[..i]
      {
        assert calls[..i + 1] == calls[..i] + [Call(listeners[i], value)];
        fired := fired + [Call(listeners[i], value)];
        i := i + 1;
      }
      assert calls[..i] == calls;
    }

    /** `subscribe`: adds the callback and returns the function that deletes it again. */
    method Subscribe(callback: ListenerId) returns (unsubscribe: Unsubscriber<V>)
      requires Valid()
      modifies this
      ensures Valid() && State() == Step(old(State()), SubscribeOp(callback))
      ensures callback in listeners && value == old(value) && fired == old(fired)
      ensures unsubscribe == Unsubscriber(this, callback)
    {
      listeners := Add(listeners, callback);
      unsubscribe := Unsubscriber(this, callback);
    }

    /** `clear`: empties the listener set without calling any listener. */
    method Clear()
      requires Valid()
      modifies this
      ensures Valid() && State() == Step(old(State()), ClearOp)
      ensures listeners == [] && value == old(value) && fired == old(fired)
    {
      listeners := [];
    }
  }

  /** Calls the function returned by `subscribe`: `listeners.delete(callback)`, whose result says whether it was there. */
  method Unsubscribe<V>(u: Unsubscriber<V>) returns (deleted: bool)
    requires u.store.Valid()
    modifies u.store
    ensures u.store.Valid()
    ensures u.store.State() == Step(old(u.store.State()), UnsubscribeOp(u.callback))
    ensures deleted == (u.callback in old(u.store.listeners))
    ensures u.callback !in u.store.listeners
  {
    deleted := u.callback in u.store.listeners;
    u.store.listeners := Remove(u.store.listeners, u.callback);
  }
}
