/**
  The selector binding of `useContextSelector`: a cached derived value,
  seeded with `selector(store.get())`, which each read recomputes and keeps
  unless the comparator says the new derived value differs from it.

  The binding's selector and comparator are fixed when it is created. The
  default comparator, `react-fast-compare`'s deep equality, is not part of
  this model: callers pass it in as `isEqual`, a pure function.
*/
module ContextSelector {
  import opened Common
  import opened ContextStore

  /** The error `useContextSelector` throws when no provider's store is reachable. */
  datatype UsageError = UsageError(message: string)

  const OutsideProviderMessage := "useContextSelector must be used inside Context.Provider"

  /** A missing selector is the identity (the default applies only where the derived type is the value type). */
  function SelectorOrIdentity<V>(selector: Option<V -> V>): (f: V -> V)
    ensures selector.Some? ==> f == selector.value
  {
    match selector
    case Some(s) => s
    case None => (x: V) => x
  }

  /** Without a selector, every store value selects itself. */
  lemma SelectorOrIdentityIsIdentity<V>(selector: Option<V -> V>, v: V)
    requires selector.None?
    ensures SelectorOrIdentity(selector)(v) == v
  {
  }

  /** A missing comparator is the default deep equality `isEqual`. */
  function ComparatorOrDefault<T>(compareUsing: Option<(T, T) -> bool>, isEqual: (T, T) -> bool): (c: (T, T) -> bool)
    ensures compareUsing.Some? ==> c == compareUsing.value
    ensures compareUsing.None? ==> c == isEqual
  {
    compareUsing.GetOr(isEqual)
  }

  /**
    What one read leaves in the cache, given the freshly selected value:
    the old cached value when the comparator holds, the fresh one otherwise.
  */
  function Reconcile<T>(compare: (T, T) -> bool, selected: T, cached: T): (r: T)
    ensures r == cached || r == selected
  {
    if compare(selected, cached) then cached else selected
  }

  /** The cache changes only when the comparison fails. */
  lemma ReconcileChangesOnlyOnMismatch<T>(compare: (T, T) -> bool, selected: T, cached: T)
    ensures Reconcile(compare, selected, cached) != cached ==> !compare(selected, cached)
    ensures compare(selected, cached) ==> Reconcile(compare, selected, cached) == cached
  {
  }

  /** When the comparison fails, the read returns the fresh value. */
  lemma ReconcileTakesFreshOnMismatch<T>(compare: (T, T) -> bool, selected: T, cached: T)
    requires !compare(selected, cached)
    ensures Reconcile(compare, selected, cached) == selected
  {
  }

  /**
    For a comparator that holds of equal arguments, a failed comparison means
    the read's value differs from the cached one, so the host sees a change.
  */
  lemma ReconcileReactsOnMismatch<T>(compare: (T, T) -> bool, selected: T, cached: T)
    requires compare(selected, selected)
    requires !compare(selected, cached)
    ensures Reconcile(compare, selected, cached) != cached
  {
  }

  /**
    Two reads with no `set` between them return the same value, whatever the
    comparator: the second read either keeps what the first left or takes the
    same selection again. This rests on the selector giving the same value on
    every call.
  */
  lemma ReconcileIdempotent<T>(compare: (T, T) -> bool, selected: T, cached: T)
    ensures Reconcile(compare, selected, Reconcile(compare, selected, cached)) == Reconcile(compare, selected, cached)
  {
  }

  /**
    The snapshots returned when the store holds `values[0]`, `values[1]`, ...
    in turn and the binding is read once after each, starting from `cached`:
    each read reconciles the freshly selected value with the previous snapshot.
  */
  function Readings<V, T>(compare: (T, T) -> bool, selector: V -> T, cached: T, values: seq<V>): (r: seq<T>)
    ensures |r| == |values|
    ensures values != [] ==> r[0] == Reconcile(compare, selector(values[0]), cached)
    ensures forall i :: 0 < i < |values| ==> r[i] == Reconcile(compare, selector(values[i]), r[i - 1])
    decreases |values|
  {
    if values == [] then []
    else
      var next := Reconcile(compare, selector(values[0]), cached);
      [next] + Readings(compare, selector, next, values[1..])
  }

  /** Every snapshot is the seed or a value the selector produced from a store value seen so far. */
  lemma {:induction false} ReadingsComeFromSelector<V, T>(compare: (T, T) -> bool, selector: V -> T, cached: T, values: seq<V>)
    ensures forall i :: 0 <= i < |values| ==>
      Readings(compare, selector, cached, values)[i] == cached ||
      exists j :: 0 <= j <= i && Readings(compare, selector, cached, values)[i] == selector(values[j])
    decreases |values|
  {
    if values != [] {
      var next := Reconcile(compare, selector(values[0]), cached);
      var r := Readings(compare, selector, cached, values);
      var rest := Readings(compare, selector, next, values[1..]);
      ReadingsComeFromSelector(compare, selector, next, values[1..]);
      forall i | 0 <= i < |values|
        ensures r[i] == cached || exists j :: 0 <= j <= i && r[i] == selector(values[j])
      {
        if i == 0 {
          assert r[0] == next;
        } else {
          assert r[i] == rest[i - 1];
          if rest[i - 1] == next {
            if next != cached {
              assert r[i] == selector(values[0]);
            }
          } else {
            var j :| 0 <= j <= i - 1 && rest[i - 1] == selector(values[1..][j]);
            assert values[1..][j] == values[j + 1];
            assert r[i] == selector(values[j + 1]);
          }
        }
      }
    }
  }

  /**
    Selector stability: while every new store value selects something the
    comparator finds equal to the cached value, every read returns the
    cached value itself. This is why one binding is not disturbed by a `set`
    that changes only a slice it does not select.
  */
  lemma {:induction false} ReadingsStableWhileSliceEqual<V, T>(compare: (T, T) -> bool, selector: V -> T, cached: T, values: seq<V>)
    requires forall i :: 0 <= i < |values| ==> compare(selector(values[i]), cached)
    ensures forall i :: 0 <= i < |values| ==> Readings(compare, selector, cached, values)[i] == cached
    decreases |values|
  {
    if values != [] {
      assert forall i :: 0 <= i < |values[1..]| ==> compare(selector(values[1..][i]), cached) by {
        forall i | 0 <= i < |values[1..]| ensures compare(selector(values[1..][i]), cached) {
          assert values[1..][i] == values[i + 1];
        }
      }
      ReadingsStableWhileSliceEqual(compare, selector, cached, values[1..]);
    }
  }

  /**
    No stale reads: with a comparator that holds of equal arguments, every
    snapshot compares equal to the slice of the store value it was read from.
  */
  lemma {:induction false} ReadingsFollowStore<V, T>(compare: (T, T) -> bool, selector: V -> T, cached: T, values: seq<V>)
    requires forall i :: 0 <= i < |values| ==> compare(selector(values[i]), selector(values[i]))
    ensures forall i :: 0 <= i < |values| ==> compare(selector(values[i]), Readings(compare, selector, cached, values)[i])
    decreases |values|
  {
    if values != [] {
      var next := Reconcile(compare, selector(values[0]), cached);
      var rest := Readings(compare, selector, next, values[1..]);
      assert forall i :: 0 <= i < |values[1..]| ==> compare(selector(values[1..][i]), selector(values[1..][i])) by {
        forall i | 0 <= i < |values[1..]| ensures compare(selector(values[1..][i]), selector(values[1..][i])) {
          assert values[1..][i] == values[i + 1];
        }
      }
      ReadingsFollowStore(compare, selector, next, values[1..]);
      forall i | 0 <= i < |values|
        ensures compare(selector(values[i]), Readings(compare, selector, cached, values)[i])
      {
        if i > 0 {
          assert values[1..][i - 1] == values[i];
          assert Readings(compare, selector, cached, values)[i] == rest[i - 1];
        }
      }
    }
  }

  /** A snapshot differs from the one before it only when the comparator rejected the cached value. */
  lemma ReadingsChangeOnlyOnMismatch<V, T>(compare: (T, T) -> bool, selector: V -> T, cached: T, values: seq<V>, i: nat)
    requires 0 < i < |values|
    ensures Readings(compare, selector, cached, values)[i] != Readings(compare, selector, cached, values)[i - 1] ==>
      !compare(selector(values[i]), Readings(compare, selector, cached, values)[i - 1])
  {
  }

  /** One consumer's attachment to a store: the `getter` and `serverGetter` closures and their cache. */
  class Binding<V, T> {
    const store: Store<V>
    const selector: V -> T
    const compare: (T, T) -> bool
    /** `cachedValue.current`. */
    var cached: T

    /** The cache is seeded with `selector(store.get())`. */
    constructor (store: Store<V>, selector: V -> T, compare: (T, T) -> bool)
      ensures this.store == store && this.selector == selector && this.compare == compare
      ensures cached == selector(store.Get())
    {
      this.store := store;
      this.selector := selector;
      this.compare := compare;
      this.cached := selector(store.Get());
    }

    /**
      `getter`: recomputes `selector(store.get())`; if it compares equal to the
      cache, returns the cached value untouched, otherwise overwrites the cache
      with it. Either way the result is the cache afterwards.
    */
    method GetSnapshot() returns (snapshot: T)
      modifies this
      ensures snapshot == cached
      ensures compare(selector(store.Get()), old(cached)) ==> cached == old(cached)
      ensures !compare(selector(store.Get()), old(cached)) ==> cached == selector(store.Get())
      ensures cached == Reconcile(compare, selector(store.Get()), old(cached))
    {
      var value := store.Get();
      if compare(selector(value), cached) {
        return cached;
      }
      cached := selector(value);
      return cached;
    }

    /** `serverGetter`: the cache, without reading the store or changing anything. */
    method GetServerSnapshot() returns (snapshot: T)
      ensures snapshot == cached
    {
      snapshot := cached;
    }
  }

  /**
    `useContextSelector(context, selector, compareUsing)`: fails with the usage
    error when no store is reachable, before any cache exists; otherwise binds
    to the store with the given comparator or, without one, `isEqual`.
  */
  method UseContextSelector<V, T>(context: Store?<V>, selector: V -> T, compareUsing: Option<(T, T) -> bool>, isEqual: (T, T) -> bool)
    returns (r: Result<Binding<V, T>, UsageError>)
    ensures r.Failure? <==> context == null
    ensures r.Failure? ==> r.error == UsageError(OutsideProviderMessage)
    ensures r.Success? ==> fresh(r.value) && r.value.store == context && r.value.selector == selector
    ensures r.Success? ==> r.value.compare == ComparatorOrDefault(compareUsing, isEqual)
    ensures r.Success? ==> r.value.cached == selector(context.Get())
  {
    if context == null {
      return Failure(UsageError(OutsideProviderMessage));
    }
    var binding := new Binding(context, selector, ComparatorOrDefault(compareUsing, isEqual));
    return Success(binding);
  }

  /** `useContext(context)`: the identity selector and the default comparator. */
  method UseContext<V>(context: Store?<V>, isEqual: (V, V) -> bool) returns (r: Result<Binding<V, V>, UsageError>)
    ensures r.Failure? <==> context == null
    ensures r.Failure? ==> r.error == UsageError(OutsideProviderMessage)
    ensures r.Success? ==> fresh(r.value) && r.value.store == context && r.value.compare == isEqual
    ensures r.Success? ==> (forall v :: r.value.selector(v) == v) && r.value.cached == context.Get()
  {
    r := UseContextSelector(context, SelectorOrIdentity(None), None, isEqual);
    forall v: V ensures SelectorOrIdentity(None)(v) == v {
      SelectorOrIdentityIsIdentity(None, v);
    }
  }

  /** The readings of a suffix: the first read, then the readings of the rest from it. */
  lemma ReadingsFrom<V, T>(compare: (T, T) -> bool, selector: V -> T, cached: T, values: seq<V>, i: nat)
    requires i < |values|
    ensures Readings(compare, selector, cached, values[i..]) ==
      [Reconcile(compare, selector(values[i]), cached)] +
      Readings(compare, selector, Reconcile(compare, selector(values[i]), cached), values[i + 1..])
  {
    assert values[i..][1..] == values[i + 1..];
  }

  /**
    The host's side of the subscription: the store is set to each of `values`
    in turn and, after each `set`, the binding's getter is read once. The
    snapshots are exactly the `Readings` of those values.
  */
  method ReadAfterEachSet<V, T>(store: Store<V>, binding: Binding<V, T>, values: seq<V>) returns (snapshots: seq<T>)
    requires store.Valid() && binding.store == store
    modifies store, binding
    ensures store.Valid() && store.listeners == old(store.listeners)
    ensures values != [] ==> store.Get() == values[|values| - 1]
    ensures snapshots == Readings(binding.compare, binding.selector, old(binding.cached), values)
  {
    var compare, selector := binding.compare, binding.selector;
    ghost var all := Readings(compare, selector, binding.cached, values);
    snapshots := [];
    var i := 0;
    while i < |values|
      invariant 0 <= i <= |values|
      invariant store.Valid() && store.listeners == old(store.listeners)
      invariant 0 < i ==> store.Get() == values[i - 1]
      invariant snapshots + Readings(compare, selector, binding.cached, values[i..]) == all
    {
      ReadingsFrom(compare, selector, binding.cached, values, i);
      ghost var rest := Readings(compare, selector, Reconcile(compare, selector(values[i]), binding.cached), values[i + 1..]);
      store.Set(values[i]);
      var snapshot := binding.GetSnapshot();
      assert (snapshots + [snapshot]) + rest == snapshots + ([snapshot] + rest);
      snapshots := snapshots + [snapshot];
      i := i + 1;
    }
    assert values[i..] == [];
  }

  /** A store value with two independent slices. */
  datatype Pair = Pair(a: int, b: int)

  /**
    Two bindings over one store, one selecting `a` and one selecting `b`: a
    `set` that changes only `a` moves the first binding's cache and leaves the
    second one's as it was.
  */
  method TwoSlicesScenario() returns (a0: int, b0: int, a1: int, b1: int)
    ensures a0 == 0 && b0 == 0 && a1 == 1 && b1 == 0
  {
    var store := new Store(Pair(0, 0));
    var same := (x: int, y: int) => x == y;
    var first := new Binding(store, (p: Pair) => p.a, same);
    var second := new Binding(store, (p: Pair) => p.b, same);
    a0 := first.GetSnapshot();
    b0 := second.GetSnapshot();
    store.Set(Pair(1, 0));
    a1 := first.GetSnapshot();
    b1 := second.GetSnapshot();
  }
}
