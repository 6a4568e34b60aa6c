# react-context-selector, modelled in Dafny

This project models the core of `react-context-selector`, a React library.
The library lets many consumers read one slice each of a shared value, and
re-render only when their own slice changes. The model has two parts.

- **The store and the selector binding** (`src/context-selector.tsx`).
  `createContextStore` is a single-value publish/subscribe store: one value,
  plus a `Set` of zero-argument listeners. It offers `get`, `set`,
  `subscribe` (which returns an unsubscribe function) and `clear`.
  `useContextSelector` builds a binding over that store. The binding caches
  `selector(store.get())`. Each read (`getter`) recomputes the selected value
  and keeps the cached one whenever the comparator says the two are equal.
  `serverGetter` returns the cache as it is.
- **The quick-context factory** (`src/create-quick-context.tsx`). `create`
  defaults the name to `"Quick"` and rejects a name that is not a string. It
  capitalises the first letter and strips `name` from the options. The result
  has four export keys derived from the name. `useQuickContext` chooses the
  comparator: the per-call one, else the configured function, else
  `Object.is` for `"isObject"`, else the default deep equality. The quick
  provider publishes `data`, or the default value when `data` is undefined.

Files:

- `common.dfy`: `Option` and `Result`.
- `context_store.dfy`: module `ContextStore`. It holds the `Store` class, a
  value-level specification of the store (`StoreState`, `Step`, `Run`), and
  lemmas about it.
- `context_selector.dfy`: module `ContextSelector`. It holds the `Binding`
  class, the pure read step `Reconcile`, the repeated-read model `Readings`,
  and lemmas about them.
- `quick_context.dfy`: module `QuickContext`, the factory's name and option
  functions.

Modelling choices:

- Each listener callback is named by a `ListenerId`. A JavaScript `Set`
  iterates in insertion order. So the listener set is a sequence without
  duplicates, oldest first, and `Store.Valid()` says there are no duplicates.
- Each listener call is appended to the store's `fired` log as a `Call`: the
  listener and the value `get()` returns while it runs. No listener body is
  run.
- Each `Store` method is specified against the value-level step function:
  `State() == Step(old(State()), op)`. The lemmas about `Step` and `Run`
  carry the store's promises over all call sequences.
- `react-fast-compare`'s `isEqual` is a foreign routine. It is passed in as
  the pure parameter `isEqual`. `Object.is` is likewise the parameter
  `objectIs` of the quick hooks, so a context value may hold functions;
  `ObjectIs` is its instance (`==`) for values with equality.
- A selector is a pure function: it returns the same value every time it is
  called on the same store value.
- In the quick-context layer, a context value that may be `undefined` has
  type `Option<D>`.
- The code's `set` takes a value only, not an updater function, and the
  model follows the code.
- The code accepts the empty string as a name (the key `"Context"` results).
  The model follows the code.

## Model

| member | source | states |
|---|---|---|
| `ContextStore.Store.constructor` | src/context-selector.tsx:11-14 | a fresh store holds the initial value, has no listeners and has made no calls |
| `ContextStore.Init` | src/context-selector.tsx:11-13 | the specified initial state: the initial value, an empty listener set, an empty call log |
| `ContextStore.Store.Get` | src/context-selector.tsx:15 | `get` returns the store's current value |
| `ContextStore.Store.Set` | src/context-selector.tsx:16-19 | `get()` returns the new value afterwards; the listener set is unchanged; every listener in the set is called once, in insertion order, and each call sees the new value, so the value is replaced before any listener runs |
| `ContextStore.Calls` | src/context-selector.tsx:18 | the calls one `set` makes: one per listener, in set order, each seeing the new value |
| `ContextStore.Step` | src/context-selector.tsx:16-24 | only `set` changes the value or calls listeners, and it leaves the listener set alone and only appends to the call log; `subscribe`, `unsubscribe` and `clear` keep the value and the log |
| `ContextStore.Run` | src/context-selector.tsx:16-24 | over any sequence of operations, the call log only grows: earlier calls are never rewritten |
| `ContextStore.Store.Subscribe` | src/context-selector.tsx:20-22 | the callback is in the set afterwards; the value and the call log are unchanged; the result is the capability that removes this callback from this store |
| `ContextStore.Unsubscribe` | src/context-selector.tsx:22 | removes exactly the callback; the result says whether it was present; the set stays duplicate-free |
| `ContextStore.Store.Clear` | src/context-selector.tsx:24 | empties the listener set without calling any listener; the value is unchanged |
| `ContextStore.Add` | src/context-selector.tsx:21 | `Set.add`: the members afterwards are the old ones plus the callback; the old order is a prefix; no duplicates appear |
| `ContextStore.Remove` | src/context-selector.tsx:22 | `Set.delete`: the members afterwards are the old ones minus the callback; no duplicates appear |
| `ContextStore.RemoveAt` | src/context-selector.tsx:22 | deleting the member at position k closes the gap: every other member keeps its relative order |
| `ContextStore.RunKeepsDistinct` | src/context-selector.tsx:13-24 | any sequence of store operations keeps the listener collection a set |
| `ContextStore.GetWithoutSet` | src/context-selector.tsx:12-15 | while no `set` happens, `get` returns the value the store started with |
| `ContextStore.GetReturnsLastSet` | src/context-selector.tsx:15-17 | read-your-writes: after any sequence of operations, `get` returns the value of the last `set` |
| `ContextStore.SetCallsEachListenerOnce` | src/context-selector.tsx:16-19 | one `set` calls each subscribed listener exactly once and calls no unsubscribed listener; every call it makes sees the new value |
| `ContextStore.AbsentListenerNeverCalled` | src/context-selector.tsx:18-22 | a listener that is not subscribed, and is not subscribed again, is never called, whatever else happens |
| `ContextStore.ClearSilencesStore` | src/context-selector.tsx:24 | after `clear`, no listener is called and the set stays empty until something subscribes again |
| `ContextStore.SubscribeTwiceIsOnce` | src/context-selector.tsx:20-21 | subscribing the same callback twice has the effect of subscribing it once, and the callback is then in the set exactly once |
| `ContextStore.UnsubscribeTwiceIsOnce` | src/context-selector.tsx:22 | calling the unsubscribe function a second time has no further effect |
| `ContextStore.UnsubscribeRemovesOnlyIt` | src/context-selector.tsx:22 | unsubscribing drops only that callback; the others keep their order; the value and the call log are unchanged |
| `ContextStore.SubscribeThenUnsubscribe` | src/context-selector.tsx:20-22 | subscribing a new callback and then calling the returned function restores the store's state exactly |
| `ContextSelector.SelectorOrIdentity` | src/context-selector.tsx:69 | a given selector is used as it is (useQuickContext's default at create-quick-context.tsx:125 is the same) |
| `ContextSelector.SelectorOrIdentityIsIdentity` | src/context-selector.tsx:69 | a missing selector is the identity: every store value, of any type, selects itself |
| `ContextSelector.ComparatorOrDefault` | src/context-selector.tsx:63 | a missing comparator is the default deep equality `isEqual` |
| `ContextSelector.Reconcile` | src/context-selector.tsx:72-76 | one read leaves either the old cached value or the freshly selected one |
| `ContextSelector.ReconcileChangesOnlyOnMismatch` | src/context-selector.tsx:73-74 | the cache changes only when the comparison fails; when it holds, the existing cached value is kept |
| `ContextSelector.ReconcileTakesFreshOnMismatch` | src/context-selector.tsx:73-76 | when the comparison fails, the read returns the fresh value |
| `ContextSelector.ReconcileReactsOnMismatch` | src/context-selector.tsx:73-76 | for a comparator that holds of equal arguments, a failed comparison means the read's value differs from the old cache |
| `ContextSelector.ReconcileIdempotent` | src/context-selector.tsx:71-77 | for any comparator, two reads of the same selection with no `set` between them return the same value |
| `ContextSelector.Readings` | src/context-selector.tsx:70-77 | one snapshot per store value; the first reconciles the first selection with the seed, each later one reconciles its selection with the snapshot before it |
| `ContextSelector.ReadAfterEachSet` | src/context-selector.tsx:16-19 | setting the store to each value in turn and reading the getter after each yields exactly the `Readings` of those values from the binding's cache; the store ends with the last value and the same listeners |
| `ContextSelector.ReadingsComeFromSelector` | src/context-selector.tsx:70-76 | over any run of store values, every snapshot is the seed or the selector's value for a store value already seen |
| `ContextSelector.ReadingsStableWhileSliceEqual` | src/context-selector.tsx:73 | while each new store value selects something equal to the cache, every read returns the cached value itself |
| `ContextSelector.ReadingsFollowStore` | src/context-selector.tsx:72-76 | no stale reads: for a comparator that holds of equal arguments, every snapshot compares equal to the selection of the store value it was read from |
| `ContextSelector.ReadingsChangeOnlyOnMismatch` | src/context-selector.tsx:73-75 | a snapshot differs from the one before it only when the comparator rejected the previous cache |
| `ContextSelector.Binding.constructor` | src/context-selector.tsx:70 | the cache starts as `selector(store.get())`; the selector and the comparator are fixed |
| `ContextSelector.Binding.GetSnapshot` | src/context-selector.tsx:71-77 | when the comparison holds, the cache is kept and returned; otherwise it becomes `selector(get())` and that value is returned; the result equals the cache afterwards |
| `ContextSelector.Binding.GetServerSnapshot` | src/context-selector.tsx:78 | returns the cache and changes nothing |
| `ContextSelector.UseContextSelector` | src/context-selector.tsx:60-70 | with no store it fails with the usage error and builds no binding; otherwise it binds with the given comparator, or `isEqual` if none is given |
| `ContextSelector.UseContext` | src/context-selector.tsx:56-58 | `useContext` binds with the identity selector and the default comparator |
| `ContextSelector.TwoSlicesScenario` | src/context-selector.tsx:71-77 | two bindings over one store selecting different fields: a `set` that changes only one field moves only that binding's snapshot |
| `QuickContext.NameArgument` | src/create-quick-context.tsx:78 | an absent name becomes `"Quick"`; a present one is passed on unchanged |
| `QuickContext.OmitName` | src/create-quick-context.tsx:58-61 | the result keeps `compareUsing` and `defaultValue` as they were |
| `QuickContext.OmitNameLosesOnlyName` | src/create-quick-context.tsx:58-61 | putting the name back after `omitName` gives the original options; the result does not depend on the name |
| `QuickContext.ToUpperCase` | src/create-quick-context.tsx:85 | upper-casing keeps the length and maps each character by `Upper` |
| `QuickContext.CharAt` | src/create-quick-context.tsx:85 | `charAt(i)` is the one-character string at `i`, or the empty string past the end |
| `QuickContext.SliceFrom` | src/create-quick-context.tsx:85 | `slice(start)` holds the characters from `start` on, in order, or is empty past the end |
| `QuickContext.Upper` | src/create-quick-context.tsx:85 | lower-case ASCII letters map to their capitals; every other character is unchanged |
| `QuickContext.Capitalize` | src/create-quick-context.tsx:85 | only the first character is upper-cased; the rest and the length are kept; the empty name stays empty |
| `QuickContext.CapitalizeIdempotent` | src/create-quick-context.tsx:85 | capitalising twice equals capitalising once; a capitalised name never starts with an ASCII lower-case letter |
| `QuickContext.Create` | src/create-quick-context.tsx:77-94 | fails with the configuration error exactly when the name is not a string; otherwise the name is the capitalised resolved name, of the same length, and the options lose only their name (`{}` when there were none) |
| `QuickContext.CreateUnnamedIsQuick` | src/create-quick-context.tsx:55 | without a name, the context is called `Quick` |
| `QuickContext.CreateNamed` | src/create-quick-context.tsx:80-92 | a string name is accepted and capitalised, and the options are `omitName` of the given ones |
| `QuickContext.ExportKeysDistinct` | src/create-quick-context.tsx:140-145 | for every name, the four export keys are pairwise different |
| `QuickContext.ResultObject` | src/create-quick-context.tsx:140-145 | for every name, the result has exactly the four keys `N+"Context"`, `N+"ContextProvider"`, `"use"+N+"Context"` and `"use"+N+"ContextStore"`, each bound to its own export |
| `QuickContext.DefaultResultKeys` | src/create-quick-context.tsx:18-23 | the unnamed factory returns `QuickContext`, `QuickContextProvider`, `useQuickContext` and `useQuickContextStore` |
| `QuickContext.ObjectIs` | src/create-quick-context.tsx:121 | on values with equality, `Object.is(a, b)` holds exactly when `a` and `b` are the same value |
| `QuickContext.ConfiguredComparator` | src/create-quick-context.tsx:116-122 | a configured function is used as given; `"isObject"` gives `objectIs`; anything else gives none |
| `QuickContext.HookComparator` | src/create-quick-context.tsx:126 | `compareUsing ?? cu`: a per-call comparator wins; without one, the configured comparator is passed on |
| `QuickContext.ComparatorPrecedence` | src/create-quick-context.tsx:116-126 | the binding's comparator is the per-call one, else the configured function, else `objectIs` for `"isObject"`, else the default deep equality |
| `QuickContext.IsObjectReadsFresh` | src/create-quick-context.tsx:120-121 | under `"isObject"` with `ObjectIs`, the comparator is equality and every read returns the freshly selected value |
| `QuickContext.UseQuickContext` | src/create-quick-context.tsx:112-132 | binds to the provider's store with the resolved comparator; with no store it fails with `useContextSelector`'s own usage error |
| `QuickContext.UseQuickContextWhole` | src/create-quick-context.tsx:112-132 | a fresh binding over the given store; without a selector it binds with the identity, so the cache starts as the store's value; a given selector is used as it is and seeds the cache; the comparator is resolved as in `useQuickContext`; with no store, the usage error |
| `QuickContext.StateAndSetterScenario` | src/create-quick-context.tsx:112-132 | a context holding a `[state, setState]` pair, with `"isObject"`: the hook selecting the state reads it back |
| `QuickContext.ProviderValue` | src/create-quick-context.tsx:106 | the provider publishes `data` when it is defined, and the default value otherwise |
| `QuickContext.PublishProviderValue` | src/create-quick-context.tsx:105-108 | after the provider's effect runs, `store.get()` equals the provider's value, and every listener has been called once, seeing that value |

## Left out

- React plumbing is not modelled: `useSyncExternalStore`, `useMemo`, `useEffect`, `useRef`, `useCallback`, `React.useContext`, the `Provider` and `QuickContextProvider` components, and the JSX. A consumer's store is passed in as `Store?`, where `null` means no provider is reachable.
- The unused default context that `createContext` builds from `initialValue` is not modelled, because no store reads it.
- Deep equality (`react-fast-compare`) is not modelled. It is a foreign routine and enters as the pure parameter `isEqual`.
- ObjectIs: modelled as `==` on values, so it also misses the `NaN` and `+0`/`-0` cases. Two structurally equal objects count as the same value, because object identity is not modelled (see the next line).
- Selector results are values, not references. A selector is assumed to return an `Object.is`-equal result on every call with the same input. A selector that allocates (such as `v => ({a: v.a})`) is not modelled. Nor is the fact that the getter calls `selector(value)` twice on a mismatch (src/context-selector.tsx:73-74), rather than reusing the first call's result. Under `"isObject"` such a selector makes two reads with no `set` between them return different objects, which `ReconcileIdempotent` does not capture.
- The store's public `listeners` field (src/context-selector.tsx:25) is not modelled as an alias. Code holding the store could add or delete listeners on that `Set` without going through `subscribe`. The model changes the listener set only through `subscribe`, `unsubscribe` and `clear`.
- Listener bodies are not run. A call is recorded in `fired`, so listeners that subscribe, unsubscribe or throw during a notification pass are not modelled. Notification goes over the set as it stands when `set` is called.
- The updater-function form of `set` is not modelled: the code's `set` takes a value only.
- The 4th argument `useQuickContext` passes to `useContextSelector` is not modelled. The function takes three parameters, so the argument is ignored and the generic usage error is thrown.
- `useQuickContextStore`, `useContextStore` and `StoreType` are not modelled. They are imported but they are not defined in `src/context-selector.tsx`.
- The binding's selector and comparator are fixed when it is built. This matches the `useCallback(..., [])` closures, and later renders' arguments are not modelled.
- SelectorOrIdentity: the identity default is modelled only where the derived type is the value type. The source's unchecked cast to another type has no counterpart.
- Upper: maps only ASCII letters. Unicode case mapping, including mappings that change the length (such as `ß` to `SS`), is not modelled.
- Capitalize: the length is kept only because `Upper` is restricted to ASCII. With full Unicode upper-casing the length could grow.
- The comparator's `any` typing is not modelled: the options' comparator is typed over the hook's derived type `T`.
- TypeScript type-level machinery is not modelled: `NamedResult`, the conditional types, the overloads and `Capitalize<>`.
