/**
  The quick-context factory: `create(options)` resolves and validates the
  name, capitalises it, strips it from the options, and derives the four
  export keys; `useQuickContext` resolves the comparator; the quick provider
  publishes its `data`, or the default value when `data` is undefined.

  A context value that may be `undefined` is an `Option<D>`. `Object.is` is
  a parameter of the hooks, like the default deep equality; on values with
  equality it is `==`. String case mapping is restricted to ASCII.
*/
module QuickContext {
  import opened Common
  import opened ContextStore
  import opened ContextSelector

  const DefaultContextName := "Quick"
  const NameNotStringMessage := "createQuickContext: name must be a string"

  /** What `options.name` holds: nothing (undefined or null), a string, or some other value. */
  datatype NameOption = Unnamed | Named(name: string) | NotAString

  /** What `options.compareUsing` holds: nothing, a function, the preset `"isObject"`, or some other value. */
  datatype CompareOption<!T> =
    | NoComparator
    | Comparator(compare: (T, T) -> bool)
    | IsObject
    | OtherCompareValue

  datatype Options<D, !T> = Options(name: NameOption, compareUsing: CompareOption<T>, defaultValue: Option<D>)

  /** The options without their name, as `createQuickContext` receives them. */
  datatype InternalOptions<D, !T> = InternalOptions(compareUsing: CompareOption<T>, defaultValue: Option<D>)

  datatype ConfigurationError = ConfigurationError(message: string)

  /** What `createQuickContext` is built from: the capitalised name and the sanitised options. */
  datatype Bundle<D, !T> = Bundle(name: string, options: InternalOptions<D, T>)

  /** The four members of the object `create` returns. */
  datatype Export = ContextExport | ProviderExport | HookExport | StoreHookExport

  /** `options?.name ?? "Quick"`: the name `create` goes on to check. */
  function NameArgument<D, T>(options: Option<Options<D, T>>): (n: NameOption)
    ensures !n.Unnamed?
    ensures options.None? || options.value.name.Unnamed? ==> n == Named(DefaultContextName)
    ensures options.Some? && !options.value.name.Unnamed? ==> n == options.value.name
  {
    match options
    case None => Named(DefaultContextName)
    case Some(o) => if o.name.Unnamed? then Named(DefaultContextName) else o.name
  }

  /** `omitName`: the options with `name` removed and every other field kept. */
  function OmitName<D, T>(options: Options<D, T>): (r: InternalOptions<D, T>)
    ensures r.compareUsing == options.compareUsing && r.defaultValue == options.defaultValue
  {
    InternalOptions(options.compareUsing, options.defaultValue)
  }

  /** Putting the name back. */
  function WithName<D, T>(options: InternalOptions<D, T>, name: NameOption): Options<D, T> {
    Options(name, options.compareUsing, options.defaultValue)
  }

  /** `omitName` loses the name and nothing else, and does not depend on it. */
  lemma OmitNameLosesOnlyName<D, T>(options: Options<D, T>, other: NameOption)
    ensures WithName(OmitName(options), options.name) == options
    ensures OmitName(options.(name := other)) == OmitName(options)
  {
  }

  /** `toUpperCase` on one character, restricted to ASCII letters. */
  function Upper(c: char): (u: char)
    ensures 'a' <= c <= 'z' ==> 'A' <= u <= 'Z' && u as int - 'A' as int == c as int - 'a' as int
    ensures !('a' <= c <= 'z') ==> u == c
  {
    if 'a' <= c <= 'z' then (c as int - 'a' as int + 'A' as int) as char else c
  }

  /** `String.prototype.toUpperCase`. */
  function ToUpperCase(s: string): (r: string)
    ensures |r| == |s| && forall i :: 0 <= i < |s| ==> r[i] == Upper(s[i])
  {
    seq(|s|, i requires 0 <= i < |s| => Upper(s[i]))
  }

  /** `String.prototype.charAt`: the one-character string at `i`, or the empty string past the end. */
  function CharAt(s: string, i: nat): (r: string)
    ensures i < |s| ==> r == [s[i]]
    ensures |s| <= i ==> r == ""
  {
    if i < |s| then [s[i]] else ""
  }

  /** `String.prototype.slice(start)`. */
  function SliceFrom(s: string, start: nat): (r: string)
    ensures start <= |s| ==> |r| == |s| - start && forall i :: 0 <= i < |r| ==> r[i] == s[start + i]
    ensures |s| < start ==> r == ""
  {
    if start <= |s| then s[start..] else ""
  }

  /** `name.charAt(0).toUpperCase() + name.slice(1)`: only the first character changes. */
  function Capitalize(name: string): (r: string)
    ensures |r| == |name|
    ensures |name| > 0 ==> r[0] == Upper(name[0])
    ensures forall i :: 1 <= i < |name| ==> r[i] == name[i]
  {
    ToUpperCase(CharAt(name, 0)) + SliceFrom(name, 1)
  }

  lemma UpperIdempotent(c: char)
    ensures Upper(Upper(c)) == Upper(c)
  {
  }

  /** Capitalising twice is capitalising once, and a capitalised name never starts with an ASCII lower-case letter. */
  lemma CapitalizeIdempotent(name: string)
    ensures Capitalize(Capitalize(name)) == Capitalize(name)
    ensures |name| > 0 ==> !('a' <= Capitalize(name)[0] <= 'z')
  {
    var once := Capitalize(name);
    var twice := Capitalize(once);
    if |name| > 0 {
      UpperIdempotent(name[0]);
      assert twice[0] == once[0];
    }
    assert forall i :: 0 <= i < |name| ==> twice[i] == once[i];
  }

  /**
    `create(options)`: resolves the name, throws when it is not a string, and
    otherwise hands the capitalised name and the options without their name
    (an empty options object when there were none) to `createQuickContext`.
  */
  function Create<D, T>(options: Option<Options<D, T>>): (r: Result<Bundle<D, T>, ConfigurationError>)
    ensures r.Failure? <==> options.Some? && options.value.name.NotAString?
    ensures r.Failure? ==> r.error == ConfigurationError(NameNotStringMessage)
    ensures r.Success? ==> r.value.name == Capitalize(NameArgument(options).name)
    ensures r.Success? ==> |r.value.name| == |NameArgument(options).name|
    ensures r.Success? && options.None? ==> r.value.options == InternalOptions(NoComparator, None)
    ensures r.Success? && options.Some? ==>
      r.value.options.compareUsing == options.value.compareUsing && r.value.options.defaultValue == options.value.defaultValue
  {
    var name := NameArgument(options);
    if name.NotAString? then
      Failure(ConfigurationError(NameNotStringMessage))
    else
      var sanitized := if options.Some? then OmitName(options.value) else InternalOptions(NoComparator, None);
      Success(Bundle(Capitalize(name.name), sanitized))
  }

  /** Without a name, the context is called `Quick`. */
  lemma CreateUnnamedIsQuick<D, T>(options: Option<Options<D, T>>)
    requires options.None? || options.value.name.Unnamed?
    ensures Create(options).Success? && Create(options).value.name == "Quick"
  {
    assert Capitalize("Quick") == "Quick";
  }

  /** A string name is accepted and capitalised; nothing else about it changes. */
  lemma CreateNamed<D, T>(options: Options<D, T>, name: string)
    requires options.name == Named(name)
    ensures Create(Some(options)).Success?
    ensures Create(Some(options)).value.name == Capitalize(name)
    ensures Create(Some(options)).value.options == OmitName(options)
  {
  }

  /** The four export keys never collide, whatever the name. */
  lemma ExportKeysDistinct(name: string)
    ensures |{name + "Context", name + "ContextProvider", "use" + name + "Context", "use" + name + "ContextStore"}| == 4
  {
    var context, provider := name + "Context", name + "ContextProvider";
    var hook, storeHook := "use" + name + "Context", "use" + name + "ContextStore";
    assert |context| == |name| + 7 && |hook| == |name| + 10;
    assert |provider| == |name| + 15 && |storeHook| == |name| + 15;
    assert provider[|provider| - 1] == 'r' && storeHook[|storeHook| - 1] == 'e';
    assert provider != storeHook;
    assert |{context}| == 1;
    assert |{context, provider}| == 2;
    assert |{context, provider, hook}| == 3;
  }

  /**
    The object `createQuickContext` returns for the (capitalised) name: exactly
    four members, `<name>Context`, `<name>ContextProvider`, `use<name>Context`
    and `use<name>ContextStore`, each bound to its own export.
  */
  function ResultObject(name: string): (m: map<string, Export>)
    ensures m.Keys == {name + "Context", name + "ContextProvider", "use" + name + "Context", "use" + name + "ContextStore"}
    ensures |m| == 4
    ensures m[name + "Context"] == ContextExport
    ensures m[name + "ContextProvider"] == ProviderExport
    ensures m["use" + name + "Context"] == HookExport
    ensures m["use" + name + "ContextStore"] == StoreHookExport
  {
    ExportKeysDistinct(name);
    map[
      name + "Context" := ContextExport,
      name + "ContextProvider" := ProviderExport,
      "use" + name + "Context" := HookExport,
      "use" + name + "ContextStore" := StoreHookExport
    ]
  }

  /** `create()` with no name yields `QuickContext`, `QuickContextProvider`, `useQuickContext`, `useQuickContextStore`. */
  lemma DefaultResultKeys<D, T>(options: Option<Options<D, T>>)
    requires options.None? || options.value.name.Unnamed?
    ensures Create(options).Success?
    ensures ResultObject(Create(options).value.name).Keys ==
      {"QuickContext", "QuickContextProvider", "useQuickContext", "useQuickContextStore"}
  {
    CreateUnnamedIsQuick(options);
    QuickResultKeys();
  }

  lemma QuickResultKeys()
    ensures ResultObject("Quick").Keys == {"QuickContext", "QuickContextProvider", "useQuickContext", "useQuickContextStore"}
  {
    assert "Quick" + "Context" == "QuickContext";
    assert "Quick" + "ContextProvider" == "QuickContextProvider";
    assert "use" + "Quick" + "Context" == "useQuickContext";
    assert "use" + "Quick" + "ContextStore" == "useQuickContextStore";
  }

  /**
    `Object.is` on values that support equality. The hooks below take
    `Object.is` as a parameter `objectIs`, so that a context value may hold
    functions; this is its instance where the derived type has equality.
  */
  function ObjectIs<T(==)>(a: T, b: T): (same: bool)
    ensures same <==> a == b
  {
    a == b
  }

  /** The comparator configured in the options (`cu`): a function as given, `"isObject"` as `Object.is`, nothing otherwise. */
  function ConfiguredComparator<T>(setting: CompareOption<T>, objectIs: (T, T) -> bool): (cu: Option<(T, T) -> bool>)
    ensures setting.Comparator? ==> cu == Some(setting.compare)
    ensures setting.IsObject? ==> cu == Some(objectIs)
    ensures setting.NoComparator? || setting.OtherCompareValue? ==> cu == None
  {
    match setting
    case Comparator(f) => Some(f)
    case IsObject => Some(objectIs)
    case _ => None
  }

  /** `compareUsing ?? cu`: what `useQuickContext` passes on (`None` leaves the default in force). */
  function HookComparator<T>(compareUsing: Option<(T, T) -> bool>, setting: CompareOption<T>, objectIs: (T, T) -> bool)
    : (c: Option<(T, T) -> bool>)
    ensures compareUsing.Some? ==> c == compareUsing
    ensures compareUsing.None? ==> c == ConfiguredComparator(setting, objectIs)
  {
    if compareUsing.Some? then compareUsing else ConfiguredComparator(setting, objectIs)
  }

  /**
    The comparator a quick-context binding ends up with: the per-call one,
    else a configured function, else `Object.is` for `"isObject"`, else the
    default deep equality.
  */
  lemma ComparatorPrecedence<T>(compareUsing: Option<(T, T) -> bool>, setting: CompareOption<T>,
                                objectIs: (T, T) -> bool, isEqual: (T, T) -> bool)
    ensures compareUsing.Some? ==>
      ComparatorOrDefault(HookComparator(compareUsing, setting, objectIs), isEqual) == compareUsing.value
    ensures compareUsing.None? && setting.Comparator? ==>
      ComparatorOrDefault(HookComparator(compareUsing, setting, objectIs), isEqual) == setting.compare
    ensures compareUsing.None? && setting.IsObject? ==>
      ComparatorOrDefault(HookComparator(compareUsing, setting, objectIs), isEqual) == objectIs
    ensures compareUsing.None? && (setting.NoComparator? || setting.OtherCompareValue?) ==>
      ComparatorOrDefault(HookComparator(compareUsing, setting, objectIs), isEqual) == isEqual
  {
  }

  /**
    Under `"isObject"`, on values with equality, every read returns the
    freshly selected value: values that `Object.is` finds equal are the same value.
  */
  lemma IsObjectReadsFresh<T>(isEqual: (T, T) -> bool, selected: T, cached: T)
    ensures ComparatorOrDefault(HookComparator(None, IsObject, ObjectIs), isEqual)(selected, cached) <==> selected == cached
    ensures Reconcile(ComparatorOrDefault(HookComparator(None, IsObject, ObjectIs), isEqual), selected, cached) == selected
  {
  }

  /**
    `useQuickContext(selector, compareUsing)`: binds to the provider's store
    with the resolved comparator. Its no-provider callback is not used, so a
    missing store raises `useContextSelector`'s own usage error.
  */
  method UseQuickContext<D, T>(context: Store?<Option<D>>, bundle: Bundle<D, T>, selector: Option<D> -> T,
                               compareUsing: Option<(T, T) -> bool>, objectIs: (T, T) -> bool, isEqual: (T, T) -> bool)
    returns (r: Result<Binding<Option<D>, T>, UsageError>)
    ensures r.Failure? <==> context == null
    ensures r.Failure? ==> r.error == UsageError(OutsideProviderMessage)
    ensures r.Success? ==> fresh(r.value) && r.value.store == context && r.value.selector == selector
    ensures r.Success? ==>
      r.value.compare == ComparatorOrDefault(HookComparator(compareUsing, bundle.options.compareUsing, objectIs), isEqual)
    ensures r.Success? ==> r.value.cached == selector(context.Get())
  {
    r := UseContextSelector(context, selector, HookComparator(compareUsing, bundle.options.compareUsing, objectIs), isEqual);
  }

  /**
    `useQuickContext()` with an optional selector, for a hook whose derived
    value is the context value itself: a missing selector is the identity.
  */
  method UseQuickContextWhole<D>(context: Store?<Option<D>>, bundle: Bundle<D, Option<D>>,
                                      selector: Option<Option<D> -> Option<D>>,
                                      compareUsing: Option<(Option<D>, Option<D>) -> bool>,
                                      objectIs: (Option<D>, Option<D>) -> bool,
                                      isEqual: (Option<D>, Option<D>) -> bool)
    returns (r: Result<Binding<Option<D>, Option<D>>, UsageError>)
    ensures r.Failure? <==> context == null
    ensures r.Failure? ==> r.error == UsageError(OutsideProviderMessage)
    ensures r.Success? ==> fresh(r.value) && r.value.store == context
    ensures r.Success? && selector.Some? ==> r.value.selector == selector.value && r.value.cached == selector.value(context.Get())
    ensures r.Success? && selector.None? ==> (forall v :: r.value.selector(v) == v) && r.value.cached == context.Get()
    ensures r.Success? ==>
      r.value.compare == ComparatorOrDefault(HookComparator(compareUsing, bundle.options.compareUsing, objectIs), isEqual)
  {
    r := UseQuickContext(context, bundle, SelectorOrIdentity(selector), compareUsing, objectIs, isEqual);
    if selector.None? {
      forall v: Option<D> ensures SelectorOrIdentity(selector)(v) == v {
        SelectorOrIdentityIsIdentity(selector, v);
      }
    }
  }

  /**
    A context whose value holds a function, as a `[state, setState]` pair
    does: under `"isObject"`, a hook selecting the state reads it back.
  */
  method StateAndSetterScenario() returns (state: int)
    ensures state == 1
  {
    var setState := (n: int) => n + 1;
    var store := new Store<Option<(int, int -> int)>>(Some((1, setState)));
    var bundle: Bundle<(int, int -> int), int> := Bundle(DefaultContextName, InternalOptions(IsObject, None));
    var same := (a: int, b: int) => a == b;
    var r := UseQuickContext(store, bundle, (v: Option<(int, int -> int)>) => if v.Some? then v.value.0 else 0, None, same, same);
    state := r.value.GetSnapshot();
  }

  /** The quick provider's value: `data` when it is defined, the default value otherwise. */
  function ProviderValue<D>(data: Option<D>, defaultValue: Option<D>): (v: Option<D>)
    ensures data.Some? ==> v == data
    ensures data.None? ==> v == defaultValue
  {
    if data.Some? then data else defaultValue
  }

  /** The provider's effect: after it runs, the store holds the provider's value and its listeners have been called. */
  method PublishProviderValue<D, T>(store: Store<Option<D>>, bundle: Bundle<D, T>, data: Option<D>)
    requires store.Valid()
    modifies store
    ensures store.Valid()
    ensures store.Get() == ProviderValue(data, bundle.options.defaultValue)
    ensures store.listeners == old(store.listeners)
    ensures store.fired == old(store.fired) + Calls(old(store.listeners), ProviderValue(data, bundle.options.defaultValue))
  {
    store.Set(ProviderValue(data, bundle.options.defaultValue));
  }
}
