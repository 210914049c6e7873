/**
 * The includer loader. `configure` records the configuration, `load` takes
 * an object naming every includer and the module that implements it,
 * fetches each module (first under `<path>/node_modules`, then directly
 * under `<path>`), and either resolves to an object mapping each includer
 * name to its module, recording them in the shared stack as well, or
 * rejects with an array of messages. `clearStack` replaces the shared
 * stack by a fresh, empty one.
 *
 * `require` is a lookup of the exact path string in `modules`; a module
 * absent from it is one whose `require` throws. Every `fetchModule`
 * promise settles inside its own executor, so `Promise.all` settles with
 * the first rejection in enumeration order, or with every value.
 */
module LoadIncluders {
  import opened Wrappers
  import opened Text
  import opened Js
  import Paths

  const NoIncluders := "Err: No includers provided"
  const CouldNotLoad := "Err: Includer could not be loaded"

  /** `Markconf.path`: `None` when reading it throws (no configuration, or `undefined`/`null`). */
  function MarkconfPath(markconf: Option<Value>): Option<Value> {
    match markconf
    case None => None
    case Some(Undefined) => None
    case Some(Null) => None
    case Some(Obj(props)) => Some(Get(props, "path"))
    case Some(_) => Some(Undefined)
  }

  /** `loadNpmModule`: `path.join` throws unless the configured path is a string. */
  function NpmModule(root: Option<Value>, modules: map<string, Value>, modpath: string): (r: Option<Value>)
    ensures r.Some? ==> root.Some? && root.value.Str?
  {
    if root.None? || !root.value.Str? then None
    else
      var full := Paths.Join([root.value.s, "node_modules", modpath]);
      if full in modules then Some(modules[full]) else None
  }

  /** `loadLocalModule`: the configured path, rendered as text, then '/' and the module path. */
  function LocalModule(root: Option<Value>, modules: map<string, Value>, modpath: string): (r: Option<Value>)
    ensures r.Some? ==> root.Some?
  {
    if root.None? then None
    else
      var full := ToString(root.value) + "/" + modpath;
      if full in modules then Some(modules[full]) else None
  }

  function CouldNotLoadMessage(deps: Value): string {
    "Err: Could not load: \"" + ToString(deps) + "\""
  }

  /**
   * `fetchModule(name, deps)`: a string names a module, tried under
   * `node_modules` first and only then locally; a missing or falsy module,
   * or a name that is not a string, rejects.
   */
  function FetchModule(root: Option<Value>, modules: map<string, Value>, deps: Value): (r: Result<Value, string>)
    ensures r.Ok? ==> Truthy(r.value) && deps.Str?
    ensures r.Err? ==> r.error == CouldNotLoadMessage(deps)
  {
    var found :=
      if !deps.Str? then None
      else if NpmModule(root, modules, deps.s).Some? then NpmModule(root, modules, deps.s)
      else LocalModule(root, modules, deps.s);
    if found.None? || !Truthy(found.value) then Err(CouldNotLoadMessage(deps))
    else Ok(found.value)
  }

  /** The `fetchModule` promise of each own includer, in enumeration order. */
  function Fetches(root: Option<Value>, modules: map<string, Value>, own: seq<Prop>): (r: seq<Result<Value, string>>)
    ensures |r| == |own|
  {
    seq(|own|, i requires 0 <= i < |own| => FetchModule(root, modules, own[i].value))
  }

  /** `Promise.all` over promises that have all settled: every value, or the first rejection. */
  function PromiseAll(ps: seq<Result<Value, string>>): (r: Result<seq<Value>, string>)
    ensures r.Ok? <==> forall i :: 0 <= i < |ps| ==> ps[i].Ok?
    ensures r.Ok? ==> |r.value| == |ps| && forall i :: 0 <= i < |ps| ==> ps[i] == Ok(r.value[i])
    ensures r.Err? ==> exists i :: 0 <= i < |ps| && ps[i] == Err(r.error) && forall j :: 0 <= j < i ==> ps[j].Ok?
  {
    if ps == [] then Ok([])
    else if ps[0].Err? then Err(ps[0].error)
    else
      var rest := PromiseAll(ps[1..]);
      assert forall i :: 1 <= i < |ps| ==> ps[i] == ps[1..][i - 1];
      if rest.Err? then
        var k :| 0 <= k < |ps| - 1 && ps[1..][k] == Err(rest.error) && forall j :: 0 <= j < k ==> ps[1..][j].Ok?;
        assert ps[k + 1] == Err(rest.error);
        Err(rest.error)
      else
        Ok([ps[0].value] + rest.value)
  }

  /** A map after `stack[name] = module` for each own includer, in order. */
  function Stacked(m: map<string, Value>, own: seq<Prop>, loaded: seq<Value>): map<string, Value>
    requires |loaded| == |own|
  {
    if own == [] then m
    else
      var n := |own| - 1;
      Stacked(m, own[..n], loaded[..n])[own[n].key := loaded[n]]
  }

  /** What the promise `load(includers)` settles with. */
  function Loaded(root: Option<Value>, modules: map<string, Value>, includers: Value): Result<seq<Prop>, seq<string>> {
    LoadedFrom(root, modules, OwnProps(Enumerable(includers)))
  }

  /** What `load` settles with, given the own properties of its argument. */
  function LoadedFrom(root: Option<Value>, modules: map<string, Value>, own: seq<Prop>): Result<seq<Prop>, seq<string>> {
    if |own| == 0 then Err([NoIncluders])
    else
      match PromiseAll(Fetches(root, modules, own))
      case Err(e) => Err([CouldNotLoad, e])
      case Ok(loaded) => Ok(Assigned(own, loaded))
  }

  /** `countMembers(obj)`: the number of own enumerable properties. */
  method CountMembers(obj: Value) returns (count: nat)
    ensures count == |OwnProps(Enumerable(obj))|
  {
    var props := Enumerable(obj);
    count := 0;
    var n := 0;
    while n < |props|
      invariant 0 <= n <= |props|
      invariant count == |OwnProps(props[..n])|
    {
      OwnPropsLast(props, n);
      if props[n].own {
        count := count + 1;
      }
      n := n + 1;
    }
    assert props[..n] == props;
  }

  /** The module's state: its configuration, the shared stack, and the object exported as `stack`. */
  class IncluderLoader {
    var markconf: Option<Value>
    var globalStack: map<string, Value>
    /** The object exported as `stack`: the first `globalStack`, which `clearStack` no longer updates. */
    var exportedStack: map<string, Value>
    /** Whether `globalStack` is still the exported object. */
    var exportAliased: bool

    ghost predicate Valid()
      reads this
    {
      exportAliased ==> exportedStack == globalStack
    }

    constructor()
      ensures markconf == None && globalStack == map[] && exportedStack == map[] && exportAliased
      ensures Valid()
    {
      markconf := None;
      globalStack := map[];
      exportedStack := map[];
      exportAliased := true;
    }

    method Configure(conf: Value)
      modifies this
      ensures markconf == Some(conf)
      ensures globalStack == old(globalStack) && exportedStack == old(exportedStack) && exportAliased == old(exportAliased)
    {
      markconf := Some(conf);
    }

    /** `clearStack`: a fresh empty stack; the exported object keeps what it held. */
    method ClearStack()
      modifies this
      ensures globalStack == map[] && !exportAliased
      ensures exportedStack == old(exportedStack) && markconf == old(markconf)
      ensures Valid()
    {
      globalStack := map[];
      exportAliased := false;
    }

    /**
     * `load(includers)`: on success both the result and the shared stack
     * gain every own includer's module; on failure nothing changes.
     */
    method Load(modules: map<string, Value>, includers: Value) returns (r: Result<seq<Prop>, seq<string>>)
      requires Valid()
      modifies this
      ensures Valid()
      ensures r == Loaded(MarkconfPath(markconf), modules, includers)
      ensures markconf == old(markconf) && exportAliased == old(exportAliased)
      ensures r.Err? ==> globalStack == old(globalStack) && exportedStack == old(exportedStack)
      ensures r.Ok? ==>
        var own := OwnProps(Enumerable(includers));
        var loaded := PromiseAll(Fetches(MarkconfPath(markconf), modules, own)).value;
        globalStack == Stacked(old(globalStack), own, loaded)
      ensures r.Ok? && !exportAliased ==> exportedStack == old(exportedStack)
    {
      var root := MarkconfPath(markconf);
      var includerCount := CountMembers(includers);
      var props := Enumerable(includers);
      ghost var own := OwnProps(props);
      if includerCount <= 0 {
        return Err([NoIncluders]);
      }

      var loadStack := FetchAll(root, modules, props);
      var all := PromiseAll(loadStack);
      if all.Err? {
        return Err([CouldNotLoad, all.error]);
      }
      r := Register(props, all.value);
    }

    /** The loop of `load` that starts `fetchModule` for each own includer, in enumeration order. */
    static method FetchAll(root: Option<Value>, modules: map<string, Value>, props: seq<Prop>)
      returns (loadStack: seq<Result<Value, string>>)
      ensures loadStack == Fetches(root, modules, OwnProps(props))
    {
      loadStack := [];
      var n := 0;
      while n < |props|
        invariant 0 <= n <= |props|
        invariant loadStack == Fetches(root, modules, OwnProps(props[..n]))
      {
        FetchesStep(root, modules, props, n);
        if props[n].own {
          loadStack := loadStack + [FetchModule(root, modules, props[n].value)];
        }
        n := n + 1;
      }
      assert props[..n] == props;
    }

    /**
     * The callback `load` hands to `Promise.all(...).then`: each own
     * includer, in enumeration order, gets its loaded module in the returned
     * object and in the shared stack.
     */
    method Register(props: seq<Prop>, loadedModules: seq<Value>) returns (r: Result<seq<Prop>, seq<string>>)
      requires Valid() && |loadedModules| == |OwnProps(props)|
      modifies this
      ensures Valid()
      ensures r == Ok(Assigned(OwnProps(props), loadedModules))
      ensures globalStack == Stacked(old(globalStack), OwnProps(props), loadedModules)
      ensures markconf == old(markconf) && exportAliased == old(exportAliased)
      ensures !exportAliased ==> exportedStack == old(exportedStack)
    {
      var returnStack: seq<Prop> := [];
      var i := 0;
      var n := 0;
      while n < |props|
        invariant n <= |props|
        invariant Registered(props, loadedModules, n, i, returnStack, globalStack, old(globalStack))
        invariant markconf == old(markconf) && exportAliased == old(exportAliased) && exportedStack == old(exportedStack)
      {
        i, returnStack := RegisterEntry(props, loadedModules, n, i, returnStack, old(globalStack));
        n := n + 1;
      }
      RegisteredAll(props, loadedModules, i, returnStack, globalStack, old(globalStack));
      if exportAliased {
        exportedStack := globalStack;
      }
      return Ok(returnStack);
    }

    /** One pass of the callback's loop: the property at `n`, if own, takes the next loaded module. */
    method RegisterEntry(props: seq<Prop>, loadedModules: seq<Value>, n: nat, i: nat, returnStack: seq<Prop>, ghost base: map<string, Value>)
      returns (i': nat, returnStack': seq<Prop>)
      requires n < |props| && Registered(props, loadedModules, n, i, returnStack, globalStack, base)
      modifies this
      ensures Registered(props, loadedModules, n + 1, i', returnStack', globalStack, base)
      ensures markconf == old(markconf) && exportAliased == old(exportAliased) && exportedStack == old(exportedStack)
    {
      ghost var own := OwnProps(props);
      OwnStep(props, n, i);
      i', returnStack' := i, returnStack;
      if props[n].own {
        StackStep(base, own, loadedModules, i);
        var activeModule := loadedModules[i];
        i' := i + 1;
        returnStack' := Assign(returnStack, props[n].key, activeModule);
        globalStack := globalStack[props[n].key := activeModule];
      }
    }
  }

  /**
   * After the first `n` enumerated properties, `i` own includers have
   * been given their modules, in the returned object and in the shared stack.
   */
  ghost predicate Registered(props: seq<Prop>, loaded: seq<Value>, n: nat, i: nat,
                             returnStack: seq<Prop>, stack: map<string, Value>, base: map<string, Value>)
  {
    && n <= |props|
    && |loaded| == |OwnProps(props)|
    && i == |OwnProps(props[..n])| <= |OwnProps(props)|
    && OwnProps(props[..n]) == OwnProps(props)[..i]
    && returnStack == Assigned(OwnProps(props)[..i], loaded[..i])
    && stack == Stacked(base, OwnProps(props)[..i], loaded[..i])
  }

  /** Once every property has been enumerated, every own includer has its module. */
  lemma RegisteredAll(props: seq<Prop>, loaded: seq<Value>, i: nat,
                      returnStack: seq<Prop>, stack: map<string, Value>, base: map<string, Value>)
    requires Registered(props, loaded, |props|, i, returnStack, stack, base)
    ensures returnStack == Assigned(OwnProps(props), loaded)
    ensures stack == Stacked(base, OwnProps(props), loaded)
  {
    assert props[..|props|] == props;
    assert OwnProps(props)[..i] == OwnProps(props) && loaded[..i] == loaded;
  }

  /** One more enumerated property adds its own fetch, if it is own, to the fetches so far. */
  lemma FetchesStep(root: Option<Value>, modules: map<string, Value>, props: seq<Prop>, n: nat)
    requires n < |props|
    ensures Fetches(root, modules, OwnProps(props[..n + 1])) ==
      Fetches(root, modules, OwnProps(props[..n])) + if props[n].own then [FetchModule(root, modules, props[n].value)] else []
  {
    assert props[..n + 1][..n] == props[..n];
  }

  /** The `i`-th own property is the next own property the enumeration meets. */
  lemma OwnStep(props: seq<Prop>, n: nat, i: nat)
    requires n < |props| && i <= |OwnProps(props)| && OwnProps(props[..n]) == OwnProps(props)[..i]
    ensures props[n].own ==> i < |OwnProps(props)| && OwnProps(props)[i] == props[n] && OwnProps(props[..n + 1]) == OwnProps(props)[..i + 1]
    ensures !props[n].own ==> OwnProps(props[..n + 1]) == OwnProps(props)[..i]
  {
    OwnPropsLast(props, n);
    OwnPrefix(props, n + 1);
    if props[n].own {
      var next := OwnProps(props[..n + 1]);
      assert |next| == i + 1;
      assert next[i] == props[n];
    }
  }

  /** The own properties of a prefix begin the own properties of the whole. */
  lemma OwnPrefix(props: seq<Prop>, m: nat)
    requires m <= |props|
    ensures |OwnProps(props[..m])| <= |OwnProps(props)|
    ensures OwnProps(props)[..|OwnProps(props[..m])|] == OwnProps(props[..m])
  {
    assert props[..m] + props[m..] == props;
    OwnPropsAppend(props[..m], props[m..]);
    PrefixOfConcat(OwnProps(props[..m]), OwnProps(props[m..]));
  }

  lemma PrefixOfConcat(a: seq<Prop>, b: seq<Prop>)
    ensures (a + b)[..|a|] == a
  {
  }

  /** Assigning the next own includer extends both the returned stack and the shared one. */
  lemma StackStep(m: map<string, Value>, own: seq<Prop>, loaded: seq<Value>, i: nat)
    requires i < |own| == |loaded|
    ensures Assigned(own[..i + 1], loaded[..i + 1]) == Assign(Assigned(own[..i], loaded[..i]), own[i].key, loaded[i])
    ensures Stacked(m, own[..i + 1], loaded[..i + 1]) == Stacked(m, own[..i], loaded[..i])[own[i].key := loaded[i]]
  {
    assert own[..i + 1][..i] == own[..i];
    assert loaded[..i + 1][..i] == loaded[..i];
  }

  // ---------------------------------------------------------------------------
  // What `load` promises.

  /** The keys of a sequence of properties. */
  function Keys(ps: seq<Prop>): set<string> {
    set i | 0 <= i < |ps| :: ps[i].key
  }

  /** The shared stack gains exactly the includer names. */
  lemma {:induction false} StackedKeys(m: map<string, Value>, own: seq<Prop>, loaded: seq<Value>)
    requires |loaded| == |own|
    ensures Stacked(m, own, loaded).Keys == m.Keys + Keys(own)
  {
    if own != [] {
      var n := |own| - 1;
      StackedKeys(m, own[..n], loaded[..n]);
      KeysLast(own);
    }
  }

  lemma KeysLast(own: seq<Prop>)
    requires own != []
    ensures Keys(own) == Keys(own[..|own| - 1]) + {own[|own| - 1].key}
  {
    var n := |own| - 1;
    forall k | k in Keys(own) ensures k in Keys(own[..n]) + {own[n].key} {
      var i :| 0 <= i < |own| && own[i].key == k;
      if i < n {
        assert own[..n][i].key == k;
      }
    }
  }

  /** Each includer name in the shared stack is bound to its module. */
  lemma {:induction false} StackedValues(m: map<string, Value>, own: seq<Prop>, loaded: seq<Value>)
    requires |loaded| == |own| && DistinctKeys(own)
    ensures forall i :: 0 <= i < |own| ==> own[i].key in Stacked(m, own, loaded) && Stacked(m, own, loaded)[own[i].key] == loaded[i]
  {
    if own != [] {
      var n := |own| - 1;
      assert DistinctKeys(own[..n]);
      StackedValues(m, own[..n], loaded[..n]);
      assert forall i :: 0 <= i < n ==> own[..n][i] == own[i] && loaded[..n][i] == loaded[i];
    }
  }

  /** Entries of the shared stack whose name no includer has keep their module. */
  lemma {:induction false} StackedKeeps(m: map<string, Value>, own: seq<Prop>, loaded: seq<Value>, k: string)
    requires |loaded| == |own| && k in m
    requires forall i :: 0 <= i < |own| ==> own[i].key != k
    ensures k in Stacked(m, own, loaded) && Stacked(m, own, loaded)[k] == m[k]
  {
    if own != [] {
      var n := |own| - 1;
      assert forall i :: 0 <= i < n ==> own[..n][i] == own[i];
      StackedKeeps(m, own[..n], loaded[..n], k);
    }
  }

  /**
   * `load` resolves exactly when some includer is named and every named
   * module loads, and then maps each name, in enumeration order, to its module.
   */
  lemma LoadResolves(root: Option<Value>, modules: map<string, Value>, own: seq<Prop>)
    requires DistinctKeys(own)
    ensures LoadedFrom(root, modules, own).Ok? <==>
      |own| > 0 && forall i :: 0 <= i < |own| ==> FetchModule(root, modules, own[i].value).Ok?
    ensures var r := LoadedFrom(root, modules, own);
      r.Ok? ==> (|r.value| == |own| &&
        forall i :: 0 <= i < |own| ==> r.value[i] == Prop(own[i].key, FetchModule(root, modules, own[i].value).value, true))
  {
    var ps := Fetches(root, modules, own);
    var all := PromiseAll(ps);
    assert forall i :: 0 <= i < |own| ==> ps[i] == FetchModule(root, modules, own[i].value);
    if |own| > 0 && all.Ok? {
      AssignedPairs(own, all.value);
    }
  }

  /**
   * `load` rejects with one message when no includer is named, and otherwise
   * with the message of the first includer, in enumeration order, whose
   * module does not load.
   */
  lemma LoadRejects(root: Option<Value>, modules: map<string, Value>, own: seq<Prop>)
    ensures |own| == 0 ==> LoadedFrom(root, modules, own) == Err([NoIncluders])
    ensures |own| > 0 && LoadedFrom(root, modules, own).Err? ==>
      exists i :: 0 <= i < |own| && FetchModule(root, modules, own[i].value).Err? &&
        (forall j :: 0 <= j < i ==> FetchModule(root, modules, own[j].value).Ok?) &&
        LoadedFrom(root, modules, own) == Err([CouldNotLoad, CouldNotLoadMessage(own[i].value)])
  {
    var ps := Fetches(root, modules, own);
    if |own| > 0 && PromiseAll(ps).Err? {
      var i :| 0 <= i < |ps| && ps[i] == Err(PromiseAll(ps).error) && forall j :: 0 <= j < i ==> ps[j].Ok?;
      assert ps[i] == FetchModule(root, modules, own[i].value);
      assert forall j :: 0 <= j < i ==> ps[j] == FetchModule(root, modules, own[j].value);
    }
  }

  /** A successful `load` leaves every includer in the shared stack, bound to its module, and keeps the other entries. */
  lemma LoadStacks(m: map<string, Value>, root: Option<Value>, modules: map<string, Value>, own: seq<Prop>)
    requires DistinctKeys(own)
    requires LoadedFrom(root, modules, own).Ok?
    ensures var stack := Stacked(m, own, PromiseAll(Fetches(root, modules, own)).value);
      && stack.Keys == m.Keys + Keys(own)
      && (forall i :: 0 <= i < |own| ==> Ok(stack[own[i].key]) == FetchModule(root, modules, own[i].value))
  {
    var ps := Fetches(root, modules, own);
    var loaded := PromiseAll(ps).value;
    StackedKeys(m, own, loaded);
    StackedValues(m, own, loaded);
    assert forall i :: 0 <= i < |own| ==> ps[i] == FetchModule(root, modules, own[i].value);
  }

  /**
   * When a fetch resolves: for a string name, exactly when the module under
   * `node_modules` is truthy, or there is none and the local module is
   * truthy, and then with that module. A name that is not a string, and a
   * string name both lookups miss, reject with the message naming it.
   */
  lemma FetchModuleCases(root: Option<Value>, modules: map<string, Value>, deps: Value)
    ensures !deps.Str? ==> FetchModule(root, modules, deps) == Err(CouldNotLoadMessage(deps))
    ensures deps.Str? ==>
      var npm := NpmModule(root, modules, deps.s);
      var local := LocalModule(root, modules, deps.s);
      && (FetchModule(root, modules, deps).Ok? <==>
            (npm.Some? && Truthy(npm.value)) || (npm.None? && local.Some? && Truthy(local.value)))
      && (FetchModule(root, modules, deps).Ok? ==>
            FetchModule(root, modules, deps).value == if npm.Some? then npm.value else local.value)
      && (npm.None? && local.None? ==> FetchModule(root, modules, deps) == Err(CouldNotLoadMessage(deps)))
  {
  }

  /** A module found under `node_modules` is the one used, even a falsy one: the local path is not tried. */
  lemma NpmModuleWins(root: Option<Value>, modules: map<string, Value>, name: string, v: Value)
    requires NpmModule(root, modules, name) == Some(v)
    ensures FetchModule(root, modules, Str(name)) == if Truthy(v) then Ok(v) else Err(CouldNotLoadMessage(Str(name)))
  {
  }

  /** Without a module under `node_modules`, the module directly under the configured path is used. */
  lemma LocalModuleFallback(root: Option<Value>, modules: map<string, Value>, name: string, v: Value)
    requires NpmModule(root, modules, name).None? && LocalModule(root, modules, name) == Some(v) && Truthy(v)
    ensures FetchModule(root, modules, Str(name)) == Ok(v)
  {
  }

  /** Before `configure`, no module loads. */
  lemma UnconfiguredNeverLoads(modules: map<string, Value>, deps: Value)
    ensures FetchModule(MarkconfPath(None), modules, deps).Err?
  {
  }
}
