/**
 * The plugin configurator of lib/plugin/congure-save.tmp.js.
 * `resolveConf` turns a configuration object into an object of registered
 * plugins. Each entry of the configuration names a plugin: a module name, an
 * object with a `module` property, a function, or an array.
 * `configurePlugins` calls the `configure` method of every plugin of one kind.
 *
 * The outside world enters as parameters:
 *  - `require` is a map from module name to the loaded module;
 *  - the value `registry.register` returns is the function `register`;
 *  - what a plugin's own `configure(Markconf)` does is the function `behaviour`.
 * The side effects are recorded on a `Configurator` object: the calls made to
 * `registry.register`, and the plugins whose `configure` was called.
 */
module ConfigureSave {
  import opened Wrappers
  import opened Text
  import opened Js

  /** Why a promise rejects. */
  datatype Reason =
    | Message(text: string)         // a message the configurator rejects with
    | RejectedFalse                 // `reject(false)`
    | TypeError                     // a TypeError thrown by the engine
    | ModuleNotFound(name: string)  // `require` of a name that has no module
    | PluginError(error: Value)     // what a plugin's `configure` threw or rejected with

  /**
   * A promise once the configurator's synchronous work is over: it is
   * resolved, or it is rejected after `delay` more turns of the microtask
   * queue, or it never settles.
   */
  datatype Settlement = Resolved(value: Value) | Rejected(reason: Reason, delay: nat) | Pending

  /** One step of a loop either creates a promise or throws synchronously. */
  datatype Attempt = Made(promise: Settlement) | Threw(error: Reason)

  /** How the promise returned by an operation ends. */
  datatype Outcome = Resolves(value: Value) | Rejects(reason: Reason) | Hangs

  /** One call `registry.register(name, key, type)`. */
  datatype Registration = Registration(name: string, key: string, pluginType: string)

  /** What a plugin's own `configure(Markconf)` does. */
  datatype CallOutcome = Fulfils | RejectsWith(error: Value) | NeverSettles | ThrowsError(error: Value)

  // ---------------------------------------------------------------------------
  // The resolvers.

  /** `keyType`: the name of the resolver for an entry. */
  function KeyType(ref: Value): (r: string)
    ensures r == "_array" <==> ref.Arr?
    ensures |r| >= 2 && r[0] == '_'
  {
    if ref.Arr? then "_array"
    else
      var t := TypeOf(ref);
      assert ("_" + t)[1..] == t;
      "_" + t
  }

  /** The resolver table: which kind of entry reaches which resolver, and which reach none. */
  lemma ResolverFor(v: Value)
    ensures KeyType(v) == "_function" <==> v.Func?
    ensures KeyType(v) == "_string" <==> v.Str?
    ensures KeyType(v) == "_object" <==> v.Obj? || v.Null?
    ensures KeyType(v) == "_array" <==> v.Arr?
    ensures KeyType(v) !in {"_function", "_string", "_object", "_array"} <==> v.Undefined? || v.Bool? || v.Num?
  {
    var r := KeyType(v);
    if !v.Arr? {
      assert r[1..] == TypeOf(v);
    }
    assert "_function"[1..] == "function" && "_string"[1..] == "string" && "_object"[1..] == "object";
  }

  function NotAnObject(name: string): string {
    "Plugin definition for " + name + " was not returned as an object!"
  }

  /** Moves a rejection `d` turns of the microtask queue later. */
  function Delayed(s: Settlement, d: nat): (r: Settlement)
    ensures r.Resolved? == s.Resolved? && r.Pending? == s.Pending?
    ensures s.Rejected? ==> r == Rejected(s.reason, s.delay + d)
  {
    if s.Rejected? then Rejected(s.reason, s.delay + d) else s
  }

  /**
   * `resolver._string(name, type, key, def)`. A name `require` finds no module
   * for rejects, with a TypeError when the name is not a string. A module that
   * is not an object rejects. Otherwise the plugin is registered; the promise
   * resolves with it when `def` is falsy or the type is "modifier", and never
   * settles when it is not.
   */
  function StringSettles(modules: map<string, Value>, register: Registration -> Value,
                         name: Value, pluginType: string, key: string, def: Value): Settlement
  {
    if !name.Str? then Rejected(TypeError, 0)
    else if name.s !in modules then Rejected(ModuleNotFound(name.s), 0)
    else if TypeOf(modules[name.s]) != "object" then Rejected(Message(NotAnObject(name.s)), 0)
    else
      var plugin := register(Registration(name.s, key, pluginType));
      if !Truthy(def) then Resolved(plugin)
      else if pluginType == "modifier" then Resolved(plugin)
      else Pending
  }

  /** The registrations `resolver._string` makes: one, exactly when the module loads as an object. */
  function StringRegistrations(modules: map<string, Value>, name: Value, pluginType: string, key: string): seq<Registration> {
    if name.Str? && name.s in modules && TypeOf(modules[name.s]) == "object"
    then [Registration(name.s, key, pluginType)]
    else []
  }

  /**
   * `resolver._object(item, type, key)`, which only `null` and objects reach.
   * `hasOwnProperty` of `null` throws inside the executor. On an object
   * without an own `module` property the promise rejects with `false`.
   * Otherwise it passes on the settlement of `_string(item.module, type, key,
   * item)` through `then` and `catch`, two turns of the microtask queue later.
   */
  function ObjectSettles(modules: map<string, Value>, register: Registration -> Value,
                         item: Value, pluginType: string, key: string): Settlement
    requires item.Obj? || item.Null?
  {
    if item.Null? then Rejected(TypeError, 0)
    else if !HasOwn(item.props, "module") then Rejected(RejectedFalse, 0)
    else Delayed(StringSettles(modules, register, OwnValue(item.props, "module"), pluginType, key, item), 2)
  }

  function ObjectRegistrations(modules: map<string, Value>, item: Value, pluginType: string, key: string): seq<Registration> {
    if item.Obj? && HasOwn(item.props, "module")
    then StringRegistrations(modules, OwnValue(item.props, "module"), pluginType, key)
    else []
  }

  /**
   * `resolver._array` as written. Its `map` callback calls the string `type`
   * as a function, so a non-empty array makes the executor throw a TypeError.
   * An empty array reaches `Promise.all([])`, which resolves with `[]`.
   */
  function ArraySettles(elems: seq<Value>): Settlement {
    if elems == [] then Resolved(Arr([])) else Rejected(TypeError, 0)
  }

  /**
   * `resolver[keyType(elem)](elem, type, key)`, each kind of value reaching
   * the resolver `ResolverFor` names for it. A value with no resolver
   * (`undefined`, a boolean, a number) makes the call of `undefined` throw.
   */
  function Dispatch(modules: map<string, Value>, register: Registration -> Value,
                    elem: Value, pluginType: string, key: string): Attempt
  {
    match elem
    case Func(_) => Made(Resolved(elem))
    case Str(_) => Made(StringSettles(modules, register, elem, pluginType, key, Undefined))
    case Obj(_) => Made(ObjectSettles(modules, register, elem, pluginType, key))
    case Null => Made(ObjectSettles(modules, register, elem, pluginType, key))
    case Arr(elems) => Made(ArraySettles(elems))
    case _ => Threw(TypeError)
  }

  /** The registrations one dispatch makes. */
  function DispatchRegistrations(modules: map<string, Value>, elem: Value, pluginType: string, key: string): seq<Registration> {
    match elem
    case Str(_) => StringRegistrations(modules, elem, pluginType, key)
    case Obj(_) => ObjectRegistrations(modules, elem, pluginType, key)
    case _ => []
  }

  // ---------------------------------------------------------------------------
  // `Promise.all` and the loops over keys.

  /**
   * Where a loop of attempts stands: the promises made so far, what the
   * attempts logged, and the error of the attempt that threw, after which
   * the loop stops.
   */
  datatype Progress<L> = Progress(promises: seq<Settlement>, log: seq<L>, thrown: Option<Reason>)

  /** One more attempt, with what it logs; nothing happens once an attempt has thrown. */
  function Step<L>(p: Progress<L>, a: Attempt, l: seq<L>): Progress<L> {
    if p.thrown.Some? then p
    else
      match a
      case Made(s) => Progress(p.promises + [s], p.log + l, None)
      case Threw(e) => Progress(p.promises, p.log + l, Some(e))
  }

  /**
   * The state a loop has reached matches `p`: nothing has thrown, the
   * promises are those of `p`, and `log` is `base` followed by what `p` logged.
   */
  ghost predicate Follows<L>(p: Progress<L>, promises: seq<Settlement>, log: seq<L>, base: seq<L>) {
    p.thrown.None? && p.promises == promises && log == base + p.log
  }

  /** Where a loop stands before its first step. */
  function Start<L>(): Progress<L> {
    Progress([], [], None)
  }

  /** A loop over `steps`, each an attempt and what it logs, continuing from `p`. */
  function Resume<L>(p: Progress<L>, steps: seq<(Attempt, seq<L>)>): (r: Progress<L>)
    ensures r.thrown.None? ==> |r.promises| == |p.promises| + |steps|
  {
    if steps == [] then p
    else
      var n := |steps| - 1;
      Step(Resume(p, steps[..n]), steps[n].0, steps[n].1)
  }

  /** Everything the steps log, in order. */
  function Logs<L>(steps: seq<(Attempt, seq<L>)>): seq<L> {
    if steps == [] then []
    else
      var n := |steps| - 1;
      Logs(steps[..n]) + steps[n].1
  }

  /**
   * The rejection `Promise.all` reports: among the rejected promises the one
   * that rejects first, the earlier position winning a tie.
   */
  function Winner(ss: seq<Settlement>): (w: Option<nat>)
    ensures w.Some? ==> w.value < |ss| && ss[w.value].Rejected?
    decreases |ss|
  {
    if ss == [] then None
    else
      var n := |ss| - 1;
      var w := Winner(ss[..n]);
      if ss[n].Rejected? && (w.None? || ss[n].delay < ss[..n][w.value].delay) then Some(n) else w
  }

  function Values(ss: seq<Settlement>): seq<Value>
    requires forall j :: 0 <= j < |ss| ==> ss[j].Resolved?
  {
    seq(|ss|, j requires 0 <= j < |ss| => ss[j].value)
  }

  /**
   * `Promise.all(ss)`: the winning rejection, or else a promise that never
   * settles, or else all the values in order.
   */
  function PromiseAll(ss: seq<Settlement>): Outcome {
    WinnerFirst(ss);
    var w := Winner(ss);
    if w.Some? then Rejects(ss[w.value].reason)
    else if exists j :: 0 <= j < |ss| && ss[j].Pending? then Hangs
    else Resolves(Arr(Values(ss)))
  }

  /** The winner is a rejection no other rejection comes before, and there is one exactly when some promise rejects. */
  lemma {:induction false} WinnerFirst(ss: seq<Settlement>)
    ensures Winner(ss).None? <==> forall j :: 0 <= j < |ss| ==> !ss[j].Rejected?
    ensures Winner(ss).Some? ==> forall j :: 0 <= j < |ss| && ss[j].Rejected? ==>
      ss[Winner(ss).value].delay < ss[j].delay ||
      (ss[Winner(ss).value].delay == ss[j].delay && Winner(ss).value <= j)
    decreases |ss|
  {
    if ss != [] {
      var n := |ss| - 1;
      WinnerFirst(ss[..n]);
      assert forall j :: 0 <= j < n ==> ss[..n][j] == ss[j];
    }
  }

  /**
   * `Promise.all` rejects when some promise rejects, and only then with the
   * reason of one of them. It never settles when no promise rejects and some
   * promise never settles. It resolves when every promise resolves, and then
   * with their values in order.
   */
  lemma PromiseAllSettles(ss: seq<Settlement>)
    ensures PromiseAll(ss).Rejects? <==> exists j :: 0 <= j < |ss| && ss[j].Rejected?
    ensures PromiseAll(ss).Rejects? ==> exists j :: 0 <= j < |ss| && ss[j].Rejected? && ss[j].reason == PromiseAll(ss).reason
    ensures PromiseAll(ss).Hangs? <==> (forall j :: 0 <= j < |ss| ==> !ss[j].Rejected?) && exists j :: 0 <= j < |ss| && ss[j].Pending?
    ensures PromiseAll(ss).Resolves? <==> forall j :: 0 <= j < |ss| ==> ss[j].Resolved?
    ensures PromiseAll(ss).Resolves? ==> PromiseAll(ss).value == Arr(Values(ss))
  {
    WinnerFirst(ss);
  }

  // ---------------------------------------------------------------------------
  // `resolveConf`.

  /**
   * `Reflect.ownKeys(conf)` with each key's value, or `None` where it throws
   * (on anything but an object). An object lists its own properties. An array
   * lists its indices and then `length`. For a function the first own key is
   * `length`, which holds a number.
   */
  function KeysOf(conf: Value): (r: Option<seq<Prop>>)
    ensures r.None? <==> !conf.Obj? && !conf.Arr? && !conf.Func?
    ensures conf.Obj? ==> r == Some(OwnProps(conf.props))
  {
    match conf
    case Obj(props) => Some(OwnProps(props))
    case Arr(elems) => Some(Enumerable(conf) + [Prop("length", Num(|elems|), true)])
    case Func(_) => Some([Prop("length", Num(0), true)])
    case _ => None
  }

  /** Each key's dispatch and the registrations it makes. */
  function DispatchSteps(modules: map<string, Value>, register: Registration -> Value, keys: seq<Prop>, pluginType: string): seq<(Attempt, seq<Registration>)> {
    seq(|keys|, i requires 0 <= i < |keys| =>
      (Dispatch(modules, register, keys[i].value, pluginType, keys[i].key),
       DispatchRegistrations(modules, keys[i].value, pluginType, keys[i].key)))
  }

  /**
   * How `resolveConf(conf, type)` ends once `Reflect.ownKeys` has listed the
   * keys. A dispatch that throws rejects it at once. Otherwise it follows
   * `Promise.all` of the resolvers' promises, and on success it resolves with
   * each key holding the result at its index.
   */
  function ResolvedKeys(modules: map<string, Value>, register: Registration -> Value, keys: seq<Prop>, pluginType: string): Outcome {
    var run := Resume(Start(), DispatchSteps(modules, register, keys, pluginType));
    if run.thrown.Some? then Rejects(run.thrown.value)
    else
      var all := PromiseAll(run.promises);
      PromiseAllSettles(run.promises);
      if all.Resolves? then Resolves(Obj(Assigned(keys, Values(run.promises))))
      else all
  }

  /** How `resolveConf(conf, type)` ends; `Reflect.ownKeys` throws on anything but an object. */
  function ResolvedConf(modules: map<string, Value>, register: Registration -> Value, conf: Value, pluginType: string): Outcome {
    match KeysOf(conf)
    case None => Rejects(TypeError)
    case Some(keys) => ResolvedKeys(modules, register, keys, pluginType)
  }

  /** The registrations `resolveConf` makes: those of each key up to the first dispatch that throws. */
  function RegisteredBy(modules: map<string, Value>, register: Registration -> Value, conf: Value, pluginType: string): seq<Registration> {
    match KeysOf(conf)
    case None => []
    case Some(keys) => Resume(Start(), DispatchSteps(modules, register, keys, pluginType)).log
  }

  // ---------------------------------------------------------------------------
  // `configureStack` and `configurePlugins`.

  /** An array plugin stands for its elements; any other plugin for itself. */
  function PluginTargets(plugin: Value): seq<Value> {
    if plugin.Arr? then plugin.elems else [plugin]
  }

  /** The plugins `configureStack` calls `configure` on, in order. */
  function Targets(props: seq<Prop>): seq<Value> {
    if props == [] then []
    else
      var n := |props| - 1;
      Targets(props[..n]) + PluginTargets(props[n].value)
  }

  /** The name of the method every plugin offers for configuration. */
  const ConfigureName := "configure"

  /** `plugin.configure` is a function that can be called. */
  predicate HasConfigure(plugin: Value) {
    plugin.Obj? && Get(plugin.props, ConfigureName).Func?
  }

  /**
   * `plugin.configure(Markconf)`. Calling it on a plugin without a `configure`
   * function throws a TypeError. Otherwise `behaviour` says what the call does.
   */
  function Call(behaviour: (Value, Value) -> CallOutcome, markconf: Value, plugin: Value): Attempt {
    if !HasConfigure(plugin) then Threw(TypeError)
    else
      match behaviour(plugin, markconf)
      case Fulfils => Made(Resolved(Undefined))
      case RejectsWith(e) => Made(Rejected(PluginError(e), 0))
      case NeverSettles => Made(Pending)
      case ThrowsError(e) => Threw(PluginError(e))
  }

  /** A call logs its plugin when it is made. */
  function CallLog(plugin: Value): seq<Value> {
    if HasConfigure(plugin) then [plugin] else []
  }

  /** Each call of `configure` on `subPlugs` in turn, and what it logs. */
  function CallSteps(behaviour: (Value, Value) -> CallOutcome, markconf: Value, subPlugs: seq<Value>): seq<(Attempt, seq<Value>)> {
    seq(|subPlugs|, i requires 0 <= i < |subPlugs| => (Call(behaviour, markconf, subPlugs[i]), CallLog(subPlugs[i])))
  }

  /** The loop of `configureStack` over the enumerated plugins, with an inner loop over each plugin's targets. */
  function CallStack(behaviour: (Value, Value) -> CallOutcome, markconf: Value, props: seq<Prop>): Progress<Value> {
    if props == [] then Start()
    else
      var n := |props| - 1;
      Resume(CallStack(behaviour, markconf, props[..n]), CallSteps(behaviour, markconf, PluginTargets(props[n].value)))
  }

  /**
   * How `configureStack` ends once its loop has run over `props`. A call that
   * throws rejects it at once. Otherwise it follows `Promise.all` of the
   * calls' promises and resolves with `undefined`.
   */
  function StackRun(behaviour: (Value, Value) -> CallOutcome, markconf: Value, props: seq<Prop>): Outcome {
    var run := CallStack(behaviour, markconf, props);
    if run.thrown.Some? then Rejects(run.thrown.value)
    else
      var all := PromiseAll(run.promises);
      if all.Resolves? then Resolves(Undefined) else all
  }

  /** How `configureStack(stack, Markconf)` ends. On a non-empty string, `Reflect.has` throws at the first index. */
  function StackOutcome(behaviour: (Value, Value) -> CallOutcome, markconf: Value, stack: Value): Outcome {
    if stack.Str? && stack.s != "" then Rejects(TypeError)
    else StackRun(behaviour, markconf, Enumerable(stack))
  }

  /** The plugins `configureStack` calls, up to and including a call that throws. */
  function StackCalled(behaviour: (Value, Value) -> CallOutcome, markconf: Value, stack: Value): seq<Value> {
    if stack.Str? && stack.s != "" then []
    else CallStack(behaviour, markconf, Enumerable(stack)).log
  }

  const NoPlugins := "No plugins were found to configure."
  const NoModifierPlugins := "No modifier plugins were found to configure."

  function NoPluginsOfType(pluginType: string): string {
    "No " + pluginType + " plugins were found to configure."
  }

  /**
   * The guards of `configurePlugins(Markconf, plugins, type)`. The result is
   * the stack to configure, or the reason the call rejects. `Reflect.ownKeys`
   * of a stack that is not an object throws. The message for a stack without
   * keys names "modifier" whatever the type.
   */
  function StackToConfigure(plugins: Value, pluginType: string): Result<Value, Reason> {
    if !Truthy(plugins) then Err(Message(NoPlugins))
    else if !HasOwn(Enumerable(plugins), pluginType) then Err(Message(NoPluginsOfType(pluginType)))
    else
      var stack := OwnValue(Enumerable(plugins), pluginType);
      match KeysOf(stack)
      case None => Err(TypeError)
      case Some(keys) => if |keys| > 0 then Ok(stack) else Err(Message(NoModifierPlugins))
  }

  function ConfiguredPlugins(behaviour: (Value, Value) -> CallOutcome, markconf: Value, plugins: Value, pluginType: string): Outcome {
    match StackToConfigure(plugins, pluginType)
    case Err(e) => Rejects(e)
    case Ok(stack) => StackOutcome(behaviour, markconf, stack)
  }

  function PluginsCalled(behaviour: (Value, Value) -> CallOutcome, markconf: Value, plugins: Value, pluginType: string): seq<Value> {
    match StackToConfigure(plugins, pluginType)
    case Err(_) => []
    case Ok(stack) => StackCalled(behaviour, markconf, stack)
  }

  /** The object `configureIncluders` and `configureModifiers` both build around their stack. */
  function Wrapped(stack: Value): Value {
    Obj([Prop("includers", stack, true)])
  }

  // ---------------------------------------------------------------------------
  // The configurator's state and its operations.

  class Configurator {
    /** The calls made to `registry.register`, in order. */
    var registrations: seq<Registration>
    /** The plugins whose `configure` method was called, in order. */
    var configured: seq<Value>

    constructor ()
      ensures registrations == [] && configured == []
    {
      registrations := [];
      configured := [];
    }

    /** `resolver._string`, registering the plugin with the registry. */
    method ResolveString(modules: map<string, Value>, register: Registration -> Value,
                         name: Value, pluginType: string, key: string, def: Value) returns (s: Settlement)
      modifies this
      ensures s == StringSettles(modules, register, name, pluginType, key, def)
      ensures registrations == old(registrations) + StringRegistrations(modules, name, pluginType, key)
      ensures configured == old(configured)
    {
      if !name.Str? {
        return Rejected(TypeError, 0);
      }
      if name.s !in modules {
        return Rejected(ModuleNotFound(name.s), 0);
      }
      var pluginCb := modules[name.s];
      if TypeOf(pluginCb) != "object" {
        return Rejected(Message(NotAnObject(name.s)), 0);
      }
      var registration := Registration(name.s, key, pluginType);
      registrations := registrations + [registration];
      var plugin := register(registration);
      if !Truthy(def) {
        return Resolved(plugin);
      }
      if pluginType == "modifier" {
        return Resolved(plugin);
      }
      return Pending;
    }

    /** `resolver._object`. */
    method ResolveObject(modules: map<string, Value>, register: Registration -> Value,
                         item: Value, pluginType: string, key: string) returns (s: Settlement)
      requires item.Obj? || item.Null?
      modifies this
      ensures s == ObjectSettles(modules, register, item, pluginType, key)
      ensures registrations == old(registrations) + ObjectRegistrations(modules, item, pluginType, key)
      ensures configured == old(configured)
    {
      if item.Null? {
        return Rejected(TypeError, 0);
      }
      if !HasOwn(item.props, "module") {
        return Rejected(RejectedFalse, 0);
      }
      var inner := ResolveString(modules, register, OwnValue(item.props, "module"), pluginType, key, item);
      return Delayed(inner, 2);
    }

    /** `resolver[keyType(elem)](elem, type, key)`. */
    method DispatchEntry(modules: map<string, Value>, register: Registration -> Value,
                         elem: Value, pluginType: string, key: string) returns (a: Attempt)
      modifies this
      ensures a == Dispatch(modules, register, elem, pluginType, key)
      ensures registrations == old(registrations) + DispatchRegistrations(modules, elem, pluginType, key)
      ensures configured == old(configured)
    {
      ResolverFor(elem);
      var resolverName := KeyType(elem);
      if resolverName == "_function" {
        a := Made(Resolved(elem));
      } else if resolverName == "_string" {
        var s := ResolveString(modules, register, elem, pluginType, key, Undefined);
        a := Made(s);
      } else if resolverName == "_object" {
        var s := ResolveObject(modules, register, elem, pluginType, key);
        a := Made(s);
      } else if resolverName == "_array" {
        a := Made(ArraySettles(elem.elems));
      } else {
        a := Threw(TypeError);
      }
    }

    /**
     * The first loop of `resolveConf`: dispatches each key in order, pushing
     * the resolvers' promises, until a dispatch throws.
     */
    method DispatchKeys(modules: map<string, Value>, register: Registration -> Value,
                        keys: seq<Prop>, pluginType: string) returns (promises: seq<Settlement>, thrown: Option<Reason>)
      modifies this
      ensures Resume(Start(), DispatchSteps(modules, register, keys, pluginType)).thrown == thrown
      ensures thrown.None? ==> Resume(Start(), DispatchSteps(modules, register, keys, pluginType)).promises == promises
      ensures registrations == old(registrations) + Resume(Start(), DispatchSteps(modules, register, keys, pluginType)).log
      ensures configured == old(configured)
    {
      ghost var steps := DispatchSteps(modules, register, keys, pluginType);
      promises := [];
      var i := 0;
      while i < |keys|
        invariant 0 <= i <= |keys|
        invariant Follows(Resume(Start(), steps[..i]), promises, registrations, old(registrations))
        invariant configured == old(configured)
      {
        ghost var before := registrations;
        var attempt := DispatchEntry(modules, register, keys[i].value, pluginType, keys[i].key);
        assert steps[i] == (attempt, DispatchRegistrations(modules, keys[i].value, pluginType, keys[i].key));
        FollowsStep(Start(), steps, i, promises, old(registrations), before, registrations);
        if attempt.Threw? {
          return promises, Some(attempt.error);
        }
        promises := promises + [attempt.promise];
        i := i + 1;
      }
      assert steps[..i] == steps;
      return promises, None;
    }

    /** `resolveConf(conf, type)`. */
    method ResolveConf(modules: map<string, Value>, register: Registration -> Value,
                       conf: Value, pluginType: string) returns (r: Outcome)
      modifies this
      ensures r == ResolvedConf(modules, register, conf, pluginType)
      ensures registrations == old(registrations) + RegisteredBy(modules, register, conf, pluginType)
      ensures configured == old(configured)
    {
      var ownKeys := KeysOf(conf);
      if ownKeys.None? {
        return Rejects(TypeError);
      }
      var keys := ownKeys.value;
      var promises, thrown := DispatchKeys(modules, register, keys, pluginType);
      if thrown.Some? {
        return Rejects(thrown.value);
      }
      var all := PromiseAll(promises);
      PromiseAllSettles(promises);
      if !all.Resolves? {
        return all;
      }
      var liveConf := LiveConf(keys, Values(promises));
      return Resolves(Obj(liveConf));
    }

    /** The `then` callback of `resolveConf`: each key, in order, gets the result at its index. */
    static method LiveConf(keys: seq<Prop>, results: seq<Value>) returns (liveConf: seq<Prop>)
      requires |results| == |keys|
      ensures liveConf == Assigned(keys, results)
    {
      liveConf := [];
      var k := 0;
      while k < |keys|
        invariant 0 <= k <= |keys|
        invariant liveConf == Assigned(keys[..k], results[..k])
      {
        assert keys[..k + 1][..k] == keys[..k];
        assert results[..k + 1][..k] == results[..k];
        liveConf := Assign(liveConf, keys[k].key, results[k]);
        k := k + 1;
      }
      assert keys[..k] == keys && results[..k] == results;
    }

    /** `plugin.configure(Markconf)`, recording the call when it happens. */
    method CallConfigure(behaviour: (Value, Value) -> CallOutcome, plugin: Value, markconf: Value) returns (a: Attempt)
      modifies this
      ensures a == Call(behaviour, markconf, plugin)
      ensures configured == old(configured) + CallLog(plugin)
      ensures registrations == old(registrations)
    {
      if !HasConfigure(plugin) {
        return Threw(TypeError);
      }
      configured := configured + [plugin];
      var outcome := behaviour(plugin, markconf);
      match outcome
      case Fulfils => a := Made(Resolved(Undefined));
      case RejectsWith(e) => a := Made(Rejected(PluginError(e), 0));
      case NeverSettles => a := Made(Pending);
      case ThrowsError(e) => a := Threw(PluginError(e));
    }

    /**
     * `configureStack(stack, Markconf)`: calls `configure` on each enumerated
     * plugin (on each element of a plugin given as an array), then waits for
     * all the calls with `Promise.all`.
     */
    method ConfigureStack(behaviour: (Value, Value) -> CallOutcome, stack: Value, markconf: Value) returns (r: Outcome)
      modifies this
      ensures r == StackOutcome(behaviour, markconf, stack)
      ensures configured == old(configured) + StackCalled(behaviour, markconf, stack)
      ensures registrations == old(registrations)
    {
      if stack.Str? && stack.s != "" {
        // `Reflect.has` of a string throws at its first index.
        return Rejects(TypeError);
      }
      var promises, thrown := ConfigureAll(behaviour, Enumerable(stack), markconf);
      if thrown.Some? {
        return Rejects(thrown.value);
      }
      var all := PromiseAll(promises);
      if all.Resolves? {
        return Resolves(Undefined);
      }
      return all;
    }

    /** The loop of `configureStack` over the enumerated plugins, until a call throws. */
    method ConfigureAll(behaviour: (Value, Value) -> CallOutcome, props: seq<Prop>, markconf: Value)
      returns (promises: seq<Settlement>, thrown: Option<Reason>)
      modifies this
      ensures CallStack(behaviour, markconf, props).thrown == thrown
      ensures thrown.None? ==> CallStack(behaviour, markconf, props).promises == promises
      ensures configured == old(configured) + CallStack(behaviour, markconf, props).log
      ensures registrations == old(registrations)
    {
      promises := [];
      var n := 0;
      assert configured == old(configured) + [];
      while n < |props|
        invariant 0 <= n <= |props|
        invariant Follows(CallStack(behaviour, markconf, props[..n]), promises, configured, old(configured))
        invariant registrations == old(registrations)
      {
        var failed;
        promises, failed := ConfigurePlugin(behaviour, props, n, markconf, promises, old(configured));
        if failed.Some? {
          return promises, failed;
        }
        n := n + 1;
      }
      assert props[..n] == props;
      return promises, None;
    }

    /** One turn of the loop over the enumerated plugins: the calls for `props[n]`. */
    method ConfigurePlugin(behaviour: (Value, Value) -> CallOutcome, props: seq<Prop>, n: nat, markconf: Value,
                           promises0: seq<Settlement>, ghost base: seq<Value>)
      returns (promises: seq<Settlement>, thrown: Option<Reason>)
      requires n < |props| && Follows(CallStack(behaviour, markconf, props[..n]), promises0, configured, base)
      modifies this
      ensures thrown.None? ==> Follows(CallStack(behaviour, markconf, props[..n + 1]), promises, configured, base)
      ensures thrown.Some? ==> CallStack(behaviour, markconf, props).thrown == thrown
      ensures thrown.Some? ==> configured == base + CallStack(behaviour, markconf, props).log
      ensures registrations == old(registrations)
    {
      CallStackNext(behaviour, markconf, props, n);
      promises, thrown := ConfigureEach(behaviour, PluginTargets(props[n].value), markconf, promises0,
                                        CallStack(behaviour, markconf, props[..n]), base);
      if thrown.Some? {
        CallStackStays(behaviour, markconf, props, n + 1);
      }
    }

    /**
     * The inner loop of `configureStack`: calls `configure` on each of
     * `subPlugs` in turn, pushing the promises, until a call throws. The
     * ghost `p0` is where the loop over the stack stands, and `base` the calls
     * made before `configureStack` started.
     */
    method ConfigureEach(behaviour: (Value, Value) -> CallOutcome, subPlugs: seq<Value>, markconf: Value, promises0: seq<Settlement>,
                         ghost p0: Progress<Value>, ghost base: seq<Value>)
      returns (promises: seq<Settlement>, thrown: Option<Reason>)
      requires Follows(p0, promises0, configured, base)
      modifies this
      ensures Resume(p0, CallSteps(behaviour, markconf, subPlugs)).thrown == thrown
      ensures thrown.None? ==> Resume(p0, CallSteps(behaviour, markconf, subPlugs)).promises == promises
      ensures configured == base + Resume(p0, CallSteps(behaviour, markconf, subPlugs)).log
      ensures registrations == old(registrations)
    {
      ghost var steps := CallSteps(behaviour, markconf, subPlugs);
      promises := promises0;
      var j := 0;
      assert steps[..0] == [];
      while j < |subPlugs|
        invariant 0 <= j <= |subPlugs|
        invariant Follows(Resume(p0, steps[..j]), promises, configured, base)
        invariant registrations == old(registrations)
      {
        ghost var before := configured;
        var attempt := CallConfigure(behaviour, subPlugs[j], markconf);
        assert steps[j] == (attempt, CallLog(subPlugs[j]));
        FollowsStep(p0, steps, j, promises, base, before, configured);
        if attempt.Threw? {
          return promises, Some(attempt.error);
        }
        promises := promises + [attempt.promise];
        j := j + 1;
      }
      assert steps[..j] == steps;
      return promises, None;
    }

    /** `configurePlugins(Markconf, plugins, type)`. */
    method ConfigurePlugins(behaviour: (Value, Value) -> CallOutcome, markconf: Value, plugins: Value, pluginType: string) returns (r: Outcome)
      modifies this
      ensures r == ConfiguredPlugins(behaviour, markconf, plugins, pluginType)
      ensures configured == old(configured) + PluginsCalled(behaviour, markconf, plugins, pluginType)
      ensures registrations == old(registrations)
    {
      if !Truthy(plugins) {
        return Rejects(Message(NoPlugins));
      }
      var props := Enumerable(plugins);
      if !HasOwn(props, pluginType) {
        return Rejects(Message(NoPluginsOfType(pluginType)));
      }
      var stack := OwnValue(props, pluginType);
      var keys := KeysOf(stack);
      if keys.None? {
        return Rejects(TypeError);
      }
      if |keys.value| > 0 {
        r := ConfigureStack(behaviour, stack, markconf);
        return;
      }
      return Rejects(Message(NoModifierPlugins));
    }

    /** `configureIncluders(Markconf, includerStack)`. */
    method ConfigureIncluders(behaviour: (Value, Value) -> CallOutcome, markconf: Value, includerStack: Value) returns (r: Outcome)
      modifies this
      ensures r == ConfiguredPlugins(behaviour, markconf, Wrapped(includerStack), "includers")
      ensures configured == old(configured) + PluginsCalled(behaviour, markconf, Wrapped(includerStack), "includers")
      ensures registrations == old(registrations)
    {
      r := ConfigurePlugins(behaviour, markconf, Wrapped(includerStack), "includers");
    }

    /** `configureModifiers(Markconf, modifierStack)`, which always rejects before calling any plugin. */
    method ConfigureModifiers(behaviour: (Value, Value) -> CallOutcome, markconf: Value, modifierStack: Value) returns (r: Outcome)
      modifies this
      ensures r == Rejects(Message(NoPluginsOfType("modifiers")))
      ensures configured == old(configured) && registrations == old(registrations)
    {
      ModifiersNeverFound(modifierStack);
      r := ConfigurePlugins(behaviour, markconf, Wrapped(modifierStack), "modifiers");
    }
  }

  // ---------------------------------------------------------------------------
  // Steps of the loops.

  lemma ResumeNext<L>(p: Progress<L>, steps: seq<(Attempt, seq<L>)>, i: nat)
    requires i < |steps|
    ensures Resume(p, steps[..i + 1]) == Step(Resume(p, steps[..i]), steps[i].0, steps[i].1)
  {
    assert steps[..i + 1][..i] == steps[..i];
  }

  /** Once an attempt has thrown, the later steps change nothing. */
  lemma {:induction false} ResumeStays<L>(p: Progress<L>, steps: seq<(Attempt, seq<L>)>, m: nat)
    requires m <= |steps| && Resume(p, steps[..m]).thrown.Some?
    ensures Resume(p, steps) == Resume(p, steps[..m])
    decreases |steps| - m
  {
    if m < |steps| {
      ResumeNext(p, steps, m);
      ResumeStays(p, steps, m + 1);
    } else {
      assert steps[..m] == steps;
    }
  }

  /** A loop that has thrown stays as it is. */
  lemma {:induction false} ResumeThrown<L>(p: Progress<L>, steps: seq<(Attempt, seq<L>)>)
    requires p.thrown.Some?
    ensures Resume(p, steps) == p
  {
    if steps != [] {
      ResumeThrown(p, steps[..|steps| - 1]);
    }
  }

  /**
   * One more step of a loop that had reached `Resume(p, steps[..i])`, with
   * `log` extended by what the step logs: a step that makes a promise keeps the
   * loop on course, and one that throws ends it.
   */
  lemma FollowsStep<L>(p: Progress<L>, steps: seq<(Attempt, seq<L>)>, i: nat, promises: seq<Settlement>, base: seq<L>,
                       before: seq<L>, log: seq<L>)
    requires i < |steps| && Follows(Resume(p, steps[..i]), promises, before, base) && log == before + steps[i].1
    ensures steps[i].0.Made? ==> Follows(Resume(p, steps[..i + 1]), promises + [steps[i].0.promise], log, base)
    ensures steps[i].0.Threw? ==> Resume(p, steps).thrown == Some(steps[i].0.error) && log == base + Resume(p, steps).log
  {
    ResumeNext(p, steps, i);
    ConcatAssoc(base, Resume(p, steps[..i]).log, steps[i].1);
    if steps[i].0.Threw? {
      ResumeStays(p, steps, i + 1);
    }
  }

  lemma ConcatAssoc<T>(a: seq<T>, b: seq<T>, c: seq<T>)
    ensures a + b + c == a + (b + c)
  {
  }

  lemma CallStackNext(behaviour: (Value, Value) -> CallOutcome, markconf: Value, props: seq<Prop>, n: nat)
    requires n < |props|
    ensures CallStack(behaviour, markconf, props[..n + 1])
         == Resume(CallStack(behaviour, markconf, props[..n]), CallSteps(behaviour, markconf, PluginTargets(props[n].value)))
  {
    assert props[..n + 1][..n] == props[..n];
  }

  /** Once a call for the plugins of `props[..m]` has thrown, the later plugins change nothing. */
  lemma {:induction false} CallStackStays(behaviour: (Value, Value) -> CallOutcome, markconf: Value, props: seq<Prop>, m: nat)
    requires m <= |props| && CallStack(behaviour, markconf, props[..m]).thrown.Some?
    ensures CallStack(behaviour, markconf, props) == CallStack(behaviour, markconf, props[..m])
    decreases |props| - m
  {
    if m < |props| {
      CallStackNext(behaviour, markconf, props, m);
      ResumeThrown(CallStack(behaviour, markconf, props[..m]), CallSteps(behaviour, markconf, PluginTargets(props[m].value)));
      CallStackStays(behaviour, markconf, props, m + 1);
    } else {
      assert props[..m] == props;
    }
  }

  /** `configureModifiers` asks for a key its own wrapper never has. */
  lemma ModifiersNeverFound(stack: Value)
    ensures StackToConfigure(Wrapped(stack), "modifiers") == Err(Message(NoPluginsOfType("modifiers")))
  {
    var props := Enumerable(Wrapped(stack));
    assert props == [Prop("includers", stack, true)];
    assert props[0].key != "modifiers";
    assert !HasOwn(props, "modifiers");
  }

  // ---------------------------------------------------------------------------
  // What the loops compute.

  /** No step of `steps` throws. */
  predicate AllMade<L>(steps: seq<(Attempt, seq<L>)>) {
    forall i :: 0 <= i < |steps| ==> steps[i].0.Made?
  }

  /** The promises of steps none of which throws, in order. */
  function MadePromises<L>(steps: seq<(Attempt, seq<L>)>): (r: seq<Settlement>)
    requires AllMade(steps)
    ensures |r| == |steps|
  {
    seq(|steps|, i requires 0 <= i < |steps| => steps[i].0.promise)
  }

  /** Running two lists of steps one after the other is running their concatenation. */
  lemma {:induction false} ResumeAppend<L>(p: Progress<L>, a: seq<(Attempt, seq<L>)>, b: seq<(Attempt, seq<L>)>)
    ensures Resume(p, a + b) == Resume(Resume(p, a), b)
    decreases |b|
  {
    if b == [] {
      assert a + b == a;
    } else {
      var n := |b| - 1;
      assert (a + b)[..|a + b| - 1] == a + b[..n];
      assert (a + b)[|a + b| - 1] == b[n];
      ResumeAppend(p, a, b[..n]);
    }
  }

  /** When no step throws, the loop pushes every promise in order and logs everything. */
  lemma {:induction false} ResumeAllMade<L>(p: Progress<L>, steps: seq<(Attempt, seq<L>)>)
    requires p.thrown.None? && AllMade(steps)
    ensures Resume(p, steps) == Progress(p.promises + MadePromises(steps), p.log + Logs(steps), None)
  {
    if steps == [] {
      assert p.promises + MadePromises(steps) == p.promises && p.log + Logs(steps) == p.log;
    } else {
      var n := |steps| - 1;
      assert AllMade(steps[..n]);
      ResumeAllMade(p, steps[..n]);
      assert MadePromises(steps) == MadePromises(steps[..n]) + [steps[n].0.promise];
      ConcatAssoc(p.promises, MadePromises(steps[..n]), [steps[n].0.promise]);
      ConcatAssoc(p.log, Logs(steps[..n]), steps[n].1);
    }
  }

  /**
   * When step `t` is the first to throw, the loop has pushed the promises
   * before it, logged up to and including it, and stops with its error.
   */
  lemma ResumeFirstThrow<L>(p: Progress<L>, steps: seq<(Attempt, seq<L>)>, t: nat)
    requires p.thrown.None? && t < |steps| && AllMade(steps[..t]) && steps[t].0.Threw?
    ensures Resume(p, steps) == Progress(p.promises + MadePromises(steps[..t]), p.log + Logs(steps[..t + 1]), Some(steps[t].0.error))
  {
    ResumeAllMade(p, steps[..t]);
    ResumeNext(p, steps, t);
    ResumeStays(p, steps, t + 1);
    assert steps[..t + 1][..t] == steps[..t];
    ConcatAssoc(p.log, Logs(steps[..t]), steps[t].1);
  }

  // ---------------------------------------------------------------------------
  // Properties of the resolvers.

  /**
   * `_string` resolves exactly when the module loads as an object and `def` is
   * falsy or the type is "modifier", and then with what the registry returned.
   * It never settles when the module loads but `def` is truthy and the type is
   * not "modifier". It registers the plugin exactly when it does not reject.
   */
  lemma StringSettlesCases(modules: map<string, Value>, register: Registration -> Value,
                           name: Value, pluginType: string, key: string, def: Value)
    ensures var s := StringSettles(modules, register, name, pluginType, key, def);
      var loads := name.Str? && name.s in modules && TypeOf(modules[name.s]) == "object";
      (s.Resolved? <==> loads && (!Truthy(def) || pluginType == "modifier")) &&
      (s.Resolved? ==> s.value == register(Registration(name.s, key, pluginType))) &&
      (s.Pending? <==> loads && Truthy(def) && pluginType != "modifier") &&
      (s.Rejected? <==> !loads) &&
      (StringRegistrations(modules, name, pluginType, key) != [] <==> !s.Rejected?)
  {
  }

  /**
   * An entry given as an object with a `module` property passes itself as
   * `def`, which is truthy: unless the type is "modifier" its promise never
   * resolves, and it never settles when the module loads.
   */
  lemma ObjectFormNeverResolves(modules: map<string, Value>, register: Registration -> Value,
                                item: Value, pluginType: string, key: string)
    requires item.Obj? && HasOwn(item.props, "module") && pluginType != "modifier"
    ensures !ObjectSettles(modules, register, item, pluginType, key).Resolved?
    ensures var name := OwnValue(item.props, "module");
      name.Str? && name.s in modules && TypeOf(modules[name.s]) == "object" ==>
      ObjectSettles(modules, register, item, pluginType, key) == Pending
  {
    StringSettlesCases(modules, register, OwnValue(item.props, "module"), pluginType, key, item);
  }

  /**
   * A dispatch throws exactly for the kinds of value with no resolver; a
   * function resolves with itself.
   */
  lemma DispatchCases(modules: map<string, Value>, register: Registration -> Value, elem: Value, pluginType: string, key: string)
    ensures Dispatch(modules, register, elem, pluginType, key).Threw? <==> KeyType(elem) !in {"_function", "_string", "_object", "_array"}
    ensures Dispatch(modules, register, elem, pluginType, key).Threw? ==> Dispatch(modules, register, elem, pluginType, key).error == TypeError
    ensures elem.Func? ==> Dispatch(modules, register, elem, pluginType, key) == Made(Resolved(elem))
  {
    ResolverFor(elem);
  }

  /**
   * An array entry reaches `_array` and registers nothing. Calling the string
   * `type` as a function throws inside the promise at the first element, so
   * the entry rejects at once with a TypeError unless the array is empty, when
   * `Promise.all([])` resolves it with `[]`.
   */
  lemma ArrayDispatch(modules: map<string, Value>, register: Registration -> Value, elems: seq<Value>, pluginType: string, key: string)
    ensures Dispatch(modules, register, Arr(elems), pluginType, key).Made?
    ensures DispatchRegistrations(modules, Arr(elems), pluginType, key) == []
    ensures Dispatch(modules, register, Arr(elems), pluginType, key).promise.Resolved? <==> elems == []
    ensures elems == [] ==> Dispatch(modules, register, Arr(elems), pluginType, key).promise == Resolved(Arr([]))
    ensures elems != [] ==> Dispatch(modules, register, Arr(elems), pluginType, key).promise == Rejected(TypeError, 0)
  {
  }

  // ---------------------------------------------------------------------------
  // Properties of `resolveConf`.

  lemma DispatchStepsPrefix(modules: map<string, Value>, register: Registration -> Value, keys: seq<Prop>, pluginType: string, n: nat)
    requires n <= |keys|
    ensures DispatchSteps(modules, register, keys, pluginType)[..n] == DispatchSteps(modules, register, keys[..n], pluginType)
  {
  }

  /** When every entry makes a promise, `resolveConf` waits for all of them. */
  lemma ResolvedKeysMade(modules: map<string, Value>, register: Registration -> Value, keys: seq<Prop>, pluginType: string, ss: seq<Settlement>)
    requires |ss| == |keys|
    requires forall i :: 0 <= i < |keys| ==> Dispatch(modules, register, keys[i].value, pluginType, keys[i].key) == Made(ss[i])
    ensures PromiseAll(ss).Resolves? ==>
      (forall j :: 0 <= j < |ss| ==> ss[j].Resolved?) &&
      ResolvedKeys(modules, register, keys, pluginType) == Resolves(Obj(Assigned(keys, Values(ss))))
    ensures !PromiseAll(ss).Resolves? ==> ResolvedKeys(modules, register, keys, pluginType) == PromiseAll(ss)
    ensures Resume(Start(), DispatchSteps(modules, register, keys, pluginType)).log == Logs(DispatchSteps(modules, register, keys, pluginType))
  {
    var steps := DispatchSteps(modules, register, keys, pluginType);
    assert forall i :: 0 <= i < |steps| ==> steps[i].0 == Made(ss[i]);
    ResumeAllMade(Start(), steps);
    assert MadePromises(steps) == ss;
    PromiseAllSettles(ss);
  }

  /**
   * When no entry throws and `ss` are the entries' promises, `resolveConf`
   * follows them: it rejects exactly when one of them rejects, and then with
   * the reason of one that rejects; it never settles exactly when none rejects
   * and one never settles; it resolves exactly when all resolve, and then,
   * when the keys are distinct, with an object pairing each key with its
   * entry's value in the order of the keys. It registers what every entry
   * registers, in order.
   */
  lemma ResolvedKeysFollowsEntries(modules: map<string, Value>, register: Registration -> Value, keys: seq<Prop>, pluginType: string, ss: seq<Settlement>)
    requires |ss| == |keys|
    requires forall i :: 0 <= i < |keys| ==> Dispatch(modules, register, keys[i].value, pluginType, keys[i].key) == Made(ss[i])
    ensures var r := ResolvedKeys(modules, register, keys, pluginType);
      (r.Rejects? <==> exists i :: 0 <= i < |ss| && ss[i].Rejected?) &&
      (r.Rejects? ==> exists i :: 0 <= i < |ss| && ss[i].Rejected? && ss[i].reason == r.reason) &&
      (r.Hangs? <==> (forall i :: 0 <= i < |ss| ==> !ss[i].Rejected?) && exists i :: 0 <= i < |ss| && ss[i].Pending?) &&
      (r.Resolves? <==> forall i :: 0 <= i < |ss| ==> ss[i].Resolved?)
    ensures var r := ResolvedKeys(modules, register, keys, pluginType);
      r.Resolves? && DistinctKeys(keys) ==>
        r.value.Obj? && |r.value.props| == |keys| && forall i :: 0 <= i < |keys| ==> r.value.props[i] == Prop(keys[i].key, ss[i].value, true)
    ensures Resume(Start(), DispatchSteps(modules, register, keys, pluginType)).log == Logs(DispatchSteps(modules, register, keys, pluginType))
  {
    ResolvedKeysMade(modules, register, keys, pluginType, ss);
    PromiseAllSettles(ss);
    var all := PromiseAll(ss);
    if all.Resolves? {
      assert ResolvedKeys(modules, register, keys, pluginType) == Resolves(Obj(Assigned(keys, Values(ss))));
      if DistinctKeys(keys) {
        AssignedPairs(keys, Values(ss));
      }
    } else {
      assert ResolvedKeys(modules, register, keys, pluginType) == all;
    }
  }

  /** A configuration without own keys resolves with an empty object. */
  lemma EmptyConfResolves(modules: map<string, Value>, register: Registration -> Value, props: seq<Prop>, pluginType: string)
    requires OwnProps(props) == []
    ensures ResolvedConf(modules, register, Obj(props), pluginType) == Resolves(Obj([]))
    ensures RegisteredBy(modules, register, Obj(props), pluginType) == []
  {
    assert DispatchSteps(modules, register, [], pluginType) == [];
    PromiseAllSettles([]);
  }

  /**
   * When the entry at `t` is the first whose dispatch throws, `resolveConf`
   * rejects with a TypeError and has registered what the entries before it
   * registered.
   */
  lemma ResolvedKeysFirstThrow(modules: map<string, Value>, register: Registration -> Value, keys: seq<Prop>, pluginType: string, t: nat)
    requires t < |keys| && Dispatch(modules, register, keys[t].value, pluginType, keys[t].key).Threw?
    requires forall i :: 0 <= i < t ==> Dispatch(modules, register, keys[i].value, pluginType, keys[i].key).Made?
    ensures ResolvedKeys(modules, register, keys, pluginType) == Rejects(TypeError)
    ensures Resume(Start(), DispatchSteps(modules, register, keys, pluginType)).log == Logs(DispatchSteps(modules, register, keys[..t], pluginType))
  {
    var steps := DispatchSteps(modules, register, keys, pluginType);
    DispatchCases(modules, register, keys[t].value, pluginType, keys[t].key);
    assert AllMade(steps[..t]);
    ResumeFirstThrow(Start(), steps, t);
    assert steps[..t + 1][..t] == steps[..t];
    assert steps[t].1 == [];
    DispatchStepsPrefix(modules, register, keys, pluginType, t);
  }

  // ---------------------------------------------------------------------------
  // Properties of `configureStack` and `configurePlugins`.

  lemma CallStepsAppend(behaviour: (Value, Value) -> CallOutcome, markconf: Value, a: seq<Value>, b: seq<Value>)
    ensures CallSteps(behaviour, markconf, a + b) == CallSteps(behaviour, markconf, a) + CallSteps(behaviour, markconf, b)
  {
  }

  lemma CallStepsPrefix(behaviour: (Value, Value) -> CallOutcome, markconf: Value, xs: seq<Value>, n: nat)
    requires n <= |xs|
    ensures CallSteps(behaviour, markconf, xs)[..n] == CallSteps(behaviour, markconf, xs[..n])
  {
  }

  /**
   * The two nested loops of `configureStack` make the same calls as one loop
   * over the targets: every non-array plugin, and every element of every
   * array plugin, in order.
   */
  lemma {:induction false} CallStackFlat(behaviour: (Value, Value) -> CallOutcome, markconf: Value, props: seq<Prop>)
    ensures CallStack(behaviour, markconf, props) == Resume(Start(), CallSteps(behaviour, markconf, Targets(props)))
  {
    if props == [] {
      assert CallSteps(behaviour, markconf, []) == [];
    } else {
      var n := |props| - 1;
      CallStackFlat(behaviour, markconf, props[..n]);
      CallStepsAppend(behaviour, markconf, Targets(props[..n]), PluginTargets(props[n].value));
      ResumeAppend(Start(), CallSteps(behaviour, markconf, Targets(props[..n])), CallSteps(behaviour, markconf, PluginTargets(props[n].value)));
    }
  }

  /** Calls on plugins that all have a `configure` method log exactly those plugins. */
  lemma CallStepsLogs(behaviour: (Value, Value) -> CallOutcome, markconf: Value, xs: seq<Value>)
    requires forall i :: 0 <= i < |xs| ==> HasConfigure(xs[i])
    ensures Logs(CallSteps(behaviour, markconf, xs)) == xs
  {
    var steps := CallSteps(behaviour, markconf, xs);
    forall i | 0 <= i < |xs|
      ensures steps[i].1 == [xs[i]]
    {
      assert HasConfigure(xs[i]);
    }
    LogsSingletons(steps, xs);
  }

  /** Steps that each log one element log exactly those elements. */
  lemma {:induction false} LogsSingletons<L>(steps: seq<(Attempt, seq<L>)>, xs: seq<L>)
    requires |steps| == |xs| && forall i :: 0 <= i < |xs| ==> steps[i].1 == [xs[i]]
    ensures Logs(steps) == xs
  {
    if xs != [] {
      var n := |xs| - 1;
      LogsSingletons(steps[..n], xs[..n]);
      assert xs[..n] + [xs[n]] == xs;
    }
  }

  /** A call that makes a rejected promise is a `configure` method that rejected. */
  lemma CallRejects(behaviour: (Value, Value) -> CallOutcome, markconf: Value, plugin: Value)
    requires Call(behaviour, markconf, plugin).Made? && Call(behaviour, markconf, plugin).promise.Rejected?
    ensures Call(behaviour, markconf, plugin).promise.reason.PluginError?
    ensures behaviour(plugin, markconf) == RejectsWith(Call(behaviour, markconf, plugin).promise.reason.error)
  {
  }

  /**
   * A call throws exactly when there is no `configure` method or the method
   * throws: a TypeError in the first case, and what the method threw in the second.
   */
  lemma CallThrows(behaviour: (Value, Value) -> CallOutcome, markconf: Value, plugin: Value)
    ensures Call(behaviour, markconf, plugin).Threw? <==> !HasConfigure(plugin) || behaviour(plugin, markconf).ThrowsError?
    ensures Call(behaviour, markconf, plugin).Threw? ==>
      Call(behaviour, markconf, plugin).error == if HasConfigure(plugin) then PluginError(behaviour(plugin, markconf).error) else TypeError
  {
  }

  /** When no call throws, `configureStack` waits for all the calls' promises. */
  lemma StackRunMade(behaviour: (Value, Value) -> CallOutcome, markconf: Value, props: seq<Prop>)
    requires AllMade(CallSteps(behaviour, markconf, Targets(props)))
    ensures var steps := CallSteps(behaviour, markconf, Targets(props));
      CallStack(behaviour, markconf, props) == Progress(MadePromises(steps), Logs(steps), None)
    ensures var all := PromiseAll(MadePromises(CallSteps(behaviour, markconf, Targets(props))));
      StackRun(behaviour, markconf, props) == if all.Resolves? then Resolves(Undefined) else all
  {
    CallStackFlat(behaviour, markconf, props);
    ResumeAllMade(Start(), CallSteps(behaviour, markconf, Targets(props)));
  }

  /**
   * When every target has a `configure` method whose call fulfils,
   * `configureStack` resolves with `undefined` after calling each target once,
   * in order.
   */
  lemma StackAllFulfil(behaviour: (Value, Value) -> CallOutcome, markconf: Value, props: seq<Prop>)
    requires var targets := Targets(props);
      forall i :: 0 <= i < |targets| ==> HasConfigure(targets[i]) && behaviour(targets[i], markconf) == Fulfils
    ensures StackRun(behaviour, markconf, props) == Resolves(Undefined)
    ensures CallStack(behaviour, markconf, props).log == Targets(props)
  {
    var targets := Targets(props);
    var steps := CallSteps(behaviour, markconf, targets);
    forall i | 0 <= i < |steps|
      ensures steps[i].0 == Made(Resolved(Undefined))
    {
      assert steps[i].0 == Call(behaviour, markconf, targets[i]);
      assert HasConfigure(targets[i]) && behaviour(targets[i], markconf) == Fulfils;
    }
    StackRunMade(behaviour, markconf, props);
    CallStepsLogs(behaviour, markconf, targets);
    PromiseAllSettles(MadePromises(steps));
  }

  /**
   * When no call throws and the call on `Targets(props)[k]` rejects,
   * `configureStack` rejects, with the error of a call that rejected.
   */
  lemma StackRejectsWithACall(behaviour: (Value, Value) -> CallOutcome, markconf: Value, props: seq<Prop>, k: nat)
    requires var targets := Targets(props);
      k < |targets| && behaviour(targets[k], markconf).RejectsWith? &&
      forall i :: 0 <= i < |targets| ==> HasConfigure(targets[i]) && !behaviour(targets[i], markconf).ThrowsError?
    ensures var r := StackRun(behaviour, markconf, props);
      r.Rejects? && r.reason.PluginError? &&
      exists i :: 0 <= i < |Targets(props)| && behaviour(Targets(props)[i], markconf) == RejectsWith(r.reason.error)
  {
    var targets := Targets(props);
    var steps := CallSteps(behaviour, markconf, targets);
    assert forall i :: 0 <= i < |steps| ==> steps[i].0 == Call(behaviour, markconf, targets[i]);
    assert AllMade(steps);
    StackRunMade(behaviour, markconf, props);
    var promises := MadePromises(steps);
    assert promises[k].Rejected?;
    forall i | 0 <= i < |promises| && promises[i].Rejected?
      ensures promises[i].reason.PluginError? && behaviour(targets[i], markconf) == RejectsWith(promises[i].reason.error)
    {
      CallRejects(behaviour, markconf, targets[i]);
    }
    PromiseAllSettles(promises);
  }

  /**
   * When the call on `Targets(props)[t]` is the first to throw (the target
   * has no `configure` method, or the method throws), `configureStack`
   * rejects at once with that error, having called the targets before it
   * and, when it has a `configure` method, that target too.
   */
  lemma StackFirstThrow(behaviour: (Value, Value) -> CallOutcome, markconf: Value, props: seq<Prop>, t: nat)
    requires var targets := Targets(props);
      t < |targets| && (!HasConfigure(targets[t]) || behaviour(targets[t], markconf).ThrowsError?) &&
      forall i :: 0 <= i < t ==> HasConfigure(targets[i]) && !behaviour(targets[i], markconf).ThrowsError?
    ensures var target := Targets(props)[t];
      StackRun(behaviour, markconf, props) ==
        Rejects(if HasConfigure(target) then PluginError(behaviour(target, markconf).error) else TypeError)
    ensures CallStack(behaviour, markconf, props).log == Targets(props)[..t] + CallLog(Targets(props)[t])
  {
    var targets := Targets(props);
    var steps := CallSteps(behaviour, markconf, targets);
    forall i | 0 <= i <= t
      ensures steps[i].0 == Call(behaviour, markconf, targets[i])
      ensures steps[i].0.Threw? <==> i == t
    {
      CallThrows(behaviour, markconf, targets[i]);
    }
    assert AllMade(steps[..t]);
    CallStackFlat(behaviour, markconf, props);
    ResumeFirstThrow(Start(), steps, t);
    CallLogsUpTo(behaviour, markconf, targets, t);
  }

  /** Up to a target `t` whose predecessors all have a `configure` method, the calls log the targets they reach. */
  lemma CallLogsUpTo(behaviour: (Value, Value) -> CallOutcome, markconf: Value, targets: seq<Value>, t: nat)
    requires t < |targets| && forall i :: 0 <= i < t ==> HasConfigure(targets[i])
    ensures Logs(CallSteps(behaviour, markconf, targets)[..t + 1]) == targets[..t] + CallLog(targets[t])
  {
    var steps := CallSteps(behaviour, markconf, targets);
    assert steps[..t + 1][..t] == steps[..t];
    CallStepsPrefix(behaviour, markconf, targets, t);
    assert forall i :: 0 <= i < |targets[..t]| ==> HasConfigure(targets[..t][i]);
    CallStepsLogs(behaviour, markconf, targets[..t]);
  }

  /**
   * The guards of `configurePlugins` let a stack through exactly when the
   * plugins are truthy, have the type as an own key, and the stack under it
   * has own keys; the stack is the value under the type. Each guard that
   * fails rejects with its own reason: no plugins, no plugins of the type,
   * the "modifier" message for a stack without own keys (whatever the type),
   * and the TypeError of `Reflect.ownKeys` on a stack that is not an object.
   */
  lemma StackToConfigureCases(plugins: Value, pluginType: string)
    ensures var r := StackToConfigure(plugins, pluginType); var stack := OwnValue(Enumerable(plugins), pluginType);
      (r.Ok? <==> Truthy(plugins) && HasOwn(Enumerable(plugins), pluginType) && KeysOf(stack).Some? && |KeysOf(stack).value| > 0) &&
      (r.Ok? ==> r.value == stack)
    ensures !Truthy(plugins) ==> StackToConfigure(plugins, pluginType) == Err(Message(NoPlugins))
    ensures Truthy(plugins) && !HasOwn(Enumerable(plugins), pluginType) ==> StackToConfigure(plugins, pluginType) == Err(Message(NoPluginsOfType(pluginType)))
    ensures var stack := OwnValue(Enumerable(plugins), pluginType);
      Truthy(plugins) && HasOwn(Enumerable(plugins), pluginType) && KeysOf(stack) == Some([]) ==>
        StackToConfigure(plugins, pluginType) == Err(Message(NoModifierPlugins))
    ensures var stack := OwnValue(Enumerable(plugins), pluginType);
      Truthy(plugins) && HasOwn(Enumerable(plugins), pluginType) && KeysOf(stack).None? ==>
        StackToConfigure(plugins, pluginType) == Err(TypeError)
  {
  }

  /**
   * `configureIncluders` configures an object stack with own keys, rejects
   * with the "modifier" message an object stack without them, and rejects
   * with a TypeError a stack that is not an object.
   */
  lemma IncludersCases(behaviour: (Value, Value) -> CallOutcome, markconf: Value, stack: Value)
    ensures stack.Obj? && OwnProps(stack.props) != [] ==>
      ConfiguredPlugins(behaviour, markconf, Wrapped(stack), "includers") == StackOutcome(behaviour, markconf, stack)
    ensures stack.Obj? && OwnProps(stack.props) == [] ==>
      ConfiguredPlugins(behaviour, markconf, Wrapped(stack), "includers") == Rejects(Message(NoModifierPlugins))
    ensures !stack.Obj? && !stack.Arr? && !stack.Func? ==>
      ConfiguredPlugins(behaviour, markconf, Wrapped(stack), "includers") == Rejects(TypeError)
  {
    var props := Enumerable(Wrapped(stack));
    assert props == [Prop("includers", stack, true)];
    assert props[0].own && props[0].key == "includers";
    assert OwnValue(props, "includers") == stack;
  }
}
