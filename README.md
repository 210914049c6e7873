# markserv-cli plugin and template pipeline, modelled in Dafny

This project models four pieces of the markserv-cli server.

- **Template include compiler** (`lib/template-compiler.js`, module `TemplateCompiler`).
  - A template is a tree of nodes.
  - Each comment child that the compiler takes for an include directive (`markserv|<includer>|<path>|<params>`) is replaced, in place, by the compiled tree of the template it names.
  - The named template is resolved against the directory of the including template.
  - Every other child is searched in turn.
  - Reading and parsing are a lookup in a map from path to top-level nodes.
  - Nested compiles are bounded by a fuel count.
- **Includer loader** (`core/plugin.load-includers.js`, module `LoadIncluders`).
  - `load` takes an object naming includers and their module names.
  - It fetches each module, trying `<path>/node_modules/<name>` first and `<path>/<name>` second.
  - It resolves with an object keyed like the input, or rejects with an array of messages.
  - It records every loaded includer in the module-level `globalStack`. `clearStack` replaces that stack with a fresh object, and the exported `stack` keeps pointing to the first one.
  - `require` is a map from path string to module.
  - The module's state is the class `IncluderLoader`.
- **Plugin configurator** (`lib/plugin/congure-save.tmp.js`, module `ConfigureSave`).
  - `keyType` and the resolvers dispatch on the kind of each configuration entry.
  - `resolveConf` realigns the resolvers' results with the keys.
  - `configureStack` calls `configure(Markconf)` on every plugin and on every element of an array plugin.
  - `configurePlugins`, `configureIncluders` and `configureModifiers` are the guards and wrappers around it.
  - `require` is a map. `registry.register` is an opaque function `register`. What a plugin's own `configure` does is a function `behaviour`.
  - The calls to the registry and to `configure` are recorded on a `Configurator` object.
- **Request handler** (`core/http-request-handler.js`, module `HttpRequestHandler`).
  - `hasMarkdownExt` matches extensions case-insensitively.
  - `handleRequest` decides whether to hand a request to the markdown handler.
  - `httpRespond` writes head, body and end to a `Response` object that records events in order.

The shared modules:
- `Js` models JavaScript values. An object is the sequence of its enumerable properties in `for...in` order, each marked own or inherited.
- `Text` and `Paths` model the string operations and POSIX `path` functions the core uses. `Paths` covers `join`, `dirname`, `basename` and `extname`.
- `Wrappers` holds `Option` and `Result`.

Each loop of the source is a method proved against a specification function:
- `Filter`, `CountMembers`, `FetchAll`, `Register`, `DispatchKeys`, `LiveConf`, `ConfigureAll`/`ConfigureEach` and `HasMarkdownExt`.

The properties of those functions are lemmas in the same module.

Promises are modelled by what they settle with once the synchronous work is over.
- In `LoadIncluders`, `Promise.all` settles with the first rejection in enumeration order, or with every value, because every `fetchModule` promise settles inside its own executor.
- In `ConfigureSave`, a promise is `Resolved`, `Pending` (it never settles) or `Rejected` after some turns of the microtask queue. `Promise.all` reports the rejection that comes first, and the earlier position wins a tie. `_object` passes on its inner promise two turns later, through `then` and `catch`.

The model follows the code as written, including where it does less than its names and messages suggest. Lemmas state these cases:
- An empty configuration is not an error: `resolveConf({})` resolves with `{}` (`EmptyConfResolves`).
- There is no cycle check, so a self-including template never compiles, whatever the fuel (`SelfIncludeNeverCompiles`).
- The keyword of a directive is never compared with `markserv`. Any comment with visible text before its keyword end is taken for a directive (`IncludeRecognition`, `PlainCommentFailsCompile`).
- An object entry without `module` rejects with `false` (`ConfigureSave.Configurator.ResolveObject`).
- `resolver._array` calls the string `type` as a function. A non-empty array rejects with a TypeError, and an empty one resolves with `[]` (`ArrayDispatch`).
- `clearStack` empties `globalStack`, but the exported `stack` object keeps its entries (`LoadIncluders.IncluderLoader.ClearStack`).

## Model

| member | source | states |
|---|---|---|
| TemplateCompiler.IsCommentCases | lib/template-compiler.js:16-22 | a node without a `type` field is not a comment; with one, it is a comment exactly when the type is "comment" |
| TemplateCompiler.GetCommentIsMarkserv | lib/template-compiler.js:24-29 | the normalised keyword is no longer than the comment text and holds no whitespace and no upper-case letter |
| TemplateCompiler.KeywordBeforeFirstPipe | lib/template-compiler.js:24-29 | with a pipe, the keyword is the text before the first pipe, whitespace removed and lower-cased |
| TemplateCompiler.KeywordWithoutPipe | lib/template-compiler.js:24-29 | without a pipe, `indexOf` gives -1 and the keyword is all but the last character, whitespace removed and lower-cased |
| TemplateCompiler.IncludeRecognition | lib/template-compiler.js:79-83 | a child is taken for an include exactly when it is a comment whose keyword is not empty, which is exactly when some character before the keyword end is not whitespace; "markserv" is never compared |
| TemplateCompiler.PipelessCommentIsInclude | lib/template-compiler.js:79-83 | a comment without pipe is an include as soon as some character before its last one is visible |
| TemplateCompiler.UnpackFields | lib/template-compiler.js:31-50 | for a directive joined from any number of parts, `includer` is part 1, `filename` and `dirname` are the basename and dirname of part 2, and `params` is part 3; each is unset when its part is missing |
| TemplateCompiler.PathlessDirectiveFails | lib/template-compiler.js:31-57 | a directive of one or two parts, such as `markserv` followed by `html`, sets neither path field, so its include fails with the path error |
| TemplateCompiler.UnpackNoPipe | lib/template-compiler.js:31-50 | a comment without pipe sets no field at all |
| TemplateCompiler.Target | lib/template-compiler.js:57 | `path.join(dir, dirname, filename)` fails exactly when one of the two fields is unset, and then with the path error |
| TemplateCompiler.CompileTemplate | lib/template-compiler.js:102-123 | the compile loop yields exactly the tree `Compiled` describes: read failure, or the filtered root searched with the template's own directory |
| TemplateCompiler.ProcessNode | lib/template-compiler.js:55-67 | an include yields the compiled tree of its target, or the error of the path or of the sub-compile |
| TemplateCompiler.Filter | lib/template-compiler.js:69-100 | the loop over the children yields exactly `Filtered`: each child, in order, processed as an include or filtered in turn; the first failing child in document order fails the node, where the source reports the first to reject in time |
| TemplateCompiler.Filtered | lib/template-compiler.js:69-100 | a filtered node keeps its type, its data, whether it has children and how many |
| TemplateCompiler.FilteredChildren | lib/template-compiler.js:76-88 | the filtered children are as many as the children |
| TemplateCompiler.ChildlessUnchanged | lib/template-compiler.js:72-92 | a node without `children` field, or with no children, comes through unchanged |
| TemplateCompiler.FilteredSplices | lib/template-compiler.js:94-98 | a node with children fails with their first error in document order, or holds the filtered children in place of its own |
| TemplateCompiler.FilteredFailsIff | lib/template-compiler.js:94-98 | whatever the order the children reject in: a node fails exactly when one of its children fails, and then with the error of a child that fails |
| TemplateCompiler.AllChildrenProcessed | lib/template-compiler.js:78-98 | the children succeed with `out` exactly when `out` has one entry per child and each child succeeds with its entry |
| TemplateCompiler.FirstFailure | lib/template-compiler.js:94-98 | when the children before `k` succeed and child `k` fails, the children fail with child `k`'s error: the first failure in document order, where the source reports the first to reject in time |
| TemplateCompiler.FailingChildFailsNode | lib/template-compiler.js:94-98 | a failing child fails the node, with the error of the first failing child in document order, where the source reports the first to reject in time |
| TemplateCompiler.SpliceInPlace | lib/template-compiler.js:59-88 | after a successful filter every child keeps its position; an include holds the compiled tree of its target and any other child its filtered self, searched with the same directory |
| TemplateCompiler.NoIncludeSurvives | lib/template-compiler.js:78-88 | after a successful compile no include comment is left anywhere in the tree |
| TemplateCompiler.CompiledIncludeFree | lib/template-compiler.js:102-113 | a successful compile is a root node free of include comments |
| TemplateCompiler.FilterKeepsIncludeFree | lib/template-compiler.js:69-100 | a tree without include comments comes through the filter unchanged |
| TemplateCompiler.PlainTemplateCompiles | lib/template-compiler.js:102-113 | a template without include comments compiles, with any fuel, to its own tree |
| TemplateCompiler.MoreFuelSameResult | lib/template-compiler.js:59 | the fuel only bounds the nesting: a compile that succeeds gives the same tree with more fuel |
| TemplateCompiler.SelfIncludeNeverCompiles | lib/template-compiler.js:52-67 | a template that includes itself never compiles, for any fuel |
| TemplateCompiler.MissingTargetFails | lib/template-compiler.js:59-65 | including a template that cannot be read fails the compile, with some error; which error is not named here |
| TemplateCompiler.FailingChildFailsCompile | lib/template-compiler.js:111-118 | a failing top-level child fails the compile of the template, with some error; which error is not named here |
| TemplateCompiler.UnreadableTemplateFails | lib/template-compiler.js:104-122 | a template that cannot be read fails with the read error |
| TemplateCompiler.PlainCommentFailsCompile | lib/template-compiler.js:79-84 | a comment without pipe and with visible text is taken for an include, leaves the path fields unset, and fails the compile of its template |
| LoadIncluders.NpmModule | core/plugin.load-includers.js:11-14 | the `node_modules` lookup finds something only when the configured path is a string |
| LoadIncluders.LocalModule | core/plugin.load-includers.js:16-20 | the local lookup finds something only when `Markconf.path` can be read |
| LoadIncluders.FetchModule | core/plugin.load-includers.js:22-43 | a fetch resolves only with a truthy module for a string name, and rejects with `Err: Could not load: "<name>"` |
| LoadIncluders.FetchModuleCases | core/plugin.load-includers.js:22-43 | a string name resolves exactly when the `node_modules` module is truthy, or there is none and the local module is truthy, and then with that module; a name that is not a string, or one both lookups miss, rejects with `Err: Could not load: "<name>"` |
| LoadIncluders.NpmModuleWins | core/plugin.load-includers.js:26-35 | a module found under `node_modules` is the one used, even a falsy one: the local path is not tried |
| LoadIncluders.LocalModuleFallback | core/plugin.load-includers.js:26-35 | without a `node_modules` module, the truthy module under the configured path is used |
| LoadIncluders.UnconfiguredNeverLoads | core/plugin.load-includers.js:11-20 | before `configure`, no module loads |
| LoadIncluders.PromiseAll | core/plugin.load-includers.js:75-96 | `Promise.all` resolves exactly when every promise does, with their values in order, and otherwise rejects with the first rejection |
| LoadIncluders.CountMembers | core/plugin.load-includers.js:45-54 | the count is the number of own enumerable properties |
| LoadIncluders.IncluderLoader.constructor | core/plugin.load-includers.js:3-5 | the configuration is unset and the shared stack is empty and is the exported one |
| LoadIncluders.IncluderLoader.Configure | core/plugin.load-includers.js:7-9 | the configuration is replaced and the stacks are untouched |
| LoadIncluders.IncluderLoader.ClearStack | core/plugin.load-includers.js:56-58 | the shared stack becomes empty and is no longer the exported one, which keeps its entries |
| LoadIncluders.IncluderLoader.Load | core/plugin.load-includers.js:60-98 | the result is `Loaded`; on failure no stack changes; on success the shared stack gains every own includer |
| LoadIncluders.IncluderLoader.FetchAll | core/plugin.load-includers.js:69-73 | one `fetchModule` promise per own includer, in enumeration order |
| LoadIncluders.IncluderLoader.Register | core/plugin.load-includers.js:75-91 | each own includer, in order, gets the module at its index in the returned object and in the shared stack |
| LoadIncluders.IncluderLoader.RegisterEntry | core/plugin.load-includers.js:81-88 | one pass of the callback's loop keeps the index and both stacks aligned with the own includers seen |
| LoadIncluders.LoadResolves | core/plugin.load-includers.js:60-91 | `load` resolves exactly when some includer is named and every module loads, and then with each name paired with its module, in order |
| LoadIncluders.LoadRejects | core/plugin.load-includers.js:62-96 | `load` rejects with `['Err: No includers provided']` when none is named, and otherwise with `['Err: Includer could not be loaded', <message of the first includer that fails>]` |
| LoadIncluders.LoadStacks | core/plugin.load-includers.js:81-89 | a successful `load` leaves the shared stack holding its old names and every includer name, each bound to its module |
| LoadIncluders.StackedKeys | core/plugin.load-includers.js:87 | the shared stack gains exactly the includer names |
| LoadIncluders.StackedValues | core/plugin.load-includers.js:87 | with distinct names, each includer name is bound to its module |
| LoadIncluders.StackedKeeps | core/plugin.load-includers.js:87 | entries under names no includer has keep their module |
| ConfigureSave.KeyType | lib/plugin/congure-save.tmp.js:8-10 | the resolver name is `_array` exactly for arrays, and always starts with `_` and one more character |
| ConfigureSave.ArrayDispatch | lib/plugin/congure-save.tmp.js:45-55 | an array entry registers nothing; it resolves with `[]` exactly when it is empty, and otherwise rejects at once with the TypeError of calling the string `type` |
| ConfigureSave.ResolverFor | lib/plugin/congure-save.tmp.js:8-56 | functions reach `_function`, strings `_string`, objects and `null` `_object`, arrays `_array`, and `undefined`, booleans and numbers no resolver |
| ConfigureSave.Delayed | lib/plugin/congure-save.tmp.js:42 | passing a promise on through `then`/`catch` keeps whether it resolves or hangs and delays a rejection |
| ConfigureSave.Configurator.ResolveString | lib/plugin/congure-save.tmp.js:17-34 | `_string` settles as `StringSettles` and registers the plugin exactly when its module loads as an object |
| ConfigureSave.StringSettlesCases | lib/plugin/congure-save.tmp.js:17-34 | `_string` resolves with the registry's plugin exactly when the module loads as an object and `def` is falsy or the type is "modifier"; it never settles when the module loads otherwise; it rejects exactly when the module does not load as an object |
| ConfigureSave.Configurator.ResolveObject | lib/plugin/congure-save.tmp.js:36-43 | `_object` rejects with a TypeError on `null` and with `false` without an own `module`, and otherwise passes on `_string(item.module, type, key, item)` two turns later |
| ConfigureSave.ObjectFormNeverResolves | lib/plugin/congure-save.tmp.js:36-43 | an entry given as an object with `module` passes itself as `def`: unless the type is "modifier" it never resolves, and it never settles when the module loads |
| ConfigureSave.Configurator.DispatchEntry | lib/plugin/congure-save.tmp.js:61-64 | `resolver[keyType(elem)](elem, type, key)` makes the promise of the resolver for the entry's kind, or throws |
| ConfigureSave.DispatchCases | lib/plugin/congure-save.tmp.js:61-64 | a dispatch throws, with a TypeError, exactly for the kinds with no resolver; a function resolves with itself |
| ConfigureSave.Configurator.DispatchKeys | lib/plugin/congure-save.tmp.js:59-64 | the first loop dispatches each key in order until one throws, pushing the promises and making the registrations of each |
| ConfigureSave.Configurator.LiveConf | lib/plugin/congure-save.tmp.js:66-73 | each key, in order, is assigned the result at its index |
| ConfigureSave.Configurator.ResolveConf | lib/plugin/congure-save.tmp.js:58-77 | `resolveConf` ends as `ResolvedConf` and registers what `RegisteredBy` lists |
| ConfigureSave.PromiseAllSettles | lib/plugin/congure-save.tmp.js:66-76 | `Promise.all` rejects exactly when some promise rejects, with the reason of one; hangs exactly when none rejects and one hangs; resolves exactly when all resolve, with their values |
| ConfigureSave.WinnerFirst | lib/plugin/congure-save.tmp.js:66-76 | the reported rejection is one that no other rejection comes before |
| ConfigureSave.ResolvedKeysMade | lib/plugin/congure-save.tmp.js:58-77 | when every entry makes a promise, `resolveConf` resolves with the keys assigned the values, or ends as `Promise.all` does |
| ConfigureSave.ResolvedKeysFollowsEntries | lib/plugin/congure-save.tmp.js:58-77 | when no entry throws, `resolveConf` rejects, hangs or resolves exactly as its entries do; with distinct keys it resolves with each key paired with its entry's value, in order |
| ConfigureSave.EmptyConfResolves | lib/plugin/congure-save.tmp.js:58-77 | a configuration without own keys resolves with `{}` and registers nothing |
| ConfigureSave.ResolvedKeysFirstThrow | lib/plugin/congure-save.tmp.js:61-64 | when the entry at `t` is the first to throw, `resolveConf` rejects with a TypeError, having registered only what the entries before it register |
| ConfigureSave.Configurator.CallConfigure | lib/plugin/congure-save.tmp.js:89-97 | `plugin.configure(Markconf)` throws a TypeError without a `configure` function, and otherwise is recorded and does what the plugin does |
| ConfigureSave.CallThrows | lib/plugin/congure-save.tmp.js:93 | a call throws exactly when there is no `configure` function or the function throws, with a TypeError or the function's error |
| ConfigureSave.CallRejects | lib/plugin/congure-save.tmp.js:93 | a call whose promise rejects is a `configure` function that rejected, with its error |
| ConfigureSave.Configurator.ConfigureStack | lib/plugin/congure-save.tmp.js:79-106 | `configureStack` ends as `StackOutcome` and calls `configure` on the plugins `StackCalled` lists |
| ConfigureSave.Configurator.ConfigureAll | lib/plugin/congure-save.tmp.js:82-99 | the loop over the enumerated plugins makes the calls of `CallStack`, stopping at the first that throws |
| ConfigureSave.Configurator.ConfigurePlugin | lib/plugin/congure-save.tmp.js:89-98 | one plugin's turn extends the loop by its targets' calls, or ends it at a call that throws |
| ConfigureSave.Configurator.ConfigureEach | lib/plugin/congure-save.tmp.js:95-97 | the inner loop calls `configure` on each element in turn until a call throws |
| ConfigureSave.CallStackFlat | lib/plugin/congure-save.tmp.js:82-99 | the nested loops make the same calls as one loop over every non-array plugin and every element of every array plugin, in order |
| ConfigureSave.StackRunMade | lib/plugin/congure-save.tmp.js:101-105 | when no call throws, `configureStack` follows `Promise.all` of the calls' promises and resolves with `undefined` |
| ConfigureSave.StackAllFulfil | lib/plugin/congure-save.tmp.js:79-106 | when every target has a `configure` that fulfils, `configureStack` resolves after calling each target exactly once, in order |
| ConfigureSave.StackRejectsWithACall | lib/plugin/congure-save.tmp.js:101-105 | when no call throws and one rejects, `configureStack` rejects with the error of a call that rejected |
| ConfigureSave.StackFirstThrow | lib/plugin/congure-save.tmp.js:82-99 | when the call on target `t` is the first to throw, `configureStack` rejects with its error, having called the targets before it and `t` itself when it has a `configure` |
| ConfigureSave.Configurator.ConfigurePlugins | lib/plugin/congure-save.tmp.js:108-135 | `configurePlugins` ends as `ConfiguredPlugins` and calls the plugins `PluginsCalled` lists |
| ConfigureSave.StackToConfigureCases | lib/plugin/congure-save.tmp.js:108-135 | the guards let a stack through exactly when the plugins are truthy, have the type as own key, and the stack has own keys; otherwise the first guard that fails rejects, with "No plugins were found", "No <type> plugins were found", the "modifier" message for a stack without own keys whatever the type, or the TypeError of `Reflect.ownKeys` on a stack that is not an object |
| ConfigureSave.Configurator.ConfigureIncluders | lib/plugin/congure-save.tmp.js:137-140 | `configureIncluders` configures its stack wrapped under `includers` |
| ConfigureSave.IncludersCases | lib/plugin/congure-save.tmp.js:137-140 | an object stack with own keys is configured; one without them rejects with the "modifier" message; a non-object stack rejects with a TypeError |
| ConfigureSave.Configurator.ConfigureModifiers | lib/plugin/congure-save.tmp.js:142-145 | `configureModifiers` always rejects with the missing-`modifiers` message and calls no plugin |
| ConfigureSave.ModifiersNeverFound | lib/plugin/congure-save.tmp.js:117-145 | the wrapper of `configureModifiers` never has the key it asks for |
| HttpRequestHandler.RequestHandler.constructor | core/http-request-handler.js:5 | the configuration starts unset |
| HttpRequestHandler.RequestHandler.Configure | core/http-request-handler.js:7-10 | `configure` stores the configuration and returns it unchanged |
| HttpRequestHandler.RequestHandler.HasMarkdownExt | core/http-request-handler.js:12-20 | the loop answers true exactly when the lower-cased extension of the path equals some configured extension, lower-cased |
| HttpRequestHandler.NoExtensionsNoMarkdown | core/http-request-handler.js:14-19 | with no extensions configured, no path is a markdown file |
| HttpRequestHandler.ExtensionlessPath | core/http-request-handler.js:15 | a path without extension counts as markdown exactly when the empty extension is configured |
| HttpRequestHandler.CaseInsensitive | core/http-request-handler.js:15 | lower-casing the configured extensions changes no answer |
| HttpRequestHandler.HttpRespond | core/http-request-handler.js:24-35 | the response gets head, data and end, in that order, and the payload is returned unchanged |
| HttpRequestHandler.ResponseRoundTrip | core/http-request-handler.js:27-32 | the three events written give back the payload they were written from |
| HttpRequestHandler.RequestHandler.HandleRequest | core/http-request-handler.js:38-49 | a request is handled as `Handling` says and the response gets exactly what `Written` lists |
| HttpRequestHandler.DelegatesIff | core/http-request-handler.js:39-43 | a configured handler delegates exactly when `Markconf.path` followed directly by the URL is a markdown file and the markdown handler is set, and then asks for that path |
| HttpRequestHandler.WrittenOnlyWhenDelegated | core/http-request-handler.js:43-48 | nothing is written for a request that is not delegated, nor for one whose payload never comes |
| HttpRequestHandler.DelegatedResponse | core/http-request-handler.js:44-47 | a delegated request hands the browser exactly the handler's payload |

## Left out

- The template compiler's `configure` (lib/template-compiler.js:11-14) stores a configuration nothing in the file reads. It is not modelled.
- cheerio parsing and serialisation are not modelled.
  - `filter` tests for an own `children` field but iterates `childNodes`. The model reads both as `children`, which holds because the parser's `childNodes` returns `children`.
  - A template file is given as its already-parsed top-level nodes.
  - Serialising a compiled tree and parsing it again (`cheerio.load(content)._root`) is taken to give the same tree back.
  - `$DOM.html()` is left as the tree itself.
- TemplateCompiler.Filter: `replaceWith` on the shared `$DOM` is modelled as a new tree with the child replaced at its position. Aliasing of nodes between documents is not modelled.
- TemplateCompiler.FirstFailure: when several children fail, the error named is that of the first failing child in document order. The source's `Promise.all` over concurrently running children reports whichever rejects first in time; for example, a `path.join` error thrown at once in a later child wins over the read error of an earlier child's missing file. Rejection timing in the template compiler is not modelled; `FilteredFailsIff` states what holds whatever the timing.
- TemplateCompiler.FailingChildFailsNode: the same document-order choice of error as `FirstFailure`, for the same reason.
- TemplateCompiler.Filter: as `FirstFailure`, the loop stops at the first failing child in document order, and the error is that child's.
- Nested compiles are bounded by `fuel`. `DepthExhausted` has no counterpart in the source: on a cyclic include the source recurses without end. `MoreFuelSameResult` shows the bound does not change a successful result.
- Reading a file (`helpFs.readfile`) is a lookup in a map, and a missing entry is the read error.
- `require` is a lookup of the exact path string in a map. Node's module resolution and caching are not modelled.
- `path` is modelled by POSIX `join`, `dirname`, `basename` and `extname` on strings.
- Promise concurrency is not modelled.
  - Every loop runs sequentially, and a promise is described by how it settles.
  - In `ConfigureSave`, the only delays modelled are `_object`'s `then`/`catch` (two turns). A plugin's own `configure` promise settles without delay.
  - In `LoadIncluders`, the `then` callback of `load` runs as part of `Load`. Interleaving with other calls is not modelled.
- Logging is not modelled: `log.trace`, `log.warn`, `log.error`, `log.fatal` and `console.log`. `log.ul` and `log.hl` inside messages are taken as the identity.
- `registry.register`, `compiler.configure` and `modifier.configure` are foreign. `register` is an opaque function, and only the calls made to it are recorded.
- The exported body of lib/plugin/congure-save.tmp.js (lines 147-216) does not parse as written. It is not modelled. The functions above it are modelled as if the file parsed.
- JavaScript values have no symbols, no `NaN` and no fractional numbers. They carry only their enumerable properties.
  - A `configure` method reachable only through a non-enumerable property, such as a class method, is not seen.
  - `Reflect.ownKeys` of an array adds `length`. That of a function is given as `length` alone, holding 0; either way the first key holding a number makes the dispatch throw.
- `toLowerCase` is modelled on ASCII letters only.
- TemplateCompiler.GetCommentIsMarkserv, TemplateCompiler.IsInclude: strings are modelled as sequences of Unicode scalar values, while JavaScript strings are sequences of UTF-16 code units. On a comment without a pipe whose last character lies outside the Basic Multilingual Plane, such as `<!--😀-->`, `slice(0, -1)` keeps a lone high surrogate. The source then sees a non-empty keyword, takes the comment for an include and fails the compile. The model drops the whole character and keeps the comment. Every other index, length and slice is affected in the same way for such characters.
- HttpRequestHandler.HandleRequest: the three fields of `Markconf` the handler reads are given as a record.
  - A missing nested field, which would make the source throw, is not modelled.
  - `httpResponseModifier` is a function giving the payload its promise fulfils with, or `None` when it never fulfils. Its rejection has no `catch` in the source, and an unhandled rejection is not modelled.
- `req` is given as its `originalUrl`, and `res` as the sequence of events done to it.
- ConfigureSave.Configurator.ConfigureStack: `Reflect.has` on a non-empty string stack throws at the first index. The model takes that case before the loop.
