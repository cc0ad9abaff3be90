# Plugin registry builder

A Dafny model of the plugin registry builder of the data-service
generator: `registerPlugins` in
`packages/data-service-generator/src/register-plugin.ts`. Given the plugin
installations in order and an optional installation path, it does three things:

- It loads each plugin module in turn, through the async generator
  `getPluginFuncGenerator` and its import fallback `getPlugin`.
- It constructs each default export and keeps the registration objects that
  `register()` returns when they are plain objects (`getAllPlugins`).
- It folds those objects into a `PluginMap`. For each event key the map
  holds `before` and `after` lists of the callable hooks, in plugin order.

The model is split into five modules:

- `PluginTypes` (`plugin_types.dfy`): the values the code inspects.
  - An installation.
  - A loaded module, which has or lacks an own `default`.
  - What `new` and `register()` do with a default export.
  - A registration object, as its own keys in `Object.keys` order, each with
    the `before`/`after` members' `Object.prototype.toString` tags.
- `Loader` (`loader.dfy`):
  - `Resolve`: the choice of the identifier to import.
  - `GetPlugin`: the import with its fallback.
  - `Load`: one pass of the generator loop up to its yields.
  - The generator itself, as the class `PluginFuncGenerator`. Its `Next`
    resumes the suspended do-while loop up to the next `yield` or to its end.
- `Plugins` (`plugins.dfy`):
  - `LoadAll` specifies a whole `getAllPlugins` run.
  - The method `GetAllPlugins` drives a `PluginFuncGenerator` exactly as the
    `for await` loop does, and is proved equal to `LoadAll`.
  - Lemmas state what a run accepts, rejects and loads.
- `HookRegistry` (`hook_registry.dfy`):
  - `Fold` specifies the `reduce` over the accepted registrations.
  - `FirstOccurrences`, `AllKeys` and `Collected` are independent reference
    definitions of the key order and of each hook list.
  - The class `PluginMap` is the object that the `reduce` updates in place.
- `RegisterPlugin` (`register_plugin.dfy`): the entry point `RegisterPlugins`
  and its in-place fold.

How the environment is represented:

- The module loader is a parameter `modules: map<string, Module>`. A dynamic
  `import` of an identifier that is not in the map throws.
- `path.join` is `Join`. It drops empty segments and puts one separator
  between the two parts. It never returns "", so the check at line 61 always
  passes.
- Every load records the identifiers whose import it attempted and the errors
  it logged, as two traces. That makes laziness a statement about the model:
  after the generator stops, nothing else is imported.
- The promise `registerPlugins` returns is a result: `None` stands for a
  rejected promise, `Some` for the resolved map.

Behaviours of the code worth knowing, each of which the model keeps:

- A loaded module without an own `default` makes the whole call reject; it is not just skipped.
  - Line 39 yields `EmptyClass`, which is skipped.
  - Line 41 then yields `undefined`.
  - `new undefined()` at line 81 throws, and `registerPlugins` rejects
    (`MissingDefaultRejects`).
- A load that throws ends the whole generator. The `catch` at lines 43-45 is
  outside the do-while loop, so later installations are never loaded, and the
  call still resolves with what was accepted before (`HaltStops`,
  `LoadFailureKeepsEarlier`).
- A key is created in the map even when neither of its members is callable
  (lines 112-113 run before the tag checks).
- A local plugin is imported from its destination path joined onto
  `../../../../`. The installation path is not used for it.
- `register` is tested for truthiness only (line 82). A truthy member that
  is not a function makes the call at line 84 throw, and the call rejects.
- A registration that is not a plain object is skipped without being logged.

## Model

| member | source | states |
|---|---|---|
| Loader.Join | packages/data-service-generator/src/register-plugin.ts:29 | the model's `join` (no normalisation, see "## Left out") never yields "", so the guard at line 61 always passes; it keeps a non-empty first segment as a prefix and gives back the second segment when the first is empty |
| Loader.Resolve | packages/data-service-generator/src/register-plugin.ts:28-35 | a local plugin is imported as its joined destination path with no custom path; any other plugin by its npm name with the installation path; a local plugin without a destination path throws, and only that case throws |
| Loader.GetPluginSpec | packages/data-service-generator/src/register-plugin.ts:49-64 | states what `GetPlugin`, the model of `getPlugin`, does: one or two imports are attempted; the result is the module of the last one, and it throws exactly when that one fails; without a truthy custom path the bare name is tried first and its failure is logged; with none the fallback `join` throws; with a truthy path only the joined path is imported |
| Loader.LoadSpec | packages/data-service-generator/src/register-plugin.ts:28-46 | states what `Load`, one pass of the loop body up to its yields with the `catch`'s log, does: identifier choice per installation kind (local, truthy installation path, absent path, empty path); the load succeeds exactly when its last import does; a load that throws has its error as its last log entry |
| Loader.YieldsOf | packages/data-service-generator/src/register-plugin.ts:39-41 | a module yields its own `default`, or, when it has none, `EmptyClass` followed by `undefined` |
| Loader.PluginFuncGenerator.constructor | packages/data-service-generator/src/register-plugin.ts:19-25 | a new generator starts before the first installation, with nothing loaded, pending or logged |
| Loader.PluginFuncGenerator.Next | packages/data-service-generator/src/register-plugin.ts:23-46 | resuming yields the pending default; otherwise it loads the next installation and yields its first export; a load that throws is logged and completes the generator; the end of the list completes it; an empty list fails on `pluginList[0]`; a completed generator stays completed; every resumption decreases a bound |
| Plugins.Consume | packages/data-service-generator/src/register-plugin.ts:81-88 | one yielded export throws exactly when it is not constructible or its `register` throws; it is kept exactly when `register` returns a plain object, and then it is that object |
| Plugins.InitializePlugin | packages/data-service-generator/src/register-plugin.ts:81-88 | the loop body's verdict on one export is the one `Consume` specifies |
| Plugins.ConsumeAll | packages/data-service-generator/src/register-plugin.ts:77-89 | consuming a run of yields rejects exactly when one of them throws |
| Plugins.LoadAll | packages/data-service-generator/src/register-plugin.ts:69-92 | the whole `getAllPlugins` run accepts at most one registration per installation and attempts at most two imports per installation; `OutcomeOfLoadAll`, `HaltStops`, `LoadFailureKeepsEarlier` and `MissingDefaultRejects` state the rest |
| Plugins.Pull | packages/data-service-generator/src/register-plugin.ts:77-80 | one step of `for await` resumes the generator: what it imports and logs joins the part of the run already done, and what it yields is consumed next, so the whole run is unchanged; the generator's bound decreases |
| Plugins.GetAllPlugins | packages/data-service-generator/src/register-plugin.ts:69-92 | the `for await` loop over the generator produces exactly the outcome, imports and logs of `LoadAll`; an empty list returns `[]` at once |
| Plugins.ConsumeModule | packages/data-service-generator/src/register-plugin.ts:39-41 | the yields of one module reject exactly when `Rejects` says so, and otherwise contribute the module's registration when it is a plain object |
| Plugins.OutcomeOfLoadAll | packages/data-service-generator/src/register-plugin.ts:69-92 | the accepted registrations are exactly those of the loaded plugins whose `register` returns a plain object, in installation order; the run rejects exactly when a loaded module rejects |
| Plugins.HaltStops | packages/data-service-generator/src/register-plugin.ts:27-46 | once a load throws or a module rejects, the installations after it change neither the outcome nor the imports nor the logs |
| Plugins.LoadFailureKeepsEarlier | packages/data-service-generator/src/register-plugin.ts:43-45 | a load that throws does not make the run reject; the outcome is that of the installations before it |
| Plugins.MissingDefaultRejects | packages/data-service-generator/src/register-plugin.ts:39-41 | a module without own `default` reached by the run makes the whole call reject |
| HookRegistry.CallableIds | packages/data-service-generator/src/register-plugin.ts:117-120 | a member contributes at most one hook, and one exactly when its tag is a function tag |
| HookRegistry.AddEntry | packages/data-service-generator/src/register-plugin.ts:112-113 | after one key of one registration, the key exists and no other key is added; other keys' lists are untouched; a new key goes to the end of the key order and a known one keeps its place; well-formedness (distinct keys, matching the map) is kept |
| HookRegistry.AddEntryList | packages/data-service-generator/src/register-plugin.ts:112-120 | after one key of one registration, that key's `before`/`after` list is its earlier list (empty for a new key) plus the member when it is callable; any other key's list is unchanged |
| HookRegistry.AddEvents | packages/data-service-generator/src/register-plugin.ts:111-121 | the `forEach` over one registration puts every own key of it in the map, and removes or moves no key; `AddEventsKeys` and `AddEventsLists` state the exact result |
| HookRegistry.Fold | packages/data-service-generator/src/register-plugin.ts:109-125 | the `reduce` over the accepted registrations, from the empty object of line 101, puts every own key of every registration in the map; `FoldKeys` and `FoldLists` state the exact result |
| HookRegistry.FirstOccurrencesSpec | packages/data-service-generator/src/register-plugin.ts:111-113 | the key order begins with what was already there and holds exactly the old keys and the new ones |
| HookRegistry.AddEventsKeys | packages/data-service-generator/src/register-plugin.ts:111-113 | one registration adds its keys not seen before, in `Object.keys` order, and no duplicate |
| HookRegistry.AddEventsLists | packages/data-service-generator/src/register-plugin.ts:111-121 | one registration appends to each list exactly its callable members for that key |
| HookRegistry.FoldKeys | packages/data-service-generator/src/register-plugin.ts:101-125 | the map's key set is exactly the union of the registrations' own keys, ordered by first occurrence, without duplicates, including keys with no callable hook |
| HookRegistry.FoldLists | packages/data-service-generator/src/register-plugin.ts:109-125 | each key's `before`/`after` list is the concatenation of the callable members in plugin order, with no deduplication |
| HookRegistry.FoldAppendOnly | packages/data-service-generator/src/register-plugin.ts:109-125 | later registrations never remove a key, reorder keys or remove a hook: keys and lists only grow at the end |
| HookRegistry.CollectedBound | packages/data-service-generator/src/register-plugin.ts:115-120 | a key's list has at most one hook per registration that has the key |
| HookRegistry.PluginMap.constructor | packages/data-service-generator/src/register-plugin.ts:101 | the map starts empty |
| HookRegistry.PluginMap.HasOwnProperty | packages/data-service-generator/src/register-plugin.ts:112 | a key is an own property exactly when it has been created |
| HookRegistry.PluginMap.Assign | packages/data-service-generator/src/register-plugin.ts:113 | the key is set to two empty lists; a new key goes to the end of the key order |
| HookRegistry.PluginMap.PushBefore | packages/data-service-generator/src/register-plugin.ts:118 | the hook is appended to the key's `before` list; nothing else changes |
| HookRegistry.PluginMap.PushAfter | packages/data-service-generator/src/register-plugin.ts:120 | the hook is appended to the key's `after` list; nothing else changes |
| RegisterPlugin.RegisterPlugins | packages/data-service-generator/src/register-plugin.ts:97-128 | rejects exactly when the run rejects; otherwise returns a fresh map equal to the fold of the accepted registrations; an empty list gives an empty map and loads nothing |
| RegisterPlugin.AddPlugin | packages/data-service-generator/src/register-plugin.ts:110-123 | the `reduce` callback updates the map in place to the fold step of one registration |
| RegisterPlugin.AddEventKey | packages/data-service-generator/src/register-plugin.ts:112-120 | the `forEach` callback updates the map in place to the step of one key |
| RegisterPlugin.RegistryOfLoadedPlugins | packages/data-service-generator/src/register-plugin.ts:69-128 | when no loaded module rejects, the registry's keys are exactly the own keys of the plain-object registrations of the loaded plugins, and each list holds their callable hooks in installation order |

## Left out

- Module resolution is a map from identifiers to modules. Node's resolution
  algorithm, module caching and CommonJS/ESM interop are not modelled. A loaded
  module is treated as an object on which `hasOwnProperty` can be called.
- `path.join` does not normalise `.` and `..` segments in this model. Only
  whether it throws and which identifier it forms matter to the code.
- The logger is a trace of the errors logged. Its output format is not modelled.
- Async scheduling is not modelled. Every `await` is a step in sequence, which
  is how the code runs them: one at a time.
- `Object.keys` is given as the registration's key sequence. The JavaScript
  rule that puts integer-like keys first, and special keys such as
  `__proto__`, are not modelled.
- Getters that throw when `before`/`after` or `register` are read are not
  modelled. A falsy or non-object entry behaves as one with both members missing.
- Side effects of plugin constructors and of `register()` other than
  throwing are not modelled.
- Loader.PluginFuncGenerator.Next: the value the generator returns from its
  `catch` (`EmptyClass` at line 45) is not produced, because `for await`
  discards a generator's return value.
- How the hooks in the registry are later invoked is not part of this model.
- `packages/amplication-code-gen-types/src/plugin-events-params.ts`,
  `packages/amplication-server/src/core/entityPage/entityPage.service.ts` and
  `packages/amplication-server/src/core/assistant/assistant.module.ts` are
  not part of this model.
