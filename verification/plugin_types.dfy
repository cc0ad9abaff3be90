/**
 * The values the plugin registry builder works on: plugin installations,
 * loaded modules and their default exports, plugin instances and the
 * registration objects their `register` method returns.
 *
 * The dynamic parts of JavaScript the builder inspects are kept only as far
 * as the code looks at them: the `Object.prototype.toString` tag of a value,
 * the own keys of an object in `Object.keys` order, and whether `new` or a
 * call throws.
 */
module PluginTypes {

  datatype Option<+T> = None | Some(value: T)

  datatype Result<+T, +E> = Ok(value: T) | Err(error: E)

  /** An opaque identity for a hook function a plugin registers. */
  type HookId = nat

  /** The tag `Object.prototype.toString` gives a plain object. */
  const ObjectTag := "[object Object]"

  /** The tag of `undefined`, which a missing `before`/`after` member has. */
  const UndefinedTag := "[object Undefined]"

  /** The tags of the values accepted as hooks: sync and async functions. */
  const FunctionTags := ["[object Function]", "[object AsyncFunction]"]

  /** One installed plugin. `local` and `destPath` are its optional
    * `settings`; absent settings are `local == false`. */
  datatype Installation = Installation(npm: string, local: bool, destPath: Option<string>)

  /** A `before` or `after` member of a registration entry, as destructuring
    * reads it: missing (undefined), or a value with its tag and identity. */
  datatype Member = Missing | Present(tag: string, id: HookId)

  function TagOf(m: Member): string
  {
    match m
    case Missing => UndefinedTag
    case Present(tag, _) => tag
  }

  /** The test at register-plugin.ts line 117: the member's tag is one of the
    * two function tags. */
  predicate IsCallable(m: Member)
  {
    TagOf(m) in FunctionTags
  }

  /** `plugin[eventKey] || {}` destructured into its two members. */
  datatype Entry = Entry(before: Member, after: Member)

  /** A registration object: its own keys in `Object.keys` order, each with
    * its entry. */
  type Events = seq<(string, Entry)>

  function KeysOf(events: Events): (ks: seq<string>)
    ensures |ks| == |events|
    ensures forall i :: 0 <= i < |events| ==> ks[i] == events[i].0
  {
    if events == [] then [] else KeysOf(events[..|events| - 1]) + [events[|events| - 1].0]
  }

  /** The value `register()` returned: its tag and, read through
    * `Object.keys`, its own entries. */
  datatype RegValue = RegValue(tag: string, events: Events)

  /** A constructed plugin instance. `NoRegister` is a falsy `register`
    * member; `ThrowingRegister` a truthy one whose call throws (this
    * includes a truthy member that is not a function). */
  datatype Instance = NoRegister | ThrowingRegister | Register(returned: RegValue)

  /** What a module's `default` can be, as `new` sees it. */
  datatype Export =
    | Undefined
    | NotConstructor
    | ThrowingConstructor
    | Constructor(instance: Instance)

  /** `class EmptyClass {}`: constructs an instance without `register`. */
  const EmptyClass := Constructor(NoRegister)

  /** A loaded module; `ownDefault` is `None` when it has no own `default`
    * property. */
  datatype Module = Module(ownDefault: Option<Export>)

  /** The module-resolution capability: the identifiers whose dynamic
    * `import` succeeds, and the module each yields. Any other identifier
    * makes `import` throw. */
  type Modules = map<string, Module>

  /** The errors the loader logs. */
  datatype LoadError =
    | ImportFailed(id: string)   // a dynamic import threw
    | JoinArgUndefined           // path.join was given `undefined`
    | MissingInstallation        // `pluginList[index]` was undefined
}
