/**
 * Loading the plugins in installation order: the choice of module
 * identifier, the import with its fallback, and the async generator that
 * yields each plugin's default export (`getPluginFuncGenerator` and
 * `getPlugin` in register-plugin.ts).
 */
module Loader {
  import opened PluginTypes

  /** The prefix a local plugin's destination path is joined onto. */
  const LocalRoot := "../../../../"

  /** `path.join` on two defined segments, without normalisation of `..`:
    * an empty segment is dropped, one separator is put between the two,
    * and an empty result becomes ".". */
  function Join(a: string, b: string): (p: string)
    ensures p != ""
    ensures a == "" && b != "" ==> p == b
    ensures a != "" ==> a <= p
    ensures b != "" && a != "" ==> |p| > |a|
  {
    if a == "" then (if b == "" then "." else b)
    else if b == "" then a
    else if a[|a| - 1] == '/' then a + b
    else a + "/" + b
  }

  /** JavaScript truthiness of an optional string. */
  predicate Truthy(s: Option<string>)
  {
    s.Some? && s.value != ""
  }

  /** The identifier to import and the custom path passed to `getPlugin`. */
  datatype Target = Target(name: string, customPath: Option<string>)

  /** Lines 28-35: a local plugin is imported from its destination path
    * under `LocalRoot` with no custom path; any other plugin by its npm
    * name with the installation path passed through. A local plugin with
    * no destination path makes `join` throw. */
  function Resolve(inst: Installation, installPath: Option<string>): (t: Result<Target, LoadError>)
    ensures t.Err? <==> inst.local && inst.destPath.None?
    ensures t.Err? ==> t.error == JoinArgUndefined
    ensures inst.local && inst.destPath.Some? ==>
              t == Ok(Target(Join(LocalRoot, inst.destPath.value), None))
    ensures !inst.local ==> t == Ok(Target(inst.npm, installPath))
  {
    if inst.local && inst.destPath.None? then Err(JoinArgUndefined)
    else
      var localPackage := if inst.local then Some(Join(LocalRoot, inst.destPath.value)) else None;
      var packageName := if Truthy(localPackage) then localPackage.value else inst.npm;
      Ok(Target(packageName, if Truthy(localPackage) then None else installPath))
  }

  /** A dynamic `import` of one identifier. */
  function Import(modules: Modules, id: string): Result<Module, LoadError>
  {
    if id in modules then Ok(modules[id]) else Err(ImportFailed(id))
  }

  /** The effect of one load: the module or the error thrown, the
    * identifiers whose import was attempted, and the errors logged. */
  datatype Fetch = Fetch(result: Result<Module, LoadError>, imports: seq<string>, logs: seq<LoadError>)

  /** `getPlugin` (lines 49-64). Without a (truthy) custom path the bare
    * name is imported first; if that throws the error is logged and the
    * name is joined onto the custom path, which throws when there is none.
    * With a custom path only the joined path is imported. `join` never
    * returns "", so the guard at line 61 always holds. */
  function GetPlugin(modules: Modules, name: string, customPath: Option<string>): Fetch
  {
    if !Truthy(customPath) then
      match Import(modules, name)
      case Ok(m) => Fetch(Ok(m), [name], [])
      case Err(e) =>
        if customPath.None? then Fetch(Err(JoinArgUndefined), [name], [e])
        else
          var path := Join(customPath.value, name);
          Fetch(Import(modules, path), [name, path], [e])
    else
      var path := Join(customPath.value, name);
      Fetch(Import(modules, path), [path], [])
  }

  /** What `getPlugin` imports and logs, and when it succeeds. */
  lemma GetPluginSpec(modules: Modules, name: string, customPath: Option<string>)
    ensures var f := GetPlugin(modules, name, customPath);
            && (1 <= |f.imports| <= 2)
            && (f.result.Ok? <==> f.imports[|f.imports| - 1] in modules)
            && (f.result.Ok? ==> f.result.value == modules[f.imports[|f.imports| - 1]])
            && (f.result.Err? ==> forall id :: id in f.imports ==> id !in modules)
            && (!Truthy(customPath) ==> f.imports[0] == name)
            && (customPath.None? ==> f.imports == [name])
            && (customPath.None? && f.result.Err? ==> f.result.error == JoinArgUndefined)
            && (Truthy(customPath) ==> f.imports == [Join(customPath.value, name)] && f.logs == [])
            && (!Truthy(customPath) ==> f.logs == if name in modules then [] else [ImportFailed(name)])
            && (customPath == Some("") ==> f.imports == if name in modules then [name] else [name, Join("", name)])
  {
  }

  /** One pass of the loop body up to the yields (lines 28-36), with the
    * logging of the `catch` at line 44 when the load throws. */
  function Load(modules: Modules, inst: Installation, installPath: Option<string>): Fetch
  {
    match Resolve(inst, installPath)
    case Err(e) => Fetch(Err(e), [], [e])
    case Ok(target) =>
      var f := GetPlugin(modules, target.name, target.customPath);
      if f.result.Err? then Fetch(f.result, f.imports, f.logs + [f.result.error]) else f
  }

  /** What `Load` does. The identifier a load imports is a local plugin's
    * joined destination path, or the npm name joined onto a truthy
    * installation path or tried bare first. The load succeeds exactly when
    * its last import does, and a load that throws logs what it threw. */
  lemma LoadSpec(modules: Modules, inst: Installation, installPath: Option<string>)
    ensures var f := Load(modules, inst, installPath);
            && |f.imports| <= 2
            && (f.result.Ok? <==> |f.imports| > 0 && f.imports[|f.imports| - 1] in modules)
            && (f.result.Ok? ==> f.result.value == modules[f.imports[|f.imports| - 1]])
            && (f.result.Err? ==> |f.logs| > 0 && f.logs[|f.logs| - 1] == f.result.error)
            && (inst.local && inst.destPath.Some? ==> f.imports == [Join(LocalRoot, inst.destPath.value)])
            && (inst.local && inst.destPath.None? ==> f.imports == [] && f.result.Err?)
            && (!inst.local && Truthy(installPath) ==> f.imports == [Join(installPath.value, inst.npm)])
            && (!inst.local && installPath.None? ==> f.imports == [inst.npm])
            && (!inst.local && installPath == Some("") ==> |f.imports| > 0 && f.imports[0] == inst.npm)
  {
    match Resolve(inst, installPath)
    case Err(_) =>
    case Ok(target) => GetPluginSpec(modules, target.name, target.customPath);
  }

  /** The values the generator yields for one loaded module (lines 39-41):
    * `EmptyClass` and then the missing default when there is no own
    * `default`, otherwise the default itself. */
  function YieldsOf(m: Module): (ys: seq<Export>)
    ensures 1 <= |ys| <= 2
    ensures |ys| == 2 <==> m.ownDefault.None?
    ensures ys[|ys| - 1] == if m.ownDefault.Some? then m.ownDefault.value else Undefined
    ensures |ys| == 2 ==> ys[0] == EmptyClass
  {
    match m.ownDefault
    case None => [EmptyClass, Undefined]
    case Some(d) => [d]
  }

  /**
   * `getPluginFuncGenerator`: an async generator, modelled as the object
   * that holds its suspended state. Each call to `Next` resumes the
   * do-while loop of lines 27-42 up to its next `yield`, or to its end.
   * `imports` and `logs` record the imports it has attempted and the
   * errors it has logged.
   */
  class PluginFuncGenerator {
    const modules: Modules
    const pluginList: seq<Installation>
    const installPath: Option<string>

    /** The loop's `index`: the number of installations loaded so far. */
    var index: nat
    /** What is still to be yielded for the module loaded last. */
    var pending: seq<Export>
    /** The generator has returned. */
    var done: bool
    var imports: seq<string>
    var logs: seq<LoadError>

    ghost predicate Valid()
      reads this
    {
      index <= |pluginList| && |pending| <= 1 && (pending != [] ==> !done)
    }

    constructor (modules: Modules, pluginList: seq<Installation>, installPath: Option<string>)
      ensures Valid()
      ensures this.modules == modules && this.pluginList == pluginList
      ensures this.installPath == installPath
      ensures index == 0 && pending == [] && !done && imports == [] && logs == []
    {
      this.modules := modules;
      this.pluginList := pluginList;
      this.installPath := installPath;
      index := 0;
      pending := [];
      done := false;
      imports := [];
      logs := [];
    }

    /** An upper bound on the number of `Next` calls still to make. */
    function Measure(): nat
      requires Valid()
      reads this
    {
      if done then 0 else 3 * (|pluginList| - index) + |pending| + 1
    }

    /** Resume the generator. `None` is the generator's completion. */
    method Next() returns (y: Option<Export>)
      requires Valid()
      modifies this
      ensures Valid()
      ensures old(done) ==> y.None? && unchanged(this)
      ensures y.None? <==> done
      ensures !old(done) ==> Measure() < old(Measure())
      // resumed after the `yield EmptyClass` of line 39: yield the default
      ensures !old(done) && old(pending) != [] ==>
                y == Some(old(pending)[0]) && pending == old(pending)[1..] && !done
                && index == old(index) && imports == old(imports) && logs == old(logs)
      // the loop condition fails; on an empty list `pluginList[0]` throws
      ensures !old(done) && old(pending) == [] && old(index) == |pluginList| ==>
                done && index == old(index) && imports == old(imports)
                && logs == old(logs) + (if old(index) == 0 then [MissingInstallation] else [])
      // the next installation is loaded
      ensures !old(done) && old(pending) == [] && old(index) < |pluginList| ==>
                var f := Load(modules, pluginList[old(index)], installPath);
                imports == old(imports) + f.imports && logs == old(logs) + f.logs
                && (f.result.Err? ==> done && index == old(index))
                && (f.result.Ok? ==>
                      !done && index == old(index) + 1
                      && y == Some(YieldsOf(f.result.value)[0])
                      && pending == YieldsOf(f.result.value)[1..])
    {
      if done {
        return None;
      }
      if pending != [] {
        y := Some(pending[0]);
        pending := pending[1..];
        return;
      }
      if index == |pluginList| {
        // the do-while tests its condition only after the first pass, so
        // with an empty list the first pass reads `pluginList[0]`
        if index == 0 {
          logs := logs + [MissingInstallation];
        }
        done := true;
        return None;
      }
      var f := Load(modules, pluginList[index], installPath);
      imports := imports + f.imports;
      logs := logs + f.logs;
      if f.result.Err? {
        done := true;
        return None;
      }
      index := index + 1;
      var ys := YieldsOf(f.result.value);
      y := Some(ys[0]);
      pending := ys[1..];
    }
  }
}
