/**
 * `registerPlugins` (register-plugin.ts lines 97-128), the entry point:
 * collect the accepted registrations and fold them into a fresh
 * `PluginMap`.
 */
module RegisterPlugin {
  import opened PluginTypes
  import opened Plugins
  import opened HookRegistry

  /** `None` is the returned promise rejecting. `imports` and `logs` are the
    * imports the run attempted and the errors it logged. */
  method RegisterPlugins(modules: Modules, pluginList: seq<Installation>, installPath: Option<string>)
    returns (pluginMap: Option<PluginMap>, imports: seq<string>, logs: seq<LoadError>)
    ensures var run := LoadAll(modules, pluginList, installPath);
            imports == run.imports && logs == run.logs
            && (pluginMap.None? <==> run.outcome.Rejected?)
            && (pluginMap.Some? ==>
                  fresh(pluginMap.value) && pluginMap.value.Valid()
                  && pluginMap.value.Value() == Fold(run.outcome.accepted))
    ensures pluginList == [] ==>
              pluginMap.Some? && pluginMap.value.Value() == EmptyMap && imports == [] && logs == []
  {
    var map_ := new PluginMap();
    var run := GetAllPlugins(modules, pluginList, installPath);
    imports, logs := run.imports, run.logs;
    if run.outcome.Rejected? {
      return None, imports, logs;
    }
    var pluginFuncsArr := run.outcome.accepted;
    // line 107: a fresh empty object when nothing was accepted
    if |pluginFuncsArr| == 0 {
      var empty := new PluginMap();
      return Some(empty), imports, logs;
    }
    var i := 0;
    while i < |pluginFuncsArr|
      invariant 0 <= i <= |pluginFuncsArr|
      invariant map_.Valid() && map_.Value() == Fold(pluginFuncsArr[..i])
    {
      AddPlugin(map_, pluginFuncsArr[i]);
      assert pluginFuncsArr[..i + 1][..i] == pluginFuncsArr[..i];
      i := i + 1;
    }
    assert pluginFuncsArr[..i] == pluginFuncsArr;
    return Some(map_), imports, logs;
  }

  /** The `reduce` callback (lines 110-123): for each own key of one
    * registration object, in order, create the key's lists on first sight
    * and append the callable `before` and `after` members. */
  method AddPlugin(map_: PluginMap, plugin: Events)
    requires map_.Valid()
    modifies map_
    ensures map_.Valid() && map_.Value() == AddEvents(old(map_.Value()), plugin)
  {
    ghost var start := map_.Value();
    var j := 0;
    while j < |plugin|
      invariant 0 <= j <= |plugin|
      invariant map_.Valid() && map_.Value() == AddEvents(start, plugin[..j])
    {
      var (eventKey, entry) := plugin[j];
      AddEventKey(map_, eventKey, entry);
      AddEventsStep(start, plugin, j);
      j := j + 1;
    }
    assert plugin[..j] == plugin;
  }

  lemma AddEventsStep(h: HookMap, events: Events, j: nat)
    requires j < |events|
    ensures AddEvents(h, events[..j + 1]) == AddEntry(AddEvents(h, events[..j]), events[j].0, events[j].1)
  {
    assert events[..j + 1][..j] == events[..j];
  }

  /** The `forEach` callback (lines 112-120) for one event key. */
  method AddEventKey(map_: PluginMap, eventKey: string, entry: Entry)
    requires map_.Valid()
    modifies map_
    ensures map_.Valid() && map_.Value() == AddEntry(old(map_.Value()), eventKey, entry)
  {
    if !map_.HasOwnProperty(eventKey) {
      map_.Assign(eventKey);
    }
    ghost var created := map_.Value();
    ghost var lists := created.events[eventKey];
    assert lists.before + [] == lists.before && lists.after + [] == lists.after;
    if IsCallable(entry.before) {
      map_.PushBefore(eventKey, entry.before.id);
    }
    if IsCallable(entry.after) {
      map_.PushAfter(eventKey, entry.after.id);
    }
    assert map_.keys == created.keys;
    assert map_.events == created.events[eventKey := HookLists(lists.before + CallableIds(entry.before),
                                                               lists.after + CallableIds(entry.after))];
  }

  /** From installations to registry: when no loaded module rejects, the
    * registry's keys are exactly the own keys of the registrations of the
    * loaded plugins whose `register` returns a plain object, and each list
    * holds their callable hooks for it in installation order. */
  lemma RegistryOfLoadedPlugins(modules: Modules, pluginList: seq<Installation>, installPath: Option<string>,
                                key: string, phase: Phase)
    requires var ms := LoadedModules(modules, pluginList, installPath);
             forall i :: 0 <= i < |ms| ==> !Rejects(ms[i])
    ensures var regs := Registrations(LoadedModules(modules, pluginList, installPath));
            LoadAll(modules, pluginList, installPath).outcome == Completed(regs)
            && (key in Fold(regs).events <==> key in AllKeys(regs))
            && (key in Fold(regs).events ==> ListOf(Fold(regs).events[key], phase) == Collected(regs, key, phase))
  {
    var regs := Registrations(LoadedModules(modules, pluginList, installPath));
    OutcomeOfLoadAll(modules, pluginList, installPath);
    FoldKeys(regs);
    if key in Fold(regs).events {
      FoldLists(regs, key, phase);
    }
  }
}
