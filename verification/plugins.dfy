/**
 * `getAllPlugins` (register-plugin.ts lines 69-92): drive the generator,
 * construct each yielded default export, keep the registrations of the
 * plugins whose `register` returns a plain object. `LoadAll` is the
 * specification of the whole run; `GetAllPlugins` is proved against it and
 * the lemmas below state what the run does.
 */
module Plugins {
  import opened PluginTypes
  import opened Loader

  /** What the loop body of lines 81-88 makes of one yielded export: `new`
    * or `register()` throws, the plugin is skipped, or its registration
    * object is kept. */
  datatype Verdict = Throws | Skip | Accept(events: Events)

  function Consume(e: Export): (v: Verdict)
    ensures v.Throws? <==> !e.Constructor? || e.instance.ThrowingRegister?
    ensures v.Accept? <==>
              e.Constructor? && e.instance.Register? && e.instance.returned.tag == ObjectTag
    ensures v.Accept? ==> v.events == e.instance.returned.events
  {
    match e
    case Constructor(instance) =>
      (match instance
       case NoRegister => Skip
       case ThrowingRegister => Throws
       case Register(value) => if value.tag != ObjectTag then Skip else Accept(value.events))
    case _ => Throws
  }

  /** How a run ends: with the registrations accepted, or with
    * `registerPlugins` rejecting because an exception escaped the loop. */
  datatype Outcome = Completed(accepted: seq<Events>) | Rejected

  function Prepend(front: seq<Events>, o: Outcome): Outcome
  {
    match o
    case Rejected => Rejected
    case Completed(rest) => Completed(front + rest)
  }

  /** Consume a sequence of yielded exports in order. */
  function ConsumeAll(ys: seq<Export>): (o: Outcome)
    ensures o.Rejected? <==> exists i :: 0 <= i < |ys| && Consume(ys[i]).Throws?
  {
    if ys == [] then Completed([])
    else
      match Consume(ys[0])
      case Throws => Rejected
      case Skip => ConsumeAll(ys[1..])
      case Accept(events) => Prepend([events], ConsumeAll(ys[1..]))
  }

  /** The result of a run, with the imports it attempted and the errors it
    * logged. */
  datatype Run = Run(outcome: Outcome, imports: seq<string>, logs: seq<LoadError>)

  /** The run that does nothing and accepts nothing. */
  const Quiet := Run(Completed([]), [], [])

  /** `r` preceded by some imports and logged errors. */
  function Effect(imports: seq<string>, logs: seq<LoadError>, r: Run): Run
  {
    Run(r.outcome, imports + r.imports, logs + r.logs)
  }

  /** `r` preceded by the consumption of some yields: a rejection there
    * ends the run (the generator is not resumed). */
  function Then(o: Outcome, r: Run): Run
  {
    match o
    case Rejected => Run(Rejected, [], [])
    case Completed(front) => Run(Prepend(front, r.outcome), r.imports, r.logs)
  }

  /** The whole of `getAllPlugins` on a list of installations: load each in
    * order, consume what the generator yields for it, and stop at the first
    * load that throws (the generator's `catch`) or the first export whose
    * construction throws. Each installation contributes at most one
    * registration and at most two import attempts. */
  function LoadAll(modules: Modules, pluginList: seq<Installation>, installPath: Option<string>): (r: Run)
    ensures r.outcome.Completed? ==> |r.outcome.accepted| <= |pluginList|
    ensures |r.imports| <= 2 * |pluginList|
    decreases |pluginList|
  {
    if pluginList == [] then Quiet
    else
      var f := Load(modules, pluginList[0], installPath);
      LoadSpec(modules, pluginList[0], installPath);
      match f.result
      case Err(_) => Run(Completed([]), f.imports, f.logs)
      case Ok(m) =>
        ConsumeModule(m);
        Effect(f.imports, f.logs, Then(ConsumeAll(YieldsOf(m)), LoadAll(modules, pluginList[1..], installPath)))
  }

  // ---------------------------------------------------------------------
  // The loop of getAllPlugins
  // ---------------------------------------------------------------------

  /** What is left of the run from a suspended generator's state. */
  ghost function Resume(modules: Modules, pluginList: seq<Installation>, installPath: Option<string>,
                        index: nat, pending: seq<Export>, done: bool): Run
    requires index <= |pluginList|
  {
    if done then Quiet
    else Then(ConsumeAll(pending), LoadAll(modules, pluginList[index..], installPath))
  }

  ghost function Continuation(gen: PluginFuncGenerator): Run
    requires gen.Valid()
    reads gen
  {
    Resume(gen.modules, gen.pluginList, gen.installPath, gen.index, gen.pending, gen.done)
  }

  function Lookahead(y: Option<Export>): seq<Export>
  {
    if y.Some? then [y.value] else []
  }

  lemma ThenEmpty(r: Run)
    ensures Then(Completed([]), r) == r
  {
    match r.outcome
    case Rejected =>
    case Completed(xs) => assert [] + xs == xs;
  }

  lemma ThenThen(front: seq<Events>, more: seq<Events>, r: Run)
    ensures Then(Completed(front), Then(Completed(more), r)) == Then(Completed(front + more), r)
  {
    match r.outcome
    case Rejected =>
    case Completed(xs) => assert front + (more + xs) == (front + more) + xs;
  }

  lemma ThenEffect(front: seq<Events>, imports: seq<string>, logs: seq<LoadError>, r: Run)
    ensures Then(Completed(front), Effect(imports, logs, r)) == Effect(imports, logs, Then(Completed(front), r))
  {
  }

  lemma EffectEffect(i1: seq<string>, l1: seq<LoadError>, i2: seq<string>, l2: seq<LoadError>, r: Run)
    ensures Effect(i1, l1, Effect(i2, l2, r)) == Effect(i1 + i2, l1 + l2, r)
  {
    assert i1 + (i2 + r.imports) == (i1 + i2) + r.imports;
    assert l1 + (l2 + r.logs) == (l1 + l2) + r.logs;
  }

  /** Consuming a non-empty sequence of yields is consuming its head and then
    * its tail. */
  lemma {:induction false} ThenSplit(ys: seq<Export>, r: Run)
    requires ys != []
    ensures Then(ConsumeAll(ys), r) == Then(ConsumeAll([ys[0]]), Then(ConsumeAll(ys[1..]), r))
  {
    assert [ys[0]][1..] == [];
    match Consume(ys[0])
    case Throws =>
    case Skip =>
      ThenEmpty(Then(ConsumeAll(ys[1..]), r));
    case Accept(events) =>
      match ConsumeAll(ys[1..])
      case Rejected =>
      case Completed(more) =>
        assert [events] + [] == [events];
        assert ConsumeAll([ys[0]]) == Completed([events]);
        assert ConsumeAll(ys) == Completed([events] + more);
        ThenThen([events], more, r);
  }

  /** One resumption of the generator, as `Next` states it, moves the
    * continuation forward by what it imported, logged and yielded. */
  lemma {:induction false} ResumeStep(modules: Modules, pluginList: seq<Installation>, installPath: Option<string>,
                                      index: nat, pending: seq<Export>, done: bool,
                                      index': nat, pending': seq<Export>, done': bool,
                                      imports: seq<string>, logs: seq<LoadError>, y: Option<Export>)
    requires index <= |pluginList| && index' <= |pluginList| && |pending| <= 1
    requires !done && |pluginList| > 0
    requires y.None? <==> done'
    requires pending' != [] ==> !done'
    requires pending != [] ==>
               y == Some(pending[0]) && pending' == pending[1..] && !done'
               && index' == index && imports == [] && logs == []
    requires pending == [] && index == |pluginList| ==> done' && imports == [] && logs == []
    requires pending == [] && index < |pluginList| ==>
               var f := Load(modules, pluginList[index], installPath);
               imports == f.imports && logs == f.logs
               && (f.result.Err? ==> done')
               && (f.result.Ok? ==>
                     !done' && index' == index + 1
                     && y == Some(YieldsOf(f.result.value)[0])
                     && pending' == YieldsOf(f.result.value)[1..])
    ensures Resume(modules, pluginList, installPath, index, pending, done)
         == Effect(imports, logs, Then(ConsumeAll(Lookahead(y)),
                                       Resume(modules, pluginList, installPath, index', pending', done')))
  {
    var rest := LoadAll(modules, pluginList[index..], installPath);
    if pending != [] {
      assert pending == [pending[0]] && pending' == [];
      ThenEmpty(rest);
    } else if index == |pluginList| {
      assert pluginList[index..] == [];
      ThenEmpty(Quiet);
    } else {
      var f := Load(modules, pluginList[index], installPath);
      assert pluginList[index..][0] == pluginList[index];
      assert pluginList[index..][1..] == pluginList[index + 1..];
      ThenEmpty(rest);
      match f.result
      case Err(_) =>
        assert f.imports + [] == f.imports && f.logs + [] == f.logs;
        ThenEmpty(Quiet);
      case Ok(m) =>
        var later := LoadAll(modules, pluginList[index + 1..], installPath);
        ThenSplit(YieldsOf(m), later);
        ThenEmpty(later);
    }
  }

  /** Consuming one yielded export on top of the registrations kept so far. */
  lemma Absorb(front: seq<Events>, e: Export, k: Run)
    ensures Then(Completed(front), Then(ConsumeAll([e]), k))
         == match Consume(e)
            case Throws => Run(Rejected, [], [])
            case Skip => Then(Completed(front), k)
            case Accept(events) => Then(Completed(front + [events]), k)
  {
    assert [e][0] == e && [e][1..] == [];
    match Consume(e)
    case Throws =>
    case Skip => ThenEmpty(k);
    case Accept(events) =>
      assert [events] + [] == [events];
      ThenThen(front, [events], k);
  }

  /** Resuming the generator moves its effects into the part of the run
    * already done. */
  lemma Advance(front: seq<Events>, imports: seq<string>, logs: seq<LoadError>, k: Run,
                newImports: seq<string>, newLogs: seq<LoadError>, y: Option<Export>, k': Run)
    requires k == Effect(newImports, newLogs, Then(ConsumeAll(Lookahead(y)), k'))
    ensures Effect(imports, logs, Then(Completed(front), k))
         == Effect(imports + newImports, logs + newLogs,
                   Then(Completed(front), Then(ConsumeAll(Lookahead(y)), k')))
  {
    var r := Then(ConsumeAll(Lookahead(y)), k');
    ThenEffect(front, newImports, newLogs, r);
    EffectEffect(imports, logs, newImports, newLogs, Then(Completed(front), r));
  }

  /** The body of the `for await` loop (lines 81-86) for one yielded
    * export: construct it, look for `register`, call it and check the
    * tag of what it returns. */
  method InitializePlugin(pluginFunc: Export) returns (verdict: Verdict)
    ensures verdict == Consume(pluginFunc)
  {
    // line 81: `new pluginFunc()`
    if !pluginFunc.Constructor? {
      return Throws;
    }
    var initializeClass := pluginFunc.instance;
    // line 82: a falsy `register` member; otherwise line 84 calls it
    match initializeClass
    case NoRegister => return Skip;
    case ThrowingRegister => return Throws;
    case Register(pluginEvents) =>
      // line 85: only a value tagged as a plain object is kept
      if pluginEvents.tag != ObjectTag {
        return Skip;
      }
      return Accept(pluginEvents.events);
  }

  /** Resume the generator from the `for await` loop. What the resumption
    * imports and logs moves into the part of the run already done, and what
    * it yields comes next in the rest of the run. */
  method Pull(gen: PluginFuncGenerator, ghost front: seq<Events>) returns (y: Option<Export>)
    requires gen.Valid() && !gen.done && |gen.pluginList| > 0
    modifies gen
    ensures gen.Valid() && (y.None? <==> gen.done)
    ensures gen.Measure() < old(gen.Measure())
    ensures Effect(old(gen.imports), old(gen.logs), Then(Completed(front), old(Continuation(gen))))
         == Effect(gen.imports, gen.logs, Then(Completed(front), Then(ConsumeAll(Lookahead(y)), Continuation(gen))))
  {
    ghost var k := Continuation(gen);
    ghost var (index, pending, imports, logs) := (gen.index, gen.pending, gen.imports, gen.logs);
    y := gen.Next();
    ghost var newImports, newLogs := gen.imports[|imports|..], gen.logs[|logs|..];
    assert gen.imports == imports + newImports && gen.logs == logs + newLogs;
    ResumeStep(gen.modules, gen.pluginList, gen.installPath, index, pending, false,
               gen.index, gen.pending, gen.done, newImports, newLogs, y);
    Advance(front, imports, logs, k, newImports, newLogs, y, Continuation(gen));
  }

  /** `getAllPlugins`: an empty list returns at once (line 73); otherwise the
    * generator is driven to its end or until constructing or registering a
    * yielded export throws. */
  method GetAllPlugins(modules: Modules, pluginList: seq<Installation>, installPath: Option<string>)
    returns (run: Run)
    ensures run == LoadAll(modules, pluginList, installPath)
  {
    if |pluginList| == 0 {
      return Quiet;
    }
    var pluginFuncsArr: seq<Events> := [];
    var gen := new PluginFuncGenerator(modules, pluginList, installPath);
    assert pluginList[0..] == pluginList;
    ThenEmpty(LoadAll(modules, pluginList, installPath));
    var y := Pull(gen, []);
    while y.Some?
      invariant gen.Valid()
      invariant gen.modules == modules && gen.pluginList == pluginList && gen.installPath == installPath
      invariant y.None? <==> gen.done
      invariant LoadAll(modules, pluginList, installPath)
             == Effect(gen.imports, gen.logs,
                       Then(Completed(pluginFuncsArr), Then(ConsumeAll(Lookahead(y)), Continuation(gen))))
      decreases gen.Measure()
    {
      var pluginFunc := y.value;
      Absorb(pluginFuncsArr, pluginFunc, Continuation(gen));
      var verdict := InitializePlugin(pluginFunc);
      if verdict.Throws? {
        return Run(Rejected, gen.imports, gen.logs);
      }
      if verdict.Accept? {
        pluginFuncsArr := pluginFuncsArr + [verdict.events];
      }
      y := Pull(gen, pluginFuncsArr);
    }
    ThenEmpty(Continuation(gen));
    assert pluginFuncsArr + [] == pluginFuncsArr;
    run := Run(Completed(pluginFuncsArr), gen.imports, gen.logs);
  }

  // ---------------------------------------------------------------------
  // What a run accepts, rejects and loads
  // ---------------------------------------------------------------------

  /** A loaded module makes the whole call reject: it has no own `default`
    * (line 41 then yields `undefined`), its default cannot be constructed or
    * its constructor throws (line 81), or its `register` throws (line 84). */
  function Rejects(m: Module): bool
  {
    match m.ownDefault
    case None => true
    case Some(d) => !d.Constructor? || d.instance.ThrowingRegister?
  }

  /** The registration a module that does not reject contributes: the value
    * its `register` returns, when that value is a plain object. */
  function Registration(m: Module): seq<Events>
  {
    match m.ownDefault
    case Some(Constructor(Register(value))) => if value.tag == ObjectTag then [value.events] else []
    case _ => []
  }

  /** The generator's yields for one module, consumed: either it rejects or
    * it contributes its registration. */
  lemma ConsumeModule(m: Module)
    ensures ConsumeAll(YieldsOf(m)) == if Rejects(m) then Rejected else Completed(Registration(m))
  {
    var ys := YieldsOf(m);
    if m.ownDefault.Some? {
      assert ys[1..] == [];
    } else {
      assert ys[1..][1..] == [];
    }
  }

  /** The load at this installation throws, or the module it loads makes
    * the call reject: in both cases the generator is not resumed. */
  predicate Halts(modules: Modules, inst: Installation, installPath: Option<string>)
  {
    var f := Load(modules, inst, installPath);
    f.result.Err? || Rejects(f.result.value)
  }

  /** The modules loaded in installation order, up to the first load that
    * throws. */
  function LoadedModules(modules: Modules, pluginList: seq<Installation>, installPath: Option<string>): seq<Module>
    decreases |pluginList|
  {
    if pluginList == [] then []
    else
      match Load(modules, pluginList[0], installPath).result
      case Err(_) => []
      case Ok(m) => [m] + LoadedModules(modules, pluginList[1..], installPath)
  }

  /** The registrations of a sequence of modules, in order. */
  function Registrations(ms: seq<Module>): seq<Events>
  {
    if ms == [] then [] else Registration(ms[0]) + Registrations(ms[1..])
  }

  /** The accepted registrations are exactly those of the loaded plugins
    * whose `register` returns a plain object, in installation order; the
    * call rejects exactly when one of the loaded modules rejects. */
  lemma {:induction false} OutcomeOfLoadAll(modules: Modules, pluginList: seq<Installation>, installPath: Option<string>)
    ensures var ms := LoadedModules(modules, pluginList, installPath);
            LoadAll(modules, pluginList, installPath).outcome
            == if exists i :: 0 <= i < |ms| && Rejects(ms[i]) then Rejected else Completed(Registrations(ms))
    decreases |pluginList|
  {
    if pluginList != [] {
      var f := Load(modules, pluginList[0], installPath);
      match f.result
      case Err(_) =>
      case Ok(m) =>
        var rest := LoadedModules(modules, pluginList[1..], installPath);
        var ms := [m] + rest;
        assert ms[1..] == rest;
        OutcomeOfLoadAll(modules, pluginList[1..], installPath);
        ConsumeModule(m);
        if !Rejects(m) && !(exists i :: 0 <= i < |rest| && Rejects(rest[i])) {
          forall i | 0 <= i < |ms| ensures !Rejects(ms[i]) {
            if i > 0 { assert ms[i] == rest[i - 1]; }
          }
        } else if !Rejects(m) {
          var i :| 0 <= i < |rest| && Rejects(rest[i]);
          assert ms[i + 1] == rest[i];
        } else {
          assert ms[0] == m;
        }
    }
  }

  /** Laziness: once the generator halts at an installation, the
    * installations after it are never loaded and change nothing. */
  lemma {:induction false} HaltStops(modules: Modules, pluginList: seq<Installation>, installPath: Option<string>, j: nat)
    requires j < |pluginList| && Halts(modules, pluginList[j], installPath)
    ensures LoadAll(modules, pluginList, installPath) == LoadAll(modules, pluginList[..j + 1], installPath)
    decreases j
  {
    var prefix := pluginList[..j + 1];
    assert prefix[0] == pluginList[0];
    var f := Load(modules, pluginList[0], installPath);
    match f.result
    case Err(_) =>
    case Ok(m) =>
      if j == 0 {
        ConsumeModule(m);
      } else {
        assert prefix[1..] == pluginList[1..][..j];
        HaltStops(modules, pluginList[1..], installPath, j - 1);
      }
  }

  /** A load that throws ends the run without rejecting it: the run's
    * outcome is the one the installations before it give. */
  lemma {:induction false} LoadFailureKeepsEarlier(modules: Modules, pluginList: seq<Installation>,
                                                   installPath: Option<string>, j: nat)
    requires j < |pluginList| && Load(modules, pluginList[j], installPath).result.Err?
    ensures LoadAll(modules, pluginList, installPath).outcome == LoadAll(modules, pluginList[..j], installPath).outcome
    decreases j
  {
    if j > 0 {
      var prefix := pluginList[..j];
      assert prefix[0] == pluginList[0];
      match Load(modules, pluginList[0], installPath).result
      case Err(_) =>
      case Ok(m) =>
        assert prefix[1..] == pluginList[1..][..j - 1];
        LoadFailureKeepsEarlier(modules, pluginList[1..], installPath, j - 1);
    }
  }

  /** A module without an own `default` that the run reaches makes the
    * whole call reject. */
  lemma {:induction false} MissingDefaultRejects(modules: Modules, pluginList: seq<Installation>,
                                                 installPath: Option<string>, j: nat)
    requires j < |pluginList|
    requires forall i :: 0 <= i < j ==> !Halts(modules, pluginList[i], installPath)
    requires var f := Load(modules, pluginList[j], installPath);
             f.result.Ok? && f.result.value.ownDefault.None?
    ensures LoadAll(modules, pluginList, installPath).outcome.Rejected?
    decreases j
  {
    var m := Load(modules, pluginList[0], installPath).result.value;
    ConsumeModule(m);
    if j > 0 {
      assert !Halts(modules, pluginList[0], installPath);
      forall i | 0 <= i < j - 1 ensures !Halts(modules, pluginList[1..][i], installPath) {
        assert pluginList[1..][i] == pluginList[i + 1];
      }
      MissingDefaultRejects(modules, pluginList[1..], installPath, j - 1);
    }
  }
}
