/**
 * The `PluginMap` that `registerPlugins` builds (register-plugin.ts lines
 * 101-125): for each event name, the `before` and `after` hook lists.
 * `Fold` is the specification of the fold over the accepted registration
 * objects; `Collected` and `FirstOccurrences` are independent reference
 * definitions of its lists and of its key order, and the lemmas connect
 * the two.
 */
module HookRegistry {
  import opened PluginTypes

  /** The hook lists of one event: `{ before: [], after: [] }`. */
  datatype HookLists = HookLists(before: seq<HookId>, after: seq<HookId>)

  datatype Phase = Before | After

  function Pick(entry: Entry, phase: Phase): Member
  {
    if phase == Before then entry.before else entry.after
  }

  function ListOf(lists: HookLists, phase: Phase): seq<HookId>
  {
    if phase == Before then lists.before else lists.after
  }

  /** A value of the plugin map: its own keys in insertion order (the order
    * `Object.keys` gives) and the hook lists of each key. */
  datatype HookMap = HookMap(keys: seq<string>, events: map<string, HookLists>)

  const EmptyMap := HookMap([], map[])

  predicate NoDuplicates(s: seq<string>)
  {
    forall i, j :: 0 <= i < j < |s| ==> s[i] != s[j]
  }

  /** The key order lists every key of the map once. */
  ghost predicate WellFormed(h: HookMap)
  {
    NoDuplicates(h.keys) && forall k :: k in h.keys <==> k in h.events
  }

  /** The identity a member contributes: itself when it is callable, nothing
    * otherwise (line 117). */
  function CallableIds(m: Member): (ids: seq<HookId>)
    ensures |ids| <= 1
    ensures ids != [] <==> IsCallable(m)
  {
    if IsCallable(m) then [m.id] else []
  }

  /** What the plugin map was before an entry is added, for one key. */
  function Prior(h: HookMap, key: string, phase: Phase): seq<HookId>
  {
    if key in h.events then ListOf(h.events[key], phase) else []
  }

  /** One call of the `forEach` callback (lines 112-120): create the key's
    * lists on first sight, then append the callable `before` and `after`
    * members. */
  function AddEntry(h: HookMap, key: string, entry: Entry): (r: HookMap)
    ensures r.events.Keys == h.events.Keys + {key}
    ensures forall k :: k in h.events && k != key ==> r.events[k] == h.events[k]
    ensures r.keys == if key in h.events then h.keys else h.keys + [key]
    ensures WellFormed(h) ==> WellFormed(r)
  {
    var created := if key in h.events then h else HookMap(h.keys + [key], h.events[key := HookLists([], [])]);
    var lists := created.events[key];
    var r := HookMap(created.keys, created.events[key := HookLists(lists.before + CallableIds(entry.before),
                                                                   lists.after + CallableIds(entry.after))]);
    r
  }

  /** The `forEach` over `Object.keys(plugin)` (lines 111-121): every own
    * key of the object ends up in the map, and no key is removed or moved. */
  function AddEvents(h: HookMap, events: Events): (r: HookMap)
    ensures h.keys <= r.keys && h.events.Keys <= r.events.Keys
    ensures forall k :: k in KeysOf(events) ==> k in r.events
    decreases |events|
  {
    if events == [] then h
    else
      var init, last := events[..|events| - 1], events[|events| - 1];
      var mid := AddEvents(h, init);
      var r := AddEntry(mid, last.0, last.1);
      assert mid.keys <= r.keys;
      assert KeysOf(events) == KeysOf(init) + [last.0];
      r
  }

  /** The `reduce` over the accepted registration objects (lines 109-125),
    * starting from the empty map of line 101: every own key of every object
    * ends up in the map. */
  function Fold(objs: seq<Events>): (r: HookMap)
    ensures forall i, k :: 0 <= i < |objs| && k in KeysOf(objs[i]) ==> k in r.events
    decreases |objs|
  {
    if objs == [] then EmptyMap
    else AddEvents(Fold(objs[..|objs| - 1]), objs[|objs| - 1])
  }

  // ---------------------------------------------------------------------
  // Reference definitions
  // ---------------------------------------------------------------------

  /** `seen` followed by the elements of `s` not seen before, each once, in
    * the order of their first occurrence. */
  function FirstOccurrences(seen: seq<string>, s: seq<string>): seq<string>
    decreases |s|
  {
    if s == [] then seen
    else
      var d := FirstOccurrences(seen, s[..|s| - 1]);
      if s[|s| - 1] in d then d else d + [s[|s| - 1]]
  }

  /** Every own key of every registration object, in order. */
  function AllKeys(objs: seq<Events>): seq<string>
    decreases |objs|
  {
    if objs == [] then [] else AllKeys(objs[..|objs| - 1]) + KeysOf(objs[|objs| - 1])
  }

  /** The callable members for `key` in one registration object, in order. */
  function HooksIn(events: Events, key: string, phase: Phase): seq<HookId>
    decreases |events|
  {
    if events == [] then []
    else
      var last := events[|events| - 1];
      HooksIn(events[..|events| - 1], key, phase) + (if last.0 == key then CallableIds(Pick(last.1, phase)) else [])
  }

  /** The callable members for `key` across the registration objects, in
    * plugin order. */
  function Collected(objs: seq<Events>, key: string, phase: Phase): seq<HookId>
    decreases |objs|
  {
    if objs == [] then [] else Collected(objs[..|objs| - 1], key, phase) + HooksIn(objs[|objs| - 1], key, phase)
  }

  /** The number of registration objects that have `key` among their keys. */
  function CountContaining(objs: seq<Events>, key: string): nat
    decreases |objs|
  {
    if objs == [] then 0
    else CountContaining(objs[..|objs| - 1], key) + (if key in KeysOf(objs[|objs| - 1]) then 1 else 0)
  }

  // ---------------------------------------------------------------------
  // Lemmas
  // ---------------------------------------------------------------------

  lemma {:induction false} FirstOccurrencesSpec(seen: seq<string>, s: seq<string>)
    ensures seen <= FirstOccurrences(seen, s)
    ensures forall k :: k in FirstOccurrences(seen, s) <==> k in seen || k in s
    ensures NoDuplicates(seen) ==> NoDuplicates(FirstOccurrences(seen, s))
    decreases |s|
  {
    if s != [] {
      var init := s[..|s| - 1];
      FirstOccurrencesSpec(seen, init);
      assert s == init + [s[|s| - 1]];
    }
  }

  lemma {:induction false} FirstOccurrencesConcat(seen: seq<string>, s: seq<string>, t: seq<string>)
    ensures FirstOccurrences(FirstOccurrences(seen, s), t) == FirstOccurrences(seen, s + t)
    decreases |t|
  {
    if t == [] {
      assert s + t == s;
    } else {
      var init := t[..|t| - 1];
      FirstOccurrencesConcat(seen, s, init);
      assert (s + t)[..|s + t| - 1] == s + init;
      assert (s + t)[|s + t| - 1] == t[|t| - 1];
    }
  }

  lemma {:induction false} HooksInAbsent(events: Events, key: string, phase: Phase)
    requires key !in KeysOf(events)
    ensures HooksIn(events, key, phase) == []
    decreases |events|
  {
    if events != [] {
      var init := events[..|events| - 1];
      assert KeysOf(events) == KeysOf(init) + [events[|events| - 1].0];
      HooksInAbsent(init, key, phase);
    }
  }

  /** Adding one registration object: its keys join the key order by first
    * occurrence, once each. */
  lemma {:induction false} AddEventsKeys(h: HookMap, events: Events)
    requires WellFormed(h)
    ensures WellFormed(AddEvents(h, events))
    ensures AddEvents(h, events).keys == FirstOccurrences(h.keys, KeysOf(events))
    decreases |events|
  {
    if events != [] {
      var init := events[..|events| - 1];
      AddEventsKeys(h, init);
      assert KeysOf(events) == KeysOf(init) + [events[|events| - 1].0];
    }
  }

  /** Adding one registration object: each key's lists grow by exactly the
    * object's callable members for that key. */
  lemma {:induction false} AddEventsLists(h: HookMap, events: Events, key: string, phase: Phase)
    requires key in AddEvents(h, events).events
    ensures ListOf(AddEvents(h, events).events[key], phase) == Prior(h, key, phase) + HooksIn(events, key, phase)
    decreases |events|
  {
    if events != [] {
      var init := events[..|events| - 1];
      var last := events[|events| - 1];
      var mid := AddEvents(h, init);
      var added := if last.0 == key then CallableIds(Pick(last.1, phase)) else [];
      assert HooksIn(events, key, phase) == HooksIn(init, key, phase) + added;
      assert Prior(mid, key, phase) == Prior(h, key, phase) + HooksIn(init, key, phase) by {
        if key in mid.events {
          AddEventsLists(h, init, key, phase);
        } else {
          AddEventsAbsent(h, init, key, phase);
        }
      }
      assert ListOf(AddEvents(h, events).events[key], phase) == Prior(mid, key, phase) + added by {
        AddEntryList(mid, last.0, last.1, key, phase);
      }
      Regroup(ListOf(AddEvents(h, events).events[key], phase), Prior(mid, key, phase),
              Prior(h, key, phase), HooksIn(init, key, phase), added, HooksIn(events, key, phase));
    }
  }

  lemma Regroup(list: seq<HookId>, mid: seq<HookId>, prior: seq<HookId>, earlier: seq<HookId>,
                added: seq<HookId>, all: seq<HookId>)
    requires list == mid + added && mid == prior + earlier && all == earlier + added
    ensures list == prior + all
  {
  }

  /** One entry's effect on the list of any key. */
  lemma AddEntryList(h: HookMap, key: string, entry: Entry, k: string, phase: Phase)
    requires k in AddEntry(h, key, entry).events
    ensures ListOf(AddEntry(h, key, entry).events[k], phase)
         == Prior(h, k, phase) + (if k == key then CallableIds(Pick(entry, phase)) else [])
  {
    if k != key {
      assert Prior(h, k, phase) + [] == Prior(h, k, phase);
    }
  }

  lemma {:induction false} AddEventsAbsent(h: HookMap, events: Events, key: string, phase: Phase)
    requires key !in AddEvents(h, events).events
    ensures key !in h.events && HooksIn(events, key, phase) == []
    decreases |events|
  {
    if events != [] {
      AddEventsAbsent(h, events[..|events| - 1], key, phase);
    }
  }

  /** The plugin map's keys are, in order of first occurrence and once
    * each, every own key of every accepted registration object; a key is
    * created even when no object gives it a callable member. */
  lemma {:induction false} FoldKeys(objs: seq<Events>)
    ensures WellFormed(Fold(objs))
    ensures Fold(objs).keys == FirstOccurrences([], AllKeys(objs))
    ensures forall k :: k in Fold(objs).events <==> k in AllKeys(objs)
    decreases |objs|
  {
    if objs != [] {
      var init := objs[..|objs| - 1];
      var last := objs[|objs| - 1];
      FoldKeys(init);
      AddEventsKeys(Fold(init), last);
      FirstOccurrencesConcat([], AllKeys(init), KeysOf(last));
    }
    FirstOccurrencesSpec([], AllKeys(objs));
  }

  /** Each key's `before` (`after`) list is the accepted objects' callable
    * `before` (`after`) members for that key, in plugin order. */
  lemma {:induction false} FoldLists(objs: seq<Events>, key: string, phase: Phase)
    requires key in Fold(objs).events
    ensures ListOf(Fold(objs).events[key], phase) == Collected(objs, key, phase)
    decreases |objs|
  {
    var init := objs[..|objs| - 1];
    var last := objs[|objs| - 1];
    AddEventsLists(Fold(init), last, key, phase);
    if key in Fold(init).events {
      FoldLists(init, key, phase);
    } else {
      FoldKeys(init);
      CollectedAbsent(init, key, phase);
    }
  }

  lemma {:induction false} CollectedAbsent(objs: seq<Events>, key: string, phase: Phase)
    requires key !in AllKeys(objs)
    ensures Collected(objs, key, phase) == []
    decreases |objs|
  {
    if objs != [] {
      var init := objs[..|objs| - 1];
      HooksInAbsent(objs[|objs| - 1], key, phase);
      CollectedAbsent(init, key, phase);
    }
  }

  lemma {:induction false} CollectedAppend(objs: seq<Events>, more: seq<Events>, key: string, phase: Phase)
    ensures Collected(objs + more, key, phase) == Collected(objs, key, phase) + Collected(more, key, phase)
    decreases |more|
  {
    if more == [] {
      assert objs + more == objs;
    } else {
      var init := more[..|more| - 1];
      CollectedAppend(objs, init, key, phase);
      assert (objs + more)[..|objs + more| - 1] == objs + init;
      assert (objs + more)[|objs + more| - 1] == more[|more| - 1];
    }
  }

  lemma {:induction false} AllKeysAppend(objs: seq<Events>, more: seq<Events>)
    ensures AllKeys(objs + more) == AllKeys(objs) + AllKeys(more)
    decreases |more|
  {
    if more == [] {
      assert objs + more == objs;
    } else {
      var init := more[..|more| - 1];
      AllKeysAppend(objs, init);
      assert (objs + more)[..|objs + more| - 1] == objs + init;
      assert (objs + more)[|objs + more| - 1] == more[|more| - 1];
    }
  }

  /** Lists are only appended to: registering more plugins keeps every key
    * already seen, in place, and extends its lists without resetting them. */
  lemma FoldAppendOnly(objs: seq<Events>, more: seq<Events>, key: string, phase: Phase)
    requires key in Fold(objs).events
    ensures Fold(objs).keys <= Fold(objs + more).keys
    ensures key in Fold(objs + more).events
    ensures ListOf(Fold(objs).events[key], phase) <= ListOf(Fold(objs + more).events[key], phase)
  {
    FoldKeys(objs);
    FoldKeys(objs + more);
    AllKeysAppend(objs, more);
    FirstOccurrencesConcat([], AllKeys(objs), AllKeys(more));
    FirstOccurrencesSpec(FirstOccurrences([], AllKeys(objs)), AllKeys(more));
    FoldLists(objs, key, phase);
    FoldLists(objs + more, key, phase);
    CollectedAppend(objs, more, key, phase);
  }

  lemma {:induction false} HooksInAtMostOne(events: Events, key: string, phase: Phase)
    requires NoDuplicates(KeysOf(events))
    ensures |HooksIn(events, key, phase)| <= if key in KeysOf(events) then 1 else 0
    decreases |events|
  {
    if events == [] {
    } else {
      var init := events[..|events| - 1];
      var last := events[|events| - 1];
      assert KeysOf(events) == KeysOf(init) + [last.0];
      assert NoDuplicates(KeysOf(init));
      if last.0 == key {
        HooksInAbsent(init, key, phase);
      } else {
        HooksInAtMostOne(init, key, phase);
      }
    }
  }

  /** With no key repeated inside a registration object, no list is longer
    * than the number of objects that have its key: there is no duplication. */
  lemma {:induction false} CollectedBound(objs: seq<Events>, key: string, phase: Phase)
    requires forall i :: 0 <= i < |objs| ==> NoDuplicates(KeysOf(objs[i]))
    ensures |Collected(objs, key, phase)| <= CountContaining(objs, key)
    decreases |objs|
  {
    if objs != [] {
      var init := objs[..|objs| - 1];
      CollectedBound(init, key, phase);
      HooksInAtMostOne(objs[|objs| - 1], key, phase);
    }
  }

  /**
   * The `pluginMap` object, updated in place: `keys` is its own keys in
   * insertion order, `events` what each key holds.
   */
  class PluginMap {
    var keys: seq<string>
    var events: map<string, HookLists>

    function Value(): HookMap
      reads this
    {
      HookMap(keys, events)
    }

    ghost predicate Valid()
      reads this
    {
      WellFormed(Value())
    }

    /** `const pluginMap: PluginMap = {}` (line 101). */
    constructor ()
      ensures Valid() && Value() == EmptyMap
    {
      keys := [];
      events := map[];
    }

    /** `pluginMap.hasOwnProperty(key)` (line 112). */
    function HasOwnProperty(key: string): (b: bool)
      requires Valid()
      reads this
      ensures b <==> key in keys
    {
      key in events
    }

    /** `pluginContext[key] = { before: [], after: [] }` (line 113): a new
      * key goes to the end of the key order; an existing one keeps its
      * place. */
    method Assign(key: string)
      requires Valid()
      modifies this
      ensures Valid()
      ensures events == old(events)[key := HookLists([], [])]
      ensures keys == if key in old(events) then old(keys) else old(keys) + [key]
    {
      if key !in events {
        keys := keys + [key];
      }
      events := events[key := HookLists([], [])];
    }

    /** `pluginContext[key].before.push(hook)` (line 118). */
    method PushBefore(key: string, hook: HookId)
      requires Valid() && key in events
      modifies this
      ensures Valid() && keys == old(keys)
      ensures events == old(events)[key := HookLists(old(events)[key].before + [hook], old(events)[key].after)]
    {
      events := events[key := HookLists(events[key].before + [hook], events[key].after)];
    }

    /** `pluginContext[key].after.push(hook)` (line 120). */
    method PushAfter(key: string, hook: HookId)
      requires Valid() && key in events
      modifies this
      ensures Valid() && keys == old(keys)
      ensures events == old(events)[key := HookLists(old(events)[key].before, old(events)[key].after + [hook])]
    {
      events := events[key := HookLists(events[key].before, events[key].after + [hook])];
    }
  }
}
