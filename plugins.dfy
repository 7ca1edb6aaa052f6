/** The plugin lifecycle of packages/core/src/plugins/index.ts: route prefixes,
    the plugin-name filter, the `Hook` barrier that waits for every plugin to be
    created or to fail, `waitPlugins`, the per-plugin state field with its
    guards, the listener bookkeeping of `on`/`off`/`onDispose`, and the
    manager's partition of load results. The plugin's own hooks are reduced to
    which of them exist and whether a call of one fails; the shared mitt bus is
    its map from event type to handler list; a plugin's lifecycle
    progress handle to the states it sent while open. */
module Plugins {
  import opened Common
  import Task

  /** The `PluginState` enum: notReady, onCreate, onActive, onDispose and error. */
  datatype PluginState = NotReady | Creating | Active | Disposed | Error

  const AppPlugin: string := "feedengine-app-plugin"
  const BuiltinPlugins: set<string> := {"feedengine-app-plugin", "feedengine-atom-plugin"}

  /** Which lifecycle hooks the plugin object returned by the factory defines. */
  datatype Hooks = Hooks(hasOnCreate: bool, hasOnActive: bool, hasOnDispose: bool)

  /** `plugin.app`: its directory, its `baseUrl` (None when undefined) and its
      `settingUrl`, whatever value that is. */
  datatype AppInfo = AppInfo(dir: string, baseUrl: Option<string>, settingUrl: Val)

  /** What the try block of init obtains: the plugin object, the version read
      from the plugin's package.json, and `plugin.app`. */
  datatype Loaded = Loaded(hooks: Hooks, version: string, app: Option<AppInfo>)

  /** The mitt bus shared by all plugins (mitt 3.0.0): each event type's
      handler list, in subscription order. */
  class EventBus {
    var handlers: map<Val, seq<Val>>

    constructor ()
      ensures handlers == map[]
    {
      handlers := map[];
    }
  }

  /** mitt's `on`: the handler joins the end of its type's list, which is
      created when the type is new. */
  function MittOn(all: map<Val, seq<Val>>, key: Val, h: Val): (r: map<Val, seq<Val>>)
    ensures r.Keys == all.Keys + {key}
    ensures forall k :: k in all && k != key ==> r[k] == all[k]
    ensures key in all ==> |r[key]| == |all[key]| + 1 && r[key][..|all[key]|] == all[key]
    ensures |r[key]| >= 1 && r[key][|r[key]| - 1] == h
    ensures multiset(r[key]) == (if key in all then multiset(all[key]) else multiset{}) + multiset{h}
  {
    all[key := (if key in all then all[key] else []) + [h]]
  }

  /** `splice(indexOf(h) >>> 0, 1)`: the first copy of `h` leaves the list.
      Without one, `indexOf` gives -1, whose unsigned shift lies past the end
      of any array, and nothing is removed. */
  function RemoveFirst(s: seq<Val>, h: Val): (r: seq<Val>)
    ensures h !in s ==> r == s
    ensures h in s ==> exists i :: 0 <= i < |s| && s[i] == h && h !in s[..i] && r == s[..i] + s[i + 1..]
    ensures multiset(r) == multiset(s) - multiset{h}
  {
    var i := Task.FindIndex(s, h);
    if i < 0 then s
    else
      assert s == s[..i] + [s[i]] + s[i + 1..];
      s[..i] + s[i + 1..]
  }

  /** mitt's `off` on one type's list: a truthy handler loses its first copy,
      and any falsy value empties the whole list. */
  function OffList(l: seq<Val>, h: Val): (r: seq<Val>)
    ensures !Truthy(h) ==> r == []
    ensures Truthy(h) ==> multiset(r) == multiset(l) - multiset{h}
    ensures Truthy(h) && h !in l ==> r == l
  {
    if Truthy(h) then RemoveFirst(l, h) else []
  }

  /** mitt's `off`: the type's list as OffList says, and a type never
      subscribed to is left alone. */
  function MittOff(all: map<Val, seq<Val>>, key: Val, h: Val): (r: map<Val, seq<Val>>)
    ensures r.Keys == all.Keys
    ensures forall k :: k in all && k != key ==> r[k] == all[k]
    ensures key in all ==> r[key] == OffList(all[key], h)
  {
    if key in all then all[key := OffList(all[key], h)] else all
  }

  /** What `off(type, h)` for every `h` of `hs` leaves of a type's list:
      nothing when one of them is falsy, and otherwise the list less one copy
      of each, in whatever order the offs come. */
  ghost predicate Released(before: seq<Val>, after: seq<Val>, hs: set<Val>)
  {
    if exists h :: h in hs && !Truthy(h) then after == []
    else multiset(after) == multiset(before) - multiset(hs)
  }

  /** One more `off` keeps Released. */
  lemma ReleasedStep(before: seq<Val>, mid: seq<Val>, done: set<Val>, h: Val)
    requires Released(before, mid, done) && h !in done
    ensures Released(before, OffList(mid, h), done + {h})
  {
    var after := OffList(mid, h);
    if exists g :: g in done && !Truthy(g) {
      var g :| g in done && !Truthy(g);
      assert g in done + {h};
      assert after == [];
    } else if !Truthy(h) {
      assert h in done + {h};
    } else {
      assert multiset(done + {h}) == multiset(done) + multiset{h};
      assert forall g :: g in done + {h} ==> Truthy(g);
    }
  }

  /** The bus after `off(key, h)` for each `h` of `done`: only `key`'s list
      has changed, and it is released of `done`. */
  ghost predicate OffInv(before: map<Val, seq<Val>>, after: map<Val, seq<Val>>, key: Val, done: set<Val>)
  {
    && after.Keys == before.Keys
    && (forall k :: k in after && k != key ==> after[k] == before[k])
    && (key in after ==> Released(before[key], after[key], done))
  }

  /** One more `off(key, h)` keeps OffInv. */
  lemma OffStep(before: map<Val, seq<Val>>, mid: map<Val, seq<Val>>, key: Val, done: set<Val>, h: Val)
    requires OffInv(before, mid, key, done) && h !in done
    ensures OffInv(before, MittOff(mid, key, h), key, done + {h})
  {
    if key in mid {
      ReleasedStep(before[key], mid[key], done, h);
    }
  }

  /** What onDispose's loop leaves on the bus: each type the plugin recorded
      is released of the handlers recorded for it, and every other type keeps
      its list. */
  ghost predicate ListenersReleased(before: map<Val, seq<Val>>, after: map<Val, seq<Val>>, listeners: map<Val, set<Val>>)
  {
    && after.Keys == before.Keys
    && (forall k :: k in after && k !in listeners ==> after[k] == before[k])
    && (forall k :: k in after && k in listeners ==> Released(before[k], after[k], listeners[k]))
  }

  // ---------------------------------------------------------------------------
  // Route prefixes

  /** The constructor's baseUrl: the root for the two built-in plugins and the
      plugin's own segment for every other plugin. */
  function InitialBaseUrl(name: string): (u: string)
    ensures |u| >= 1 && u[0] == '/' && u[|u| - 1] == '/'
    ensures u == "/" <==> name in BuiltinPlugins
    ensures name !in BuiltinPlugins ==> u[1..|u| - 1] == name
  {
    if name in BuiltinPlugins then "/" else "/" + name + "/"
  }

  /** `this.baseUrl += baseUrl` when `app.baseUrl` is truthy. */
  function AppBaseUrl(base: string, appBase: Option<string>): (u: string)
    ensures |u| >= |base| && u[..|base|] == base
    ensures u == base <==> appBase.None? || appBase.value == ""
    ensures appBase.Some? ==> u[|base|..] == appBase.value
  {
    if appBase.Some? && appBase.value != "" then base + appBase.value else base
  }

  /** A string `settingUrl` is appended to the baseUrl; any other value is kept. */
  function SettingUrlOf(base: string, settingUrl: Val): (r: Val)
    ensures settingUrl.Str? <==> r.Str?
    ensures settingUrl.Str? ==>
      |r.s| == |base| + |settingUrl.s| && r.s[..|base|] == base && r.s[|base|..] == settingUrl.s
    ensures !settingUrl.Str? ==> r == settingUrl
  {
    if settingUrl.Str? then Str(base + settingUrl.s) else settingUrl
  }

  // ---------------------------------------------------------------------------
  // The plugin-name filter /feedengine-.+-plugin$/

  /** The characters `.` does not match. */
  predicate LineTerminator(c: char)
  {
    c == '\n' || c == '\r' || c == '\U{2028}' || c == '\U{2029}'
  }

  predicate NoLineTerminator(t: string)
  {
    forall k :: 0 <= k < |t| ==> !LineTerminator(t[k])
  }

  /** The pattern matches starting at `i`: "feedengine-", then at least one
      character other than a line terminator, then "-plugin" at the very end.
      Nothing anchors the start. */
  ghost predicate PatternMatchesAt(s: string, i: int)
  {
    && 0 <= i && i + 19 <= |s|
    && s[i..i + 11] == "feedengine-"
    && s[|s| - 7..] == "-plugin"
    && NoLineTerminator(s[i + 11..|s| - 7])
  }

  /** The regular expression's search for a start position, from `i` on. */
  function SearchFrom(s: string, i: nat): (b: bool)
    requires |s| >= 7 && s[|s| - 7..] == "-plugin"
    ensures b <==> exists j :: i <= j && PatternMatchesAt(s, j)
    decreases |s| - i
  {
    if i + 19 > |s| then false
    else if s[i..i + 11] == "feedengine-" && NoLineTerminator(s[i + 11..|s| - 7]) then
      assert PatternMatchesAt(s, i);
      true
    else
      var b := SearchFrom(s, i + 1);
      assert !PatternMatchesAt(s, i);
      assert (exists j :: i <= j && PatternMatchesAt(s, j)) ==> exists j :: i + 1 <= j && PatternMatchesAt(s, j);
      b
  }

  /** `pluginPattern.test(name)`. */
  function TestPluginPattern(s: string): (b: bool)
    ensures b <==> exists i :: PatternMatchesAt(s, i)
  {
    if |s| < 19 || s[|s| - 7..] != "-plugin" then false else SearchFrom(s, 0)
  }

  /** The pattern is not anchored at the start, so a scoped name matches too. */
  lemma ScopedNameMatches()
    ensures TestPluginPattern("@scope/feedengine-rss-plugin")
  {
    var s := "@scope/feedengine-rss-plugin";
    assert PatternMatchesAt(s, 7);
  }

  /** A name ending in "-plugin" without anything between the two parts does not. */
  lemma EmptyMiddleDoesNotMatch()
    ensures !TestPluginPattern("feedengine--plugin")
  {
  }

  /** The dependency names that are loaded as plugins, in package.json order. */
  function PluginNames(deps: seq<string>): (r: seq<string>)
    ensures forall x :: x in r <==> x in deps && TestPluginPattern(x)
    ensures |r| <= |deps|
  {
    if deps == [] then []
    else (if TestPluginPattern(deps[0]) then [deps[0]] else []) + PluginNames(deps[1..])
  }

  // ---------------------------------------------------------------------------
  // The Hook barrier and waitPlugins

  /** An event the hook receives from a plugin. */
  datatype Event = Created(name: string) | Failed(name: string)

  /** The hook's own listeners: each event adds its plugin to the matching set. */
  function ApplyEvent(created: set<string>, errored: set<string>, e: Event): (r: (set<string>, set<string>))
    ensures e.Created? ==> r.0 == created + {e.name} && r.1 == errored
    ensures e.Failed? ==> r.0 == created && r.1 == errored + {e.name}
  {
    match e
    case Created(n) => (created + {n}, errored)
    case Failed(n) => (created, errored + {n})
  }

  /** The number of allSettled emissions scheduled while the hook's listeners
      process `evs`, starting from the sets `created` and `errored`. */
  function SettleTimes(count: nat, created: set<string>, errored: set<string>, evs: seq<Event>): nat
    decreases |evs|
  {
    if evs == [] then 0
    else
      var next := ApplyEvent(created, errored, evs[0]);
      (if |next.0| + |next.1| == count then 1 else 0) + SettleTimes(count, next.0, next.1, evs[1..])
  }

  ghost predicate DistinctNames(evs: seq<Event>)
  {
    forall i, j :: 0 <= i < j < |evs| ==> evs[i].name != evs[j].name
  }

  /** When every plugin reports exactly once, created or failed, allSettled is
      scheduled exactly once: on the last report. */
  lemma {:induction false} SettledOnce(count: nat, created: set<string>, errored: set<string>, evs: seq<Event>)
    requires created !! errored
    requires DistinctNames(evs)
    requires forall i :: 0 <= i < |evs| ==> evs[i].name !in created + errored
    requires |created| + |errored| + |evs| == count && evs != []
    ensures SettleTimes(count, created, errored, evs) == 1
    decreases |evs|
  {
    var next := ApplyEvent(created, errored, evs[0]);
    assert |next.0| + |next.1| == |created| + |errored| + 1;
    if |evs| > 1 {
      forall i | 0 <= i < |evs[1..]|
        ensures evs[1..][i].name !in next.0 + next.1
      {
        assert evs[1..][i] == evs[i + 1];
      }
      SettledOnce(count, next.0, next.1, evs[1..]);
    }
  }

  /** Each event adds at most one name, so while fewer reports arrive than
      there are plugins, the count never reaches the number of plugins and
      allSettled is never scheduled. */
  lemma {:induction false} ShortReportsNeverSettle(count: nat, created: set<string>, errored: set<string>, evs: seq<Event>)
    requires |created| + |errored| + |evs| < count
    ensures SettleTimes(count, created, errored, evs) == 0
    decreases |evs|
  {
    if evs != [] {
      var next := ApplyEvent(created, errored, evs[0]);
      assert |next.0| + |next.1| <= |created| + |errored| + 1;
      ShortReportsNeverSettle(count, next.0, next.1, evs[1..]);
    }
  }

  /** The state of one waitPlugins call: the names still awaited, how its promise
      settled, and whether its `created` and `error` listeners are attached. */
  datatype Watch = Watch(names: set<string>, outcome: Option<bool>, onCreated: bool, onError: bool)

  /** A promise settles once; later calls of resolve or reject change nothing. */
  function Settle(o: Option<bool>, v: bool): (r: Option<bool>)
    ensures o.Some? ==> r == o
    ensures o.None? ==> r == Some(v)
  {
    if o.None? then Some(v) else o
  }

  /** A waitPlugins call's listeners receive an event. */
  function Notify(w: Watch, e: Event): (r: Watch)
  {
    match e
    case Created(n) =>
      if w.onCreated && n in w.names then
        var rest := w.names - {n};
        if rest == {} then Watch(rest, Settle(w.outcome, true), false, w.onError) else w.(names := rest)
      else w
    case Failed(n) =>
      if w.onError && n in w.names then w.(outcome := Settle(w.outcome, false), onError := false) else w
  }

  /** Every attached waitPlugins call receives the event, in registration order. */
  function NotifyAll(ws: seq<Watch>, e: Event): (r: seq<Watch>)
    ensures |r| == |ws|
    ensures forall i :: 0 <= i < |ws| ==> r[i] == Notify(ws[i], e)
  {
    if ws == [] then [] else [Notify(ws[0], e)] + NotifyAll(ws[1..], e)
  }

  /** The `created` events a waitPlugins call receives, one after another. */
  function NotifyCreated(w: Watch, ns: seq<string>): Watch
    decreases |ns|
  {
    if ns == [] then w else NotifyCreated(Notify(w, Created(ns[0])), ns[1..])
  }

  lemma {:induction false} DetachedStays(w: Watch, ns: seq<string>)
    requires !w.onCreated
    ensures NotifyCreated(w, ns) == w
    decreases |ns|
  {
    if ns != [] {
      DetachedStays(Notify(w, Created(ns[0])), ns[1..]);
    }
  }

  /** A pending waitPlugins call resolves on a sequence of `created` events
      exactly when every awaited name is among them. */
  lemma {:induction false} ResolvesWhenAllCreated(w: Watch, ns: seq<string>)
    requires w.onCreated && w.outcome.None? && w.names != {}
    ensures NotifyCreated(w, ns).outcome == Some(true) <==> w.names <= set n | n in ns
    decreases |ns|
  {
    if ns == [] {
      var x :| x in w.names;
      assert x !in set n | n in ns;
    } else {
      var next := Notify(w, Created(ns[0]));
      assert (set n | n in ns) == {ns[0]} + set n | n in ns[1..];
      if ns[0] in w.names && w.names - {ns[0]} == {} {
        DetachedStays(next, ns[1..]);
      } else if ns[0] in w.names {
        ResolvesWhenAllCreated(next, ns[1..]);
      } else {
        ResolvesWhenAllCreated(next, ns[1..]);
      }
    }
  }

  /** The decision of waitPlugins: the first requested name that is unknown or
      failed rejects; otherwise the names not yet created are watched, and an
      empty watch has already resolved. */
  datatype WaitOutcome = NoSuchPlugin(name: string) | LoadFailed(name: string) | Watching(watch: set<string>)

  class Hook {
    const pluginNames: set<string>
    var created: set<string>
    var errored: set<string>
    /** Whether the hook's own `created` and `error` listeners are attached. */
    var listening: bool
    /** allSettled emissions scheduled with setImmediate that have not yet run. */
    var scheduled: nat
    /** The `once('allSettled')` listeners, as the plugins whose onActive they call. */
    var activeListeners: seq<Plugin>
    /** The listeners of the waitPlugins calls, in registration order. */
    var watchers: seq<Watch>

    constructor (pluginNames: set<string>)
      ensures this.pluginNames == pluginNames && created == {} && errored == {}
      ensures listening && scheduled == 0 && activeListeners == [] && watchers == []
    {
      this.pluginNames := pluginNames;
      created := {};
      errored := {};
      listening := true;
      scheduled := 0;
      activeListeners := [];
      watchers := [];
    }

    predicate Bad(n: string)
      reads this
    {
      n !in pluginNames || n in errored
    }

    /** `emit('created' | 'error', name)`: the hook's own listener, while
        attached, records the plugin and schedules allSettled once every plugin
        has reported; then every waitPlugins listener receives the event. */
    method Emit(e: Event)
      modifies this`created, this`errored, this`scheduled, this`watchers
      ensures listening ==> (created, errored) == ApplyEvent(old(created), old(errored), e)
      ensures !listening ==> created == old(created) && errored == old(errored)
      ensures scheduled == old(scheduled) +
        (if listening && |created| + |errored| == |pluginNames| then 1 else 0)
      ensures watchers == NotifyAll(old(watchers), e)
    {
      if listening {
        match e {
          case Created(n) => created := created + {n};
          case Failed(n) => errored := errored + {n};
        }
        if |created| + |errored| == |pluginNames| {
          scheduled := scheduled + 1;
        }
      }
      watchers := NotifyAll(watchers, e);
    }

    /** A scheduled allSettled runs: every once-listener is called, and then
        every listener of the hook is removed. */
    method FireAllSettled() returns (notified: seq<Plugin>)
      requires scheduled > 0
      modifies this`scheduled, this`activeListeners, this`watchers, this`listening
      ensures notified == old(activeListeners)
      ensures scheduled == old(scheduled) - 1
      ensures activeListeners == [] && watchers == [] && !listening
    {
      scheduled := scheduled - 1;
      notified := activeListeners;
      activeListeners := [];
      watchers := [];
      listening := false;
    }

    /** waitPlugins: scans the requested names in order; unless it rejects, it
        installs its listeners. */
    method WaitPlugins(names: seq<string>) returns (r: WaitOutcome)
      modifies this`watchers
      ensures (r.NoSuchPlugin? || r.LoadFailed?) <==> exists i :: 0 <= i < |names| && Bad(names[i])
      ensures r.NoSuchPlugin? ==> exists i :: (0 <= i < |names| && names[i] == r.name && names[i] !in pluginNames &&
        forall j :: 0 <= j < i ==> !Bad(names[j]))
      ensures r.LoadFailed? ==> exists i :: (0 <= i < |names| && names[i] == r.name &&
        names[i] in pluginNames && names[i] in errored && forall j :: 0 <= j < i ==> !Bad(names[j]))
      ensures r.Watching? ==> forall n :: n in r.watch <==> n in names && n !in created
      ensures r.Watching? ==>
        watchers == old(watchers) + [Watch(r.watch, if r.watch == {} then Some(true) else None, true, true)]
      ensures !r.Watching? ==> watchers == old(watchers)
    {
      var watch: set<string> := {};
      var i := 0;
      while i < |names|
        invariant 0 <= i <= |names|
        invariant forall j :: 0 <= j < i ==> !Bad(names[j])
        invariant forall n :: n in watch <==> n in names[..i] && n !in created
      {
        var target := names[i];
        if target !in pluginNames {
          return NoSuchPlugin(target);
        }
        if target in errored {
          return LoadFailed(target);
        }
        if target !in created {
          watch := watch + {target};
        }
        assert names[..i + 1] == names[..i] + [target];
        i := i + 1;
      }
      assert names[..i] == names;
      var outcome: Option<bool> := if watch == {} then Some(true) else None;
      watchers := watchers + [Watch(watch, outcome, true, true)];
      r := Watching(watch);
    }
  }

  /** Two plugins, one created and one failed: allSettled is scheduled by the
      second report, not by the first, and a repeated report after it has
      fired schedules nothing more. */
  method TwoPluginsSettle() returns (afterFirst: nat, afterSecond: nat, afterRepeat: nat)
    ensures afterFirst == 0 && afterSecond == 1 && afterRepeat == 0
  {
    var hook := new Hook({"a", "b"});
    hook.Emit(Created("a"));
    assert hook.created == {"a"};
    afterFirst := hook.scheduled;
    hook.Emit(Failed("b"));
    assert |hook.created| + |hook.errored| == 2;
    afterSecond := hook.scheduled;
    var notified := hook.FireAllSettled();
    hook.Emit(Created("a"));
    afterRepeat := hook.scheduled;
  }

  // ---------------------------------------------------------------------------
  // Plugins

  /** Nothing registered under the plugin's name remains with the task manager. */
  predicate NoTasksOf(t: Task.TaskManager, name: string)
    reads t`registeredStdTask, t`registeredStdNames, t`nonStdTaskTree
  {
    && (forall k :: k in t.registeredStdTask ==> t.registeredStdTask[k].owner != Some(name))
    && Some(name) !in t.registeredStdNames
    && (forall tn, n :: tn in t.nonStdTaskTree && n in t.nonStdTaskTree[tn] ==> n.owner != Some(name))
  }

  /** The task registry's footprint holds only task objects, so a plugin and
      the objects it refers to are outside it. */
  lemma OutsideTasks(t: Task.TaskManager, p: Plugin)
    ensures p !in t.Repr() && p.bus !in t.Repr() && p.manager !in t.Repr() && p.hook !in t.Repr()
    ensures forall m :: m in t.Metas() ==> m as object != p && m as object != p.manager && m as object != p.hook
  {
  }

  class Plugin {
    const name: string
    const hook: Hook
    const manager: PluginManager
    const tasks: Task.TaskManager
    const bus: EventBus

    var version: Option<string>
    var dir: Option<string>
    var baseUrl: string
    var settingUrl: Val
    var state: PluginState
    /** `this.plugin`: the plugin object, once init has obtained it. */
    var plugin: Option<Hooks>
    var eventListener: map<Val, set<Val>>
    var fastifyPluginRegister: Option<Val>
    /** The states sent through the lifecycle progress handle while it was open. */
    var progress: seq<string>
    var progressOpen: bool

    /** The constructor: the route prefix, the allSettled listener, and a fresh
        progress handle. */
    constructor (name: string, hook: Hook, manager: PluginManager, tasks: Task.TaskManager, bus: EventBus)
      modifies hook`activeListeners
      ensures this.name == name && this.hook == hook && this.manager == manager
      ensures this.tasks == tasks && this.bus == bus
      ensures baseUrl == InitialBaseUrl(name) && settingUrl == Undefined && dir == None && version == None
      ensures state == NotReady && plugin == None && eventListener == map[] && fastifyPluginRegister == None
      ensures progress == [] && progressOpen
      ensures hook.activeListeners == old(hook.activeListeners) + [this]
    {
      this.name := name;
      this.hook := hook;
      this.manager := manager;
      this.tasks := tasks;
      this.bus := bus;
      version := None;
      dir := None;
      baseUrl := if name in BuiltinPlugins then "/" else "/" + name + "/";
      settingUrl := Undefined;
      state := NotReady;
      plugin := None;
      eventListener := map[];
      fastifyPluginRegister := None;
      progress := [];
      progressOpen := true;
      new;
      hook.activeListeners := hook.activeListeners + [this];
    }

    /** The plugin's routes answer only while it is active. */
    predicate Serves()
      reads this`state
    {
      state == Active
    }

    /** Whether calling a hook fails: it throws, or `this.plugin` is missing and
        reading the hook throws a TypeError. An absent hook does nothing. */
    predicate CreateFails(fails: bool)
      reads this`plugin
    {
      plugin.None? || (plugin.value.hasOnCreate && fails)
    }

    predicate ActiveFails(fails: bool)
      reads this`plugin
    {
      plugin.None? || (plugin.value.hasOnActive && fails)
    }

    predicate DisposeFails(fails: bool)
      reads this`plugin
    {
      plugin.None? || (plugin.value.hasOnDispose && fails)
    }

    method SendProgress(s: string)
      modifies this`progress
      ensures progress == old(progress) + (if progressOpen then [s] else [])
    {
      if progressOpen {
        progress := progress + [s];
      }
    }

    // ---- listener bookkeeping

    /** `on` as written: the first `on` for a key records a set holding the
        failed lookup, undefined, instead of the handler. */
    method OnAsWritten(key: Val, handler: Val)
      modifies this`eventListener, bus`handlers
      ensures key in old(eventListener) ==>
        eventListener == old(eventListener)[key := old(eventListener)[key] + {handler}]
      ensures key !in old(eventListener) ==> eventListener == old(eventListener)[key := {Undefined}]
      ensures key !in old(eventListener) && handler != Undefined ==> handler !in eventListener[key]
      ensures bus.handlers == MittOn(old(bus.handlers), key, handler)
    {
      if key in eventListener {
        eventListener := eventListener[key := eventListener[key] + {handler}];
      } else {
        var listener := Undefined;
        eventListener := eventListener[key := {listener}];
      }
      bus.handlers := MittOn(bus.handlers, key, handler);
    }

    /** `on` as intended: the handler is recorded whether or not the key was seen. */
    method On(key: Val, handler: Val)
      modifies this`eventListener, bus`handlers
      ensures key in eventListener && handler in eventListener[key]
      ensures eventListener == old(eventListener)[key := if key in old(eventListener) then old(eventListener)[key] + {handler} else {handler}]
      ensures bus.handlers == MittOn(old(bus.handlers), key, handler)
    {
      if key in eventListener {
        eventListener := eventListener[key := eventListener[key] + {handler}];
      } else {
        eventListener := eventListener[key := {handler}];
      }
      bus.handlers := MittOn(bus.handlers, key, handler);
    }

    /** `off`: the handler leaves the recorded set, if the key has one, and
        the bus drops it as mitt does. */
    method Off(key: Val, handler: Val)
      modifies this`eventListener, bus`handlers
      ensures key in old(eventListener) ==>
        eventListener == old(eventListener)[key := old(eventListener)[key] - {handler}]
      ensures key !in old(eventListener) ==> eventListener == old(eventListener)
      ensures bus.handlers == MittOff(old(bus.handlers), key, handler)
    {
      if key in eventListener {
        eventListener := eventListener[key := eventListener[key] - {handler}];
      }
      bus.handlers := MittOff(bus.handlers, key, handler);
    }

    /** The inner loop of onDispose: `off(key, h)` for every handler in `hs`. */
    method OffEach(key: Val, hs: set<Val>)
      modifies bus`handlers
      ensures bus.handlers.Keys == old(bus.handlers).Keys
      ensures forall k :: k in bus.handlers && k != key ==> bus.handlers[k] == old(bus.handlers)[k]
      ensures key in bus.handlers ==> Released(old(bus.handlers)[key], bus.handlers[key], hs)
    {
      var rest := hs;
      assert hs - rest == {};
      while rest != {}
        invariant rest <= hs
        invariant OffInv(old(bus.handlers), bus.handlers, key, hs - rest)
        decreases rest
      {
        var h :| h in rest;
        OffStep(old(bus.handlers), bus.handlers, key, hs - rest, h);
        bus.handlers := MittOff(bus.handlers, key, h);
        assert hs - (rest - {h}) == (hs - rest) + {h};
        rest := rest - {h};
      }
    }

    /** The loop of onDispose: every recorded handler is unsubscribed and every
        key deleted. */
    method ClearListeners()
      modifies this`eventListener, bus`handlers
      ensures eventListener == map[]
      ensures ListenersReleased(old(bus.handlers), bus.handlers, old(eventListener))
    {
      while eventListener != map[]
        invariant eventListener.Keys <= old(eventListener).Keys
        invariant forall k :: k in eventListener ==> eventListener[k] == old(eventListener)[k]
        invariant ListenersReleased(old(bus.handlers), bus.handlers, old(eventListener) - eventListener.Keys)
        decreases |eventListener.Keys|
      {
        var key :| key in eventListener;
        ghost var done := old(eventListener) - eventListener.Keys;
        OffEach(key, eventListener[key]);
        eventListener := eventListener - {key};
        assert old(eventListener) - eventListener.Keys == done[key := old(eventListener)[key]];
      }
      assert old(eventListener) - eventListener.Keys == old(eventListener);
    }

    // ---- registration guards

    /** registerFastifyPlugin: only before any lifecycle hook has run. */
    method RegisterFastifyPlugin(callback: Val) returns (r: Result<(), string>)
      modifies this`fastifyPluginRegister
      ensures r.Ok? <==> old(state) == NotReady
      ensures r.Ok? ==> fastifyPluginRegister == Some(callback)
      ensures r.Err? ==> fastifyPluginRegister == old(fastifyPluginRegister)
    {
      if state != NotReady {
        return Err("the register only works before any hooks execution");
      }
      fastifyPluginRegister := Some(callback);
      r := Ok(());
    }

    /** registerTask as written: the plugin's name string goes where the task
        manager expects the plugin object, so the task is registered without an
        owner, under the key "undefined@<taskName>". */
    method RegisterTaskAsWritten(taskName: string, task: Val) returns (r: Result<(), string>)
      requires tasks.Valid()
      modifies tasks`registeredStdTask, tasks`registeredStdNames, tasks`nonStdTaskTree
      ensures tasks.Valid()
      ensures r.Err? <==> state != NotReady || Nullish(task)
      ensures r.Ok? && OptGet(task, "setup").Fn? ==>
        Task.StdKey(None, taskName) in tasks.registeredStdTask &&
        tasks.registeredStdTask[Task.StdKey(None, taskName)].owner == None
    {
      if state != NotReady {
        return Err("the register only works before any hooks execution");
      }
      r := tasks.Register(Task.BareName(name), taskName, task);
    }

    /** registerTask as intended: the task is registered under this plugin. */
    method RegisterTask(taskName: string, task: Val) returns (r: Result<(), string>)
      requires tasks.Valid()
      modifies tasks`registeredStdTask, tasks`registeredStdNames, tasks`nonStdTaskTree
      ensures tasks.Valid()
      ensures r.Err? <==> state != NotReady || Nullish(task)
      ensures r.Ok? && OptGet(task, "setup").Fn? ==>
        Task.StdKey(Some(name), taskName) in tasks.registeredStdTask &&
        tasks.registeredStdTask[Task.StdKey(Some(name), taskName)].owner == Some(name)
    {
      if state != NotReady {
        return Err("the register only works before any hooks execution");
      }
      r := tasks.Register(Task.PluginObject(name), taskName, task);
    }

    // ---- lifecycle

    /** errorHandler up to its optional onDispose: the state becomes error, the
        progress handle reports it and closes, the name moves from the
        successful to the failed plugins, and its tasks are unregistered. */
    method Fail()
      requires tasks.Valid()
      modifies this`state, this`progress, this`progressOpen, manager`successPlugins, manager`failedPlugins
      modifies tasks`registeredStdTask, tasks`registeredStdNames, tasks`nonStdTaskTree
      modifies tasks.Repr()
      ensures tasks.Valid() && tasks.Repr() <= old(tasks.Repr())
      ensures state == Error && !progressOpen
      ensures progress == old(progress) + (if old(progressOpen) then ["error"] else [])
      ensures manager.successPlugins == old(manager.successPlugins) - {name}
      ensures manager.failedPlugins == old(manager.failedPlugins) + {name}
      ensures NoTasksOf(tasks, name)
    {
      MarkFailed();
      OutsideTasks(tasks, this);
      tasks.UnRegisterTaskByPlugin(name);
    }

    /** The first part of errorHandler: the state, the progress report, and the
        move from the successful to the failed plugins. */
    method MarkFailed()
      modifies this`state, this`progress, this`progressOpen, manager`successPlugins, manager`failedPlugins
      ensures state == Error && !progressOpen
      ensures progress == old(progress) + (if old(progressOpen) then ["error"] else [])
      ensures manager.successPlugins == old(manager.successPlugins) - {name}
      ensures manager.failedPlugins == old(manager.failedPlugins) + {name}
    {
      state := Error;
      SendProgress("error");
      progressOpen := false;
      manager.successPlugins := manager.successPlugins - {name};
      manager.failedPlugins := manager.failedPlugins + {name};
    }

    /** onDispose: every listener is removed, then the plugin's onDispose runs;
        if that fails the error handler runs without disposing again. */
    method OnDispose(disposeFails: bool)
      requires tasks.Valid()
      modifies this`state, this`eventListener, bus`handlers, this`progress, this`progressOpen
      modifies manager`successPlugins, manager`failedPlugins
      modifies tasks`registeredStdTask, tasks`registeredStdNames, tasks`nonStdTaskTree
      modifies tasks.Repr()
      ensures tasks.Valid()
      ensures eventListener == map[]
      ensures ListenersReleased(old(bus.handlers), bus.handlers, old(eventListener))
      ensures state == if DisposeFails(disposeFails) then Error else Disposed
      ensures DisposeFails(disposeFails) ==>
        && !progressOpen && progress == old(progress) + (if old(progressOpen) then ["error"] else [])
        && manager.successPlugins == old(manager.successPlugins) - {name}
        && manager.failedPlugins == old(manager.failedPlugins) + {name}
        && NoTasksOf(tasks, name)
      ensures !DisposeFails(disposeFails) ==>
        && progressOpen == old(progressOpen) && progress == old(progress)
        && manager.successPlugins == old(manager.successPlugins)
        && manager.failedPlugins == old(manager.failedPlugins)
        && unchanged(tasks)
    {
      OutsideTasks(tasks, this);
      state := Disposed;
      ClearListeners();
      DisposeSettled(disposeFails);
    }

    /** The end of onDispose: a failing dispose hook runs the error handler
        without disposing again; otherwise nothing changes. */
    method DisposeSettled(disposeFails: bool)
      requires tasks.Valid()
      modifies this`state, this`progress, this`progressOpen, manager`successPlugins, manager`failedPlugins
      modifies tasks`registeredStdTask, tasks`registeredStdNames, tasks`nonStdTaskTree
      modifies tasks.Repr()
      ensures tasks.Valid()
      ensures DisposeFails(disposeFails) ==>
        && state == Error && !progressOpen && progress == old(progress) + (if old(progressOpen) then ["error"] else [])
        && manager.successPlugins == old(manager.successPlugins) - {name}
        && manager.failedPlugins == old(manager.failedPlugins) + {name}
        && NoTasksOf(tasks, name)
      ensures !DisposeFails(disposeFails) ==>
        && state == old(state) && progressOpen == old(progressOpen) && progress == old(progress)
        && manager.successPlugins == old(manager.successPlugins)
        && manager.failedPlugins == old(manager.failedPlugins)
        && unchanged(tasks)
    {
      if DisposeFails(disposeFails) {
        Fail();
      }
    }

    /** errorHandler: Fail, then, when `destroy` is set, onDispose. */
    method ErrorHandler(destroy: bool, disposeFails: bool)
      requires tasks.Valid()
      modifies this`state, this`eventListener, bus`handlers, this`progress, this`progressOpen
      modifies manager`successPlugins, manager`failedPlugins
      modifies tasks`registeredStdTask, tasks`registeredStdNames, tasks`nonStdTaskTree
      modifies tasks.Repr()
      ensures tasks.Valid()
      ensures state == if destroy && !DisposeFails(disposeFails) then Disposed else Error
      ensures !Serves()
      ensures !progressOpen && progress == old(progress) + (if old(progressOpen) then ["error"] else [])
      ensures name !in manager.successPlugins && name in manager.failedPlugins
      ensures manager.successPlugins == old(manager.successPlugins) - {name}
      ensures manager.failedPlugins == old(manager.failedPlugins) + {name}
      ensures NoTasksOf(tasks, name)
      ensures destroy ==> eventListener == map[] && ListenersReleased(old(bus.handlers), bus.handlers, old(eventListener))
      ensures !destroy ==> eventListener == old(eventListener) && bus.handlers == old(bus.handlers)
    {
      OutsideTasks(tasks, this);
      Fail();
      if destroy {
        OnDispose(disposeFails);
      }
    }

    /** The failure path of init: the hook's error event, then the error
        handler, whose onDispose fails because `this.plugin` is unset. */
    method InitFailed()
      requires tasks.Valid() && plugin.None?
      modifies this`state, this`eventListener, this`progress, this`progressOpen
      modifies hook`created, hook`errored, hook`scheduled, hook`watchers
      modifies bus`handlers, manager`successPlugins, manager`failedPlugins
      modifies tasks`registeredStdTask, tasks`registeredStdNames, tasks`nonStdTaskTree
      modifies tasks.Repr()
      ensures tasks.Valid()
      ensures state == Error && plugin == None && eventListener == map[] && !progressOpen
      ensures progress == old(progress) + (if old(progressOpen) then ["error"] else [])
      ensures name !in manager.successPlugins && name in manager.failedPlugins
      ensures NoTasksOf(tasks, name)
      ensures hook.scheduled == old(hook.scheduled) +
        (if hook.listening && |hook.created| + |hook.errored| == |hook.pluginNames| then 1 else 0)
      ensures hook.listening ==> hook.errored == old(hook.errored) + {name} && hook.created == old(hook.created)
      ensures hook.watchers == NotifyAll(old(hook.watchers), Failed(name))
    {
      OutsideTasks(tasks, this);
      hook.Emit(Failed(name));
      ErrorHandler(true, false);
    }

    /** The success path of init: the version, the app's directory and urls,
        the postInit list for the app plugin, and the plugin object. */
    method InitLoaded(l: Loaded)
      modifies this`version, this`dir, this`baseUrl, this`settingUrl, this`plugin, manager`postInit
      ensures plugin == Some(l.hooks) && version == Some(l.version)
      ensures l.app.None? ==> baseUrl == old(baseUrl) && settingUrl == old(settingUrl) && dir == old(dir)
      ensures l.app.Some? ==>
        && dir == Some(l.app.value.dir)
        && baseUrl == AppBaseUrl(old(baseUrl), l.app.value.baseUrl)
        && settingUrl == SettingUrlOf(baseUrl, l.app.value.settingUrl)
      ensures manager.postInit == old(manager.postInit) + (if name == AppPlugin then [this] else [])
    {
      version := Some(l.version);
      if l.app.Some? {
        dir := Some(l.app.value.dir);
        baseUrl := AppBaseUrl(baseUrl, l.app.value.baseUrl);
        settingUrl := SettingUrlOf(baseUrl, l.app.value.settingUrl);
      }
      if name == AppPlugin {
        manager.postInit := manager.postInit + [this];
      }
      plugin := Some(l.hooks);
    }

    /** The synchronous part of init: the progress report, then InitLoaded or
        InitFailed. */
    method Init(loaded: Result<Loaded, string>)
      requires tasks.Valid() && plugin.None?
      modifies this, hook`created, hook`errored, hook`scheduled, hook`watchers, manager`postInit
      modifies bus`handlers, manager`successPlugins, manager`failedPlugins
      modifies tasks`registeredStdTask, tasks`registeredStdNames, tasks`nonStdTaskTree
      modifies tasks.Repr()
      ensures tasks.Valid()
      ensures loaded.Ok? ==>
        var l := loaded.value;
        && plugin == Some(l.hooks) && version == Some(l.version) && state == old(state)
        && progress == old(progress) + (if old(progressOpen) then ["init"] else []) && progressOpen == old(progressOpen)
        && (l.app.None? ==> baseUrl == old(baseUrl) && settingUrl == old(settingUrl) && dir == old(dir))
        && (l.app.Some? ==>
              && dir == Some(l.app.value.dir)
              && baseUrl == AppBaseUrl(old(baseUrl), l.app.value.baseUrl)
              && settingUrl == SettingUrlOf(baseUrl, l.app.value.settingUrl))
        && manager.postInit == old(manager.postInit) + (if name == AppPlugin then [this] else [])
        && unchanged(hook) && unchanged(tasks) && bus.handlers == old(bus.handlers)
        && manager.successPlugins == old(manager.successPlugins) && manager.failedPlugins == old(manager.failedPlugins)
      ensures loaded.Err? ==>
        && state == Error && plugin == None && eventListener == map[] && !progressOpen
        && progress == old(progress) + (if old(progressOpen) then ["init", "error"] else [])
        && name !in manager.successPlugins && name in manager.failedPlugins
        && NoTasksOf(tasks, name) && manager.postInit == old(manager.postInit)
        && hook.scheduled == old(hook.scheduled) +
             (if hook.listening && |hook.created| + |hook.errored| == |hook.pluginNames| then 1 else 0)
        && (hook.listening ==> hook.errored == old(hook.errored) + {name} && hook.created == old(hook.created))
        && hook.watchers == NotifyAll(old(hook.watchers), Failed(name))
    {
      OutsideTasks(tasks, this);
      SendProgress("init");
      if loaded.Err? {
        InitFailed();
      } else {
        InitLoaded(loaded.value);
      }
    }

    /** The synchronous part of onCreate, up to the plugin's own onCreate. */
    method OnCreateBegin()
      modifies this`state, this`progress
      ensures state == Creating
      ensures progress == old(progress) + (if progressOpen then ["create"] else [])
    {
      state := Creating;
      SendProgress("create");
    }

    /** The rest of onCreate once the plugin's onCreate has settled: the hook
        receives `created`, or `error` followed by the error handler. */
    method OnCreateSettled(createFails: bool, disposeFails: bool)
      requires tasks.Valid()
      modifies this`state, this`eventListener, bus`handlers, this`progress, this`progressOpen
      modifies hook`created, hook`errored, hook`scheduled, hook`watchers
      modifies manager`successPlugins, manager`failedPlugins
      modifies tasks`registeredStdTask, tasks`registeredStdNames, tasks`nonStdTaskTree
      modifies tasks.Repr()
      ensures tasks.Valid()
      ensures var e := if CreateFails(createFails) then Failed(name) else Created(name);
        && hook.watchers == NotifyAll(old(hook.watchers), e)
        && (hook.listening ==> (hook.created, hook.errored) == ApplyEvent(old(hook.created), old(hook.errored), e))
      ensures !CreateFails(createFails) ==>
        state == old(state) && unchanged(tasks) && progress == old(progress)
      ensures CreateFails(createFails) ==>
        && state == (if DisposeFails(disposeFails) then Error else Disposed)
        && name !in manager.successPlugins && name in manager.failedPlugins
        && NoTasksOf(tasks, name) && eventListener == map[]
    {
      OutsideTasks(tasks, this);
      if !CreateFails(createFails) {
        hook.Emit(Created(name));
      } else {
        hook.Emit(Failed(name));
        ErrorHandler(true, disposeFails);
      }
    }

    /** onActive, called by the allSettled listener: the state becomes active
        and the plugin's onActive runs; if that fails the error handler runs.
        The progress handle closes either way. */
    method OnActive(activeFails: bool, disposeFails: bool)
      requires tasks.Valid()
      modifies this`state, this`eventListener, bus`handlers, this`progress, this`progressOpen
      modifies manager`successPlugins, manager`failedPlugins
      modifies tasks`registeredStdTask, tasks`registeredStdNames, tasks`nonStdTaskTree
      modifies tasks.Repr()
      ensures tasks.Valid()
      ensures !progressOpen
      ensures !ActiveFails(activeFails) ==>
        && Serves() && unchanged(tasks)
        && progress == old(progress) + (if old(progressOpen) then ["active"] else [])
        && manager.successPlugins == old(manager.successPlugins) && manager.failedPlugins == old(manager.failedPlugins)
      ensures ActiveFails(activeFails) ==>
        && state == (if DisposeFails(disposeFails) then Error else Disposed)
        && progress == old(progress) + (if old(progressOpen) then ["active", "error"] else [])
        && name !in manager.successPlugins && name in manager.failedPlugins
        && NoTasksOf(tasks, name) && eventListener == map[]
    {
      OutsideTasks(tasks, this);
      EnterActive();
      ActiveSettled(activeFails, disposeFails);
      EndProgress();
    }

    /** The start of onActive: the state becomes active and the handle is told. */
    method EnterActive()
      modifies this`state, this`progress
      ensures state == Active
      ensures progress == old(progress) + (if progressOpen then ["active"] else [])
    {
      state := Active;
      SendProgress("active");
    }

    /** `end` on the progress handle: nothing more is sent through it. */
    method EndProgress()
      modifies this`progressOpen
      ensures !progressOpen
    {
      progressOpen := false;
    }

    /** The end of onActive before the handle closes: a failing onActive runs
        the error handler; otherwise nothing changes. */
    method ActiveSettled(activeFails: bool, disposeFails: bool)
      requires tasks.Valid()
      modifies this`state, this`eventListener, bus`handlers, this`progress, this`progressOpen
      modifies manager`successPlugins, manager`failedPlugins
      modifies tasks`registeredStdTask, tasks`registeredStdNames, tasks`nonStdTaskTree
      modifies tasks.Repr()
      ensures tasks.Valid()
      ensures !ActiveFails(activeFails) ==>
        && state == old(state) && unchanged(tasks) && progress == old(progress)
        && manager.successPlugins == old(manager.successPlugins) && manager.failedPlugins == old(manager.failedPlugins)
      ensures ActiveFails(activeFails) ==>
        && state == (if DisposeFails(disposeFails) then Error else Disposed)
        && progress == old(progress) + (if old(progressOpen) then ["error"] else [])
        && name !in manager.successPlugins && name in manager.failedPlugins
        && NoTasksOf(tasks, name) && eventListener == map[]
    {
      if ActiveFails(activeFails) {
        ErrorHandler(true, disposeFails);
      }
    }
  }

  // ---------------------------------------------------------------------------
  // The manager

  /** How one plugin's load settled. */
  datatype Settled = Fulfilled(plugin: Plugin) | Rejected(pluginName: string)

  function FulfilledPlugins(rs: seq<Settled>): (ps: seq<Plugin>)
    ensures forall p :: p in ps ==> Fulfilled(p) in rs
    ensures forall i :: 0 <= i < |rs| && rs[i].Fulfilled? ==> rs[i].plugin in ps
  {
    if rs == [] then []
    else (if rs[0].Fulfilled? then [rs[0].plugin] else []) + FulfilledPlugins(rs[1..])
  }

  function RejectedNames(rs: seq<Settled>): (ns: set<string>)
    ensures forall n :: n in ns <==> Rejected(n) in rs
  {
    set r | r in rs && r.Rejected? :: r.pluginName
  }

  class PluginManager {
    var plugins: seq<Plugin>
    var successPlugins: set<string>
    /** `faliedPlugins`. */
    var failedPlugins: set<string>
    /** The plugins whose route registration runs after the load (postInit). */
    var postInit: seq<Plugin>

    constructor ()
      ensures plugins == [] && successPlugins == {} && failedPlugins == {} && postInit == []
    {
      plugins := [];
      successPlugins := {};
      failedPlugins := {};
      postInit := [];
    }

    ghost predicate Distinct()
      reads this
    {
      forall i, j :: 0 <= i < j < |plugins| ==> plugins[i] != plugins[j]
    }

    /** The end of loadPlugins: fulfilled loads join the plugins and the
        successful names, in order; rejected loads join the failed names. */
    method Partition(results: seq<Settled>)
      modifies this`plugins, this`successPlugins, this`failedPlugins
      ensures plugins == old(plugins) + FulfilledPlugins(results)
      ensures forall n :: n in successPlugins <==>
        n in old(successPlugins) || exists p :: p in FulfilledPlugins(results) && p.name == n
      ensures failedPlugins == old(failedPlugins) + RejectedNames(results)
    {
      for i := 0 to |results|
        invariant plugins == old(plugins) + FulfilledPlugins(results[..i])
        invariant forall n :: n in successPlugins <==>
          n in old(successPlugins) || exists p :: p in FulfilledPlugins(results[..i]) && p.name == n
        invariant failedPlugins == old(failedPlugins) + RejectedNames(results[..i])
      {
        FulfilledStep(results, i);
        if results[i].Fulfilled? {
          plugins := plugins + [results[i].plugin];
          successPlugins := successPlugins + {results[i].plugin.name};
        } else {
          failedPlugins := failedPlugins + {results[i].pluginName};
        }
      }
      assert results[..|results|] == results;
    }

    /** The catch of a plugin's load in loadPlugins, as written: the failure is
        logged and rethrown with the plugin's name, and the hook hears nothing. */
    method LoadFailedAsWritten(pluginName: string) returns (r: Settled)
      ensures r == Rejected(pluginName)
    {
      r := Rejected(pluginName);
    }

    /** The same catch, corrected: the hook is also told that the plugin
        failed, so that its count can reach every plugin. */
    method LoadFailed(hook: Hook, pluginName: string) returns (r: Settled)
      modifies hook`created, hook`errored, hook`scheduled, hook`watchers
      ensures r == Rejected(pluginName)
      ensures hook.listening ==> hook.created == old(hook.created) && hook.errored == old(hook.errored) + {pluginName}
      ensures !hook.listening ==> hook.created == old(hook.created) && hook.errored == old(hook.errored)
      ensures hook.scheduled == old(hook.scheduled) +
        (if hook.listening && |hook.created| + |hook.errored| == |hook.pluginNames| then 1 else 0)
      ensures hook.watchers == NotifyAll(old(hook.watchers), Failed(pluginName))
    {
      hook.Emit(Failed(pluginName));
      r := Rejected(pluginName);
    }

    /** create: onCreate runs for every plugin not in the error state. */
    method Create()
      requires Distinct()
      modifies (set p | p in plugins)`state, (set p | p in plugins)`progress
      ensures forall p :: p in plugins ==> p.state == if old(p.state) == Error then Error else Creating
      ensures forall p :: p in plugins ==>
        p.progress == old(p.progress) + (if old(p.state) != Error && p.progressOpen then ["create"] else [])
    {
      for i := 0 to |plugins|
        invariant forall j :: 0 <= j < i ==>
          plugins[j].state == if old(plugins[j].state) == Error then Error else Creating
        invariant forall j :: 0 <= j < i ==>
          plugins[j].progress == old(plugins[j].progress) +
            (if old(plugins[j].state) != Error && plugins[j].progressOpen then ["create"] else [])
        invariant forall j :: i <= j < |plugins| ==>
          plugins[j].state == old(plugins[j].state) && plugins[j].progress == old(plugins[j].progress)
      {
        if plugins[i].state != Error {
          plugins[i].OnCreateBegin();
        }
      }
    }
  }

  /** The fulfilled plugins of one more result. */
  lemma FulfilledStep(rs: seq<Settled>, i: nat)
    requires i < |rs|
    ensures FulfilledPlugins(rs[..i + 1]) == FulfilledPlugins(rs[..i]) + (if rs[i].Fulfilled? then [rs[i].plugin] else [])
    ensures RejectedNames(rs[..i + 1]) == RejectedNames(rs[..i]) + (if rs[i].Rejected? then {rs[i].pluginName} else {})
  {
    FulfilledAppend(rs[..i], rs[i]);
    assert rs[..i + 1] == rs[..i] + [rs[i]];
  }

  lemma {:induction false} FulfilledAppend(rs: seq<Settled>, r: Settled)
    ensures FulfilledPlugins(rs + [r]) == FulfilledPlugins(rs) + (if r.Fulfilled? then [r.plugin] else [])
    decreases |rs|
  {
    if rs == [] {
      assert [r][1..] == [];
    } else {
      assert (rs + [r])[1..] == rs[1..] + [r];
      FulfilledAppend(rs[1..], r);
    }
  }

  /** A plugin whose init fails ends in the error state with its listeners
      gone, and is counted as failed; loadPlugins still sees its init resolve
      and lists it as loaded. */
  method FailedInitIsAlsoLoaded() returns (failed: bool, loaded: bool)
    ensures failed && loaded
  {
    var hook := new Hook({"feedengine-x-plugin"});
    var manager := new PluginManager();
    var tasks := new Task.TaskManager(map[], 0);
    var bus := new EventBus();
    var p := new Plugin("feedengine-x-plugin", hook, manager, tasks, bus);
    p.Init(Err("SyntaxError"));
    assert p.state == Error && "feedengine-x-plugin" in manager.failedPlugins;
    manager.Partition([Fulfilled(p)]);
    assert FulfilledPlugins([Fulfilled(p)]) == [p];
    failed, loaded := "feedengine-x-plugin" in manager.failedPlugins, "feedengine-x-plugin" in manager.successPlugins;
  }

  /** Two plugins, one of whose imports fails as written: the other plugin is
      created, and allSettled is never scheduled, so no plugin becomes active. */
  method RejectedLoadNeverSettlesAsWritten() returns (scheduled: nat)
    ensures scheduled == 0
  {
    var hook := new Hook({"feedengine-a-plugin", "feedengine-b-plugin"});
    var manager := new PluginManager();
    var r := manager.LoadFailedAsWritten("feedengine-b-plugin");
    hook.Emit(Created("feedengine-a-plugin"));
    assert |hook.created| + |hook.errored| == 1;
    assert |hook.pluginNames| == 2 by {
      assert "feedengine-a-plugin" != "feedengine-b-plugin";
    }
    scheduled := hook.scheduled;
  }

  /** The same two plugins with the corrected catch: allSettled is scheduled
      once the other plugin is created. */
  method RejectedLoadSettles() returns (scheduled: nat)
    ensures scheduled == 1
  {
    var hook := new Hook({"feedengine-a-plugin", "feedengine-b-plugin"});
    var manager := new PluginManager();
    var r := manager.LoadFailed(hook, "feedengine-b-plugin");
    hook.Emit(Created("feedengine-a-plugin"));
    assert "feedengine-a-plugin" != "feedengine-b-plugin";
    assert hook.created == {"feedengine-a-plugin"} && hook.errored == {"feedengine-b-plugin"};
    assert |hook.pluginNames| == 2;
    scheduled := hook.scheduled;
  }

  /** Releasing one truthy handler from a list that ends with it leaves the
      rest of the list, up to order. */
  lemma ReleasedLast(before: seq<Val>, after: seq<Val>, h: Val)
    requires Truthy(h) && Released(before + [h], after, {h})
    ensures multiset(after) == multiset(before)
  {
    assert multiset({h}) == multiset{h};
    assert multiset(before + [h]) == multiset(before) + multiset{h};
  }

  /** A list whose multiset is one value is that value alone. */
  lemma SingletonList(l: seq<Val>, x: Val)
    requires multiset(l) == multiset{x}
    ensures l == [x]
  {
    assert |l| == |multiset(l)| == 1;
    assert l[0] in multiset(l);
  }

  /** As written, a plugin's first `on` for a type records undefined, so its
      onDispose calls `off(type, undefined)`, which empties the type's list on
      the shared bus: another plugin's handler for that type goes with it. */
  method OtherHandlerDroppedAsWritten() returns (left: seq<Val>)
    ensures left == []
  {
    var hook := new Hook({});
    var manager := new PluginManager();
    var tasks := new Task.TaskManager(map[], 0);
    var bus := new EventBus();
    var p := new Plugin("feedengine-x-plugin", hook, manager, tasks, bus);
    var q := new Plugin("feedengine-y-plugin", hook, manager, tasks, bus);
    q.On(Str("tick"), Fn(2));
    p.OnAsWritten(Str("tick"), Fn(1));
    assert p.eventListener == map[Str("tick") := {Undefined}];
    assert Str("tick") in bus.handlers;
    p.ClearListeners();
    assert Undefined in {Undefined} && !Truthy(Undefined);
    left := bus.handlers[Str("tick")];
  }

  /** With the intended `on`, onDispose removes the plugin's own handler and
      leaves the other plugin's. */
  method OtherHandlerKept() returns (left: seq<Val>)
    ensures left == [Fn(2)]
  {
    var hook := new Hook({});
    var manager := new PluginManager();
    var tasks := new Task.TaskManager(map[], 0);
    var bus := new EventBus();
    var p := new Plugin("feedengine-x-plugin", hook, manager, tasks, bus);
    var q := new Plugin("feedengine-y-plugin", hook, manager, tasks, bus);
    q.On(Str("tick"), Fn(2));
    p.On(Str("tick"), Fn(1));
    assert p.eventListener == map[Str("tick") := {Fn(1)}];
    assert bus.handlers[Str("tick")] == [Fn(2), Fn(1)];
    p.ClearListeners();
    left := bus.handlers[Str("tick")];
    assert [Fn(2), Fn(1)] == [Fn(2)] + [Fn(1)];
    ReleasedLast([Fn(2)], left, Fn(1));
    SingletonList(left, Fn(2));
  }

  /** The plugin records each handler once per type, but the bus holds one
      copy per `on`: even with the intended `on`, a handler subscribed twice
      keeps one subscription after onDispose. */
  method RepeatedHandlerKeepsOneCopy() returns (left: seq<Val>)
    ensures left == [Fn(1)]
  {
    var hook := new Hook({});
    var manager := new PluginManager();
    var tasks := new Task.TaskManager(map[], 0);
    var bus := new EventBus();
    var p := new Plugin("feedengine-x-plugin", hook, manager, tasks, bus);
    p.On(Str("tick"), Fn(1));
    assert {Fn(1)} + {Fn(1)} == {Fn(1)};
    p.On(Str("tick"), Fn(1));
    assert p.eventListener == map[Str("tick") := {Fn(1)}];
    assert bus.handlers[Str("tick")] == [Fn(1), Fn(1)];
    p.ClearListeners();
    left := bus.handlers[Str("tick")];
    assert [Fn(1), Fn(1)] == [Fn(1)] + [Fn(1)];
    ReleasedLast([Fn(1)], left, Fn(1));
    SingletonList(left, Fn(1));
  }
}
