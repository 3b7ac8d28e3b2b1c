/**
 * `PluginManager` (plugins/plugin_manager.py): the registry of loaded plugins keyed by their
 * names, in the order they were registered, with loading, unloading, lookup, event broadcast
 * and cleanup. Module discovery by import is left to the caller: each load is given the plugin
 * the module's first `PluginBase` subclass produced (or none) and what its `initialize()`
 * returned; each unload is told whether the plugin's `cleanup()` raised.
 */
module PluginManager {
  import opened Collections
  import opened PluginBase

  /** The plugin objects a registry holds. */
  function Objects(d: seq<(string, Plugin)>): set<Plugin> {
    set i | 0 <= i < |d| :: d[i].1
  }

  /** The plugins a broadcast reaches: those of the registry, in order, that are enabled. */
  function Listeners(d: seq<(string, Plugin)>): seq<Plugin>
    reads Objects(d)
  {
    if d == [] then []
    else
      var init := d[..|d| - 1];
      assert Objects(init) <= Objects(d) by {
        forall i | 0 <= i < |init| ensures init[i].1 in Objects(d) {
          assert init[i] == d[i];
        }
      }
      Listeners(init) + (if d[|d| - 1].1.enabled then [d[|d| - 1].1] else [])
  }

  /** Every registered plugin that is enabled is reached, and only enabled registered plugins are. */
  lemma {:induction false} ListenersMeaning(d: seq<(string, Plugin)>)
    ensures forall j :: 0 <= j < |Listeners(d)| ==> Listeners(d)[j].enabled && Listeners(d)[j] in Objects(d)
    ensures forall i :: 0 <= i < |d| && d[i].1.enabled ==> d[i].1 in Listeners(d)
  {
    if d != [] {
      var init := d[..|d| - 1];
      ListenersMeaning(init);
      var l := Listeners(init);
      var r := Listeners(d);
      forall j | 0 <= j < |r| ensures r[j].enabled && r[j] in Objects(d) {
        if j < |l| {
          assert r[j] == l[j];
          var m :| 0 <= m < |init| && init[m].1 == l[j];
          assert d[m] == init[m];
        } else {
          assert r[j] == d[|d| - 1].1;
        }
      }
      forall i | 0 <= i < |d| && d[i].1.enabled ensures d[i].1 in r {
        if i < |d| - 1 {
          assert init[i] == d[i];
        }
      }
    }
  }

  /** The registry after loading each of `candidates` in turn, as `load_plugin` does. */
  function LoadAll(d: seq<(string, Plugin)>, candidates: seq<(Option<Plugin>, bool)>): seq<(string, Plugin)> {
    if candidates == [] then d
    else
      var before := LoadAll(d, candidates[..|candidates| - 1]);
      var (candidate, initialized) := candidates[|candidates| - 1];
      if candidate.Some? && initialized then Put(before, candidate.value.name, candidate.value) else before
  }

  /** A candidate that loads registers its name. */
  predicate Registers(c: (Option<Plugin>, bool), name: string) {
    c.0.Some? && c.1 && c.0.value.name == name
  }

  /**
   * After loading, a name is registered exactly when it was before or some candidate with that
   * name initialised; a candidate that failed to initialise registers nothing.
   */
  lemma {:induction false} LoadAllNames(d: seq<(string, Plugin)>, candidates: seq<(Option<Plugin>, bool)>, name: string)
    ensures Get(LoadAll(d, candidates), name).Some? <==>
      Get(d, name).Some? || exists i :: 0 <= i < |candidates| && Registers(candidates[i], name)
  {
    if candidates != [] {
      var init := candidates[..|candidates| - 1];
      var c := candidates[|candidates| - 1];
      LoadAllNames(d, init, name);
      var before := LoadAll(d, init);
      if c.0.Some? && c.1 && c.0.value.name != name {
        PutOther(before, c.0.value.name, c.0.value, name);
      }
      if exists i :: 0 <= i < |candidates| && Registers(candidates[i], name) {
        var i :| 0 <= i < |candidates| && Registers(candidates[i], name);
        if i < |init| {
          assert init[i] == candidates[i];
        }
      }
      if exists i :: 0 <= i < |init| && Registers(init[i], name) {
        var i :| 0 <= i < |init| && Registers(init[i], name);
        assert candidates[i] == init[i];
      }
    }
  }

  /** Deleting a name that was just registered for the first time gives back the old registry. */
  lemma UnloadUndoesLoad(d: seq<(string, Plugin)>, p: Plugin)
    requires Get(d, p.name).None?
    ensures Remove(Put(d, p.name, p), p.name) == d
  {
    PutAbsent(d, p.name, p);
    KeptAppend(d, [(p.name, p)], {p.name});
    KeptNone(d, {p.name});
  }

  lemma {:induction false} KeptAppend<V>(a: seq<(string, V)>, b: seq<(string, V)>, gone: set<string>)
    ensures Kept(a + b, gone) == Kept(a, gone) + Kept(b, gone)
  {
    if a != [] {
      assert (a + b)[1..] == a[1..] + b;
      KeptAppend(a[1..], b, gone);
    } else {
      assert a + b == b;
    }
  }

  /** Removing keys that do not occur changes nothing. */
  lemma {:induction false} KeptNone<V>(d: seq<(string, V)>, gone: set<string>)
    requires forall k :: k in gone ==> Get(d, k).None?
    ensures Kept(d, gone) == d
  {
    if d != [] {
      forall k | k in gone ensures Get(d[1..], k).None? {
        assert Get(d, k).None?;
      }
      KeptNone(d[1..], gone);
      assert d == [d[0]] + d[1..];
    }
  }

  /** Removing every key of the registry empties it. */
  lemma {:induction false} KeptEverything<V>(d: seq<(string, V)>, gone: set<string>)
    requires forall i :: 0 <= i < |d| ==> d[i].0 in gone
    ensures Kept(d, gone) == []
  {
    if d != [] {
      assert forall i :: 0 <= i < |d| - 1 ==> d[1..][i] == d[i + 1];
      KeptEverything(d[1..], gone);
    }
  }

  class Manager {
    /** `self.plugins`, in registration order. */
    var plugins: seq<(string, Plugin)>

    /** Each name is registered at most once, as in a Python dict. */
    ghost predicate Valid()
      reads this
    {
      DistinctKeys(plugins)
    }

    /** The registry starts empty. */
    constructor ()
      ensures plugins == [] && Valid()
    {
      plugins := [];
    }

    /**
     * `load_plugin`: the plugin is registered under its name, replacing any plugin of that name,
     * exactly when the module held a plugin class and its `initialize()` returned true.
     */
    method LoadPlugin(candidate: Option<Plugin>, initialized: bool) returns (ok: bool)
      requires Valid()
      modifies this
      ensures Valid()
      ensures ok <==> candidate.Some? && initialized
      ensures plugins == if ok then Put(old(plugins), candidate.value.name, candidate.value) else old(plugins)
    {
      if candidate.None? {
        return false;
      }
      var p := candidate.value;
      if initialized {
        PutDistinct(plugins, p.name, p);
        plugins := Put(plugins, p.name, p);
        return true;
      }
      return false;
    }

    /**
     * `load_plugins`: with plugins switched off in the configuration nothing is loaded and the
     * result is true. Otherwise the `plugins.core_plugins` setting is iterated: when it cannot be
     * (None, a number, a boolean) the TypeError is caught before anything is loaded and the
     * result is false; when it can, each of its names is loaded in turn (`candidates` holds what
     * each load finds) and the result is true.
     */
    method LoadPlugins(pluginsEnabled: bool, coreIterable: bool, candidates: seq<(Option<Plugin>, bool)>)
      returns (ok: bool)
      requires Valid()
      modifies this
      ensures Valid()
      ensures ok <==> !pluginsEnabled || coreIterable
      ensures plugins == if pluginsEnabled && coreIterable then LoadAll(old(plugins), candidates) else old(plugins)
    {
      if !pluginsEnabled {
        return true;
      }
      if !coreIterable {
        return false;
      }
      ghost var start := plugins;
      for i := 0 to |candidates|
        invariant Valid()
        invariant plugins == LoadAll(start, candidates[..i])
      {
        assert candidates[..i + 1][..i] == candidates[..i];
        var loaded := LoadPlugin(candidates[i].0, candidates[i].1);
      }
      assert candidates[..|candidates|] == candidates;
      return true;
    }

    /**
     * `unload_plugin`: a registered plugin whose cleanup succeeds is deleted and the result is
     * true; an unknown name, or a cleanup that raises, leaves the registry as it was and gives false.
     */
    method UnloadPlugin(name: string, cleanupRaises: bool) returns (ok: bool)
      requires Valid()
      modifies this
      ensures Valid()
      ensures ok <==> Get(old(plugins), name).Some? && !cleanupRaises
      ensures plugins == if ok then Remove(old(plugins), name) else old(plugins)
    {
      if Get(plugins, name).Some? {
        if cleanupRaises {
          return false;
        }
        KeptDistinct(plugins, {name});
        plugins := Remove(plugins, name);
        return true;
      }
      return false;
    }

    /** `get_plugin`: the plugin registered under the name, or nothing for an unknown name. */
    method GetPlugin(name: string) returns (r: Option<Plugin>)
      ensures r.Some? ==> (name, r.value) in plugins
      ensures r.None? <==> forall i :: 0 <= i < |plugins| ==> plugins[i].0 != name
    {
      r := Get(plugins, name);
      if r.Some? {
        GetIn(plugins, name);
      } else {
        forall i | 0 <= i < |plugins| ensures plugins[i].0 != name {
          if plugins[i].0 == name {
            GetPresent(plugins, i);
          }
        }
      }
      if forall i :: 0 <= i < |plugins| ==> plugins[i].0 != name {
        GetAbsent(plugins, name);
      }
    }

    /** `get_loaded_plugins`: the registered names, in registration order. */
    method GetLoadedPlugins() returns (names: seq<string>)
      ensures |names| == |plugins|
      ensures forall i :: 0 <= i < |plugins| ==> names[i] == plugins[i].0
    {
      names := [];
      for i := 0 to |plugins|
        invariant |names| == i
        invariant forall j :: 0 <= j < i ==> names[j] == plugins[j].0
      {
        names := names + [plugins[i].0];
      }
    }

    /**
     * The loop shared by `broadcast_message_received`, `broadcast_message_sent` and
     * `broadcast_memory_added`: the plugins whose hook is called, in registration order. A hook
     * that raises is logged and the loop goes on, so every enabled plugin is reached.
     */
    method Broadcast() returns (called: seq<Plugin>)
      ensures called == Listeners(plugins)
    {
      called := [];
      for i := 0 to |plugins|
        invariant called == Listeners(plugins[..i])
      {
        assert plugins[..i + 1][..i] == plugins[..i];
        var p := plugins[i].1;
        if p.IsEnabled() {
          called := called + [p];
        }
      }
      assert plugins[..|plugins|] == plugins;
    }

    /**
     * `cleanup_all`: every registered plugin is unloaded in turn; what is left is exactly the
     * plugins whose cleanup raised, so with no cleanup raising the registry ends empty.
     */
    method CleanupAll(raises: string -> bool)
      requires Valid()
      modifies this
      ensures Valid()
      ensures plugins == Kept(old(plugins), Unloaded(Keys(old(plugins)), raises))
      ensures (forall i :: 0 <= i < |old(plugins)| ==> !raises(old(plugins)[i].0)) ==> plugins == []
    {
      ghost var start := plugins;
      var names := Keys(plugins);
      KeptNone(start, {});
      for i := 0 to |names|
        invariant Valid()
        invariant plugins == Kept(start, Unloaded(names[..i], raises))
      {
        var name := names[i];
        CleanupStep(start, raises, i);
        var ok := UnloadPlugin(name, raises(name));
      }
      assert names[..|names|] == names;
      if forall i :: 0 <= i < |start| ==> !raises(start[i].0) {
        forall i | 0 <= i < |start| ensures start[i].0 in Unloaded(names, raises) {
          UnloadedIn(names, raises, start[i].0);
        }
        KeptEverything(start, Unloaded(names, raises));
      }
    }
  }

  /** The names `cleanup_all` deletes from `names`: those whose cleanup does not raise. */
  ghost function Unloaded(names: seq<string>, raises: string -> bool): set<string> {
    if names == [] then {}
    else Unloaded(names[..|names| - 1], raises) + (if raises(names[|names| - 1]) then {} else {names[|names| - 1]})
  }

  lemma {:induction false} UnloadedIn(names: seq<string>, raises: string -> bool, k: string)
    ensures k in Unloaded(names, raises) <==> k in names && !raises(k)
  {
    if names != [] {
      UnloadedIn(names[..|names| - 1], raises, k);
      assert names == names[..|names| - 1] + [names[|names| - 1]];
    }
  }

  /**
   * One turn of `cleanup_all`: the name at index `i` is still registered, with its plugin, and
   * unloading it or not gives the registry the loop expects next.
   */
  lemma CleanupStep(start: seq<(string, Plugin)>, raises: string -> bool, i: nat)
    requires DistinctKeys(start) && i < |start|
    ensures Get(Kept(start, Unloaded(Keys(start)[..i], raises)), start[i].0).Some?
    ensures Kept(start, Unloaded(Keys(start)[..i + 1], raises)) ==
      if raises(start[i].0) then Kept(start, Unloaded(Keys(start)[..i], raises))
      else Remove(Kept(start, Unloaded(Keys(start)[..i], raises)), start[i].0)
  {
    var names := Keys(start);
    var name := start[i].0;
    var gone := Unloaded(names[..i], raises);
    assert names[..i + 1][..i] == names[..i] && names[..i + 1][i] == name;
    if raises(name) {
      assert Unloaded(names[..i + 1], raises) == gone;
    } else {
      assert Unloaded(names[..i + 1], raises) == gone + {name};
      RemoveKept(start, gone, name);
    }
    assert name !in names[..i] by {
      forall j | 0 <= j < i ensures names[..i][j] != name {
        assert names[..i][j] == start[j].0;
      }
    }
    UnloadedIn(names[..i], raises, name);
    GetOfMember(start, i);
    KeptGet(start, gone, name);
  }
}
