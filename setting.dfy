/** Application and plugin settings, after packages/core/src/storage/setting.ts:
    the default records, the reconciliation of the per-plugin performance list
    with the loaded plugins, and the settings cache in front of the store. */
module Setting {
  import opened Common

  datatype ServerSettings = ServerSettings(host: string, port: int)

  datatype DriverSettings = DriverSettings(headless: bool, executablePath: string, userDataDir: string)

  /** One plugin's limits in `performance.plugins`. */
  datatype PluginPerformance = PluginPerformance(maxIo: int, maxTask: int, name: string)

  datatype PerformanceSettings = PerformanceSettings(
    pagesConcurrency: int,
    ioConcurrency: int,
    taskConcurrency: int,
    plugins: seq<PluginPerformance>)

  datatype ProxySettings = ProxySettings(proxyUrl: string)

  datatype AppSettings = AppSettings(
    server: ServerSettings,
    driver: DriverSettings,
    performance: PerformanceSettings,
    proxy: ProxySettings)

  const DefaultAppSettings: AppSettings := AppSettings(
    ServerSettings("127.0.0.1", 8080),
    DriverSettings(false, "", ""),
    PerformanceSettings(10, 10, 1, []),
    ProxySettings(""))

  /** `{...defaultPluginConfig, name}`: one IO slot and one task slot. */
  function DefaultPluginConfig(name: string): (p: PluginPerformance)
    ensures p.name == name && p.maxIo == 1 && p.maxTask == 1
  {
    PluginPerformance(1, 1, name)
  }

  /** `findIndex` by name: the first position holding `name`, or -1. */
  function FindByName(entries: seq<PluginPerformance>, name: string): (pos: int)
    ensures -1 <= pos < |entries|
    ensures pos == -1 <==> forall i :: 0 <= i < |entries| ==> entries[i].name != name
    ensures pos >= 0 ==> entries[pos].name == name && forall i :: 0 <= i < pos ==> entries[i].name != name
  {
    if entries == [] then -1
    else if entries[0].name == name then 0
    else var p := FindByName(entries[1..], name); if p == -1 then -1 else p + 1
  }

  /** The entry the reconciled list holds for one loaded plugin. */
  function EntryFor(entries: seq<PluginPerformance>, name: string): PluginPerformance
  {
    var pos := FindByName(entries, name);
    if pos == -1 then DefaultPluginConfig(name) else entries[pos]
  }

  /** The list that reconciliation would build, one entry per loaded plugin. */
  function Reconciled(entries: seq<PluginPerformance>, loaded: seq<string>): (r: seq<PluginPerformance>)
    ensures |r| == |loaded|
    ensures forall i :: 0 <= i < |loaded| ==> r[i] == EntryFor(entries, loaded[i])
  {
    seq(|loaded|, i requires 0 <= i < |loaded| => EntryFor(entries, loaded[i]))
  }

  /** Some loaded plugin has no entry yet. */
  predicate MissingSome(entries: seq<PluginPerformance>, loaded: seq<string>)
  {
    exists i :: 0 <= i < |loaded| && FindByName(entries, loaded[i]) == -1
  }

  /** diffAndPrunePerformance: builds the reconciled list and replaces `plugins` with
      it exactly when its length differs or a default entry was added. */
  method DiffAndPrunePerformance(performance: PerformanceSettings, loaded: seq<string>)
    returns (changed: bool, updated: PerformanceSettings)
    ensures changed <==> |loaded| != |performance.plugins| || MissingSome(performance.plugins, loaded)
    ensures updated == if changed then performance.(plugins := Reconciled(performance.plugins, loaded)) else performance
  {
    changed := false;
    var temp: seq<PluginPerformance> := [];
    var k := 0;
    while k < |loaded|
      invariant 0 <= k <= |loaded|
      invariant temp == Reconciled(performance.plugins, loaded[..k])
      invariant changed <==> MissingSome(performance.plugins, loaded[..k])
    {
      var name := loaded[k];
      var pos := FindByName(performance.plugins, name);
      if pos == -1 {
        temp := temp + [DefaultPluginConfig(name)];
        changed := true;
      } else {
        temp := temp + [performance.plugins[pos]];
      }
      assert loaded[..k + 1] == loaded[..k] + [name];
      assert MissingSome(performance.plugins, loaded[..k + 1]) <==>
        MissingSome(performance.plugins, loaded[..k]) || pos == -1 by {
        if pos == -1 { assert loaded[..k + 1][k] == name; }
        if MissingSome(performance.plugins, loaded[..k + 1]) {
          var i :| 0 <= i < k + 1 && FindByName(performance.plugins, loaded[..k + 1][i]) == -1;
          if i < k { assert loaded[..k + 1][i] == loaded[..k][i]; }
        }
      }
      k := k + 1;
    }
    assert loaded[..k] == loaded;
    if |temp| != |performance.plugins| || changed {
      updated := performance.(plugins := temp);
      changed := true;
    } else {
      updated := performance;
    }
  }

  /** After reconciliation there is one entry per loaded plugin, in loaded order; a
      plugin that had entries keeps the first of them unchanged and a new plugin gets
      the default limits. */
  lemma ReconciledEntries(entries: seq<PluginPerformance>, loaded: seq<string>, i: int)
    requires 0 <= i < |loaded|
    ensures Reconciled(entries, loaded)[i].name == loaded[i]
    ensures FindByName(entries, loaded[i]) >= 0 ==>
      Reconciled(entries, loaded)[i] == entries[FindByName(entries, loaded[i])]
    ensures FindByName(entries, loaded[i]) == -1 ==>
      Reconciled(entries, loaded)[i] == PluginPerformance(1, 1, loaded[i])
  {
  }

  /** Every loaded name has an entry in the reconciled list. */
  lemma {:induction false} ReconciledCoversLoaded(entries: seq<PluginPerformance>, loaded: seq<string>, i: int)
    requires 0 <= i < |loaded|
    ensures FindByName(Reconciled(entries, loaded), loaded[i]) != -1
  {
    var r := Reconciled(entries, loaded);
    assert r[i].name == loaded[i];
  }

  /** Reconciling twice gives the list of the first pass: the entry found for a name
      in the reconciled list is the one the first pass chose for it. */
  lemma {:induction false} ReconciledIdempotent(entries: seq<PluginPerformance>, loaded: seq<string>)
    ensures Reconciled(Reconciled(entries, loaded), loaded) == Reconciled(entries, loaded)
  {
    var r := Reconciled(entries, loaded);
    forall i | 0 <= i < |loaded|
      ensures Reconciled(r, loaded)[i] == r[i]
    {
      ReconciledCoversLoaded(entries, loaded, i);
      var j := FindByName(r, loaded[i]);
      assert r[j].name == loaded[i];
      assert loaded[j] == loaded[i];
    }
  }

  /** A second call right after one that changed the list reports no change. */
  lemma SecondCallUnchanged(performance: PerformanceSettings, loaded: seq<string>)
    ensures var r := Reconciled(performance.plugins, loaded);
      !(|loaded| != |r| || MissingSome(r, loaded))
  {
    var r := Reconciled(performance.plugins, loaded);
    if MissingSome(r, loaded) {
      var i :| 0 <= i < |loaded| && FindByName(r, loaded[i]) == -1;
      ReconciledCoversLoaded(performance.plugins, loaded, i);
    }
  }

  /** A list that already holds every loaded plugin in another order is left as it is. */
  lemma OrderIsNotRestored()
    ensures var entries := [PluginPerformance(2, 3, "a"), PluginPerformance(4, 5, "b")];
      |["b", "a"]| == |entries| && !MissingSome(entries, ["b", "a"])
  {
    var entries := [PluginPerformance(2, 3, "a"), PluginPerformance(4, 5, "b")];
    var loaded := ["b", "a"];
    assert FindByName(entries, loaded[0]) == 1;
    assert FindByName(entries, loaded[1]) == 0;
  }

  /** A stored settings payload: the engine's own record or a plugin's opaque value. */
  datatype Payload = AppPayload(app: AppSettings) | PluginPayload(raw: Val)

  /** A cache entry `{version, settings}`. */
  datatype CachedSettings = CachedSettings(version: string, settings: Payload)

  /** One section of the application settings, tagged with its key. */
  datatype Section =
    | ServerSection(server: ServerSettings)
    | DriverSection(driver: DriverSettings)
    | PerformanceSection(performance: PerformanceSettings)
    | ProxySection(proxy: ProxySettings)

  /** `settings[target] = data`: the named section is replaced and the others kept. */
  function WithSection(s: AppSettings, section: Section): (r: AppSettings)
    ensures section.ServerSection? ==> r == s.(server := section.server)
    ensures section.DriverSection? ==> r == s.(driver := section.driver)
    ensures section.PerformanceSection? ==> r == s.(performance := section.performance)
    ensures section.ProxySection? ==> r == s.(proxy := section.proxy)
  {
    match section
    case ServerSection(v) => s.(server := v)
    case DriverSection(v) => s.(driver := v)
    case PerformanceSection(v) => s.(performance := v)
    case ProxySection(v) => s.(proxy := v)
  }

  /** Replacing a section and reading another back gives the old value of the other. */
  lemma WithSectionKeepsOthers(s: AppSettings, section: Section)
    ensures !section.ServerSection? ==> WithSection(s, section).server == s.server
    ensures !section.DriverSection? ==> WithSection(s, section).driver == s.driver
    ensures !section.PerformanceSection? ==> WithSection(s, section).performance == s.performance
    ensures !section.ProxySection? ==> WithSection(s, section).proxy == s.proxy
  {
  }

  /** The settings manager. The persisted plugin records and settings rows are maps:
      `pluginRows` from plugin name to version, `settingRows` from plugin name to
      its stored settings (a settings row exists only beside its plugin record). */
  class SettingManager {
    const feedengineName: string
    var pluginSettingCache: map<string, CachedSettings>
    var reconfiguration: bool
    var pluginRows: map<string, string>
    var settingRows: map<string, Payload>

    constructor (feedengineName: string, pluginRows: map<string, string>, settingRows: map<string, Payload>)
      ensures this.feedengineName == feedengineName
      ensures this.pluginRows == pluginRows && this.settingRows == settingRows
      ensures pluginSettingCache == map[] && !reconfiguration
    {
      this.feedengineName := feedengineName;
      this.pluginRows := pluginRows;
      this.settingRows := settingRows;
      pluginSettingCache := map[];
      reconfiguration := false;
    }

    /** What the store's inner join of settings with plugin records finds for `name`. */
    function Stored(name: string): Option<CachedSettings>
      reads this
    {
      if name in settingRows && name in pluginRows
      then Some(CachedSettings(pluginRows[name], settingRows[name]))
      else None
    }

    /** getPluginSettings: a cache hit returns the cached value; a miss asks the store
        and caches what it finds; nothing found is returned as null and not cached. */
    method GetPluginSettings(name: string) returns (r: Option<CachedSettings>)
      modifies this`pluginSettingCache
      ensures name in old(pluginSettingCache) ==>
        r == Some(old(pluginSettingCache)[name]) && pluginSettingCache == old(pluginSettingCache)
      ensures name !in old(pluginSettingCache) ==> r == Stored(name)
      ensures name !in old(pluginSettingCache) && r.Some? ==>
        pluginSettingCache == old(pluginSettingCache)[name := r.value]
      ensures name !in old(pluginSettingCache) && r.None? ==>
        pluginSettingCache == old(pluginSettingCache)
    {
      if name in pluginSettingCache {
        return Some(pluginSettingCache[name]);
      }
      r := Stored(name);
      if r.Some? {
        pluginSettingCache := pluginSettingCache[name := r.value];
      }
    }

    /** setPluginSettings: fails when the plugin record is missing; otherwise upserts
        the settings row and caches `{version, settings}`. */
    method SetPluginSettings(name: string, settings: Payload) returns (r: Result<(), string>)
      modifies this`pluginSettingCache, this`settingRows
      ensures r.Err? <==> name !in pluginRows
      ensures r.Err? ==> pluginSettingCache == old(pluginSettingCache) && settingRows == old(settingRows)
      ensures r.Ok? ==> settingRows == old(settingRows)[name := settings]
      ensures r.Ok? ==> pluginSettingCache == old(pluginSettingCache)[name := CachedSettings(pluginRows[name], settings)]
    {
      if name !in pluginRows {
        return Err("plugin record missing");
      }
      settingRows := settingRows[name := settings];
      pluginSettingCache := pluginSettingCache[name := CachedSettings(pluginRows[name], settings)];
      r := Ok(());
    }

    /** init: the engine needs reconfiguration exactly when it has no stored settings. */
    method Init()
      modifies this`pluginSettingCache, this`reconfiguration
      ensures reconfiguration <==>
        feedengineName !in old(pluginSettingCache) && Stored(feedengineName).None?
    {
      var result := GetPluginSettings(feedengineName);
      reconfiguration := result.None?;
    }

    /** updateGlobalSettings: replaces the `target` section of the engine's settings.
        The settings object it edits is the cached one, so the cache holds the new
        value even when the final write fails for a missing plugin record. */
    method UpdateGlobalSettings(section: Section) returns (r: Result<(), string>)
      modifies this`pluginSettingCache, this`settingRows
      ensures var found := if feedengineName in old(pluginSettingCache)
                           then Some(old(pluginSettingCache)[feedengineName]) else Stored(feedengineName);
        && (r.Ok? <==> found.Some? && found.value.settings.AppPayload? && feedengineName in pluginRows)
        && (found.Some? && found.value.settings.AppPayload? ==>
              feedengineName in pluginSettingCache &&
              pluginSettingCache[feedengineName].settings == AppPayload(WithSection(found.value.settings.app, section)))
        && (r.Ok? ==> settingRows == old(settingRows)[feedengineName := AppPayload(WithSection(found.value.settings.app, section))])
        && (r.Err? ==> settingRows == old(settingRows))
    {
      var result := GetPluginSettings(feedengineName);
      if result.None? {
        return Err("global settings missing");
      }
      if !result.value.settings.AppPayload? {
        return Err("global settings are not an application settings record");
      }
      var updated := AppPayload(WithSection(result.value.settings.app, section));
      pluginSettingCache := pluginSettingCache[feedengineName := result.value.(settings := updated)];
      r := SetPluginSettings(feedengineName, updated);
    }
  }
}
