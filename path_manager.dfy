/** `core/path_manager.py`: the five configurable file paths, each read from
    the settings on first use and then served from a per-key cache until
    the cache is cleared. */
module PathManager {
  import opened Values
  import opened ConfigManager

  /** One cached path: its cache key, the settings key it is read from and
      the default used when the setting is missing or empty. */
  datatype PathSetting = PathSetting(cacheKey: string, settingKey: string, fallback: string)

  const ConfigFile := PathSetting("config_file", "config_file_path", "config.yaml")
  const VmScript := PathSetting("vm_script", "vm_script_path", "vm.sh")
  const Adb := PathSetting("adb", "adb_path", "adb")
  const VmAccounts := PathSetting("vm_accounts", "vm_accounts_file_path", "config/vm_accounts.yaml")
  const VmModelConfig := PathSetting("vm_model_config", "vm_model_config_path", "/data/local/tmp/vm_model_config.yaml")

  /** `path = setting.get(key, default); path if path else default` */
  function Resolve(paths: Dict, s: PathSetting): Value
  {
    Or(Get(paths, s.settingKey, VStr(s.fallback)), VStr(s.fallback))
  }

  /** A resolved path is the setting's value when that is set and non-empty,
      and the default otherwise; with a non-empty default it is never empty. */
  lemma ResolveSpec(paths: Dict, s: PathSetting)
    ensures s.settingKey in paths && Truthy(paths[s.settingKey]) ==> Resolve(paths, s) == paths[s.settingKey]
    ensures !(s.settingKey in paths && Truthy(paths[s.settingKey])) ==> Resolve(paths, s) == VStr(s.fallback)
    ensures s.fallback != "" ==> Truthy(Resolve(paths, s))
  {
  }

  /** What one getter call does to the cache (`before` to `after`) and what
      it returns (`v`): a cached value is served as it is; otherwise the path
      is resolved from the current settings and cached under its own key. */
  predicate Served(before: map<string, Value>, after: map<string, Value>, paths: Dict, s: PathSetting, v: Value)
  {
    if s.cacheKey in before then v == before[s.cacheKey] && after == before
    else v == Resolve(paths, s) && after == before[s.cacheKey := v]
  }

  /** Once a path is cached, later calls return it without reading the
      settings again, even if the settings changed in between. */
  lemma ServedTwice(c0: map<string, Value>, c1: map<string, Value>, c2: map<string, Value>,
                    p1: Dict, p2: Dict, s: PathSetting, v1: Value, v2: Value)
    requires Served(c0, c1, p1, s, v1) && Served(c1, c2, p2, s, v2)
    ensures v2 == v1 && c2 == c1
    ensures s.cacheKey !in c0 ==> v2 == Resolve(p1, s)
  {
  }

  /** A getter fills only its own key: every other cached key keeps its
      state, set or unset. */
  lemma ServedTouchesOneKey(before: map<string, Value>, after: map<string, Value>, paths: Dict, s: PathSetting, v: Value, k: string)
    requires Served(before, after, paths, s, v) && k != s.cacheKey
    ensures k in after <==> k in before
    ensures k in before ==> after[k] == before[k]
  {
  }

  /** The five cache keys are distinct, so the five getters never share an
      entry. */
  lemma CacheKeysDistinct()
    ensures |{ConfigFile.cacheKey, VmScript.cacheKey, Adb.cacheKey, VmAccounts.cacheKey, VmModelConfig.cacheKey}| == 5
  {
  }

  /** `PathManager` over the settings file. */
  class PathManager {
    const settings: SettingStore
    var cache: map<string, Value>

    constructor (settings: SettingStore)
      ensures this.settings == settings && cache == map[]
    {
      this.settings := settings;
      cache := map[];
    }

    /** The body every getter shares. */
    method Lookup(s: PathSetting) returns (v: Value)
      modifies this
      ensures Served(old(cache), cache, settings.paths, s, v)
    {
      if s.cacheKey !in cache {
        var path := Get(settings.paths, s.settingKey, VStr(s.fallback));
        cache := cache[s.cacheKey := if Truthy(path) then path else VStr(s.fallback)];
      }
      v := cache[s.cacheKey];
    }

    /** `get_config_file_path()` */
    method GetConfigFilePath() returns (v: Value)
      modifies this
      ensures Served(old(cache), cache, settings.paths, ConfigFile, v)
    {
      v := Lookup(ConfigFile);
    }

    /** `get_vm_script_path()` */
    method GetVmScriptPath() returns (v: Value)
      modifies this
      ensures Served(old(cache), cache, settings.paths, VmScript, v)
    {
      v := Lookup(VmScript);
    }

    /** `get_adb_path()` */
    method GetAdbPath() returns (v: Value)
      modifies this
      ensures Served(old(cache), cache, settings.paths, Adb, v)
    {
      v := Lookup(Adb);
    }

    /** `get_vm_accounts_file_path()` */
    method GetVmAccountsFilePath() returns (v: Value)
      modifies this
      ensures Served(old(cache), cache, settings.paths, VmAccounts, v)
    {
      v := Lookup(VmAccounts);
    }

    /** `get_vm_model_config_path()` */
    method GetVmModelConfigPath() returns (v: Value)
      modifies this
      ensures Served(old(cache), cache, settings.paths, VmModelConfig, v)
    {
      v := Lookup(VmModelConfig);
    }

    /** `clear_cache()`: the next call of every getter reads the settings. */
    method ClearCache()
      modifies this
      ensures cache == map[]
      ensures forall s: PathSetting :: s.cacheKey !in cache
    {
      cache := map[];
    }
  }
}
