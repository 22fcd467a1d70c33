/** `core/config.py`: where a device's network configuration lives, how a
    loaded configuration is normalised, and the one-off migration of the
    legacy `proxies_dialer` list into `proxies`. Also the two stores the
    services work on: a loaded network configuration (`Document`) and the
    project settings file (`SettingStore`). */
module ConfigManager {
  import opened Values
  import opened Text
  import YamlHelper

  /** The parts of a loaded `config.yaml` the services read and change:
      the `proxies` list and, when the key is present, `proxy-groups`. */
  class Document {
    var proxies: seq<Dict>
    var groups: Option<seq<Value>>

    constructor (proxies: seq<Dict>, groups: Option<seq<Value>>)
      ensures this.proxies == proxies && this.groups == groups
    {
      this.proxies := proxies;
      this.groups := groups;
    }
  }

  /** The parts of `config/setting.yaml` the services read and change. A
      missing or `None` mapping is an empty one. */
  class SettingStore {
    var regions: seq<Dict>
    var devices: seq<Dict>
    var vmCounters: Dict
    var nameCounters: Dict
    var paths: Dict

    constructor (regions: seq<Dict>, devices: seq<Dict>, vmCounters: Dict, nameCounters: Dict, paths: Dict)
      ensures this.regions == regions && this.devices == devices
      ensures this.vmCounters == vmCounters && this.nameCounters == nameCounters
      ensures this.paths == paths
    {
      this.regions := regions;
      this.devices := devices;
      this.vmCounters := vmCounters;
      this.nameCounters := nameCounters;
      this.paths := paths;
    }
  }

  // ---------------------------------------------------------------------
  // Lists of the settings file

  /** `region in [r.get('code') for r in regions]`: the region list has an
      entry with that code. */
  predicate KnownRegion(regions: seq<Dict>, code: string)
  {
    exists i :: 0 <= i < |regions| && Get(regions[i], "code", VNull) == VStr(code)
  }

  /** `entry.get(key) == v` */
  predicate Matches(entry: Dict, key: string, v: Value)
  {
    PyEq(Get(entry, key, VNull), v)
  }

  /** `[e for e in entries if e.get(key) != v]`, the filter with which
      regions and device remarks are deleted. */
  function DropMatching(entries: seq<Dict>, key: string, v: Value): seq<Dict>
  {
    if |entries| == 0 then []
    else
      var last := entries[|entries| - 1];
      DropMatching(entries[..|entries| - 1], key, v) + (if Matches(last, key, v) then [] else [last])
  }

  /** The filter keeps exactly the entries that do not match, and it is
      shorter than its input exactly when some entry matched. */
  lemma {:induction false} DropMatchingSpec(entries: seq<Dict>, key: string, v: Value)
    ensures |DropMatching(entries, key, v)| <= |entries|
    ensures forall e :: e in DropMatching(entries, key, v) <==> e in entries && !Matches(e, key, v)
    ensures |DropMatching(entries, key, v)| == |entries| <==>
      forall i :: 0 <= i < |entries| ==> !Matches(entries[i], key, v)
    decreases |entries|
  {
    if |entries| > 0 {
      var init := entries[..|entries| - 1];
      DropMatchingSpec(init, key, v);
      assert entries == init + [entries[|entries| - 1]];
      if |DropMatching(entries, key, v)| == |entries| {
        forall i | 0 <= i < |entries|
          ensures !Matches(entries[i], key, v)
        {
          if i < |init| {
            assert entries[i] == init[i];
          }
        }
      }
    }
  }

  /** The filter works entry by entry, so it keeps the survivors' order. */
  lemma {:induction false} DropMatchingAppend(a: seq<Dict>, b: seq<Dict>, key: string, v: Value)
    ensures DropMatching(a + b, key, v) == DropMatching(a, key, v) + DropMatching(b, key, v)
    decreases |b|
  {
    if |b| > 0 {
      var init := b[..|b| - 1];
      DropMatchingAppend(a, init, key, v);
      assert (a + b)[..|a + b| - 1] == a + init;
    } else {
      assert a + b == a;
    }
  }

  // ---------------------------------------------------------------------
  // Configuration file location

  /** `os.path.join(a, b)` on POSIX: an absolute `b` replaces `a`. */
  function JoinPath(a: string, b: string): string
  {
    if StartsWith(b, "/") then b
    else if a == "" || EndsWith(a, "/") then a + b
    else a + "/" + b
  }

  /** `get_config_file(device_id)`: the device's own file under
      `network_config` when an id is given, else the path manager's path. */
  function GetConfigFile(deviceId: string, defaultPath: Value): Value
  {
    if deviceId != "" then VStr(JoinPath(JoinPath("network_config", deviceId), "config.yaml"))
    else defaultPath
  }

  /** A device id without `/` lands in its own directory
      `network_config/<id>/config.yaml`. */
  lemma DeviceConfigFile(a: string, defaultPath: Value)
    requires a != "" && '/' !in a
    ensures GetConfigFile(a, defaultPath) == VStr("network_config/" + a + "/config.yaml")
  {
    assert !StartsWith(a, "/") by {
      assert a[..1][0] == a[0];
      assert a[0] in a;
    }
    var base := JoinPath("network_config", a);
    assert !EndsWith("network_config", "/");
    assert base == "network_config/" + a;
    assert !StartsWith("config.yaml", "/");
    assert !EndsWith(base, "/") by {
      assert base[|base| - 1] == a[|a| - 1];
      assert a[|a| - 1] in a;
    }
  }

  /** Two devices never share a configuration file, and no id means the
      path manager's path. */
  lemma ConfigFileSpec(a: string, b: string, defaultPath: Value)
    requires '/' !in a && '/' !in b
    ensures GetConfigFile("", defaultPath) == defaultPath
    ensures a != "" && b != "" && GetConfigFile(a, defaultPath) == GetConfigFile(b, defaultPath) ==> a == b
  {
    if a != "" && b != "" && GetConfigFile(a, defaultPath) == GetConfigFile(b, defaultPath) {
      DeviceConfigFile(a, defaultPath);
      DeviceConfigFile(b, defaultPath);
      var sa := "network_config/" + a + "/config.yaml";
      var sb := "network_config/" + b + "/config.yaml";
      assert sa == sb;
      assert a == sa[15..15 + |a|];
      assert b == sb[15..15 + |b|];
    }
  }

  // ---------------------------------------------------------------------
  // Normalisation and migration

  /** `if config.get('proxies') is None: config['proxies'] = []`, done by
      both `load` and `save`. */
  function NormaliseProxies(cfg: Dict): (r: Dict)
    ensures "proxies" in r && r["proxies"] != VNull
    ensures "proxies" in cfg && cfg["proxies"] != VNull ==> r == cfg
    ensures forall k :: k != "proxies" ==> (k in r <==> k in cfg) && (k in cfg ==> r[k] == cfg[k])
  {
    if Get(cfg, "proxies", VNull) == VNull then cfg["proxies" := VList([])] else cfg
  }

  /** `for proxy in config['proxies_dialer']`: a list yields its items; a
      string or mapping yields strings only (characters, keys), never a
      mapping, so nothing of it is migrated; other values raise. */
  function DialerItems(v: Value): Option<seq<Value>>
  {
    match v
    case VList(xs) => Some(xs)
    case VStr(_) => Some([])
    case VDict(_) => Some([])
    case _ => None
  }

  /** The mapping entries of `items`, each with `IsBase` set to `True`. */
  function MarkedBases(items: seq<Value>): seq<Value>
  {
    if |items| == 0 then []
    else
      var rest := MarkedBases(items[1..]);
      if items[0].VDict? then [VDict(items[0].fields["IsBase" := VBool(true)])] + rest else rest
  }

  function Reverse<T>(xs: seq<T>): seq<T>
  {
    if |xs| == 0 then [] else Reverse(xs[1..]) + [xs[0]]
  }

  function CountDicts(items: seq<Value>): nat
  {
    if |items| == 0 then 0 else (if items[0].VDict? then 1 else 0) + CountDicts(items[1..])
  }

  /** Why `_migrate_proxies_dialer` raises. */
  datatype MigrationError = NotIterable | ProxiesNotAList

  /** `_migrate_proxies_dialer` raises: `proxies_dialer` cannot be iterated,
      or a mapping in it is to be inserted into a `proxies` that is no list. */
  predicate MigrationFails(cfg: Dict)
    requires "proxies_dialer" in cfg
  {
    DialerItems(cfg["proxies_dialer"]).None? ||
    (!Get(cfg, "proxies", VList([])).VList? && CountDicts(DialerItems(cfg["proxies_dialer"]).value) > 0)
  }

  /** `load` migrates when `proxies_dialer` is present and non-empty. */
  predicate NeedsMigration(cfg: Dict)
  {
    "proxies_dialer" in cfg && Truthy(cfg["proxies_dialer"])
  }

  /** The configuration `_migrate_proxies_dialer` leaves when it does not
      raise: the marked mappings in front of a list `proxies`; a `proxies`
      that is no list (nothing was inserted into it) as it was, or `[]`
      when it was missing; and no `proxies_dialer`. */
  function Migrated(cfg: Dict): Dict
    requires "proxies_dialer" in cfg && !MigrationFails(cfg)
  {
    var old_ := Get(cfg, "proxies", VList([]));
    var front := Reverse(MarkedBases(DialerItems(cfg["proxies_dialer"]).value));
    cfg["proxies" := if old_.VList? then VList(front + old_.items) else old_] - {"proxies_dialer"}
  }

  /** `_migrate_proxies_dialer(config)`: every mapping of `proxies_dialer`
      is marked as a transit line and inserted at the front of `proxies`
      (so they end up in reverse order), and the key is deleted. */
  method MigrateProxiesDialer(cfg: Dict) returns (r: Result<Dict, MigrationError>)
    requires "proxies_dialer" in cfg
    ensures DialerItems(cfg["proxies_dialer"]).None? ==> r == Err(NotIterable)
    ensures r.Err? <==> MigrationFails(cfg)
    ensures r.Ok? ==> r.value == Migrated(cfg)
    ensures r.Ok? ==>
      var old_ := Get(cfg, "proxies", VList([]));
      DialerItems(cfg["proxies_dialer"]).Some? &&
      "proxies_dialer" !in r.value && "proxies" in r.value &&
      (old_.VList? ==>
        r.value["proxies"] ==
          VList(Reverse(MarkedBases(DialerItems(cfg["proxies_dialer"]).value)) + old_.items)) &&
      (!old_.VList? ==>
        CountDicts(DialerItems(cfg["proxies_dialer"]).value) == 0 && r.value["proxies"] == old_) &&
      forall k :: k != "proxies" && k != "proxies_dialer" ==>
        (k in r.value <==> k in cfg) && (k in cfg ==> r.value[k] == cfg[k])
    ensures r == Err(ProxiesNotAList) <==>
      DialerItems(cfg["proxies_dialer"]).Some? &&
      !Get(cfg, "proxies", VList([])).VList? &&
      CountDicts(DialerItems(cfg["proxies_dialer"]).value) > 0
  {
    var proxies := Get(cfg, "proxies", VList([]));
    var items := DialerItems(cfg["proxies_dialer"]);
    if items.None? {
      return Err(NotIterable);
    }
    var xs := items.value;
    var front: seq<Value> := [];
    var i := 0;
    while i < |xs|
      invariant 0 <= i <= |xs|
      invariant front == Reverse(MarkedBases(xs[..i]))
      invariant CountDicts(xs[..i]) == 0 || proxies.VList?
    {
      MarkedBasesSnoc(xs[..i], xs[i]);
      assert xs[..i + 1] == xs[..i] + [xs[i]];
      if xs[i].VDict? {
        if !proxies.VList? {
          CountDictsPrefix(xs, i);
          return Err(ProxiesNotAList);
        }
        var marked := VDict(xs[i].fields["IsBase" := VBool(true)]);
        ReverseSnoc(MarkedBases(xs[..i]), marked);
        assert MarkedBases(xs[..i + 1]) == MarkedBases(xs[..i]) + [marked];
        front := [marked] + front;
      } else {
        assert MarkedBases(xs[..i + 1]) == MarkedBases(xs[..i]) + [];
        assert MarkedBases(xs[..i]) + [] == MarkedBases(xs[..i]);
      }
      CountDictsSnoc(xs[..i], xs[i]);
      i := i + 1;
    }
    assert xs[..i] == xs;
    var kept := if proxies.VList? then VList(front + proxies.items) else proxies;
    r := Ok(cfg["proxies" := kept] - {"proxies_dialer"});
  }

  lemma {:induction false} MarkedBasesSnoc(xs: seq<Value>, x: Value)
    ensures MarkedBases(xs + [x]) ==
      MarkedBases(xs) + (if x.VDict? then [VDict(x.fields["IsBase" := VBool(true)])] else [])
    decreases |xs|
  {
    if |xs| == 0 {
      assert xs + [x] == [x];
    } else {
      assert (xs + [x])[1..] == xs[1..] + [x];
      MarkedBasesSnoc(xs[1..], x);
    }
  }

  lemma {:induction false} CountDictsSnoc(xs: seq<Value>, x: Value)
    ensures CountDicts(xs + [x]) == CountDicts(xs) + (if x.VDict? then 1 else 0)
    decreases |xs|
  {
    if |xs| == 0 {
      assert xs + [x] == [x];
    } else {
      assert (xs + [x])[1..] == xs[1..] + [x];
      CountDictsSnoc(xs[1..], x);
    }
  }

  lemma CountDictsPrefix(xs: seq<Value>, i: nat)
    requires i < |xs| && xs[i].VDict?
    ensures CountDicts(xs) > 0
  {
    if i > 0 {
      CountDictsPrefix(xs[1..], i - 1);
    }
  }

  lemma {:induction false} ReverseSnoc<T>(xs: seq<T>, x: T)
    ensures Reverse(xs + [x]) == [x] + Reverse(xs)
    decreases |xs|
  {
    if |xs| == 0 {
      assert xs + [x] == [x];
    } else {
      assert (xs + [x])[1..] == xs[1..] + [x];
      ReverseSnoc(xs[1..], x);
    }
  }

  lemma {:induction false} ReverseLength<T>(xs: seq<T>)
    ensures |Reverse(xs)| == |xs|
    decreases |xs|
  {
    if |xs| > 0 {
      ReverseLength(xs[1..]);
    }
  }

  lemma {:induction false} ReverseMembers<T>(xs: seq<T>)
    ensures forall y :: y in Reverse(xs) <==> y in xs
    decreases |xs|
  {
    if |xs| > 0 {
      ReverseMembers(xs[1..]);
      assert xs == [xs[0]] + xs[1..];
    }
  }

  lemma {:induction false} MarkedBasesSpec(items: seq<Value>)
    ensures |MarkedBases(items)| == CountDicts(items)
    ensures forall j :: 0 <= j < |MarkedBases(items)| ==> YamlHelper.IsTransit(MarkedBases(items)[j])
    decreases |items|
  {
    if |items| > 0 {
      MarkedBasesSpec(items[1..]);
      if items[0].VDict? {
        var m := VDict(items[0].fields["IsBase" := VBool(true)]);
        assert YamlHelper.IsTransit(m);
      }
    }
  }

  /** After a migration the list holds every old entry plus one transit line
      per migrated mapping, and the migrated lines come first. */
  lemma MigrationGrowsByDicts(items: seq<Value>, old_: seq<Value>)
    ensures |Reverse(MarkedBases(items)) + old_| == |old_| + CountDicts(items)
    ensures forall j :: 0 <= j < CountDicts(items) ==>
      YamlHelper.IsTransit((Reverse(MarkedBases(items)) + old_)[j])
    ensures (Reverse(MarkedBases(items)) + old_)[CountDicts(items)..] == old_
  {
    MarkedBasesSpec(items);
    ReverseLength(MarkedBases(items));
    ReverseMembers(MarkedBases(items));
    forall j | 0 <= j < CountDicts(items)
      ensures YamlHelper.IsTransit((Reverse(MarkedBases(items)) + old_)[j])
    {
      var y := Reverse(MarkedBases(items))[j];
      assert y in MarkedBases(items);
    }
  }

  // ---------------------------------------------------------------------
  // Loading

  /** What `load(device_id)` hands back, and where it writes it: a
      migrated configuration is saved as `config` itself, so `savedTo`
      names the file that receives exactly `config` (`None`: nothing
      written). */
  datatype Loaded = Loaded(config: Dict, savedTo: Option<Value>)

  /** `load(device_id)` as written: a missing file gives `{}` untouched; a
      present one is normalised and, if `proxies_dialer` is non-empty,
      migrated and saved — through `self.save(config)`, that is, to the
      default configuration path even when a device id was given. */
  method LoadAsWritten(file: Option<Dict>, deviceId: string, defaultPath: Value)
    returns (r: Result<Loaded, MigrationError>)
    ensures file.None? ==> r == Ok(Loaded(map[], None))
    ensures file.Some? ==>
      (r.Err? <==> NeedsMigration(NormaliseProxies(file.value)) && MigrationFails(NormaliseProxies(file.value)))
    ensures r.Ok? ==> (r.value.savedTo.Some? <==> file.Some? && NeedsMigration(NormaliseProxies(file.value)))
    ensures r.Ok? && r.value.savedTo.Some? ==> r.value.savedTo.value == GetConfigFile("", defaultPath)
    ensures file.Some? && r.Ok? && !NeedsMigration(NormaliseProxies(file.value)) ==>
      r.value.config == NormaliseProxies(file.value)
    ensures file.Some? && r.Ok? && NeedsMigration(NormaliseProxies(file.value)) ==>
      !MigrationFails(NormaliseProxies(file.value)) &&
      r.value.config == Migrated(NormaliseProxies(file.value))
  {
    if file.None? {
      return Ok(Loaded(map[], None));
    }
    var cfg := NormaliseProxies(file.value);
    if NeedsMigration(cfg) {
      var m := MigrateProxiesDialer(cfg);
      if m.Err? {
        return Err(m.error);
      }
      return Ok(Loaded(m.value, Some(GetConfigFile("", defaultPath))));
    }
    return Ok(Loaded(cfg, None));
  }

  /** A device whose file still has `proxies_dialer` gets its migrated
      configuration written over the default configuration file. */
  method LoadAsWrittenMisplacesSave() returns (r: Result<Loaded, MigrationError>)
    ensures r.Ok? && r.value.savedTo.Some?
    ensures r.value.savedTo.value != GetConfigFile("dev1", VStr("config.yaml"))
  {
    var file := map["proxies_dialer" := VList([VDict(map[])])];
    DialerFileMigrates(file);
    r := LoadAsWritten(Some(file), "dev1", VStr("config.yaml"));
    DeviceFileIsNotDefault("dev1", "config.yaml");
  }

  /** A file whose `proxies_dialer` lists one mapping is migrated without
      error. */
  lemma DialerFileMigrates(file: Dict)
    requires file == map["proxies_dialer" := VList([VDict(map[])])]
    ensures NeedsMigration(NormaliseProxies(file)) && !MigrationFails(NormaliseProxies(file))
  {
    var cfg := NormaliseProxies(file);
    assert cfg == file["proxies" := VList([])];
    assert DialerItems(cfg["proxies_dialer"]) == Some([VDict(map[])]);
    assert CountDicts([VDict(map[])]) == 1;
  }

  /** A device's file is not a default path shorter than
      `network_config/<id>/config.yaml`. */
  lemma DeviceFileIsNotDefault(a: string, p: string)
    requires a != "" && '/' !in a && |p| < 27
    ensures GetConfigFile("", VStr(p)) != GetConfigFile(a, VStr(p))
  {
    DeviceConfigFile(a, VStr(p));
    assert |"network_config/" + a + "/config.yaml"| == 27 + |a|;
  }

  /** `load(device_id)` writing the migrated configuration back to the file
      it was read from. After a successful load `proxies` is present and
      not `None`, except for a missing file, which gives `{}`. */
  method Load(file: Option<Dict>, deviceId: string, defaultPath: Value)
    returns (r: Result<Loaded, MigrationError>)
    ensures file.None? ==> r == Ok(Loaded(map[], None))
    ensures file.Some? ==>
      (r.Err? <==> NeedsMigration(NormaliseProxies(file.value)) && MigrationFails(NormaliseProxies(file.value)))
    ensures r.Ok? ==> (r.value.savedTo.Some? <==> file.Some? && NeedsMigration(NormaliseProxies(file.value)))
    ensures file.Some? && r.Ok? ==> "proxies" in r.value.config && r.value.config["proxies"] != VNull
    ensures file.Some? && r.Ok? ==> "proxies_dialer" !in r.value.config || !Truthy(r.value.config["proxies_dialer"])
    ensures r.Ok? && r.value.savedTo.Some? ==> r.value.savedTo.value == GetConfigFile(deviceId, defaultPath)
    ensures file.Some? && r.Ok? && !NeedsMigration(NormaliseProxies(file.value)) ==>
      r.value.config == NormaliseProxies(file.value)
    ensures file.Some? && r.Ok? && NeedsMigration(NormaliseProxies(file.value)) ==>
      !MigrationFails(NormaliseProxies(file.value)) &&
      r.value.config == Migrated(NormaliseProxies(file.value))
  {
    if file.None? {
      return Ok(Loaded(map[], None));
    }
    var cfg := NormaliseProxies(file.value);
    if NeedsMigration(cfg) {
      var m := MigrateProxiesDialer(cfg);
      if m.Err? {
        return Err(m.error);
      }
      return Ok(Loaded(m.value, Some(GetConfigFile(deviceId, defaultPath))));
    }
    return Ok(Loaded(cfg, None));
  }
}
