# Proxy manager and listing automation, modelled in Dafny

The repository manages the proxy configuration of a farm of Android
devices and drives a listing workflow on each of them through `adb`.
This project models its deterministic core and proves what that core
promises.

**Proxy configuration store.** A device's `config.yaml` holds a list
`proxies`. Each record is one of two kinds:

- A *transit* line, marked by `IsBase`.
- A *normal* proxy, which may route through a transit line named by its
  `dialer-proxy`.

The list also feeds the `select` groups of `proxy-groups`.

- `ProxyService` and `TransitService` (`proxy_service.dfy`,
  `transit_service.dfy`) are classes over a shared `Document`. They cover:
  - the filtered views with `_index` back-references into the full list;
  - name uniqueness with an excluded index;
  - add, update and delete by view index or by name;
  - the usage guard that keeps a transit line from being deleted while a
    proxy routes through it;
  - the group resynchronisation after every change;
  - the batch import, with its three-format line parser and its
    persistent `prefix_NNN` counters.
- `ConfigManager` (`config.dfy`) holds the settings store and the
  configuration path. It normalises `proxies` on load and save and
  migrates a legacy `proxies_dialer` list.
- `YamlHelper` (`yaml_helper.dfy`) generates the `proxies:` and
  `proxy-groups:` sections as structured lines.
- Smaller stores sit beside them:
  - regions (`region_service.dfy`);
  - device remarks (`device_service.dfy`);
  - VM account-name counters and account lists (`vm_service.dfy`);
  - the lazy path cache (`path_manager.dfy`);
  - the `adb devices` parser and shell argv (`adb_helper.dfy`);
  - the recursive log masking of `app.py` (`log_sanitizer.dfy`).

**The older monolith.** `proxy_manager.py` predates the services. Its own
parts are modelled in `proxy_manager.dfy`:

- the YAML line cleaning of `load_config`;
- the name check with its first conflicting index;
- its line parser, shown to agree with the service parser;
- the batch counter loop;
- the `dialer-proxy` merge of `update_proxy`;
- the transit usage guard;
- region and device list edits;
- VM account counters;
- the region filter of `get_vm_proxy_names`.

The remaining parts of the monolith repeat the service code and are
covered by the service definitions:

- `is_transit_proxy` (proxy_manager.py:506-512) is `YamlHelper.IsTransit`.
- `get_transit_proxies` (proxy_manager.py:1143-1153) is the transit view
  `ProxyService.KindView`.
- `update_proxy_groups` (proxy_manager.py:1484-1526) gives the same
  groups as `ProxyService.SyncedGroups` except in one case. It writes a
  group's new members before reading the old ones' length. A select group
  whose old `proxies` has no length therefore gets its new members, and
  the exception stops the loop. Every later group stays unchanged.
  `ProxyManager.ManagerSyncedGroups` models this, and
  `ProxyManager.ManagerSyncAgrees` states where the two agree.
- The `proxies_dialer` migration in `load_config`
  (proxy_manager.py:285-302) is `ConfigManager.MigrateProxiesDialer`.

**Listing automation.** `ListingScript` (`listing_script.dfy`) covers the
parts of `main.py` that can be decided:

- region price and title lookup;
- fractional-to-pixel conversion, jitter clamping and the random tap
  inside a rectangle;
- the weighted content-loaded score and its polling loop over a sequence
  of samples;
- the check / one retry / re-check pattern that the upload phase repeats;
- the draft-slot filter;
- the gallery grid arithmetic that skips the camera cell;
- image selection: extension filter, case-insensitive de-duplication,
  `WindowsPath` sort and cap;
- the `su -c` command that `call_vm_script` builds.

`FarmController` (`farm_controller.dfy`) covers the following from
`farm_controller.py`:

- cubic Bézier sampling;
- the control points and timed segments of the human-like swipe;
- the index logic of gallery browsing;
- `get_adb_cmd`.

**How the non-deterministic parts are modelled.**

- Random draws are parameters constrained to the ranges the source draws
  from.
- Detector outputs (OCR texts, edge density, variance, entropy) are
  abstract inputs.
- Wall-clock polling is a loop over a finite sequence of observations.
- The floating-point arithmetic of the taps, swipes and scores is
  exact `real` arithmetic.
- Dictionaries are `map<string, Value>`, where `Value` is a JSON/YAML
  value without floats (`values.dfy`).
- String helpers that mirror Python's `str` methods live in `text.dfy`.
- Methods that change state are proved against specification functions.
  The lemmas beside those functions state the invariants: index mapping,
  the transit/normal partition, name uniqueness, "nothing else changes",
  and counter monotonicity.

## Model

| member | source | states |
|---|---|---|
| Text.StripSpec | services/region_service.py:40-43 | `strip()` removes exactly the surrounding whitespace: the result is a contiguous piece of the input with no whitespace at either end, and is empty exactly when the input is all whitespace |
| Text.StrippedFixpoint | services/proxy_service.py:533 | a string without surrounding whitespace is its own `strip()` |
| Text.StripIdempotent | services/region_service.py:40-41 | `strip()` is idempotent |
| Text.UpperStrip | services/region_service.py:40-43 | upper-casing a stripped code keeps it stripped, and it is empty exactly when the stripped code was |
| Text.LowerHasNoCapitals | main.py:2811 | the result of `lower()` holds no upper-case ASCII letter |
| Text.Find | utils/adb_helper.py:64 | the index found is the first occurrence of the separator, and none is found exactly when it does not occur |
| Text.SplitJoin | utils/adb_helper.py:57 | `split` cuts at every separator and nowhere else: joining the pieces gives the input back, and no piece holds a separator |
| Text.SplitOfJoin | services/vm_service.py:98 | splitting a join of separator-free pieces gives the pieces back |
| Text.SplitOnce | services/proxy_service.py:654-662 | `split(sep, 1)` yields a part before and a part after the first separator that rebuild the input, and fails exactly when the separator is absent |
| Text.DecimalDigits | proxy_manager.py:642 | `str(n)` of a natural number is a non-empty digit string whose value is `n` |
| Text.PaddedDecimal | proxy_manager.py:642 | a zero-padded decimal is a valid `int()` literal with the same value |
| Text.Format03RoundTrip | proxy_manager.py:642 | `int(f"{n:03d}")` is `n`, for negative `n` too |
| Text.DecimalRoundTrip | main.py:2779 | `int(str(n))` is `n` for a natural number |
| Text.Format03Injective | services/vm_service.py:30 | different counters always give different `{n:03d}` texts |
| Text.ScanQuoted | main.py:2779 | the shell reads a `shlex.quote`d argument as exactly the original text, whatever characters it holds, continuing the current word |
| Text.ShellJoinWords | app.py:176-177 | a line of `shlex.quote`d arguments separated by blanks is read back by the shell as exactly those arguments |
| Text.ShellQuoteRoundTrip | main.py:2779 | `shlex.quote` makes one word of any text: the shell reads it back as that text |
| ConfigManager.Document.constructor | core/config.py:113-136 | a loaded network configuration holds the given `proxies` list and `proxy-groups` |
| ConfigManager.SettingStore.constructor | core/config.py:25-37 | the settings store holds the given regions, devices, counters and paths |
| ConfigManager.DropMatchingSpec | services/region_service.py:76-80 | the delete filter keeps exactly the entries that do not match, and leaves the list as long as before exactly when nothing matched |
| ConfigManager.DropMatchingAppend | services/device_service.py:82 | the filter works entry by entry: filtering a concatenation is concatenating the filtered parts |
| ConfigManager.DeviceConfigFile | core/config.py:109-110 | a device id without `/` maps to `network_config/<id>/config.yaml` |
| ConfigManager.ConfigFileSpec | core/config.py:100-111 | no id gives the path manager's path, and two different device ids never share a configuration file |
| ConfigManager.NormaliseProxies | core/config.py:127-129 | after normalising, `proxies` is present and not `None`; a configuration that already had a non-`None` `proxies` is unchanged, and no other key changes |
| ConfigManager.MigrateProxiesDialer | core/config.py:163-180 | the migration loop marks every mapping of `proxies_dialer` as a transit line and inserts it at the front of `proxies` (so they come out reversed), keeps a list's old entries after them, leaves a `proxies` that is no list as it was when no mapping is inserted into it (`[]` when it was missing), and deletes `proxies_dialer`; it raises exactly when the value cannot be iterated or a mapping would be inserted into a non-list, and no other key changes |
| ConfigManager.MarkedBasesSpec | core/config.py:171-175 | one migrated entry per mapping, each a transit line |
| ConfigManager.MigrationGrowsByDicts | core/config.py:171-177 | after the migration the list holds every old entry, in order, after one transit line per migrated mapping |
| ConfigManager.LoadAsWritten | core/config.py:113-136 | `load` as written: a missing file gives `{}`; a present one is normalised and returned as it is when `proxies_dialer` is empty or missing; otherwise it is returned migrated, and that same configuration is written to the default configuration path even for a device id (see Findings) |
| ConfigManager.LoadAsWrittenMisplacesSave | core/config.py:132-134 | a concrete device whose file still has `proxies_dialer`: its migrated configuration is written somewhere other than its own file |
| ConfigManager.DialerFileMigrates | core/config.py:132-133 | a file whose `proxies_dialer` lists one mapping needs a migration and the migration succeeds |
| ConfigManager.DeviceFileIsNotDefault | core/config.py:109-111 | a device's own file differs from any default path shorter than `network_config/<id>/config.yaml` |
| ConfigManager.Load | core/config.py:113-136 | `load` with the migrated configuration written back to the file it came from: errors exactly when the migration raises; otherwise returns the normalised file, or that file migrated when `proxies_dialer` is non-empty; `proxies` is present and not `None` afterwards, no non-empty `proxies_dialer` survives, and a write happens exactly when a migration was needed, to `get_config_file(device_id)`, of exactly the configuration returned |
| PathManager.ResolveSpec | core/path_manager.py:28-29 | a resolved path is the setting's value when it is set and non-empty, the default otherwise, and never empty |
| PathManager.ServedTwice | core/path_manager.py:24-30 | once a path is cached, later calls return it without reading the settings again, even if they changed |
| PathManager.ServedTouchesOneKey | core/path_manager.py:26-29 | a getter fills only its own cache key; every other key keeps its state |
| PathManager.CacheKeysDistinct | core/path_manager.py:24-62 | the five getters use five distinct cache keys |
| PathManager.PathManager.constructor | core/path_manager.py:14-22 | the cache starts empty |
| PathManager.PathManager.Lookup | core/path_manager.py:26-30 | the shared getter body serves a cached value unchanged, otherwise resolves from the current settings and caches under its own key |
| PathManager.PathManager.GetConfigFilePath | core/path_manager.py:24-30 | served from cache key `config_file`, setting `config_file_path`, default `config.yaml` |
| PathManager.PathManager.GetVmScriptPath | core/path_manager.py:32-38 | served from cache key `vm_script`, setting `vm_script_path`, default `vm.sh` |
| PathManager.PathManager.GetAdbPath | core/path_manager.py:40-46 | served from cache key `adb`, setting `adb_path`, default `adb` |
| PathManager.PathManager.GetVmAccountsFilePath | core/path_manager.py:48-54 | served from cache key `vm_accounts`, setting `vm_accounts_file_path`, default `config/vm_accounts.yaml` |
| PathManager.PathManager.GetVmModelConfigPath | core/path_manager.py:56-62 | served from cache key `vm_model_config`, setting `vm_model_config_path`, default `/data/local/tmp/vm_model_config.yaml` |
| PathManager.PathManager.ClearCache | core/path_manager.py:64-66 | the cache is emptied, so every getter reads the settings next time |
| RegionService.AllRegions | services/region_service.py:16-32 | the listed regions are never empty: the configured ones when there are any, otherwise the five defaults GB, SG, HK, MY, PH |
| RegionService.FindCode | services/region_service.py:52-54 | the duplicate check finds a region exactly when one with that code is configured |
| RegionService.AddKeepsCodesUnique | services/region_service.py:51-58 | appending a region whose code is not yet present keeps codes unique and makes the code known |
| RegionService.DeleteRemovesCode | services/region_service.py:76-77 | after deleting a code no region of that code is left, and every region of another code is still listed |
| RegionService.RegionService.constructor | services/region_service.py:13-14 | the service works on the given settings store |
| RegionService.RegionService.GetAllRegions | services/region_service.py:16-32 | returns the configured regions, or the defaults when there are none |
| RegionService.RegionService.AddRegion | services/region_service.py:37-62 | the code is stripped and upper-cased and the name stripped; an empty one is refused, a configured code is refused (the defaults are not consulted), otherwise the new region is appended and returned; nothing else in the settings changes |
| RegionService.RegionService.DeleteRegion | services/region_service.py:67-86 | the code is upper-cased (not stripped); succeeds exactly when a region of that code exists, and then removes every region of that code; on failure nothing changes |
| DeviceService.FirstDevice | services/device_service.py:51-55 | the search finds the first entry of the device, with no match before it, and finds none exactly when no entry matches |
| DeviceService.FindDevice | services/device_service.py:51-55 | the `for … break` loop returns that first index |
| DeviceService.UpsertSpec | services/device_service.py:57-62 | after saving, the new entry is in the list, the list grows by one exactly when the device had no entry, and every entry of another device stays where it was |
| DeviceService.FirstDeviceAt | services/device_service.py:51-55 | the first matching index is the one the search returns |
| DeviceService.UpsertIdempotent | services/device_service.py:39-68 | saving the same remark twice leaves the list as saving it once |
| DeviceService.DeviceService.constructor | services/device_service.py:13-15 | the service works on the given settings store |
| DeviceService.DeviceService.SaveDeviceConfig | services/device_service.py:39-68 | an empty device id is refused with nothing changed; otherwise the entry `{device_id, remark}` replaces the device's first entry or is appended, and is returned; nothing else in the settings changes |
| DeviceService.DeviceService.DeleteDeviceConfig | services/device_service.py:73-91 | succeeds exactly when some entry has the device id, and then removes every entry of it; on failure nothing changes |
| LogSanitizer.SanitizeMasks | app.py:118-129 | after sanitising, no `password`, `token`, `secret` or `api_key` key at any depth holds anything but `******` |
| LogSanitizer.SanitizeShape | app.py:118-129 | sanitising keeps the shape: a mapping keeps its keys, a list its length, other scalar values stay, and a non-container is returned as it is |
| LogSanitizer.SanitizeIdempotent | app.py:118-129 | sanitising twice is sanitising once |
| Values.PyEqString | services/region_service.py:53 | Python `==` against a string is plain equality |
| Values.PyEqReflexive | services/device_service.py:53 | every value is `==` to itself |
| VmService.AccountNameNumber | services/vm_service.py:27-30 | an account name is `<app>_<region>_` followed by the number, which reads back as that number, so two names of one app and region are equal exactly when their numbers are |
| VmService.GenerateIncrementGenerate | services/vm_service.py:19-57 | generating, incrementing and generating again yields the next number and a different name |
| VmService.NonBlankLinesSpec | services/vm_service.py:98-101 | every account is a non-empty stripped line of the output, and every non-blank line gives one |
| VmService.ParseAccountList | services/vm_service.py:96-107 | the loop of `get_account_list` returns exactly the non-blank stripped lines on return code 0, and no accounts otherwise |
| VmService.VmService.constructor | services/vm_service.py:14-17 | the service works on the given settings store |
| VmService.VmService.GenerateAccountName | services/vm_service.py:19-33 | the name carries the stored counter plus one (a missing counter counts as 0), zero-padded to three digits; a non-number counter raises |
| VmService.VmService.IncrementAccountCounter | services/vm_service.py:38-54 | that counter becomes its old value plus one (a missing one becomes 1); a non-number counter raises with nothing changed; every other counter and the rest of the settings stay |
| AdbHelper.DeviceOfLineSpec | utils/adb_helper.py:59-71 | a line after the header yields a device exactly when it is not blank; the id is non-empty, both fields are stripped, and a line without a tab gets status `unknown` |
| AdbHelper.DevicesOfCount | utils/adb_helper.py:56-71 | at most one device per line after the header, none with an empty id |
| AdbHelper.ParseDevices | utils/adb_helper.py:51-73 | the loop of `get_devices` returns exactly the devices of the lines after the header, and nothing on a non-zero return code |
| AdbHelper.ShellArgvRoundTrip | utils/adb_helper.py:190-200 | the `adb shell` argument vector holds the device, the `su` flag and the command unambiguously (read back exactly), starts with the adb path and ends with the command |
| AdbHelper.BuildShellArgv | utils/adb_helper.py:190-200 | the successive `extend` calls build that argument vector |
| YamlHelper.IsTransitCases | utils/yaml_helper.py:26-31 | a value is a transit line exactly when it is a mapping whose `IsBase` is `True`, the integer 1 (equal to `True`), or a string reading "true" in any case; anything else, a missing `IsBase` included, is a normal line |
| YamlHelper.FormatForDisplay | utils/yaml_helper.py:14-23 | a mapping is returned unchanged, a string is its JSON parse or `{"raw": s}` when it does not parse, and any other value is returned as it is |
| YamlHelper.PositionsSpec | utils/yaml_helper.py:147-148 | the positions of one kind are strictly increasing indexes of exactly the records of that kind, and the filtered list holds the records at those positions |
| YamlHelper.KindsPartition | utils/yaml_helper.py:147-148 | the transit and normal filters split the records: their lengths add up and together they are a permutation of the list |
| YamlHelper.HeadingRegionSpec | utils/yaml_helper.py:162-168 | the heading region is a truthy `Region`, else a truthy `region`, else Hong Kong, shown by name when the code is known and as it is otherwise; the lookup raises exactly when the region chosen is a list or a mapping (an unhashable key) |
| YamlHelper.SectionHeadings | utils/yaml_helper.py:151-170 | when the section is produced, the transit heading opens it and the normal heading, naming the first normal record's region, comes right after the transit block |
| YamlHelper.ProxiesSectionEntries | utils/yaml_helper.py:141-177 | the generator raises exactly when there is a normal record and the first one's region is a list or a mapping; otherwise the entry lines hold every transit record and then every normal record, each in list order and without `_index`: exactly one entry per record |
| YamlHelper.WithoutIndexKeeps | utils/yaml_helper.py:154 | the copy written drops `_index` and keeps every other key with its value |
| YamlHelper.GenerateProxiesSection | utils/yaml_helper.py:141-177 | the appending loops build the section of the specification, and produce nothing when the heading lookup raises |
| YamlHelper.AppendEntries | utils/yaml_helper.py:153-156 | the entry loop appends one entry line per record, in order |
| YamlHelper.WriteProxies | utils/yaml_helper.py:366-379 | an empty list writes the placeholder line; otherwise one entry per record, in list order, without `_index` |
| YamlHelper.WriterAndSectionAgree | utils/yaml_helper.py:141-177 | where `_generate_proxies_section` does not raise, it and `_write_proxies` write the same records, only in a different order |
| YamlHelper.ListRegionRaises | utils/yaml_helper.py:162-168 | a normal record whose `Region` is the list `['HK']`: the section generator raises, while the writer still writes the record |
| YamlHelper.KindsPartitionStripped | utils/yaml_helper.py:147-175 | after dropping `_index`, the two blocks together are a permutation of the list |
| YamlHelper.GenerateGroupsSection | utils/yaml_helper.py:180-194 | the loop emits each group's block in order, or stops at the first group that raises |
| YamlHelper.MappingMembers | utils/yaml_helper.py:189-191 | a mapping under `proxies` is iterated over its keys: the members are exactly its keys, each once |
| YamlHelper.ReadMembersBack | utils/yaml_helper.py:189-191 | the member lines read back as exactly the members, in order |
| YamlHelper.ReadGroupBlock | utils/yaml_helper.py:185-192 | one group's block reads back as that group's name, type and members |
| YamlHelper.GroupsSectionReadBack | utils/yaml_helper.py:180-194 | when no group raises, reading the section back gives every group's name, type and member list, in order |
| YamlHelper.UnrepairedYaml | utils/yaml_helper.py:237-254 | both repair hooks return the content unchanged, so no inline mapping loses its closing brace |
| TransitService.BuildTransitConfig | services/transit_service.py:190-219 | the new line's `name` is the stripped name from the request |
| TransitService.BuildTransitSpec | services/transit_service.py:190-219 | the built line is a transit line (`IsBase` true) with no `dialer-proxy`; `skip-cert-verify` defaults to true; every optional field is present exactly when the request has it and then holds the request's value |
| TransitService.TransitKeySet | services/transit_service.py:198-217 | the built line has every fixed key and no key beyond the fixed and optional ones |
| TransitService.CopiedKey | services/transit_service.py:206-217 | one optional field is copied exactly when the request carries it, with the request's value |
| TransitService.TransitNamesSpec | services/transit_service.py:47-56 | a value is among the transit names exactly when some transit line of the document has it as a truthy `name` |
| TransitService.TransitNamesSnoc | services/transit_service.py:52 | appending a line to the view appends its name when that name is truthy and nothing otherwise |
| TransitService.GetTransitNamesOf | services/transit_service.py:52 | the comprehension's loop yields the truthy names of the view in order |
| TransitService.NumericUserLabel | services/transit_service.py:160-164 | a user named `8080` in YAML is reported by the number, which the message's `join` refuses |
| TransitService.UsersSpec | services/transit_service.py:234-246 | the usage list is empty exactly when no line other than the excluded one is a normal line whose `dialer-proxy` is the transit's name, and each label comes from such a line |
| TransitService.CheckTransitUsage | services/transit_service.py:234-246 | the loop collects exactly the labels of the normal lines that use the transit, skipping the excluded index |
| TransitService.GuardedDeleteLeavesNoUser | services/transit_service.py:158-167 | when the usage guard lets a delete through, no remaining line uses the deleted transit through `dialer-proxy` |
| TransitService.ReplaceSameKind | services/transit_service.py:113-122 | overwriting a line by one of the same kind keeps every position list, and keeps the lines of the other kind |
| TransitService.CountTrueSpec | services/transit_service.py:257-266 | the success count is at most the number of devices, zero exactly when every push failed and full exactly when every push succeeded |
| TransitService.TallySpec | services/transit_service.py:254-273 | the push report is a success exactly when some device took the file, a full success exactly when all did and there was at least one, a partial success counts strictly between zero and the total, and "no devices" exactly when the list is empty |
| TransitService.PushTally | services/transit_service.py:257-273 | the counting loop produces that report |
| TransitService.TransitService.constructor | services/transit_service.py:15-18 | the service works on the given document |
| TransitService.TransitService.GetAllTransits | services/transit_service.py:20-45 | returns the transit lines of the document, each tagged with its index in the full list |
| TransitService.TransitService.GetTransitNames | services/transit_service.py:47-56 | returns the truthy names of the transit lines, in order |
| TransitService.TransitService.AddTransit | services/transit_service.py:58-102 | a non-string name and a name already taken are rejected with the document untouched; otherwise the built line is appended and every select group other than `PROXY` lists all line names |
| TransitService.TransitService.UpdateTransit | services/transit_service.py:104-138 | an index outside the transit view, a non-string name and a name taken by another line are rejected with the document untouched; otherwise the transit line at that view index is replaced by the built line and the groups are resynchronised |
| TransitService.TransitService.DeleteTransit | services/transit_service.py:140-186 | an index outside the transit view is rejected, and so is a transit with a truthy name still used by a normal line: the users are reported when every label is a string, and joining them raises otherwise; in every other case exactly that line is removed and the groups are resynchronised |
| TransitService.TransitEditsKeepNormals | services/transit_service.py:104-186 | replacing or deleting a transit line leaves the list of normal lines unchanged |
| ProxyService.CheckNameExists | services/proxy_service.py:597-608 | the loop answers true exactly when some line other than the excluded index carries that name |
| ProxyService.AppendKeepsUnique | services/proxy_service.py:104-105 | appending a line whose name is free keeps the names of the list pairwise distinct |
| ProxyService.ReplaceKeepsUnique | services/proxy_service.py:176-177 | overwriting a line by one whose name no other line has keeps the names distinct |
| ProxyService.RemoveKeepsUnique | services/proxy_service.py:301 | removing a line keeps the names distinct |
| ProxyService.FirstNamed | services/proxy_service.py:224-229 | the index found is the first line with that name, and there is none exactly when no line has the name |
| ProxyService.FindByName | services/proxy_service.py:224-229 | the search loop with its `break` returns that first index |
| ProxyService.DeleteByNameRemovesName | services/proxy_service.py:336-349 | in a list with distinct names, deleting by name leaves no line with that name and keeps the names distinct |
| ProxyService.ValidateProxyData | services/proxy_service.py:527-548 | no error exactly when the request is acceptable (a free non-blank name or a blank one, a known non-blank region after strip and upper-casing, a non-blank user name and password); a name error names a taken name and a region error an unknown code |
| ProxyService.ConvertPortSpec | services/proxy_service.py:552-556 | a decimal port string becomes that integer, a non-zero integer is kept, and an empty or missing port becomes the empty string |
| ProxyService.WithDialer | services/proxy_service.py:580-585 | a truthy `dialer-proxy` in the request is set, a falsy one drops the key, and without one in the request the previous line's value is carried over |
| ProxyService.BuildProxyConfig | services/proxy_service.py:550-595 | the built line's `name` is the stripped requested name |
| ProxyService.BuildKeySet | services/proxy_service.py:558-593 | the built line has every fixed key and at most `sni` and `dialer-proxy` besides |
| ProxyService.BuildNoOtherKey | services/proxy_service.py:558-593 | no key outside the handled ones appears in the built line |
| ProxyService.BuildIsNormal | services/proxy_service.py:558-566 | a built line is never a transit line |
| ProxyService.BuildKeys | services/proxy_service.py:558-570 | the name is stripped, the region stripped and upper-cased, and `sni` is copied exactly when present |
| ProxyService.BuildKeepsBase | services/proxy_service.py:558-566 | the fixed fields keep the values computed for them |
| ProxyService.BuildSni | services/proxy_service.py:569-570 | `sni` is present exactly when the request has it, with the request's value |
| ProxyService.BuildFlags | services/proxy_service.py:571-578 | `skip-cert-verify` and `udp` take the request's values and default to true |
| ProxyService.BuildDialer | services/proxy_service.py:580-585 | the `dialer-proxy` rule of the built line, both for a request that carries one and for one that does not |
| ProxyService.BuildIsBak | services/proxy_service.py:587-593 | `IsBak` is the truthiness of `is_bak`, else the previous line's value, else false |
| ProxyService.AcceptedNameIsFree | services/proxy_service.py:527-533 | a request that passes validation builds a line whose name no other line has |
| ProxyService.AddKeepsNamesUnique | services/proxy_service.py:94-105 | validation followed by the append keeps the names of the document distinct |
| ProxyService.UpdateKeepsNamesUnique | services/proxy_service.py:167-177 | validation followed by the overwrite keeps the names distinct |
| ProxyService.KindViewSpec | services/proxy_service.py:47-57 | the view lists exactly the lines of one kind, in order, each tagged with its strictly increasing index in the full list |
| ProxyService.GetKindView | services/proxy_service.py:48-56 | the filtering loop builds that view |
| ProxyService.RemoveOfKind | services/proxy_service.py:288-301 | removing the line behind a view index removes exactly that entry from the lines of its kind and leaves the other kind unchanged |
| ProxyService.ProxyNamesMembers | services/proxy_service.py:704-710 | a value is among the collected names exactly when some line has it under `name` |
| ProxyService.SyncedGroupsSpec | services/proxy_service.py:697-724 | a missing group list stays missing; every select group other than `PROXY` gets exactly the collected names as members and keeps its other fields; every other group is unchanged |
| ProxyService.SyncLastWins | services/proxy_service.py:697-724 | synchronising twice is the same as synchronising once with the later names |
| ProxyService.UpdateProxyGroups | services/proxy_service.py:697-724 | the loop over the groups leaves the lines alone and produces the synchronised groups |
| ProxyService.RenameSpec | services/proxy_service.py:684-690 | renaming keeps the member count, replaces exactly the members equal to the old name and leaves none of them behind when the names differ |
| ProxyService.UpdateProxyNameInGroups | services/proxy_service.py:673-695 | every group's member list is renamed in place; the lines are unchanged |
| ProxyService.RenameInList | services/proxy_service.py:686-688 | the inner loop over one member list performs that renaming |
| ProxyService.RenameThenSync | services/proxy_service.py:252-259 | the rename (when the name changed) followed by the resynchronisation gives the synchronised groups of the renamed ones |
| ProxyService.Format1RoundTrip | services/proxy_service.py:649-653 | a line written as `user:pass:host:port` parses back into exactly those fields |
| ProxyService.Format2RoundTrip | services/proxy_service.py:655-659 | a line written as `host:port:user:pass` parses back into exactly those fields |
| ProxyService.Format3RoundTrip | services/proxy_service.py:661-667 | a line written as `user:pass@host:port` parses back into exactly those fields |
| ProxyService.ParseLinesCount | services/proxy_service.py:627-642 | every non-blank line ends up either parsed or failed |
| ProxyService.ParseLinesParsed | services/proxy_service.py:632-640 | every parsed entry is the parse of some input line |
| ProxyService.ParseLinesFailed | services/proxy_service.py:641-642 | every failure names a non-blank line that does not parse, with its one-based line number |
| ProxyService.FailedLineSource | services/proxy_service.py:627-642 | the line behind one failure, found by induction |
| ProxyService.ParseProxyLines | services/proxy_service.py:619-644 | the loop over the split text returns the parsed and failed lists of the specification |
| ProxyService.AppendBatch | services/proxy_service.py:450-480 | the batch loop produces the batch run's lines and added names and advances the counter once per parsed line, skipped or not |
| ProxyService.NewRecordSpec | services/proxy_service.py:463-477 | a batch line carries its generated name and is never a transit line |
| ProxyService.BatchRunLengths | services/proxy_service.py:453-480 | the batch only appends, at most one line per parsed entry |
| ProxyService.BatchRunAppends | services/proxy_service.py:453-480 | the appended lines are normal lines named by the added names, in order |
| ProxyService.BatchRunNames | services/proxy_service.py:453-480 | every added name was free in the old document, the added names are distinct, and each is the prefix with a counter in the batch's range |
| ProxyService.BatchRunUnique | services/proxy_service.py:453-480 | a batch keeps the names of a document with distinct names distinct |
| ProxyService.CheckBatchRequest | services/proxy_service.py:386-420 | the request passes exactly when the text, a known format, a known non-blank region and a non-blank prefix are present |
| ProxyService.RunBatchPlan | services/proxy_service.py:433-490 | running a checked plan gives the specification's outcome |
| ProxyService.PlanBatchSpec | services/proxy_service.py:426-450 | an accepted plan starts from the stored counter of its prefix (zero when absent) and has at least one parsed line |
| ProxyService.RunPlanSpec | services/proxy_service.py:442-491 | a successful batch stores the advanced counter, only appends, adds at least one and at most one line per parsed entry, and keeps names distinct |
| ProxyService.PlanBatchRequest | services/proxy_service.py:386-431 | the checks and the parse produce the plan of the specification |
| ProxyService.ProxyService.constructor | services/proxy_service.py:25-27 | the service reads the given settings |
| ProxyService.ProxyService.GetAllProxies | services/proxy_service.py:29-63 | returns the normal lines of the document, each tagged with its index in the full list |
| ProxyService.ProxyService.AddProxy | services/proxy_service.py:65-129 | without a device id, or when validation fails, it reports the error and leaves the document; otherwise it appends the built line and resynchronises the groups |
| ProxyService.ProxyService.UpdateProxy | services/proxy_service.py:131-195 | without a device id or with an index outside the full list it fails; otherwise it validates against the other lines and replaces the line at that index by the line built over it, resynchronising the groups; a failure changes nothing |
| ProxyService.ProxyService.UpdateProxyByName | services/proxy_service.py:197-273 | fails without a device id or when no line has the name; otherwise revises the first line with that name, renames it inside the groups when the name changed, and resynchronises |
| ProxyService.ProxyService.ReviseNamed | services/proxy_service.py:237-259 | the validate, build, replace and group steps after the line has been found |
| ProxyService.ProxyService.DeleteProxy | services/proxy_service.py:275-311 | succeeds exactly when a device id is given and the index is inside the normal-line view; then removes the line behind it and resynchronises the groups, otherwise reports out of range and changes nothing |
| ProxyService.ProxyService.DeleteProxyByName | services/proxy_service.py:313-368 | removes the first line with the name, returns it and resynchronises the groups; fails exactly when the device id is missing or no line has the name |
| ProxyService.ProxyService.BatchAddProxies | services/proxy_service.py:370-523 | the outcome is the batch specification's: on success the lines, the prefix counter and the groups are updated together; on any failure none of them changes; the other settings never change |
| ProxyManager.DropBraceSpec | proxy_manager.py:230 | cutting the brace removes exactly one closing brace from the end of the line, and apart from it only whitespace; the result is a prefix of the line |
| ProxyManager.DropBraceEnd | proxy_manager.py:230 | what is left after the cut ends in no whitespace |
| ProxyManager.CleanYamlLineSpec | proxy_manager.py:220-231 | the cleaned line is a prefix of the line ending in no whitespace; it drops only trailing whitespace, plus one closing brace when the line ends in one and neither contains `proxies:` nor starts with `- {` |
| ProxyManager.CleanKeyLineSpec | proxy_manager.py:264-273 | the first cleaning pass changes a line exactly when it is a non-blank, non-comment, non-list line ending in a brace, and then it only removes that brace and whitespace around it from the end |
| ProxyManager.FixKeyLineSpec | proxy_manager.py:330-332 | the fallback pass changes a line exactly when it ends in a brace and holds a colon, and then the result with the brace put back is the right-stripped line |
| ProxyManager.CleanedLinesSpec | proxy_manager.py:250-277 | a cleaning pass keeps the number of lines, leaves the first `proxies:` line and everything after it unchanged, and cleans every line before it |
| ProxyManager.CleanBeforeProxies | proxy_manager.py:250-277 | the loop with the `in_proxies_section` flag computes that pass over the split text and joins it back |
| ProxyManager.FirstConflictFrom | proxy_manager.py:531-538 | the position found is the first one at or after the start, other than the excluded one, whose line has the name, and there is none exactly when no such line exists |
| ProxyManager.NameConflict | proxy_manager.py:514-540 | a conflict is reported exactly when the name is non-empty and some other line has it; it names the first such line and whether it is a transit line |
| ProxyManager.CheckProxyNameExists | proxy_manager.py:526-540 | the loop returns that conflict |
| ProxyManager.ParseLineAgrees | proxy_manager.py:587-624 | the application's parser is the service's parser on the stripped line, and a blank line parses to nothing |
| ProxyManager.RunBatch | proxy_manager.py:879-927 | the batch loop and its check compute the batch outcome |
| ProxyManager.BatchOutcomeSpec | proxy_manager.py:885-927 | the batch fails exactly when every generated name was taken; otherwise the prefix's counter advances by the number of parsed lines, the other counters stay, the list only grows by the added lines, the added names were free, and names stay distinct |
| ProxyManager.FlagsRecord | proxy_manager.py:1024-1044 | the handled fields before the merge: the given name and region, `skip-cert-verify` defaulting to true, `udp` only when the request has it, and no `dialer-proxy` |
| ProxyManager.CustomFields | proxy_manager.py:1060-1063 | the copied extra keys never include a handled one |
| ProxyManager.UpdatedDialer | proxy_manager.py:1024-1063 | the written line carries the stripped name and region and the flag defaults; a `dialer-proxy` in the request decides the key (an empty one drops it), and without one the old line's value is kept |
| ProxyManager.UpdatedCustomKeys | proxy_manager.py:1060-1063 | every other request key is copied exactly when its value is truthy, no key comes from anywhere else, and so a request with `IsBase: true` turns the line into a transit line |
| ProxyManager.UpdateKeepsNamesUnique | proxy_manager.py:984-1068 | an accepted update keeps the names of the list distinct and stores a listed region |
| ProxyManager.GuardAgrees | proxy_manager.py:1420-1434 | scanning every line, as the application does, finds the same users as the service's scan that skips the transit's own index |
| ProxyManager.VmProxyNamesSpec | proxy_manager.py:2372-2398 | the names listed are exactly the truthy names of the normal lines in the region (any region when none is given), at most one per line, and a region filter only narrows the list |
| ProxyManager.CounterValue | proxy_manager.py:2423-2433 | a missing or non-integer counter reads as zero, otherwise as the stored integer |
| ProxyManager.VmCounterStep | proxy_manager.py:2412-2478 | after generating and incrementing, the next generated name carries the next number and differs from the first |
| ProxyManager.DefaultRegionsUnique | proxy_manager.py:1747-1770 | the default regions have distinct codes |
| ProxyManager.AddRegionKeepsCodesUnique | proxy_manager.py:2015-2030 | appending a region whose code is not listed keeps the codes distinct, and on an empty store the defaults come first |
| ProxyManager.FirstStop | proxy_manager.py:1514-1518 | the first select group whose old `proxies` has no length, if any: no group before it stops the loop |
| ProxyManager.ManagerSyncSpec | proxy_manager.py:1505-1525 | the monolith's sync keeps the number of groups; every group up to and including the first one that raises is synchronised, every group after it is unchanged |
| ProxyManager.ManagerSyncAgrees | proxy_manager.py:1514-1518 | when no group raises, the monolith's sync gives the same groups as the service's |
| ProxyManager.ManagerSyncStopsEarly | proxy_manager.py:1514-1525 | a select group with `proxies: null` before another select group: the first gets the new names, the second keeps its old members, unlike the service's sync |
| ProxyManager.UpdateManagerGroups | proxy_manager.py:1484-1526 | collects the names and rewrites the groups as the monolith's sync does, leaving the lines unchanged |
| ProxyManager.App.constructor | proxy_manager.py:233-245 | the application works on the given configuration and settings |
| ProxyManager.App.AddProxiesBatch | proxy_manager.py:844-933 | nothing parsed and a non-numeric counter fail; otherwise the result is the batch outcome, with the lines, the counters and the groups updated together on success (the groups as `update_proxy_groups` leaves them) and nothing changed on failure |
| ProxyManager.App.UpdateProxy | proxy_manager.py:967-1094 | an index outside the full list fails; otherwise the result is the checked update, which on success replaces the line at that index and resynchronises the groups as `update_proxy_groups` does; a failure changes nothing |
| ProxyManager.App.DeleteTransitProxy | proxy_manager.py:1398-1464 | an index outside the transit view fails; a named transit still used by any normal line is refused with its users when every label is a string, and fails in the message's `join` otherwise; otherwise exactly that line is removed, returned with its `_index` set to its position in the full list (the view tags the loaded record itself), and the groups resynchronised as `update_proxy_groups` does |
| ProxyManager.App.GetVmProxyNames | proxy_manager.py:2372-2404 | returns the listed names for the stripped, upper-cased region argument |
| ProxyManager.App.AddRegion | proxy_manager.py:2000-2038 | an empty code or name and a listed code are refused with the settings unchanged; otherwise the stored regions become the listed ones (defaults included) plus the new one, and no other setting changes |
| ProxyManager.App.DeleteRegion | proxy_manager.py:2047-2074 | succeeds exactly when the upper-cased code is listed; then the stored regions are the listed ones without it, otherwise nothing changes |
| ProxyManager.App.AddDeviceConfig | proxy_manager.py:2278-2326 | an empty device id is refused; otherwise the stripped entry replaces the first entry with that id or is appended |
| ProxyManager.App.DeleteDeviceConfig | proxy_manager.py:2335-2363 | succeeds exactly when some entry has the id; then every such entry is removed and the rest keep their order, otherwise nothing changes |
| ProxyManager.App.GenerateVmAccountName | proxy_manager.py:2412-2440 | the name is `app_region_NNN` with the counter read as above plus one |
| ProxyManager.App.IncrementVmAccountCounter | proxy_manager.py:2447-2474 | only that counter changes, to its value read as above plus one |
| ListingScript.RegionLookupSpec | main.py:320-349 | every region but Malaysia and Singapore gets the Hong Kong price, those two get their own; Malaysia and Singapore share the English title, which every region but Hong Kong uses when present, and an unknown region without an English title falls back to the Hong Kong one |
| ListingScript.TruncScaled | main.py:366 | `int()` of a fraction in [0, 1] of a size lies in [0, size] and is the floor of the product |
| ListingScript.PercentToPixelsSpec | main.py:364-366 | a point in the unit square maps to integer pixels inside the screen, each the floor of the scaled coordinate |
| ListingScript.JitterPointSpec | main.py:369-373 | the jittered point always lies in the unit square, moves by at most the jitter from an in-range point, and is exactly the offset point when that one is in range |
| ListingScript.RectPointInside | main.py:380-404 | with offsets within the maximum offset, the point lies inside the rectangle before the safety clamp, the clamp changes nothing, and each offset is at most a fifth of the side |
| ListingScript.ContentScoreBounds | main.py:607-612 | for non-negative signals the combined score lies in [0, 1] and reaches 1 once every signal saturates |
| ListingScript.ContentScoreMonotone | main.py:607-612 | the score never decreases when any signal grows |
| ListingScript.ContentCheckSpec | main.py:551-628 | the check reports "loaded" exactly when some sample passes (two confident OCR texts, or a score above the threshold), and then the score returned is at least 2 or above the threshold; otherwise the score lies between its start and the larger of start and threshold and is at least every measured score |
| ListingScript.CheckRegionContentLoaded | main.py:532-628 | the polling loop over the samples returns the specification's score and verdict |
| ListingScript.RetryOnce | main.py:1482-1510 | the block succeeds exactly when the first or the second check passes; it runs one or two checks, ends with a check, and a retry action comes only right after a failed first check |
| ListingScript.SafeSlotsSpec | main.py:1156-1167 | the slots kept are exactly the draft slots lying wholly above the delete button, never more than given, and all of them when all lie above it |
| ListingScript.DefaultSlotsSafe | main.py:1159-1161 | every configured draft slot lies above the configured delete button |
| ListingScript.ClearDrafts | main.py:1139-1191 | Manage is always tapped; on a loaded page the safe slots follow; Delete is tapped and drafts reported cleared exactly when the page loaded with at least one safe slot, and otherwise no drafts are reported |
| ListingScript.GridCellSpec | main.py:1269-1275 | the cell's column is below the column count and column plus row times columns is the (camera-shifted) index; the camera cell is never chosen; distinct indexes give distinct cells |
| ListingScript.CellCenterInside | main.py:1264-1279 | a cell inside the grid has its centre inside the grid's rectangle |
| ListingScript.SelectImagePoints | main.py:1269-1283 | the loop taps one cell centre per image, in order, and none for a non-positive count |
| ListingScript.LastDot | main.py:1013 | a position found holds a dot with none after it, and no position is found only when the name has no dot |
| ListingScript.KeptPathsSpec | main.py:1005-1017 | the set holds no two paths that are equal as `WindowsPath`s (equal after lower-casing); each path is the resolved path of a kept entry, and every kept entry's path equals one of them |
| ListingScript.ImagePathsSpec | main.py:1005-1017 | the image set holds no two equal paths; each is the resolved path of a file whose lower-cased suffix is an image extension, and every such file's path equals one of them |
| ListingScript.CollectImages | main.py:1009-1017 | the directory loop collects that set |
| ListingScript.StrLessIrreflexive | main.py:1020 | string order on path components is irreflexive |
| ListingScript.StrLessTotal | main.py:1020 | any two different components are ordered one way or the other |
| ListingScript.StrLessTransitive | main.py:1020 | string order on components is transitive |
| ListingScript.PartsLessIrreflexive | main.py:1020 | list order on component lists is irreflexive |
| ListingScript.PartsLessTotal | main.py:1020 | any two different component lists are ordered one way or the other |
| ListingScript.PartsLessTransitive | main.py:1020 | list order on component lists is transitive |
| ListingScript.PathLessIrreflexive | main.py:1020 | no `WindowsPath` sorts before itself |
| ListingScript.PathLessTotal | main.py:1020 | two paths that are not equal as `WindowsPath`s are ordered one way or the other |
| ListingScript.PathLessTransitive | main.py:1020 | the `WindowsPath` order is transitive |
| ListingScript.SamePathSameOrder | main.py:1020 | equal `WindowsPath`s sort alike against every other path |
| ListingScript.InsertSorted | main.py:1020 | inserting into a sorted list keeps it sorted |
| ListingScript.InsertDistinct | main.py:1020 | inserting a path equal to none of a list without equal paths keeps it without equal paths |
| ListingScript.SortSpec | main.py:1020 | `sorted` returns a permutation of its input in `WindowsPath` order, with no two equal paths when the input has none |
| ListingScript.StrictlySorted | main.py:1020 | a sorted list without equal paths is strictly increasing |
| ListingScript.CutKeepsFirst | main.py:1020 | cutting a strictly increasing list leaves out only paths that sort after every path kept |
| ListingScript.SelectedImagesSpec | main.py:1005-1020 | for a non-negative `max_images` the selection holds `min(max_images, number of different images)` paths; it is in strictly increasing `WindowsPath` order, each an image of the folder, and every image whose path was not chosen sorts after every one chosen |
| ListingScript.CodePointExample | main.py:47 | under `D:\`, `B.jpg` comes before `a.jpg` in code-point order |
| ListingScript.WindowsPathExample | main.py:47 | under `D:\`, `a.jpg` comes before `B.jpg` as a `WindowsPath`, and `A.jpg` and `a.jpg` are one path |
| ListingScript.SortExample | main.py:1020 | so `sorted` puts `a.jpg` before `B.jpg` |
| ListingScript.FilterSpec | main.py:1043-1050 | the filtered list is no longer than its input and holds exactly the inputs whose push succeeded |
| ListingScript.ClearAndPushImages | main.py:990-1062 | a missing folder returns nothing found; otherwise the count found is the size of the selection and the pushed list is its successfully pushed files, in order |
| ListingScript.PushedSpec | main.py:1020-1062 | no more files are pushed than found and no more found than `max_images` |
| ListingScript.VerbsNeedNoQuotes | main.py:2771-2797 | the script path and the verbs need no quoting |
| ListingScript.QuoteSafe | main.py:2779 | a non-empty word of safe characters is left unquoted |
| ListingScript.VmCommandWords | main.py:2779-2797 | the corrected command reads back as `su`, `-c` and the script line, and the script line reads back as exactly the arguments |
| ListingScript.SuReadsQuoted | main.py:2783 | quoting the whole script line once makes `su -c` receive it as one word whatever it holds |
| ListingScript.SuReadsSingleQuoted | main.py:2783 | wrapping a line without single quotes in single quotes hands it to `su -c` as one word |
| ListingScript.VmCommandAsWrittenSafe | main.py:2781-2797 | when every argument is a plain word, the command as written reads back as the corrected one |
| ListingScript.VmCommandAsWrittenSplitsName | main.py:2779-2783 | the command as written for `load` of the name `my shop` hands `su -c` the line `./vm.sh load my` and leaves `shop` as a separate word |
| ListingScript.AsWrittenSplitsName | main.py:2779-2783 | for any name made of two plain words, the command as written splits it at the space |
| ListingScript.AsWrittenMissesError | main.py:2811 | the check as written misses the output `Error: no such VM`, which the corrected check reports as a failure |
| ListingScript.LowerHasNoError | main.py:2811 | a lower-cased text never contains `Error`, so that part of the check as written is never true |
| ListingScript.ReportsFailureSpec | main.py:2808-2813 | the corrected check reports every output holding `Error`, `error` or `ERROR`, and never the empty output |
| ListingScript.BuildScriptLine | main.py:2771-2801 | an empty name or an unknown action gives no command; otherwise the line is the quoted join of the script path, the verb and its arguments |
| ListingScript.CallVmScript | main.py:2755-2839 | without a valid name and action it fails without running anything; otherwise it runs the corrected command and succeeds exactly when the shell answered and the stripped output reports no failure, pausing after `load` and `save` only on success |
| ListingScript.LoadSaveLine | main.py:2781-2788 | the `load` and `save` line is the script path, the verb and the quoted name |
| ListingScript.NewLine | main.py:2789-2797 | the `new` line is the script path, the verb and the four quoted arguments |
| FarmController.BezierEnds | farm_controller.py:65-68 | over exact reals the cubic formula gives the start point at t = 0 and the end point at t = 1 |
| FarmController.BezierWeights | farm_controller.py:67-68 | for t in [0, 1] the four Bernstein weights are non-negative and sum to one |
| FarmController.BezierInRange | farm_controller.py:67-68 | for t in [0, 1] a coordinate of the curve stays within any interval holding the four control coordinates |
| FarmController.BezierCurve | farm_controller.py:55-70 | the loop returns `num_points + 1` points (none for a negative count), point i being the curve at i / num_points, the first the start and the last the end |
| FarmController.ControlPointsSpec | farm_controller.py:77-92 | the control points lie at 0.33 and 0.66 of the start-to-end vector in y, and within 50 of those fractions in x; without offsets they lie on the segment |
| FarmController.HumanSwipe | farm_controller.py:72-124 | `num_points` micro-swipes chain from the start to the end through consecutive curve points, each waiting the base delay times its multiplier |
| FarmController.Segments | farm_controller.py:107-118 | the loop pairs each point with the next and scales the base delay by the segment's multiplier |
| FarmController.ChainOfSegments | farm_controller.py:117-118 | consecutive segments share their end points, so the swipes form one path from the first point to the last |
| FarmController.TotalDelayBounds | farm_controller.py:105-115 | with every multiplier in [0.7, 1.5] the delays add up to between 0.7 and 1.5 times the base delay per segment |
| FarmController.HumanSwipeDuration | farm_controller.py:105-115 | with the multipliers drawn as the source draws them (slower in the first and last fifth, faster in between), the total wait lies between 0.7 and 1.5 times the requested duration |
| FarmController.IndexAfterSpec | farm_controller.py:544-571 | the picture index after the steps is never negative, at most the number of steps, and has the parity of the number of steps |
| FarmController.StepSwipeSpec | farm_controller.py:562-571 | a step's swipe ends inside the safe band [0.13 w, 0.93 w], is a backward swipe exactly for "prev", and on a screen at least 125 wide moves in its direction |
| FarmController.GalleryBrowse | farm_controller.py:530-576 | the loop's index is never negative and ends at the specification's value; there is one swipe per step, backwards exactly when "prev" was drawn while the index was positive, each ending inside the safe band |
| FarmController.BrowseStep | farm_controller.py:549-571 | one step: the direction rule, the index update and the swipe's end inside the safe band |
| FarmController.BacksExtend | farm_controller.py:549-552 | the direction invariant of the loop extends by one step |
| FarmController.IndexStep | farm_controller.py:562-571 | the index after one more step is the step rule applied to the index before it |
| FarmController.AdbCmdSpec | farm_controller.py:252-262 | no command without an existing adb path; otherwise the argument vector of the device shell, with `ls ` commands run as they are and every other command wrapped so that it reads back as `su -c <command>` |

## Left out

- Screen perception is not modelled: `cv2` (Canny, histograms, template matching, CLAHE), EasyOCR and screenshot capture are foreign libraries. Their outputs (edge density, variance, entropy, OCR texts with confidence) are inputs of the model.
- Time, `time.sleep` and `random` are not modelled. Polling is a loop over a finite sequence of observations, and random draws are parameters limited to the source's ranges.
- Floating point is modelled as exact `real` arithmetic; rounding is not modelled.
- `Value` has no float case, so a float in a record or a setting cannot be represented. Two behaviours depend on one. `IsBase: 1.0` is a transit line, because `1.0 == True`. A counter stored as `3.0` makes the `:03d` format raise.
- The settings store types its fields: `vm_account_counters` and the name counters are mappings, and `regions` and `devices` are lists of mappings. A settings file with another value there cannot be represented, for instance a list under `vm_account_counters`, on which `.get` raises.
- Device and process I/O is not modelled: `adbutils`/`uiautomator2`, `subprocess`, `os.system`, file pushes, pushes of configurations to devices, port reversal and pings. Only the commands built and the outcomes (as parameters) are modelled.
- File I/O is not modelled: YAML load and dump, the regex section replacement in `YAMLHelper.save_yaml_file`, and the settings and configuration files. A file is a value held by the model. `json.loads` in `format_proxy_for_display` and the rendering of one entry by `json.dumps` are parameters or structured values, not text.
- Spreadsheet reading (openpyxl/pandas) in `main.py` and the JSON configuration of `farm_controller.py` are not modelled.
- The Flask routes, SSE generators, tkinter UI, threads, logging and the `test_from_step*` sequences of `main.py` are not modelled.
- The key order of Python dictionaries is not modelled, because records are maps. The textual order of keys in a dumped entry depends on it. Where the order matters, the section writer iterating a mapping under a group's `proxies`, the order is a parameter of the model.
- LogSanitizer.Sanitize: returns a new value instead of overwriting the request's nested dictionaries in place, so aliasing of the caller's data with the logged copy is not modelled.
- Text.Upper: changes ASCII letters only; Python's full Unicode case mapping is not modelled.
- Text.Lower: changes ASCII letters only, like Text.Upper. The case-insensitive `WindowsPath` equality and order built on it fold ASCII letters only.
- Text.ParseInt: accepts ASCII digits only, with sign, surrounding whitespace and single underscores. Python's `int()` also accepts other Unicode decimal digits.
- FarmController.BezierCurve: requires a non-zero `num_points`. The source divides by it, so zero raises `ZeroDivisionError`, and that path is not modelled.
- FarmController.GalleryBrowse: proves the swipe direction (leftwards to move on, rightwards to go back) only for screens at least 125 pixels wide. On narrower screens the source's random ranges let a swipe run the other way.
- FarmController.StepSwipeSpec: states the swipe direction of one step only for screens at least 125 pixels wide, for the same reason.
- A `proxies` entry that is a JSON string, `None` or another non-mapping value cannot be represented, because `Document` holds the list as mappings. This affects ProxyService.ProxyService.GetAllProxies, ProxyService.KindView, ProxyService.CheckNameExists, ProxyService.FindByName, ProxyService.ProxyService.DeleteProxyByName, TransitService.TransitService.GetAllTransits, TransitService.CheckTransitUsage and the ProxyManager.App methods. YamlHelper.IsTransitCases and YamlHelper.FormatForDisplay cover such values on their own.
- `get_transit_proxies` in `proxy_manager.py` writes `_index` into the loaded records themselves. In the ProxyManager.App methods `doc.proxies` holds the records without those keys, as `save_config` writes them (proxy_manager.py:463-464), so the keys left on the other transit lines in memory are not modelled. ProxyManager.App.DeleteTransitProxy does return its deleted record with `_index`.
- `detect_region` and the global `CURRENT_REGION` it sets are not modelled; the region is a parameter of the lookups.
- The I/O side of `call_vm_script` is not modelled: the shell call is a parameter and the sleeps are durations returned.

## Findings

| source | as written | input that shows it | evidently intended | confidence | as-written member | corrected member |
|---|---|---|---|---|---|---|
| core/config.py:132-134 | after migrating `proxies_dialer`, `load(device_id)` calls `save(config)` without the device id, so the migrated configuration is written to the default file | `load("dev1")` where `network_config/dev1/config.yaml` holds a non-empty `proxies_dialer` | write the migrated configuration back to the file it was read from, `save(config, device_id)` | not executed | ConfigManager.LoadAsWrittenMisplacesSave | ConfigManager.Load |
| main.py:2811 | the failure test looks for `"Error"` in the lower-cased output, which can never contain a capital letter | the script printing `Error: no such VM` is reported as success | report a failure whenever the output mentions an error in any case | not executed | ListingScript.AsWrittenMissesError | ListingScript.ReportsFailureSpec |
| main.py:2779-2783 | the script line, with its arguments already quoted, is wrapped again in single quotes for `su -c`, so a quoted argument closes the outer quote | `call_vm_script("load", "my shop")` gives `su -c` the line `./vm.sh load my` and a stray word `shop` | quote the whole script line once as a single argument of `su -c` | not executed | ListingScript.VmCommandAsWrittenSplitsName | ListingScript.VmCommandWords |
